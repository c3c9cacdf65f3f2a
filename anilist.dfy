/**
 * The pure lookup tables of the AniList integration: month to season, media
 * format to Stremio content type, list ids, and the query inputs of the five
 * named search lists. The current time is a parameter.
 */
module Anilist {
  import opened Wrappers
  import opened Strings

  datatype MediaSeason = Winter | Spring | Summer | Fall

  /** The wire names of the seasons. */
  function SeasonName(s: MediaSeason): string {
    match s
    case Winter => "WINTER"
    case Spring => "SPRING"
    case Summer => "SUMMER"
    case Fall => "FALL"
  }

  datatype MediaSort = TrendingDesc | PopularityDesc | ScoreDesc

  /** The wire names of the sort keys. */
  function SortName(s: MediaSort): string {
    match s
    case TrendingDesc => "TRENDING_DESC"
    case PopularityDesc => "POPULARITY_DESC"
    case ScoreDesc => "SCORE_DESC"
  }

  /** The wire names tell seasons apart, and sort keys apart. */
  lemma WireNamesDistinct(s1: MediaSeason, s2: MediaSeason, k1: MediaSort, k2: MediaSort)
    ensures SeasonName(s1) == SeasonName(s2) <==> s1 == s2
    ensures SortName(k1) == SortName(k2) <==> k1 == k2
  {
  }

  // ---------------------------------------------------------------------------
  // Calendar: the part of Go's `time` that the season inputs use.

  datatype Month =
    January | February | March | April | May | June |
    July | August | September | October | November | December

  /** `time.Month` as a number, January = 1. */
  function MonthNumber(m: Month): (n: int)
    ensures 1 <= n <= 12
  {
    match m
    case January => 1   case February => 2  case March => 3
    case April => 4     case May => 5       case June => 6
    case July => 7      case August => 8    case September => 9
    case October => 10  case November => 11 case December => 12
  }

  function MonthOf(n: int): (m: Month)
    requires 1 <= n <= 12
    ensures MonthNumber(m) == n
  {
    if n == 1 then January else if n == 2 then February else if n == 3 then March
    else if n == 4 then April else if n == 5 then May else if n == 6 then June
    else if n == 7 then July else if n == 8 then August else if n == 9 then September
    else if n == 10 then October else if n == 11 then November else December
  }

  /** Gregorian leap years. */
  predicate IsLeapYear(year: int) {
    year % 4 == 0 && (year % 100 != 0 || year % 400 == 0)
  }

  function DaysIn(year: int, m: Month): (d: int)
    ensures 28 <= d <= 31
  {
    match m
    case February => if IsLeapYear(year) then 29 else 28
    case April => 30
    case June => 30
    case September => 30
    case November => 30
    case _ => 31
  }

  /** A calendar date (the local date the clock reports). */
  datatype Date = Date(year: int, month: Month, day: int)

  predicate ValidDate(d: Date) {
    1 <= d.day <= DaysIn(d.year, d.month)
  }

  /** Months elapsed since January of year 0; orders (year, month) pairs. */
  function MonthCount(year: int, m: Month): int {
    year * 12 + MonthNumber(m) - 1
  }

  datatype YearMonth = YearMonth(year: int, month: Month)

  /** The (year, month) `k` months after `m` of `year`, year carried as Go's date normalisation does. */
  function ShiftMonths(year: int, m: Month, k: int): (r: YearMonth)
    ensures MonthCount(r.year, r.month) == MonthCount(year, m) + k
  {
    var total := MonthCount(year, m) + k;
    YearMonth(total / 12, MonthOf(total % 12 + 1))
  }

  /**
   * `t.AddDate(0, 3, 0)`: the same day three months later, where a day the
   * target month does not have rolls over into the following month (March 31
   * becomes July 1), as Go's `time.Date` normalises it.
   */
  function AddThreeMonths(d: Date): (r: Date)
    requires ValidDate(d)
    ensures ValidDate(r)
    ensures var target := ShiftMonths(d.year, d.month, 3);
            d.day <= DaysIn(target.year, target.month) ==>
              r.day == d.day && MonthCount(r.year, r.month) == MonthCount(d.year, d.month) + 3
    ensures var target := ShiftMonths(d.year, d.month, 3);
            d.day > DaysIn(target.year, target.month) ==>
              && MonthCount(r.year, r.month) == MonthCount(d.year, d.month) + 4
              && r.day == d.day - DaysIn(target.year, target.month)
  {
    var target := ShiftMonths(d.year, d.month, 3);
    var days := DaysIn(target.year, target.month);
    if d.day <= days then Date(target.year, target.month, d.day)
    else
      var next := ShiftMonths(target.year, target.month, 1);
      Date(next.year, next.month, d.day - days)
  }

  // ---------------------------------------------------------------------------
  // getSeason

  /**
   * `getSeason`: each quarter of the year is one season. The match is total
   * over the twelve months, so the `panic("unreachable")` of `getSeason`
   * cannot be reached.
   */
  function GetSeason(m: Month): (s: MediaSeason)
    ensures s == Winter <==> 1 <= MonthNumber(m) <= 3
    ensures s == Spring <==> 4 <= MonthNumber(m) <= 6
    ensures s == Summer <==> 7 <= MonthNumber(m) <= 9
    ensures s == Fall <==> 10 <= MonthNumber(m) <= 12
  {
    match m
    case January | February | March => Winter
    case April | May | June => Spring
    case July | August | September => Summer
    case October | November | December => Fall
  }

  /** The season after `s`, in the order of the year. */
  function FollowingSeason(s: MediaSeason): MediaSeason {
    match s
    case Winter => Spring
    case Spring => Summer
    case Summer => Fall
    case Fall => Winter
  }

  /** Shifting by up to a year moves into the next year exactly when the month number passes 12. */
  lemma ShiftWithinYear(year: int, m: Month, k: int)
    requires 0 <= k <= 12
    ensures var n := MonthNumber(m);
            ShiftMonths(year, m, k) ==
              if n + k <= 12 then YearMonth(year, MonthOf(n + k)) else YearMonth(year + 1, MonthOf(n + k - 12))
  {
    var n := MonthNumber(m);
    var r := ShiftMonths(year, m, k);
    if n + k <= 12 {
      MonthCountInjective(r.year, r.month, year, MonthOf(n + k));
    } else {
      MonthCountInjective(r.year, r.month, year + 1, MonthOf(n + k - 12));
    }
  }

  /** Three months later is always the next season, at month granularity. */
  lemma ThreeMonthsIsNextSeason(year: int, m: Month)
    ensures var t := ShiftMonths(year, m, 3);
            && GetSeason(t.month) == FollowingSeason(GetSeason(m))
            && t.year == (if GetSeason(m) == Fall then year + 1 else year)
  {
    ShiftWithinYear(year, m, 3);
  }

  // ---------------------------------------------------------------------------
  // MediaFormat.ToSimple

  const FormatTV: string := "TV"
  const FormatTVShort: string := "TV_SHORT"
  const FormatMovie: string := "MOVIE"
  const FormatSpecial: string := "SPECIAL"
  const FormatOVA: string := "OVA"
  const FormatONA: string := "ONA"
  const FormatMusic: string := "MUSIC"
  const FormatManga: string := "MANGA"
  const FormatNovel: string := "NOVEL"
  const FormatOneShot: string := "ONE_SHOT"

  /** The formats AniList defines. */
  datatype MediaFormat = TV | TVShort | Movie | Special | OVA | ONA | Music | Manga | Novel | OneShot

  function FormatName(f: MediaFormat): string {
    match f
    case TV => FormatTV
    case TVShort => FormatTVShort
    case Movie => FormatMovie
    case Special => FormatSpecial
    case OVA => FormatOVA
    case ONA => FormatONA
    case Music => FormatMusic
    case Manga => FormatManga
    case Novel => FormatNovel
    case OneShot => FormatOneShot
  }

  /**
   * `MediaFormat.ToSimple`: the Stremio content type of a format string; every
   * string that is neither a series nor a movie format maps to "".
   */
  function ToSimple(mf: string): (r: string)
    ensures r == "series" || r == "movie" || r == ""
  {
    if mf == FormatTV || mf == FormatTVShort || mf == FormatOVA || mf == FormatONA then "series"
    else if mf == FormatMovie || mf == FormatSpecial || mf == FormatOneShot then "movie"
    else if mf == FormatMusic || mf == FormatManga || mf == FormatNovel then ""
    else ""
  }

  /** Episodic formats are series, single-release formats are movies, the rest have no type. */
  lemma ToSimpleOfFormat(f: MediaFormat)
    ensures ToSimple(FormatName(f)) == "series" <==> f in {TV, TVShort, OVA, ONA}
    ensures ToSimple(FormatName(f)) == "movie" <==> f in {Movie, Special, OneShot}
    ensures ToSimple(FormatName(f)) == "" <==> f in {Music, Manga, Novel}
  {
  }

  /** A string that names no format maps to "". */
  lemma ToSimpleOfUnknown(mf: string)
    requires forall f: MediaFormat :: FormatName(f) != mf
    ensures ToSimple(mf) == ""
  {
    assert FormatName(TV) != mf && FormatName(TVShort) != mf && FormatName(OVA) != mf;
    assert FormatName(ONA) != mf && FormatName(Movie) != mf && FormatName(Special) != mf;
    assert FormatName(OneShot) != mf;
  }

  // ---------------------------------------------------------------------------
  // List.GetId

  /** A user's AniList list. */
  datatype List = List(userName: string, name: string, isCustom: bool, mediaIds: seq<int>, scoreByMediaId: map<int, int>)

  /** `List.GetId`: the user name, a colon, the list name. */
  function GetId(l: List): (id: string)
    ensures |id| == |l.userName| + 1 + |l.name|
    ensures id[..|l.userName|] == l.userName && id[|l.userName|] == ':' && id[|l.userName| + 1..] == l.name
  {
    l.userName + ":" + l.name
  }

  /** A user name without `:` can be cut back out of the id, and so can the list name. */
  lemma GetIdSplits(l: List)
    requires forall k :: 0 <= k < |l.userName| ==> l.userName[k] != ':'
    ensures Cut(GetId(l), ":") == CutResult(l.userName, l.name, true)
  {
    NoOccurrenceBefore(l.userName, ":", l.name);
    CutAtFirst(l.userName, ":", l.name);
  }

  /** For user names without `:`, two lists share an id exactly when they share user and list name. */
  lemma GetIdInjective(l1: List, l2: List)
    requires forall k :: 0 <= k < |l1.userName| ==> l1.userName[k] != ':'
    requires forall k :: 0 <= k < |l2.userName| ==> l2.userName[k] != ':'
    ensures GetId(l1) == GetId(l2) <==> l1.userName == l2.userName && l1.name == l2.name
  {
    GetIdSplits(l1);
    GetIdSplits(l2);
  }

  /** A `:` inside a user name makes ids collide: ("a:b", "c") and ("a", "b:c"). */
  lemma GetIdCollidesOnColon(l1: List, l2: List)
    requires l1.userName == "a:b" && l1.name == "c"
    requires l2.userName == "a" && l2.name == "b:c"
    ensures GetId(l1) == GetId(l2)
  {
  }

  // ---------------------------------------------------------------------------
  // searchListQueryInputByName and IsValidSearchList

  /** The five named search lists. */
  datatype SearchList = Trending | ThisSeason | NextSeason | Popular | Top100

  /** The key of each list in the lookup table. */
  function SearchListKey(l: SearchList): string {
    match l
    case Trending => "trending"
    case ThisSeason => "this-season"
    case NextSeason => "next-season"
    case Popular => "popular"
    case Top100 => "top-100"
  }

  /** The display name of each list. */
  function SearchListTitle(l: SearchList): string {
    match l
    case Trending => "Trending"
    case ThisSeason => "Popular This Season"
    case NextSeason => "Upcoming Next Season"
    case Popular => "All Time Popular"
    case Top100 => "Top 100"
  }

  /** `searchListQueryInputByName`, its values reduced to the list they select. */
  const SearchListByName: map<string, SearchList> := map[
    "trending" := Trending,
    "this-season" := ThisSeason,
    "next-season" := NextSeason,
    "popular" := Popular,
    "top-100" := Top100]

  /** `IsValidSearchList`: the name is a key of the lookup table. */
  function IsValidSearchList(name: string): (b: bool)
    ensures b <==> name in {"trending", "this-season", "next-season", "popular", "top-100"}
  {
    name in SearchListByName
  }

  /**
   * The table is keyed by `SearchListKey`: each list is found under its key,
   * and only there; and distinct lists carry distinct display names.
   */
  lemma SearchListByNameKeyed(l: SearchList, l2: SearchList, name: string)
    ensures SearchListKey(l) in SearchListByName && SearchListByName[SearchListKey(l)] == l
    ensures name in SearchListByName ==> SearchListKey(SearchListByName[name]) == name
    ensures SearchListTitle(l) == SearchListTitle(l2) <==> l == l2
  {
  }

  /**
   * The input map a `getInput(page)` builder returns: `page` and `sort` are
   * always set; a key the builder does not set is None.
   */
  datatype QueryInput = QueryInput(page: int, season: Option<MediaSeason>, seasonYear: Option<int>, sort: seq<MediaSort>)

  /** The `getInput(page)` builder of each list, with the clock's date as `now`. */
  function GetInput(l: SearchList, page: int, now: Date): (q: QueryInput)
    requires ValidDate(now)
    ensures q.page == page
    ensures q.season.Some? <==> l == ThisSeason || l == NextSeason
    ensures q.seasonYear.Some? <==> q.season.Some?
    ensures |q.sort| > 0 && q.sort[0] == (if l == Trending then TrendingDesc else if l == Top100 then ScoreDesc else PopularityDesc)
  {
    match l
    case Trending => QueryInput(page, None, None, [TrendingDesc, PopularityDesc])
    case ThisSeason => QueryInput(page, Some(GetSeason(now.month)), Some(now.year), [PopularityDesc, ScoreDesc])
    case NextSeason =>
      var t := AddThreeMonths(now);
      QueryInput(page, Some(GetSeason(t.month)), Some(t.year), [PopularityDesc, ScoreDesc])
    case Popular => QueryInput(page, None, None, [PopularityDesc])
    case Top100 => QueryInput(page, None, None, [ScoreDesc])
  }

  /** The three lists that are not seasonal sort as documented and leave season and year unset. */
  lemma NonSeasonalInputs(page: int, now: Date)
    requires ValidDate(now)
    ensures GetInput(Trending, page, now) == QueryInput(page, None, None, [TrendingDesc, PopularityDesc])
    ensures GetInput(Popular, page, now) == QueryInput(page, None, None, [PopularityDesc])
    ensures GetInput(Top100, page, now) == QueryInput(page, None, None, [ScoreDesc])
  {
  }

  /** "this-season" asks for the season and year of today. */
  lemma ThisSeasonInput(page: int, now: Date)
    requires ValidDate(now)
    ensures GetInput(ThisSeason, page, now) ==
              QueryInput(page, Some(GetSeason(now.month)), Some(now.year), [PopularityDesc, ScoreDesc])
  {
  }

  /**
   * "next-season" asks for the season after today's, for days that exist
   * three months on (day 28 or earlier always does); November goes to the
   * WINTER of the next year.
   */
  lemma NextSeasonInput(page: int, now: Date)
    requires ValidDate(now) && now.day <= 28
    ensures var q := GetInput(NextSeason, page, now);
            && q.season == Some(FollowingSeason(GetSeason(now.month)))
            && q.seasonYear == Some(if GetSeason(now.month) == Fall then now.year + 1 else now.year)
            && q.sort == [PopularityDesc, ScoreDesc]
    ensures now.month == November ==>
              GetInput(NextSeason, page, now).season == Some(Winter) &&
              GetInput(NextSeason, page, now).seasonYear == Some(now.year + 1)
  {
    ThreeMonthsIsNextSeason(now.year, now.month);
  }

  lemma MonthCountInjective(y1: int, m1: Month, y2: int, m2: Month)
    requires MonthCount(y1, m1) == MonthCount(y2, m2)
    ensures y1 == y2 && m1 == m2
  {
    var n1, n2 := MonthNumber(m1), MonthNumber(m2);
    assert (y1 - y2) * 12 == n2 - n1;
    assert n1 == n2;
    assert MonthOf(n1) == m1 && MonthOf(n2) == m2;
  }

  /**
   * The season "next-season" is evidently meant to ask for: the one after
   * today's, with the year moving on after FALL, whatever the day of the month.
   */
  function UpcomingSeason(now: Date): (r: (MediaSeason, int))
    ensures r.0 == FollowingSeason(GetSeason(now.month))
    ensures r.1 == (if GetSeason(now.month) == Fall then now.year + 1 else now.year)
  {
    ThreeMonthsIsNextSeason(now.year, now.month);
    var t := ShiftMonths(now.year, now.month, 3);
    (GetSeason(t.month), t.year)
  }

  /**
   * As written, "next-season" agrees with the intended season on every day but
   * one: the day overflow of `AddDate` only crosses a season boundary from
   * June 31, that is on March 31.
   */
  lemma NextSeasonAsWritten(page: int, now: Date)
    requires ValidDate(now)
    ensures GetInput(NextSeason, page, now).sort == [PopularityDesc, ScoreDesc]
    ensures var q := GetInput(NextSeason, page, now);
            var u := UpcomingSeason(now);
            (q.season == Some(u.0) && q.seasonYear == Some(u.1)) <==> !(now.month == March && now.day == 31)
  {
    ShiftWithinYear(now.year, now.month, 3);
    var target := ShiftMonths(now.year, now.month, 3);
    ShiftWithinYear(target.year, target.month, 1);
  }

  /** On March 31 "next-season" asks for SUMMER instead of SPRING. */
  lemma NextSeasonSkipsOnMarch31(page: int, year: int)
    ensures GetInput(NextSeason, page, Date(year, March, 31)).season == Some(Summer)
    ensures UpcomingSeason(Date(year, March, 31)).0 == Spring
  {
    NextSeasonAsWritten(page, Date(year, March, 31));
    ShiftWithinYear(year, March, 3);
    ShiftWithinYear(year, June, 1);
  }
}
