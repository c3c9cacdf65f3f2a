/**
 * The catalog-id multiplexer of the addon wrapper: a client sees one addon
 * whose catalog ids name both an upstream addon (by its position in the
 * user's upstream list) and that upstream's own catalog id. With a single
 * upstream the id is the upstream's id unchanged; otherwise it is
 * `<index>::<catalog id>`.
 */
module Wrap {
  import opened Wrappers
  import opened Strings
  import opened Strconv

  /** One configured upstream addon. */
  datatype Upstream = Upstream(baseUrl: string)

  /** The user's configuration; the order of `upstreams` defines the index in ids. */
  datatype UserData = UserData(upstreams: seq<Upstream>)

  /** The part of the request context that is forwarded. */
  datatype StoreContext = StoreContext(clientIP: string)

  /** What `parseCatalogId` can fail with: its own "invalid id", or the error of `Atoi` (syntax or range). */
  datatype IdError = InvalidId | AtoiFailed(cause: NumError)

  /** The three results of `parseCatalogId`: index, upstream catalog id, error (nil = None). */
  datatype ParsedId = ParsedId(idx: int, catalogId: string, err: Option<IdError>)

  /** The separator between the index and the upstream's catalog id. */
  const Separator: string := "::"

  /** The failure result `(-1, "", err)` that every error exit of the decoder returns. */
  function Failed(e: IdError): ParsedId {
    ParsedId(-1, "", Some(e))
  }

  /** A Go slice never holds more elements than an `int` can count. */
  predicate FitsInt(ud: UserData) {
    |ud.upstreams| <= MaxInt64
  }

  /**
   * `parseCatalogId`, as written: only the upper bound of the index is
   * checked, so a negative index such as `"-1::x"` is accepted.
   */
  function ParseCatalogId(id: string, ud: UserData): (r: ParsedId)
    ensures r.err.None? ==> r.idx < |ud.upstreams|
    ensures r.err.Some? ==> r == Failed(r.err.value)
    ensures |ud.upstreams| != 1 && !Contains(id, Separator) ==> r == Failed(InvalidId)
  {
    if |ud.upstreams| == 1 then ParsedId(0, id, None)
    else
      var cut := Cut(id, Separator);
      if !cut.found then Failed(InvalidId)
      else
        match Atoi(cut.before)
        case Err(e) => Failed(AtoiFailed(e))
        case Ok(idx) =>
          if |ud.upstreams| <= idx then Failed(InvalidId)
          else ParsedId(idx, cut.after, None)
  }

  /**
   * How a catalog id is written for the client: the upstream's id alone with
   * one upstream, `<index>::<id>` otherwise. This is the format the decoder
   * reads; the catalog listing that writes it is not part of this model.
   */
  function EncodeCatalogId(idx: nat, catalogId: string, ud: UserData): string {
    if |ud.upstreams| == 1 then catalogId else Itoa(idx) + Separator + catalogId
  }

  /** With exactly one upstream every id, `::` or not, passes through untouched. */
  lemma SingleUpstreamTransparent(id: string, ud: UserData)
    requires |ud.upstreams| == 1
    ensures ParseCatalogId(id, ud) == ParsedId(0, id, None)
  {
  }

  /** No `::` starts inside `index` when it is followed by `::` and `rest`: the separator after `index` is the first. */
  predicate SeparatorFollows(index: string, rest: string) {
    forall j: nat :: j < |index| ==> !OccursAt(index + Separator + rest, Separator, j)
  }

  /**
   * Otherwise the id is split at its FIRST `::`: the index is what `Atoi`
   * makes of the part before it (which may hold single colons, as in
   * `"a:b::c"`), and the catalog id is all of the rest, further `::` included.
   */
  lemma SplitsAtFirstSeparator(index: string, rest: string, ud: UserData)
    requires |ud.upstreams| != 1
    requires SeparatorFollows(index, rest)
    ensures var r := ParseCatalogId(index + Separator + rest, ud);
            && (r.err.None? <==> Atoi(index).Ok? && Atoi(index).value < |ud.upstreams|)
            && (r.err.None? ==> r.idx == Atoi(index).value && r.catalogId == rest)
            && (Atoi(index).Err? ==> r == Failed(AtoiFailed(Atoi(index).error)))
            && (Atoi(index).Ok? && Atoi(index).value >= |ud.upstreams| ==> r == Failed(InvalidId))
  {
    CutAtFirst(index, Separator, rest);
  }

  /** A single colon before the first `::` belongs to the index part: `"a:b::c"` fails on `Atoi("a:b")`. */
  lemma SingleColonStaysInIndexPart(ud: UserData)
    requires |ud.upstreams| != 1
    ensures ParseCatalogId("a:b::c", ud) == Failed(AtoiFailed(NumError("Atoi", "a:b", ErrSyntax)))
  {
    var s := "a:b" + Separator + "c";
    assert s == "a:b::c";
    assert SeparatorFollows("a:b", "c") by {
      forall j: nat | j < 3 ensures !OccursAt(s, Separator, j) {
        assert j + 2 <= |s| ==> s[j..j + 2][0] == s[j] && s[j..j + 2][1] == s[j + 1];
      }
    }
    SplitsAtFirstSeparator("a:b", "c", ud);
    assert !IsDecimal("a:b") by { assert !IsDigit("a:b"[0]); }
  }

  /** `"1::a::b"` names catalog `"a::b"` of upstream 1. */
  lemma LaterSeparatorsBelongToCatalogId(ud: UserData)
    requires |ud.upstreams| >= 2
    ensures ParseCatalogId("1::a::b", ud) == ParsedId(1, "a::b", None)
  {
    assert "1::a::b" == "1" + Separator + "a::b";
    NoOccurrenceBefore("1", Separator, "a::b");
    SplitsAtFirstSeparator("1", "a::b", ud);
    AtoiItoa(1);
    assert Itoa(1) == "1";
  }

  /** An index part that is not a number is rejected with the error of `Atoi`: `"abc::x"`. */
  lemma NonNumericIndexRejected(ud: UserData)
    requires |ud.upstreams| != 1
    ensures ParseCatalogId("abc::x", ud) == Failed(AtoiFailed(NumError("Atoi", "abc", ErrSyntax)))
  {
    assert "abc::x" == "abc" + Separator + "x";
    NoOccurrenceBefore("abc", Separator, "x");
    SplitsAtFirstSeparator("abc", "x", ud);
    assert !IsDecimal("abc") by { assert !IsDigit("abc"[0]); }
  }

  /** An id without any `::` is rejected as invalid: `"novalue"`. */
  lemma MissingSeparatorRejected(ud: UserData)
    requires |ud.upstreams| != 1
    ensures ParseCatalogId("novalue", ud) == Failed(InvalidId)
  {
    NotContainedWithoutFirstChar("novalue", Separator);
  }

  /**
   * Any index `Atoi` accepts at or past the number of upstreams is rejected
   * as invalid, however it is spelt (`"2::x"`, `"+2::x"`, `"02::x"` with two
   * upstreams, or any non-negative index with none).
   */
  lemma IndexPastEndRejected(index: string, rest: string, ud: UserData)
    requires |ud.upstreams| != 1
    requires SeparatorFollows(index, rest)
    requires Atoi(index).Ok? && Atoi(index).value >= |ud.upstreams|
    ensures ParseCatalogId(index + Separator + rest, ud) == Failed(InvalidId)
  {
    CutAtFirst(index, Separator, rest);
  }

  /** `"2::x"` with two upstreams (valid indexes 0 and 1) is rejected. */
  lemma TwoOfTwoRejected(ud: UserData)
    requires |ud.upstreams| == 2
    ensures ParseCatalogId("2::x", ud) == Failed(InvalidId)
  {
    assert "2::x" == Itoa(2) + Separator + "x" by { assert Itoa(2) == [DigitChar(2)] == "2"; }
    NoOccurrenceBefore(Itoa(2), Separator, "x");
    AtoiItoa(2);
    IndexPastEndRejected(Itoa(2), "x", ud);
  }

  /** Decoding what the format writes gives back the upstream index and catalog id. */
  lemma DecodeEncode(i: nat, catalogId: string, ud: UserData)
    requires i < |ud.upstreams| && FitsInt(ud)
    ensures ParseCatalogId(EncodeCatalogId(i, catalogId, ud), ud) == ParsedId(i, catalogId, None)
  {
    if |ud.upstreams| != 1 {
      NoOccurrenceBefore(Itoa(i), Separator, catalogId);
      CutAtFirst(Itoa(i), Separator, catalogId);
      AtoiItoa(i);
    }
  }

  /**
   * The decoder as written accepts a negative index: with two or more
   * upstreams `"-1::" + s` decodes without error to index -1, which the
   * dispatchers then use to index the upstream list.
   */
  lemma NegativeIndexAccepted(catalogId: string, ud: UserData)
    requires |ud.upstreams| != 1
    ensures ParseCatalogId("-1" + Separator + catalogId, ud) == ParsedId(-1, catalogId, None)
  {
    NoOccurrenceBefore("-1", Separator, catalogId);
    SplitsAtFirstSeparator("-1", catalogId, ud);
    AtoiAcceptsSignAndZeros();
  }

  /**
   * Decoding is not canonical: `"01::x"` and `"+1::x"` both name catalog `"x"`
   * of upstream 1, yet the format writes that pair as `"1::x"`.
   */
  lemma IndexNotCanonical(ud: UserData)
    requires |ud.upstreams| >= 2
    ensures ParseCatalogId("01::x", ud) == ParsedId(1, "x", None)
    ensures ParseCatalogId("+1::x", ud) == ParsedId(1, "x", None)
    ensures EncodeCatalogId(1, "x", ud) == "1::x"
  {
    LeadingZeroAccepted(ud);
    PlusSignAccepted(ud);
    EncodeOne(ud);
  }

  lemma EncodeOne(ud: UserData)
    requires |ud.upstreams| >= 2
    ensures EncodeCatalogId(1, "x", ud) == "1::x"
  {
    assert Itoa(1) == [DigitChar(1)] == "1";
  }

  lemma LeadingZeroAccepted(ud: UserData)
    requires |ud.upstreams| >= 2
    ensures ParseCatalogId("01::x", ud) == ParsedId(1, "x", None)
  {
    assert "01::x" == "01" + Separator + "x";
    NoOccurrenceBefore("01", Separator, "x");
    SplitsAtFirstSeparator("01", "x", ud);
    AtoiAcceptsSignAndZeros();
  }

  lemma PlusSignAccepted(ud: UserData)
    requires |ud.upstreams| >= 2
    ensures ParseCatalogId("+1::x", ud) == ParsedId(1, "x", None)
  {
    assert "+1::x" == "+1" + Separator + "x";
    NoOccurrenceBefore("+1", Separator, "x");
    SplitsAtFirstSeparator("+1", "x", ud);
    AtoiAcceptsSignAndZeros();
  }

  /** The decoder with the lower bound it lacks: an index must satisfy 0 <= index < upstream count. */
  function ParseCatalogIdChecked(id: string, ud: UserData): (r: ParsedId)
    ensures r.err.None? ==> 0 <= r.idx < |ud.upstreams|
    ensures r.err.Some? ==> r == Failed(r.err.value)
  {
    var r := ParseCatalogId(id, ud);
    if r.err.None? && r.idx < 0 then Failed(InvalidId) else r
  }

  /** The corrected decoder differs from the written one exactly on negative indexes. */
  lemma CheckedDiffersOnlyOnNegative(id: string, ud: UserData)
    ensures ParseCatalogIdChecked(id, ud) != ParseCatalogId(id, ud) <==>
              ParseCatalogId(id, ud).err.None? && ParseCatalogId(id, ud).idx < 0
  {
  }

  /**
   * The corrected decoder is a left inverse of the format, and re-encoding
   * what it accepts gives an id it decodes to the same pair.
   */
  lemma CheckedRoundTrips(i: nat, catalogId: string, id: string, ud: UserData)
    requires i < |ud.upstreams| && FitsInt(ud)
    ensures ParseCatalogIdChecked(EncodeCatalogId(i, catalogId, ud), ud) == ParsedId(i, catalogId, None)
    ensures var r := ParseCatalogIdChecked(id, ud);
            r.err.None? ==> ParseCatalogIdChecked(EncodeCatalogId(r.idx, r.catalogId, ud), ud) == r
  {
    DecodeEncode(i, catalogId, ud);
    var r := ParseCatalogIdChecked(id, ud);
    if r.err.None? {
      DecodeEncode(r.idx, r.catalogId, ud);
    }
  }

  /** The two resources the dispatchers proxy. */
  datatype ResourceName = Catalog | AddonCatalog

  /** The parameters of one `ProxyResource` call. */
  datatype ProxyResourceParams = ProxyResourceParams(
    baseUrl: string,
    resource: ResourceName,
    rType: string,
    id: string,
    extra: string,
    clientIP: string)

  /**
   * What a dispatcher does with the request: answer with `SendError`, make one
   * `ProxyResource` call, or hit Go's index-out-of-range panic on the
   * upstream list.
   */
  datatype Outcome =
    | SendError(err: IdError)
    | ProxyResource(params: ProxyResourceParams)
    | IndexPanic(idx: int)

  /** The step both dispatchers share once the id has been decoded. */
  function Dispatch(p: ParsedId, ud: UserData, ctx: StoreContext, resource: ResourceName,
                    rType: string, extra: string): Outcome
  {
    match p.err
    case Some(e) => SendError(e)
    case None =>
      if 0 <= p.idx < |ud.upstreams| then
        ProxyResource(ProxyResourceParams(ud.upstreams[p.idx].baseUrl, resource, rType, p.catalogId, extra, ctx.clientIP))
      else IndexPanic(p.idx)
  }

  /** `fetchAddonCatalog`: forwards to the decoded upstream with no extra parameters. */
  function FetchAddonCatalog(ud: UserData, ctx: StoreContext, rType: string, id: string): (r: Outcome)
    ensures var p := ParseCatalogId(id, ud);
            && (r.SendError? <==> p.err.Some?)
            && (r.SendError? ==> r.err == p.err.value)
            && (r.IndexPanic? <==> p.err.None? && p.idx < 0)
            && (r.ProxyResource? ==>
                  0 <= p.idx < |ud.upstreams| &&
                  r.params == ProxyResourceParams(ud.upstreams[p.idx].baseUrl, AddonCatalog, rType, p.catalogId, "", ctx.clientIP))
  {
    Dispatch(ParseCatalogId(id, ud), ud, ctx, AddonCatalog, rType, "")
  }

  /** `fetchCatalog`: forwards to the decoded upstream, passing `extra` through. */
  function FetchCatalog(ud: UserData, ctx: StoreContext, rType: string, id: string, extra: string): (r: Outcome)
    ensures var p := ParseCatalogId(id, ud);
            && (r.SendError? <==> p.err.Some?)
            && (r.SendError? ==> r.err == p.err.value)
            && (r.IndexPanic? <==> p.err.None? && p.idx < 0)
            && (r.ProxyResource? ==>
                  0 <= p.idx < |ud.upstreams| &&
                  r.params == ProxyResourceParams(ud.upstreams[p.idx].baseUrl, Catalog, rType, p.catalogId, extra, ctx.clientIP))
  {
    Dispatch(ParseCatalogId(id, ud), ud, ctx, Catalog, rType, extra)
  }

  /** A catalog request for an encoded id reaches that upstream with the upstream's own id. */
  lemma FetchCatalogOfEncoded(i: nat, catalogId: string, ud: UserData, ctx: StoreContext, rType: string, extra: string)
    requires i < |ud.upstreams| && FitsInt(ud)
    ensures FetchCatalog(ud, ctx, rType, EncodeCatalogId(i, catalogId, ud), extra)
              == ProxyResource(ProxyResourceParams(ud.upstreams[i].baseUrl, Catalog, rType, catalogId, extra, ctx.clientIP))
    ensures FetchAddonCatalog(ud, ctx, rType, EncodeCatalogId(i, catalogId, ud))
              == ProxyResource(ProxyResourceParams(ud.upstreams[i].baseUrl, AddonCatalog, rType, catalogId, "", ctx.clientIP))
  {
    DecodeEncode(i, catalogId, ud);
  }

  /** Two upstreams `a.example` and `b.example`; catalog `"1::trending"` goes to `b.example` as `"trending"`. */
  lemma TwoUpstreamScenario(ctx: StoreContext, rType: string, extra: string)
    ensures var ud := UserData([Upstream("https://a.example"), Upstream("https://b.example")]);
            FetchCatalog(ud, ctx, rType, "1::trending", extra)
              == ProxyResource(ProxyResourceParams("https://b.example", Catalog, rType, "trending", extra, ctx.clientIP))
  {
    var ud := UserData([Upstream("https://a.example"), Upstream("https://b.example")]);
    assert Itoa(1) == "1";
    assert EncodeCatalogId(1, "trending", ud) == "1::trending";
    FetchCatalogOfEncoded(1, "trending", ud, ctx, rType, extra);
  }

  /** As written, both dispatchers panic on `"-1::" + s` once there are two or more upstreams. */
  lemma NegativeIndexPanics(catalogId: string, ud: UserData, ctx: StoreContext, rType: string, extra: string)
    requires |ud.upstreams| != 1
    ensures FetchCatalog(ud, ctx, rType, "-1" + Separator + catalogId, extra) == IndexPanic(-1)
    ensures FetchAddonCatalog(ud, ctx, rType, "-1" + Separator + catalogId) == IndexPanic(-1)
  {
    NegativeIndexAccepted(catalogId, ud);
  }

  /** `fetchAddonCatalog` over the corrected decoder. */
  function FetchAddonCatalogChecked(ud: UserData, ctx: StoreContext, rType: string, id: string): (r: Outcome)
    ensures !r.IndexPanic?
    ensures FetchAddonCatalog(ud, ctx, rType, id).IndexPanic? ==> r == SendError(InvalidId)
    ensures !FetchAddonCatalog(ud, ctx, rType, id).IndexPanic? ==> r == FetchAddonCatalog(ud, ctx, rType, id)
  {
    Dispatch(ParseCatalogIdChecked(id, ud), ud, ctx, AddonCatalog, rType, "")
  }

  /** `fetchCatalog` over the corrected decoder. */
  function FetchCatalogChecked(ud: UserData, ctx: StoreContext, rType: string, id: string, extra: string): (r: Outcome)
    ensures !r.IndexPanic?
    ensures FetchCatalog(ud, ctx, rType, id, extra).IndexPanic? ==> r == SendError(InvalidId)
    ensures !FetchCatalog(ud, ctx, rType, id, extra).IndexPanic? ==> r == FetchCatalog(ud, ctx, rType, id, extra)
  {
    Dispatch(ParseCatalogIdChecked(id, ud), ud, ctx, Catalog, rType, extra)
  }
}
