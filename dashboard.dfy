/**
 * app/dashboard/page.tsx: the derived custody status of a key, the filter
 * pipeline over the live list of key records and the counters above it.
 */
module Dashboard {
  import opened Wrappers
  import opened LoggingService
  import opened BarcodeService
  import opened Text
  import Seqs

  /** A key is drawn out when a draw is recorded and no return is recorded at or after it. */
  function IsDrawn(b: SavedBarcode): (drawn: bool)
    ensures drawn ==> b.lastDraw.Some?
    ensures b.lastDraw.Some? && b.lastReturn.None? ==> drawn
    ensures b.lastDraw.Some? && b.lastReturn.Some? && b.lastDraw.value <= b.lastReturn.value ==> !drawn
  {
    b.lastDraw.Some? && (b.lastReturn.None? || b.lastDraw.value > b.lastReturn.value)
  }

  datatype Status = Available | Drawn

  /**
   * `getKeyStatus`: a record with neither timestamp is available; otherwise the
   * same `isDrawn` rule as the status filter decides.
   */
  function KeyStatus(b: SavedBarcode): (s: Status)
    ensures s == Drawn <==> IsDrawn(b)
    ensures b.lastDraw.None? ==> s == Available
    ensures b.lastDraw.Some? && b.lastReturn.Some? && b.lastDraw.value <= b.lastReturn.value ==> s == Available
  {
    if b.lastDraw.None? && b.lastReturn.None? then Available
    else if IsDrawn(b) then Drawn
    else Available
  }

  // ---------------------------------------------------------------------------
  // The filter pipeline

  /**
   * The search box: location or barcode string ignoring case, or key number as
   * typed. The empty term is contained in every string, so it matches every record.
   */
  function MatchesSearch(b: SavedBarcode, term: string): (r: bool)
    ensures term == "" ==> r
  {
    assert term == "" ==> OccursAt(b.keyNo, term, 0);
    || Includes(ToLower(b.location), ToLower(term))
    || Includes(b.keyNo, term)
    || Includes(ToLower(b.barcodeCode), ToLower(term))
  }

  /** The status select: "drawn" keeps drawn keys; any other value but "all" keeps the others. */
  predicate MatchesStatus(b: SavedBarcode, statusFilter: string) {
    if statusFilter == "drawn" then IsDrawn(b) else !IsDrawn(b)
  }

  predicate PassesSearch(b: SavedBarcode, term: string) {
    term == "" || MatchesSearch(b, term)
  }

  predicate PassesCompany(b: SavedBarcode, companyFilter: string) {
    companyFilter == "all" || b.company == companyFilter
  }

  predicate PassesStatus(b: SavedBarcode, statusFilter: string) {
    statusFilter == "all" || MatchesStatus(b, statusFilter)
  }

  /** A record survives the whole pipeline exactly when it passes every stage. */
  predicate Keep(b: SavedBarcode, term: string, companyFilter: string, statusFilter: string) {
    PassesSearch(b, term) && PassesCompany(b, companyFilter) && PassesStatus(b, statusFilter)
  }

  function KeepFilter(term: string, companyFilter: string, statusFilter: string): SavedBarcode -> bool {
    b => Keep(b, term, companyFilter, statusFilter)
  }

  function SearchMatcher(term: string): SavedBarcode -> bool {
    b => MatchesSearch(b, term)
  }

  function CompanyMatcher(companyFilter: string): SavedBarcode -> bool {
    (b: SavedBarcode) => b.company == companyFilter
  }

  function StatusMatcher(statusFilter: string): SavedBarcode -> bool {
    b => MatchesStatus(b, statusFilter)
  }

  /** The three stages of `filterBarcodes`, each skipped when its control is empty or "all". */
  function SearchStage(bs: seq<SavedBarcode>, term: string): seq<SavedBarcode> {
    if term != "" then Seqs.Filter(bs, SearchMatcher(term)) else bs
  }

  function CompanyStage(bs: seq<SavedBarcode>, companyFilter: string): seq<SavedBarcode> {
    if companyFilter != "all" then Seqs.Filter(bs, CompanyMatcher(companyFilter)) else bs
  }

  function StatusStage(bs: seq<SavedBarcode>, statusFilter: string): seq<SavedBarcode> {
    if statusFilter != "all" then Seqs.Filter(bs, StatusMatcher(statusFilter)) else bs
  }

  /** The pipeline is a single filter by `Keep`. */
  lemma PipelineIsOneFilter(bs: seq<SavedBarcode>, term: string, companyFilter: string, statusFilter: string)
    ensures StatusStage(CompanyStage(SearchStage(bs, term), companyFilter), statusFilter)
         == Seqs.Filter(bs, KeepFilter(term, companyFilter, statusFilter))
  {
    var p1 := (b: SavedBarcode) => PassesSearch(b, term);
    var p2 := (b: SavedBarcode) => PassesCompany(b, companyFilter);
    var p3 := (b: SavedBarcode) => PassesStatus(b, statusFilter);
    var p12 := (b: SavedBarcode) => PassesSearch(b, term) && PassesCompany(b, companyFilter);
    var s1 := SearchStage(bs, term);
    if term != "" {
      Seqs.FilterAgree(bs, SearchMatcher(term), p1);
    } else {
      Seqs.FilterAllKept(bs, p1);
    }
    assert s1 == Seqs.Filter(bs, p1);
    var s2 := CompanyStage(s1, companyFilter);
    if companyFilter != "all" {
      Seqs.FilterAgree(s1, CompanyMatcher(companyFilter), p2);
    } else {
      Seqs.FilterAllKept(s1, p2);
    }
    assert s2 == Seqs.Filter(s1, p2);
    Seqs.FilterFilter(bs, p1, p2, p12);
    var s3 := StatusStage(s2, statusFilter);
    if statusFilter != "all" {
      Seqs.FilterAgree(s2, StatusMatcher(statusFilter), p3);
    } else {
      Seqs.FilterAllKept(s2, p3);
    }
    assert s3 == Seqs.Filter(s2, p3);
    Seqs.FilterFilter(bs, p12, p3, KeepFilter(term, companyFilter, statusFilter));
  }

  /**
   * `filterBarcodes`: the records that pass the search, company and status
   * filters, in their original order.
   */
  function FilterBarcodes(bs: seq<SavedBarcode>, term: string, companyFilter: string, statusFilter: string)
    : (r: seq<SavedBarcode>)
    ensures r == Seqs.Filter(bs, KeepFilter(term, companyFilter, statusFilter))
    ensures Seqs.IsSubsequence(r, bs)
    ensures forall b :: b in r <==> b in bs && Keep(b, term, companyFilter, statusFilter)
    ensures term == "" && companyFilter == "all" && statusFilter == "all" ==> r == bs
    ensures companyFilter != "all" ==> forall b :: b in r ==> b.company == companyFilter
    ensures statusFilter == "drawn" ==> forall b :: b in r ==> IsDrawn(b)
  {
    PipelineIsOneFilter(bs, term, companyFilter, statusFilter);
    Seqs.FilterIsSubsequence(bs, KeepFilter(term, companyFilter, statusFilter));
    StatusStage(CompanyStage(SearchStage(bs, term), companyFilter), statusFilter)
  }

  /** Filtering an already filtered list with the same controls changes nothing. */
  lemma FilterBarcodesIdempotent(bs: seq<SavedBarcode>, term: string, companyFilter: string, statusFilter: string)
    ensures var once := FilterBarcodes(bs, term, companyFilter, statusFilter);
            FilterBarcodes(once, term, companyFilter, statusFilter) == once
  {
    Seqs.FilterIdempotent(bs, KeepFilter(term, companyFilter, statusFilter));
  }

  /** A record whose location literally contains the search term is found by the search. */
  lemma SearchFindsLocation(b: SavedBarcode, term: string)
    requires Includes(b.location, term)
    ensures PassesSearch(b, term)
  {
    IncludesToLower(b.location, term);
  }

  /** The search on location and barcode string does not depend on the case of the term. */
  lemma SearchIgnoresTermCase(b: SavedBarcode, term: string)
    ensures Includes(ToLower(b.location), ToLower(term)) == Includes(ToLower(b.location), ToLower(ToUpper(term)))
    ensures Includes(ToLower(b.barcodeCode), ToLower(term)) == Includes(ToLower(b.barcodeCode), ToLower(ToUpper(term)))
  {
    LowerOfUpper(term);
  }

  // ---------------------------------------------------------------------------
  // The counters

  function IsAvailable(b: SavedBarcode): bool {
    KeyStatus(b) == Available
  }

  function IsDrawnOut(b: SavedBarcode): bool {
    KeyStatus(b) == Drawn
  }

  /** "Available": the records whose status is available. */
  function AvailableCount(bs: seq<SavedBarcode>): nat {
    |Seqs.Filter(bs, IsAvailable)|
  }

  /** "Drawn Out": the records whose status is drawn. */
  function DrawnCount(bs: seq<SavedBarcode>): nat {
    |Seqs.Filter(bs, IsDrawnOut)|
  }

  /** Every key is counted exactly once: Available plus Drawn Out is Total Keys. */
  lemma AvailablePlusDrawnIsTotal(bs: seq<SavedBarcode>)
    ensures AvailableCount(bs) + DrawnCount(bs) == |bs|
  {
    Seqs.FilterComplementCount(bs, IsAvailable, IsDrawnOut);
  }

  /** `companies`: the distinct companies of the records; the "Companies" counter is its length. */
  function Companies(bs: seq<SavedBarcode>): (r: seq<string>)
    ensures Seqs.NoDuplicates(r)
    ensures forall c :: c in r <==> exists i :: 0 <= i < |bs| && bs[i].company == c
  {
    Seqs.DistinctOf(bs, (b: SavedBarcode) => b.company)
  }

  // ---------------------------------------------------------------------------
  // Custody after updates

  /**
   * The status of a key after a successful scan: a sign-in at time t leaves it
   * drawn only if it was drawn strictly after t; a sign-out at time t makes it
   * drawn unless it was returned at or after t.
   */
  lemma StatusAfterUpdate(docs: seq<StoredDoc>, code: string, action: Action, updateTime: Time, actionTime: Time)
    requires Update(docs, code, action, updateTime, actionTime).Success?
    ensures LookupBarcode(docs, code).Some?
    ensures var before := LookupBarcode(docs, code).value;
            var after := LookupBarcode(Update(docs, code, action, updateTime, actionTime).value, code);
            && after.Some?
            && (action == SignIn ==>
                  (IsDrawn(after.value) <==> before.lastDraw.Some? && before.lastDraw.value > actionTime))
            && (action == SignOut ==>
                  (IsDrawn(after.value) <==> before.lastReturn.None? || actionTime > before.lastReturn.value))
  {
    UpdateThenLookup(docs, code, action, updateTime, actionTime);
    var after := Update(docs, code, action, updateTime, actionTime).value;
    var i :| IsFirstMatch(docs, code, i) && IsFirstMatch(after, code, i)
          && LookupBarcode(after, code) == Some(ToSaved(after[i]))
          && Stamped(docs[i], after[i], action, updateTime, actionTime);
    assert LookupBarcode(docs, code) == Some(ToSaved(docs[i]));
  }

  /**
   * Signing a key out and then back in, the return no earlier than the draw,
   * leaves the key available.
   */
  lemma SignOutThenSignInIsAvailable(docs: seq<StoredDoc>, code: string,
                                     outUpdate: Time, outTime: Time, inUpdate: Time, inTime: Time)
    requires exists i :: 0 <= i < |docs| && docs[i].barcodeCode == code
    requires outTime <= inTime
    ensures Update(docs, code, SignOut, outUpdate, outTime).Success?
    ensures var drawn := Update(docs, code, SignOut, outUpdate, outTime).value;
            && Update(drawn, code, SignIn, inUpdate, inTime).Success?
            && var returned := Update(drawn, code, SignIn, inUpdate, inTime).value;
               && LookupBarcode(returned, code).Some?
               && KeyStatus(LookupBarcode(returned, code).value) == Available
  {
    var drawn := Update(docs, code, SignOut, outUpdate, outTime).value;
    UpdateThenLookup(docs, code, SignOut, outUpdate, outTime);
    StatusAfterUpdate(drawn, code, SignIn, inUpdate, inTime);
    assert LookupBarcode(drawn, code).value.lastDraw == Some(outTime);
  }
}
