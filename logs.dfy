/**
 * app/logs/page.tsx: the filter pipeline over the live activity log and the
 * counters above it.
 */
module Logs {
  import opened LoggingService
  import opened Text
  import Seqs

  /**
   * The search box: location, barcode string or masked token ignoring case, or
   * key number as typed. The empty term matches every entry.
   */
  function MatchesSearch(log: ActivityLog, term: string): (r: bool)
    ensures term == "" ==> r
  {
    assert term == "" ==> OccursAt(log.keyNo, term, 0);
    || Includes(ToLower(log.location), ToLower(term))
    || Includes(log.keyNo, term)
    || Includes(ToLower(log.barcodeCode), ToLower(term))
    || Includes(ToLower(log.maskedNric), ToLower(term))
  }

  predicate PassesSearch(log: ActivityLog, term: string) {
    term == "" || MatchesSearch(log, term)
  }

  predicate PassesCompany(log: ActivityLog, companyFilter: string) {
    companyFilter == "all" || log.company == companyFilter
  }

  predicate PassesAction(log: ActivityLog, actionFilter: string) {
    actionFilter == "all" || ActionName(log.action) == actionFilter
  }

  /** An entry survives the whole pipeline exactly when it passes every stage. */
  predicate Keep(log: ActivityLog, term: string, companyFilter: string, actionFilter: string) {
    PassesSearch(log, term) && PassesCompany(log, companyFilter) && PassesAction(log, actionFilter)
  }

  function KeepFilter(term: string, companyFilter: string, actionFilter: string): ActivityLog -> bool {
    log => Keep(log, term, companyFilter, actionFilter)
  }

  function SearchMatcher(term: string): ActivityLog -> bool {
    log => MatchesSearch(log, term)
  }

  function CompanyMatcher(companyFilter: string): ActivityLog -> bool {
    (log: ActivityLog) => log.company == companyFilter
  }

  function ActionMatcher(actionFilter: string): ActivityLog -> bool {
    (log: ActivityLog) => ActionName(log.action) == actionFilter
  }

  /** The three stages of `filterLogs`, each skipped when its control is empty or "all". */
  function SearchStage(logs: seq<ActivityLog>, term: string): seq<ActivityLog> {
    if term != "" then Seqs.Filter(logs, SearchMatcher(term)) else logs
  }

  function CompanyStage(logs: seq<ActivityLog>, companyFilter: string): seq<ActivityLog> {
    if companyFilter != "all" then Seqs.Filter(logs, CompanyMatcher(companyFilter)) else logs
  }

  function ActionStage(logs: seq<ActivityLog>, actionFilter: string): seq<ActivityLog> {
    if actionFilter != "all" then Seqs.Filter(logs, ActionMatcher(actionFilter)) else logs
  }

  /** The pipeline is a single filter by `Keep`. */
  lemma PipelineIsOneFilter(logs: seq<ActivityLog>, term: string, companyFilter: string, actionFilter: string)
    ensures ActionStage(CompanyStage(SearchStage(logs, term), companyFilter), actionFilter)
         == Seqs.Filter(logs, KeepFilter(term, companyFilter, actionFilter))
  {
    var p1 := (log: ActivityLog) => PassesSearch(log, term);
    var p2 := (log: ActivityLog) => PassesCompany(log, companyFilter);
    var p3 := (log: ActivityLog) => PassesAction(log, actionFilter);
    var p12 := (log: ActivityLog) => PassesSearch(log, term) && PassesCompany(log, companyFilter);
    var s1 := SearchStage(logs, term);
    if term != "" {
      Seqs.FilterAgree(logs, SearchMatcher(term), p1);
    } else {
      Seqs.FilterAllKept(logs, p1);
    }
    assert s1 == Seqs.Filter(logs, p1);
    var s2 := CompanyStage(s1, companyFilter);
    if companyFilter != "all" {
      Seqs.FilterAgree(s1, CompanyMatcher(companyFilter), p2);
    } else {
      Seqs.FilterAllKept(s1, p2);
    }
    assert s2 == Seqs.Filter(s1, p2);
    Seqs.FilterFilter(logs, p1, p2, p12);
    var s3 := ActionStage(s2, actionFilter);
    if actionFilter != "all" {
      Seqs.FilterAgree(s2, ActionMatcher(actionFilter), p3);
    } else {
      Seqs.FilterAllKept(s2, p3);
    }
    assert s3 == Seqs.Filter(s2, p3);
    Seqs.FilterFilter(logs, p12, p3, KeepFilter(term, companyFilter, actionFilter));
  }

  /**
   * `filterLogs`: the entries that pass the search, company and action filters,
   * in their original order.
   */
  function FilterLogs(logs: seq<ActivityLog>, term: string, companyFilter: string, actionFilter: string)
    : (r: seq<ActivityLog>)
    ensures r == Seqs.Filter(logs, KeepFilter(term, companyFilter, actionFilter))
    ensures Seqs.IsSubsequence(r, logs)
    ensures forall log :: log in r <==> log in logs && Keep(log, term, companyFilter, actionFilter)
    ensures term == "" && companyFilter == "all" && actionFilter == "all" ==> r == logs
    ensures companyFilter != "all" ==> forall log :: log in r ==> log.company == companyFilter
  {
    PipelineIsOneFilter(logs, term, companyFilter, actionFilter);
    Seqs.FilterIsSubsequence(logs, KeepFilter(term, companyFilter, actionFilter));
    ActionStage(CompanyStage(SearchStage(logs, term), companyFilter), actionFilter)
  }

  /** The action filter alone keeps exactly the entries with that action, in order. */
  lemma ActionFilterKeepsExactly(logs: seq<ActivityLog>, action: Action)
    ensures FilterLogs(logs, "", "all", ActionName(action)) == Seqs.Filter(logs, (log: ActivityLog) => log.action == action)
  {
    Seqs.FilterAgree(logs, KeepFilter("", "all", ActionName(action)), (log: ActivityLog) => log.action == action);
  }

  /** Filtering an already filtered log with the same controls changes nothing. */
  lemma FilterLogsIdempotent(logs: seq<ActivityLog>, term: string, companyFilter: string, actionFilter: string)
    ensures var once := FilterLogs(logs, term, companyFilter, actionFilter);
            FilterLogs(once, term, companyFilter, actionFilter) == once
  {
    Seqs.FilterIdempotent(logs, KeepFilter(term, companyFilter, actionFilter));
  }

  /** An entry whose masked token literally contains the search term is found by the search. */
  lemma SearchFindsMaskedNric(log: ActivityLog, term: string)
    requires Includes(log.maskedNric, term)
    ensures PassesSearch(log, term)
  {
    IncludesToLower(log.maskedNric, term);
  }

  // ---------------------------------------------------------------------------
  // The counters

  function IsSignIn(log: ActivityLog): bool {
    ActionName(log.action) == "sign-in"
  }

  function IsSignOut(log: ActivityLog): bool {
    ActionName(log.action) == "sign-out"
  }

  /** "Sign-ins". */
  function SignInCount(logs: seq<ActivityLog>): nat {
    |Seqs.Filter(logs, IsSignIn)|
  }

  /** "Sign-outs". */
  function SignOutCount(logs: seq<ActivityLog>): nat {
    |Seqs.Filter(logs, IsSignOut)|
  }

  /** Every entry is a sign-in or a sign-out, never both: the two counters add up to Total Activities. */
  lemma SignInsPlusSignOutsIsTotal(logs: seq<ActivityLog>)
    ensures SignInCount(logs) + SignOutCount(logs) == |logs|
  {
    Seqs.FilterComplementCount(logs, IsSignIn, IsSignOut);
  }

  /** "Unique Users": the number of distinct masked tokens, never more than Total Activities. */
  function UniqueUsers(logs: seq<ActivityLog>): (n: nat)
    ensures n == |set log | log in logs :: log.maskedNric|
    ensures n <= |logs|
    ensures |logs| > 0 ==> n >= 1
  {
    var nric := (log: ActivityLog) => log.maskedNric;
    var users := Seqs.DistinctOf(logs, nric);
    assert Seqs.Values(logs, nric) == (set log | log in logs :: log.maskedNric) by {
      forall log | log in logs ensures log.maskedNric in Seqs.Values(logs, nric) {
        var i :| 0 <= i < |logs| && logs[i] == log;
      }
    }
    assert |logs| > 0 ==> logs[0].maskedNric in users;
    |users|
  }

  /** `companies`: the distinct companies occurring in the log, each once. */
  function Companies(logs: seq<ActivityLog>): (r: seq<string>)
    ensures Seqs.NoDuplicates(r)
    ensures forall c :: c in r <==> exists i :: 0 <= i < |logs| && logs[i].company == c
  {
    Seqs.DistinctOf(logs, (log: ActivityLog) => log.company)
  }
}
