/** The statistics the analytics page derives from a bot's logs: the number of
    queries, the feedback score, the good/bad distribution and the five most
    asked queries. */
module AnalyticsPage {
  import opened Strings
  import opened Js
  import opened Records
  import Tally
  import Sorting

  /** `logs.length` */
  function TotalQueries(logs: seq<AnalyticsLog>): nat {
    |logs|
  }

  /** The feedback values of all logs added up. */
  function FeedbackScore(logs: seq<AnalyticsLog>): int {
    if logs == [] then 0 else FeedbackScore(logs[..|logs| - 1]) + logs[|logs| - 1].userFeedback
  }

  /** How many logs carry feedback value `v`. */
  function CountFeedback(logs: seq<AnalyticsLog>, v: int): (n: nat)
    ensures n <= |logs|
  {
    if logs == [] then 0
    else CountFeedback(logs[..|logs| - 1], v) + (if logs[|logs| - 1].userFeedback == v then 1 else 0)
  }

  /** The two bars of the feedback chart. */
  datatype Distribution = Distribution(good: nat, bad: nat)

  function FeedbackDistribution(logs: seq<AnalyticsLog>): Distribution {
    Distribution(CountFeedback(logs, 1), CountFeedback(logs, -1))
  }

  /** A log whose feedback is one of the values the widget sends, or the
      default 0. */
  predicate Rated(log: AnalyticsLog) {
    log.userFeedback == -1 || log.userFeedback == 0 || log.userFeedback == 1
  }

  /** When every feedback is -1, 0 or 1, the score is the good count minus
      the bad count. */
  lemma {:induction false} ScoreIsGoodMinusBad(logs: seq<AnalyticsLog>)
    requires forall i :: 0 <= i < |logs| ==> Rated(logs[i])
    ensures FeedbackScore(logs) == CountFeedback(logs, 1) - CountFeedback(logs, -1)
    decreases |logs|
  {
    if logs != [] {
      ScoreIsGoodMinusBad(logs[..|logs| - 1]);
    }
  }

  /** Good and bad are disjoint: together they count at most every query. */
  lemma {:induction false} GoodAndBadBounded(logs: seq<AnalyticsLog>)
    ensures var d := FeedbackDistribution(logs);
            d.good + d.bad <= TotalQueries(logs)
    decreases |logs|
  {
    if logs != [] {
      GoodAndBadBounded(logs[..|logs| - 1]);
    }
  }

  /** The counting key of a log: `acc[log.user_query]` converts the value to
      a property name. */
  function QueryKey(log: AnalyticsLog): String {
    Render(log.userQuery)
  }

  function QueryKeys(logs: seq<AnalyticsLog>): (keys: seq<String>)
    ensures |keys| == |logs|
    ensures forall i :: 0 <= i < |logs| ==> keys[i] == QueryKey(logs[i])
  {
    if logs == [] then [] else [QueryKey(logs[0])] + QueryKeys(logs[1..])
  }

  /** `topQueries`: one entry per distinct query, counted, in the order the
      queries were first seen; every count is at least one and the counts add
      up to `totalQueries`. */
  method TopQueries(logs: seq<AnalyticsLog>) returns (entries: seq<(String, nat)>)
    ensures Tally.TallyOf(entries, QueryKeys(logs))
    ensures Tally.KeysOf(entries) == Tally.FirstSeen(QueryKeys(logs))
    ensures forall i :: 0 <= i < |entries| ==> entries[i].1 >= 1
    ensures Tally.SumCounts(entries) == TotalQueries(logs)
  {
    entries := Tally.Count(QueryKeys(logs));
  }

  /** The count-descending comparator as a key: larger counts first. */
  function ByCountDescending(e: (String, nat)): int {
    -(e.1 as int)
  }

  const TopCount := 5

  /** The top-queries table, the entries sorted by count, largest first, and
      cut to five: at most five entries, taken from `topQueries`, with non-increasing
      counts, and nothing left out has a larger count than one kept. */
  method SortedTopQueries(entries: seq<(String, nat)>) returns (top: seq<(String, nat)>)
    ensures |top| == if |entries| < TopCount then |entries| else TopCount
    ensures forall i :: 0 <= i < |top| ==> top[i] in entries
    ensures forall i, j :: 0 <= i < j < |top| ==> top[i].1 >= top[j].1
    ensures forall e :: e in entries && e !in top && |top| > 0 ==> e.1 <= top[|top| - 1].1
    ensures top == Ranked(entries)
  {
    var a := new (String, nat)[|entries|](i requires 0 <= i < |entries| => entries[i]);
    assert a[..] == entries;
    Sorting.SortInPlace(a, ByCountDescending);
    var n := if a.Length < TopCount then a.Length else TopCount;
    top := a[..n];
    RankedFacts(entries);
  }

  /** The five highest counts, ties in first-seen order. */
  function Ranked(entries: seq<(String, nat)>): seq<(String, nat)> {
    var sorted := Sorting.SortedBy(entries, ByCountDescending);
    sorted[..if |sorted| < TopCount then |sorted| else TopCount]
  }

  lemma RankedFacts(entries: seq<(String, nat)>)
    ensures var top := Ranked(entries);
            && (forall i :: 0 <= i < |top| ==> top[i] in entries)
            && (forall i, j :: 0 <= i < j < |top| ==> top[i].1 >= top[j].1)
            && (forall e :: e in entries && e !in top && |top| > 0 ==> e.1 <= top[|top| - 1].1)
  {
    RankedFromEntries(entries);
    RankedDescending(entries);
    RankedMaximal(entries);
  }

  lemma RankedFromEntries(entries: seq<(String, nat)>)
    ensures forall i :: 0 <= i < |Ranked(entries)| ==> Ranked(entries)[i] in entries
  {
    var sorted := Sorting.SortedBy(entries, ByCountDescending);
    Sorting.SortedByCorrect(entries, ByCountDescending);
    var top := Ranked(entries);
    forall i | 0 <= i < |top| ensures top[i] in entries {
      assert top[i] == sorted[i];
      assert sorted[i] in multiset(sorted);
    }
  }

  lemma RankedDescending(entries: seq<(String, nat)>)
    ensures forall i, j :: 0 <= i < j < |Ranked(entries)| ==> Ranked(entries)[i].1 >= Ranked(entries)[j].1
  {
    var sorted := Sorting.SortedBy(entries, ByCountDescending);
    Sorting.SortedByCorrect(entries, ByCountDescending);
    var top := Ranked(entries);
    forall i, j | 0 <= i < j < |top| ensures top[i].1 >= top[j].1 {
      assert top[i] == sorted[i] && top[j] == sorted[j];
      assert ByCountDescending(sorted[i]) <= ByCountDescending(sorted[j]);
    }
  }

  lemma RankedMaximal(entries: seq<(String, nat)>)
    ensures forall e :: e in entries && e !in Ranked(entries) && |Ranked(entries)| > 0
                        ==> e.1 <= Ranked(entries)[|Ranked(entries)| - 1].1
  {
    var sorted := Sorting.SortedBy(entries, ByCountDescending);
    Sorting.SortedByCorrect(entries, ByCountDescending);
    var top := Ranked(entries);
    forall e | e in entries && e !in top && |top| > 0 ensures e.1 <= top[|top| - 1].1 {
      assert e in multiset(sorted);
      var k :| 0 <= k < |sorted| && sorted[k] == e;
      assert forall j :: 0 <= j < |top| ==> sorted[j] in top;
      assert k >= |top|;
      assert top[|top| - 1] == sorted[|top| - 1];
      assert ByCountDescending(sorted[|top| - 1]) <= ByCountDescending(sorted[k]);
    }
  }
}
