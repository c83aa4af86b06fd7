/** Daily summaries: the aggregation of a day's study sessions into averages and
    focused time, the count of sessions ("breaks") per summary, and the
    get-or-create rule keyed by user and date. Query results are given as
    sequences of records. */
module DailySummaries {
  import opened Wrappers
  import Metrics

  /** A study session as the aggregation reads it; times are in seconds. */
  datatype StudySession = StudySession(
    id: int,
    userId: int,
    dailySummaryId: int,
    startTime: Option<real>,
    endTime: Option<real>,
    totalPausedTime: real,
    averageFatigue: real,
    averageDistraction: real)

  datatype DailySummary = DailySummary(
    id: int,
    userId: int,
    date: int,
    avgFatigue: real,
    avgDistraction: real,
    focusedTime: int)

  // ---------------------------------------------------------------------------
  // Aggregation
  // ---------------------------------------------------------------------------

  /** Seconds from start to end minus the paused time, or None when either time is missing. */
  function EffectiveDuration(s: StudySession): Option<real> {
    if s.startTime.Some? && s.endTime.Some? then
      Some((s.endTime.value - s.startTime.value) - s.totalPausedTime)
    else
      None
  }

  /** A session counts towards the day only with both times and a positive effective duration. */
  predicate Contributes(s: StudySession) {
    EffectiveDuration(s).Some? && EffectiveDuration(s).value > 0.0
  }

  /** Python's `int()` on a number: truncation toward zero. */
  function Trunc(x: real): (r: int)
    ensures 0.0 <= x ==> 0 <= r && r as real <= x < r as real + 1.0
    ensures x < 0.0 ==> r <= 0 && x <= r as real < x + 1.0
  {
    if x >= 0.0 then x.Floor else -((-x).Floor)
  }

  /** The contributing sessions among the first `n`, in order. */
  function ContributingPrefix(ss: seq<StudySession>, n: nat): seq<StudySession>
    requires n <= |ss|
  {
    if n == 0 then []
    else ContributingPrefix(ss, n - 1) + (if Contributes(ss[n - 1]) then [ss[n - 1]] else [])
  }

  function Contributing(ss: seq<StudySession>): seq<StudySession> {
    ContributingPrefix(ss, |ss|)
  }

  function Fatigues(ss: seq<StudySession>): (r: seq<real>)
    ensures |r| == |ss|
    ensures forall i :: 0 <= i < |ss| ==> r[i] == ss[i].averageFatigue
  {
    seq(|ss|, i requires 0 <= i < |ss| => ss[i].averageFatigue)
  }

  function Distractions(ss: seq<StudySession>): (r: seq<real>)
    ensures |r| == |ss|
    ensures forall i :: 0 <= i < |ss| ==> r[i] == ss[i].averageDistraction
  {
    seq(|ss|, i requires 0 <= i < |ss| => ss[i].averageDistraction)
  }

  /** Effective durations in milliseconds (0 for a session without both times). */
  function FocusedMillis(ss: seq<StudySession>): (r: seq<real>)
    ensures |r| == |ss|
    ensures forall i :: 0 <= i < |ss| ==> r[i] == EffectiveDuration(ss[i]).GetOr(0.0) * 1000.0
  {
    seq(|ss|, i requires 0 <= i < |ss| => EffectiveDuration(ss[i]).GetOr(0.0) * 1000.0)
  }

  /** The summary once its sessions are folded in: with at least one contributing
      session, the means of their fatigue and distraction and the integer part of
      their total effective time in milliseconds; otherwise the summary as it was. */
  function Aggregated(summary: DailySummary, ss: seq<StudySession>): (r: DailySummary)
    ensures r.id == summary.id && r.userId == summary.userId && r.date == summary.date
    ensures |Contributing(ss)| == 0 ==> r == summary
  {
    var c := Contributing(ss);
    if |c| > 0 then
      summary.(avgFatigue := Metrics.Mean(Fatigues(c)),
               avgDistraction := Metrics.Mean(Distractions(c)),
               focusedTime := Trunc(Metrics.Sum(FocusedMillis(c))))
    else
      summary
  }

  lemma {:induction false} ContributingPrefixExtend(ss: seq<StudySession>, s: StudySession, n: nat)
    requires n <= |ss|
    ensures ContributingPrefix(ss + [s], n) == ContributingPrefix(ss, n)
  {
    if n > 0 {
      ContributingPrefixExtend(ss, s, n - 1);
    }
  }

  /** Appending a session appends it to the contributing ones exactly when it contributes. */
  lemma ContributingAppend(ss: seq<StudySession>, s: StudySession)
    ensures Contributing(ss + [s]) == Contributing(ss) + (if Contributes(s) then [s] else [])
  {
    ContributingPrefixExtend(ss, s, |ss|);
  }

  /** The contributing sessions all contribute, come from the input, and are no more numerous. */
  lemma {:induction false} ContributingPrefixFacts(ss: seq<StudySession>, n: nat)
    requires n <= |ss|
    ensures |ContributingPrefix(ss, n)| <= n
    ensures forall s :: s in ContributingPrefix(ss, n) ==> s in ss && Contributes(s)
  {
    if n > 0 {
      ContributingPrefixFacts(ss, n - 1);
    }
  }

  /** Nothing contributes exactly when no session of the input does. */
  lemma {:induction false} ContributingPrefixEmpty(ss: seq<StudySession>, n: nat)
    requires n <= |ss|
    ensures |ContributingPrefix(ss, n)| == 0 <==> forall i :: 0 <= i < n ==> !Contributes(ss[i])
  {
    if n > 0 {
      ContributingPrefixEmpty(ss, n - 1);
    }
  }

  /** How the three running totals grow when one contributing session is added. */
  lemma TotalsAppend(c: seq<StudySession>, s: StudySession)
    ensures Metrics.Sum(Fatigues(c + [s])) == Metrics.Sum(Fatigues(c)) + s.averageFatigue
    ensures Metrics.Sum(Distractions(c + [s])) == Metrics.Sum(Distractions(c)) + s.averageDistraction
    ensures Metrics.Sum(FocusedMillis(c + [s])) == Metrics.Sum(FocusedMillis(c)) + EffectiveDuration(s).GetOr(0.0) * 1000.0
  {
    assert Fatigues(c + [s]) == Fatigues(c) + [s.averageFatigue];
    assert Distractions(c + [s]) == Distractions(c) + [s.averageDistraction];
    assert FocusedMillis(c + [s]) == FocusedMillis(c) + [EffectiveDuration(s).GetOr(0.0) * 1000.0];
    Metrics.Append(Fatigues(c), s.averageFatigue, 0.0);
    Metrics.Append(Distractions(c), s.averageDistraction, 0.0);
    Metrics.Append(FocusedMillis(c), EffectiveDuration(s).GetOr(0.0) * 1000.0, 0.0);
  }

  /** One turn of the aggregation loop, on the contributing prefix and its totals. */
  lemma LoopStep(ss: seq<StudySession>, i: nat)
    requires i < |ss|
    ensures var c, c' := ContributingPrefix(ss, i), ContributingPrefix(ss, i + 1);
      if Contributes(ss[i]) then
        && |c'| == |c| + 1
        && Metrics.Sum(Fatigues(c')) == Metrics.Sum(Fatigues(c)) + ss[i].averageFatigue
        && Metrics.Sum(Distractions(c')) == Metrics.Sum(Distractions(c)) + ss[i].averageDistraction
        && Metrics.Sum(FocusedMillis(c')) == Metrics.Sum(FocusedMillis(c)) + EffectiveDuration(ss[i]).value * 1000.0
      else
        c' == c
  {
    var c := ContributingPrefix(ss, i);
    if Contributes(ss[i]) {
      TotalsAppend(c, ss[i]);
    } else {
      assert ContributingPrefix(ss, i + 1) == c + [];
    }
  }

  /** The aggregate written in terms of the three totals and the count. */
  lemma AggregatedByTotals(summary: DailySummary, ss: seq<StudySession>)
    ensures var c := Contributing(ss);
      Aggregated(summary, ss) ==
        if |c| > 0 then
          summary.(avgFatigue := Metrics.Sum(Fatigues(c)) / |c| as real,
                   avgDistraction := Metrics.Sum(Distractions(c)) / |c| as real,
                   focusedTime := Trunc(Metrics.Sum(FocusedMillis(c))))
        else summary
  {
  }

  /** The aggregation loop: running totals over the sessions with a positive
      effective duration, assigned to the summary only when there was one. */
  method UpdateFromSessions(summary: DailySummary, studySessions: seq<StudySession>) returns (r: DailySummary)
    ensures r == Aggregated(summary, studySessions)
  {
    if |studySessions| == 0 {
      return summary;
    }

    var totalFatigue := 0.0;
    var totalDistraction := 0.0;
    var totalFocusedTime := 0.0;
    var sessionCount: nat := 0;

    for i := 0 to |studySessions|
      invariant sessionCount == |ContributingPrefix(studySessions, i)|
      invariant totalFatigue == Metrics.Sum(Fatigues(ContributingPrefix(studySessions, i)))
      invariant totalDistraction == Metrics.Sum(Distractions(ContributingPrefix(studySessions, i)))
      invariant totalFocusedTime == Metrics.Sum(FocusedMillis(ContributingPrefix(studySessions, i)))
    {
      var studySession := studySessions[i];
      LoopStep(studySessions, i);
      if studySession.startTime.Some? && studySession.endTime.Some? {
        var durationSeconds := studySession.endTime.value - studySession.startTime.value;
        var effectiveDuration := durationSeconds - studySession.totalPausedTime;
        if effectiveDuration > 0.0 {
          totalFocusedTime := totalFocusedTime + effectiveDuration * 1000.0;
          totalFatigue := totalFatigue + studySession.averageFatigue;
          totalDistraction := totalDistraction + studySession.averageDistraction;
          sessionCount := sessionCount + 1;
        }
      }
    }

    AggregatedByTotals(summary, studySessions);
    r := summary;
    if sessionCount > 0 {
      r := r.(avgFatigue := totalFatigue / sessionCount as real,
              avgDistraction := totalDistraction / sessionCount as real,
              focusedTime := Trunc(totalFocusedTime));
    }
  }

  /** Sessions none of which contributes (no end time yet, or no positive effective
      time) leave the summary as it was. */
  lemma NoContributorUnchanged(summary: DailySummary, ss: seq<StudySession>)
    requires forall i :: 0 <= i < |ss| ==> !Contributes(ss[i])
    ensures Aggregated(summary, ss) == summary
  {
    ContributingPrefixEmpty(ss, |ss|);
  }

  /** As soon as one session of the input contributes, all three aggregate fields
      are assigned from the contributing sessions. */
  lemma SomeContributorCounted(summary: DailySummary, ss: seq<StudySession>, i: nat)
    requires i < |ss| && Contributes(ss[i])
    ensures |Contributing(ss)| > 0
    ensures Aggregated(summary, ss).avgFatigue == Metrics.Mean(Fatigues(Contributing(ss)))
    ensures Aggregated(summary, ss).avgDistraction == Metrics.Mean(Distractions(Contributing(ss)))
    ensures Aggregated(summary, ss).focusedTime == Trunc(Metrics.Sum(FocusedMillis(Contributing(ss))))
  {
    ContributingPrefixEmpty(ss, |ss|);
  }

  /** A session that does not contribute, appended to the day, changes nothing. */
  lemma NonContributorIgnored(summary: DailySummary, ss: seq<StudySession>, s: StudySession)
    requires !Contributes(s)
    ensures Aggregated(summary, ss + [s]) == Aggregated(summary, ss)
  {
    ContributingAppend(ss, s);
    assert Contributing(ss + [s]) == Contributing(ss);
  }

  /** When every contributing session's fatigue and distraction lie in [lo, hi], so do
      the daily averages. */
  lemma AveragesWithin(summary: DailySummary, ss: seq<StudySession>, lo: real, hi: real)
    requires |Contributing(ss)| > 0
    requires forall s :: s in ss && Contributes(s) ==> lo <= s.averageFatigue <= hi && lo <= s.averageDistraction <= hi
    ensures lo <= Aggregated(summary, ss).avgFatigue <= hi
    ensures lo <= Aggregated(summary, ss).avgDistraction <= hi
  {
    var c := Contributing(ss);
    ContributingPrefixFacts(ss, |ss|);
    assert forall i :: 0 <= i < |c| ==> c[i] in c;
    Metrics.MeanBounds(Fatigues(c), lo, hi);
    Metrics.MeanBounds(Distractions(c), lo, hi);
  }

  /** The focused time is the whole number of milliseconds of effective study time:
      never negative, and within one of the exact total. */
  lemma FocusedTimeIsWholeMillis(summary: DailySummary, ss: seq<StudySession>)
    requires |Contributing(ss)| > 0
    ensures 0 <= Aggregated(summary, ss).focusedTime
    ensures Aggregated(summary, ss).focusedTime as real <= Metrics.Sum(FocusedMillis(Contributing(ss)))
    ensures Metrics.Sum(FocusedMillis(Contributing(ss))) < Aggregated(summary, ss).focusedTime as real + 1.0
  {
    var c := Contributing(ss);
    ContributingPrefixFacts(ss, |ss|);
    assert forall i :: 0 <= i < |c| ==> c[i] in c;
    Metrics.SumPrefixAtLeast(FocusedMillis(c), |c|, 0.0);
  }

  // ---------------------------------------------------------------------------
  // Breaks per summary
  // ---------------------------------------------------------------------------

  /** How many of the first `n` sessions belong to the summary `summaryId`. */
  function BreaksPrefix(ss: seq<StudySession>, n: nat, summaryId: int): nat
    requires n <= |ss|
  {
    if n == 0 then 0
    else BreaksPrefix(ss, n - 1, summaryId) + (if ss[n - 1].dailySummaryId == summaryId then 1 else 0)
  }

  function Breaks(ss: seq<StudySession>, summaryId: int): nat {
    BreaksPrefix(ss, |ss|, summaryId)
  }

  /** A summary with the `breaks` attribute attached to it. */
  datatype SummaryWithBreaks = SummaryWithBreaks(summary: DailySummary, breaks: nat)

  /** Counts the sessions per summary id in a dictionary, then attaches to each
      summary its count, 0 for an id with no session. */
  method AttachBreaks(dailySummaries: seq<DailySummary>, studySessions: seq<StudySession>)
    returns (r: seq<SummaryWithBreaks>)
    ensures |r| == |dailySummaries|
    ensures forall i :: 0 <= i < |r| ==>
      r[i].summary == dailySummaries[i] && r[i].breaks == Breaks(studySessions, dailySummaries[i].id)
  {
    var summaryIdToCount: map<int, nat> := map[];
    for i := 0 to |studySessions|
      invariant forall id :: id in summaryIdToCount ==> summaryIdToCount[id] == BreaksPrefix(studySessions, i, id)
      invariant forall id :: id !in summaryIdToCount ==> BreaksPrefix(studySessions, i, id) == 0
    {
      var id := studySessions[i].dailySummaryId;
      var current := if id in summaryIdToCount then summaryIdToCount[id] else 0;
      summaryIdToCount := summaryIdToCount[id := current + 1];
    }

    r := [];
    for j := 0 to |dailySummaries|
      invariant |r| == j
      invariant forall i :: 0 <= i < j ==>
        r[i].summary == dailySummaries[i] && r[i].breaks == Breaks(studySessions, dailySummaries[i].id)
    {
      var ds := dailySummaries[j];
      var breaks := if ds.id in summaryIdToCount then summaryIdToCount[ds.id] else 0;
      r := r + [SummaryWithBreaks(ds, breaks)];
    }
  }

  /** A summary has no breaks exactly when no session points at it, and never more
      breaks than there are sessions. */
  lemma {:induction false} BreaksPrefixFacts(ss: seq<StudySession>, n: nat, summaryId: int)
    requires n <= |ss|
    ensures BreaksPrefix(ss, n, summaryId) <= n
    ensures BreaksPrefix(ss, n, summaryId) == 0 <==> forall i :: 0 <= i < n ==> ss[i].dailySummaryId != summaryId
  {
    if n > 0 {
      BreaksPrefixFacts(ss, n - 1, summaryId);
    }
  }

  lemma BreaksZeroIff(ss: seq<StudySession>, summaryId: int)
    ensures Breaks(ss, summaryId) <= |ss|
    ensures Breaks(ss, summaryId) == 0 <==> forall i :: 0 <= i < |ss| ==> ss[i].dailySummaryId != summaryId
  {
    BreaksPrefixFacts(ss, |ss|, summaryId);
  }

  // ---------------------------------------------------------------------------
  // Get or create
  // ---------------------------------------------------------------------------

  /** The fields a new summary is created from. */
  datatype DailySummaryCreate = DailySummaryCreate(
    userId: int,
    date: int,
    avgFatigue: real,
    avgDistraction: real,
    focusedTime: int)

  predicate Matches(row: DailySummary, userId: int, date: int) {
    row.userId == userId && row.date == date
  }

  /** The first row from index `k` on with this user and date. */
  function FindFrom(rows: seq<DailySummary>, userId: int, date: int, k: nat): (r: Option<nat>)
    requires k <= |rows|
    ensures r.Some? ==> k <= r.value < |rows| && Matches(rows[r.value], userId, date)
    ensures r.Some? ==> forall j :: k <= j < r.value ==> !Matches(rows[j], userId, date)
    ensures r.None? ==> forall j :: k <= j < |rows| ==> !Matches(rows[j], userId, date)
    decreases |rows| - k
  {
    if k == |rows| then None
    else if Matches(rows[k], userId, date) then Some(k)
    else FindFrom(rows, userId, date, k + 1)
  }

  function FindSummary(rows: seq<DailySummary>, userId: int, date: int): Option<nat> {
    FindFrom(rows, userId, date, 0)
  }

  function NewSummary(data: DailySummaryCreate, id: int): DailySummary {
    DailySummary(id, data.userId, data.date, data.avgFatigue, data.avgDistraction, data.focusedTime)
  }

  /** No two rows share an id, and no two rows share a user and a date. */
  ghost predicate WellKeyed(rows: seq<DailySummary>) {
    forall i, j :: 0 <= i < j < |rows| ==>
      rows[i].id != rows[j].id && !Matches(rows[j], rows[i].userId, rows[i].date)
  }

  predicate IdIsFresh(rows: seq<DailySummary>, id: int) {
    forall i :: 0 <= i < |rows| ==> rows[i].id != id
  }

  /** The table and the summary after get-or-create: the existing summary for the
      user and date with the table untouched, or a new summary appended under `freshId`. */
  function GetOrCreated(rows: seq<DailySummary>, data: DailySummaryCreate, freshId: int)
    : (r: (seq<DailySummary>, DailySummary))
    ensures Matches(r.1, data.userId, data.date)
    ensures r.1 in r.0
    ensures FindSummary(rows, data.userId, data.date).Some? ==> r.0 == rows
    ensures FindSummary(rows, data.userId, data.date).None? ==> r.0 == rows + [NewSummary(data, freshId)]
  {
    match FindSummary(rows, data.userId, data.date)
    case Some(k) => (rows, rows[k])
    case None =>
      var created := NewSummary(data, freshId);
      (rows + [created], created)
  }

  /** Get-or-create keeps ids and (user, date) pairs unique. */
  lemma GetOrCreatedWellKeyed(rows: seq<DailySummary>, data: DailySummaryCreate, freshId: int)
    requires WellKeyed(rows) && IdIsFresh(rows, freshId)
    ensures WellKeyed(GetOrCreated(rows, data, freshId).0)
  {
  }

  /** Asking again for the same user and date returns the same summary and adds nothing,
      whatever id a second creation would have used. */
  lemma GetOrCreatedIdempotent(rows: seq<DailySummary>, data: DailySummaryCreate, freshId: int, otherId: int)
    ensures var (rows1, s1) := GetOrCreated(rows, data, freshId);
            GetOrCreated(rows1, data, otherId) == (rows1, s1)
  {
  }

  /** The summaries table: get-or-create queries it and adds at most one row. */
  class SummaryTable {
    var rows: seq<DailySummary>

    ghost predicate Valid()
      reads this
    {
      WellKeyed(rows)
    }

    constructor ()
      ensures Valid() && rows == []
    {
      rows := [];
    }

    method GetOrCreate(data: DailySummaryCreate, freshId: int) returns (summary: DailySummary)
      requires Valid() && IdIsFresh(rows, freshId)
      modifies this
      ensures Valid()
      ensures (rows, summary) == GetOrCreated(old(rows), data, freshId)
    {
      GetOrCreatedWellKeyed(rows, data, freshId);
      var found := FindSummary(rows, data.userId, data.date);
      if found.Some? {
        return rows[found.value];
      }
      var newSummary := NewSummary(data, freshId);
      rows := rows + [newSummary];
      return newSummary;
    }
  }
}
