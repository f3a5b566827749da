/**
 The script `rq1.py` once its input is given: the same per-session counting
 as `ops_per_session`, but without the `'seq'` list, followed by the count of
 sessions whose dictionary has exactly three keys, that is, three distinct
 event kinds.
 */
module Rq1 {
  import opened EventLog
  import Functions

  /** The dictionary `d` the script builds: per session, the count of each event kind. */
  function SessionCounts(rows: seq<Row>): map<string, map<string, nat>>
  {
    map s | s in Sessions(rows) :: Tally(EventsOf(rows, s))
  }

  /**
   The aggregation loop: for every session, in whatever order the session set
   is walked, count each of its events, creating the session's dictionary at
   its first event. The result is the same for every walking order.
   */
  method Aggregate(rows: seq<Row>) returns (d: map<string, map<string, nat>>)
    ensures d == SessionCounts(rows)
  {
    var sessions := Sessions(rows);
    d := map[];
    var remaining := sessions;
    while remaining != {}
      invariant remaining <= sessions
      invariant d.Keys == sessions - remaining
      invariant forall s | s in d :: d[s] == Tally(EventsOf(rows, s))
      decreases |remaining|
    {
      var session :| session in remaining;
      assert session !in d;
      EventsOfNonEmpty(rows, session);
      d := CountSession(d, session, EventsOf(rows, session));
      remaining := remaining - {session};
    }
    assert d.Keys == Sessions(rows);
  }

  /** The inner loop of the aggregation: count one session's events; only its dictionary changes. */
  method CountSession(d0: map<string, map<string, nat>>, session: string, events: seq<string>)
    returns (d: map<string, map<string, nat>>)
    requires session !in d0
    ensures events == [] ==> d == d0
    ensures events != [] ==> d == d0[session := Tally(events)]
  {
    d := d0;
    for j := 0 to |events|
      invariant j == 0 ==> d == d0
      invariant j > 0 ==> d == d0[session := Tally(events[..j])]
    {
      var event := events[j];
      var counts: map<string, nat>;
      if session in d {
        counts := d[session];
        assert counts == Tally(events[..j]);
        if event in counts {
          counts := counts[event := counts[event] + 1];
        } else {
          counts := counts[event := 1];
        }
      } else {
        // the first event of the session creates its dictionary
        assert j == 0;
        counts := map[event := 1];
      }
      assert counts == Tally(events[..j + 1]) by {
        TallyStep(events, j);
      }
      d := d[session := counts];
    }
    assert events[..|events|] == events;
  }

  /** The sessions whose dictionary has exactly three keys. */
  function Complete(d: map<string, map<string, nat>>): set<string>
  {
    set s | s in d && |d[s]| == 3
  }

  /** The counting loop: the number of dictionaries with exactly three keys. */
  method CountComplete(d: map<string, map<string, nat>>) returns (complete: nat)
    ensures complete == |Complete(d)|
    ensures complete <= |d|
  {
    ghost var full := Complete(d);
    complete := 0;
    var todo := d.Keys;
    while todo != {}
      invariant todo <= d.Keys
      invariant complete == |full - todo|
      decreases |todo|
    {
      var i :| i in todo;
      DifferenceStep(full, todo, i);
      if |d[i]| == 3 {
        complete := complete + 1;
      }
      todo := todo - {i};
    }
    assert full - todo == full;
    SubsetCard(full, d.Keys);
  }

  /** The script end to end: the number of sessions with exactly three distinct event kinds. */
  method Run(rows: seq<Row>) returns (complete: nat)
    ensures complete == |set s | s in Sessions(rows) && |Kinds(rows, s)| == 3|
    ensures complete <= |Sessions(rows)|
  {
    var d := Aggregate(rows);
    complete := CountComplete(d);
    CompleteOfCounts(rows);
    assert d.Keys == Sessions(rows);
  }

  // ---------------------------------------------------------------- properties

  /** Each count is at least one and equals the number of (session, event) rows; unseen kinds have no key. */
  lemma SessionCountsMeaning(rows: seq<Row>, s: string, e: string)
    requires s in SessionCounts(rows)
    ensures e in SessionCounts(rows)[s] <==> Row(s, e) in rows
    ensures e in SessionCounts(rows)[s] ==>
      SessionCounts(rows)[s][e] >= 1 && SessionCounts(rows)[s][e] == multiset(rows)[Row(s, e)]
  {
    TallyCounts(EventsOf(rows, s), e);
    EventsOfOccurrences(rows, s, e);
    EventsOfMembers(rows, s);
  }

  /** A session's dictionary has one key per distinct event kind it performed. */
  lemma SessionCountsSize(rows: seq<Row>, s: string)
    requires s in SessionCounts(rows)
    ensures |SessionCounts(rows)[s]| == |Kinds(rows, s)|
  {
    var events := EventsOf(rows, s);
    TallyKeys(events);
    EventsOfMembers(rows, s);
    assert Tally(events).Keys == Kinds(rows, s);
  }

  /** For each session, the sum of its counts. */
  ghost function SessionTotals(d: map<string, map<string, nat>>): map<string, nat>
  {
    map s | s in d :: SumValues(d[s])
  }

  /** The counts over all sessions and event kinds add up to the number of rows. */
  lemma SessionCountsTotal(rows: seq<Row>)
    ensures SumValues(SessionTotals(SessionCounts(rows))) == |rows|
  {
    var d := SessionCounts(rows);
    var sums := SessionTotals(d);
    assert sums.Keys == SessionSizes(rows).Keys;
    forall s | s in sums ensures sums[s] == SessionSizes(rows)[s] {
      TallyTotal(EventsOf(rows, s));
    }
    assert sums == SessionSizes(rows);
    SessionSizesTotal(rows);
  }

  /** The complete sessions of the script are those with exactly three distinct event kinds. */
  lemma CompleteOfCounts(rows: seq<Row>)
    ensures Complete(SessionCounts(rows)) == set s | s in Sessions(rows) && |Kinds(rows, s)| == 3
  {
    forall s | s in Sessions(rows) ensures |SessionCounts(rows)[s]| == |Kinds(rows, s)| {
      SessionCountsSize(rows, s);
    }
  }

  /** The script's dictionary is the counting part of what `ops_per_session` returns. */
  lemma SameCountsAsOps(rows: seq<Row>)
    ensures SessionCounts(rows) == map s | s in Functions.PerSession(rows) :: Functions.PerSession(rows)[s].counts
  {
  }
}
