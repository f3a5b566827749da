/**
 The two functions of `functions.py`: `ops_per_session` builds, for every
 session, a dictionary of event counts that also holds the session's events
 under the key `'seq'`; `complete_funnels` counts the dictionaries with exactly
 three keys.
 */
module Functions {
  import opened EventLog

  /** The key under which the Python dictionary stores a session's event list. */
  const SeqKey: string := "seq"

  /**
   The inner dictionary of one session: the event counts, and under `'seq'`
   the session's events in row order.
   */
  datatype Entry = Entry(counts: map<string, nat>, sequence: seq<string>)

  /** Python's `len` of the inner dictionary: its count keys together with `'seq'`. */
  function Len(e: Entry): (n: nat)
    ensures SeqKey !in e.counts ==> n == |e.counts| + 1
  {
    var keys := e.counts.Keys + {SeqKey};
    assert SeqKey !in e.counts ==> |keys| == |e.counts.Keys| + 1;
    |keys|
  }

  /** No event kind collides with the `'seq'` key. */
  predicate NoSeqEvent(rows: seq<Row>)
  {
    forall i | 0 <= i < |rows| :: rows[i].event != SeqKey
  }

  /** When no row has the event `"seq"`, no session's events contain it either. */
  lemma NoSeqEventOf(rows: seq<Row>, s: string)
    requires NoSeqEvent(rows)
    ensures SeqKey !in EventsOf(rows, s)
  {
    EventsOfMembers(rows, s);
  }

  /** The entry the Python code leaves for session `s`. */
  function EntryOf(rows: seq<Row>, s: string): Entry
  {
    var events := EventsOf(rows, s);
    Entry(Tally(events), events)
  }

  /** The dictionary `ops_per_session` returns: one entry per session of the log. */
  function PerSession(rows: seq<Row>): map<string, Entry>
  {
    map s | s in Sessions(rows) :: EntryOf(rows, s)
  }

  /**
   `ops_per_session`: for every session, in whatever order the session set is
   walked, scan its rows. The result is the same for every walking order, and
   each session's entry is written only while that session is scanned.
   */
  method OpsPerSession(rows: seq<Row>) returns (d: map<string, Entry>)
    requires NoSeqEvent(rows)
    ensures d == PerSession(rows)
  {
    var sessions := Sessions(rows);
    d := map[];
    var remaining := sessions;
    while remaining != {}
      invariant remaining <= sessions
      invariant d.Keys == sessions - remaining
      invariant forall s | s in d :: d[s] == EntryOf(rows, s)
      decreases |remaining|
    {
      var session :| session in remaining;
      assert session !in d;
      EventsOfNonEmpty(rows, session);
      NoSeqEventOf(rows, session);
      d := ScanSession(d, session, EventsOf(rows, session));
      remaining := remaining - {session};
    }
  }

  /**
   The inner loop of `ops_per_session`: count each event of one session and
   append it to the session's `'seq'`, creating the entry at the first event.
   Only that session's entry changes.
   */
  method ScanSession(d0: map<string, Entry>, session: string, events: seq<string>)
    returns (d: map<string, Entry>)
    requires session !in d0
    requires SeqKey !in events
    ensures events == [] ==> d == d0
    ensures events != [] ==> d == d0[session := Entry(Tally(events), events)]
  {
    d := d0;
    for j := 0 to |events|
      invariant j == 0 ==> d == d0
      invariant j > 0 ==> d == d0[session := Entry(Tally(events[..j]), events[..j])]
    {
      var event := events[j];
      var entry: Entry;
      if session in d {
        entry := d[session];
        assert entry == Entry(Tally(events[..j]), events[..j]);
        if event in entry.counts {
          entry := entry.(counts := entry.counts[event := entry.counts[event] + 1]);
        } else {
          entry := entry.(counts := entry.counts[event := 1]);
        }
        entry := entry.(sequence := entry.sequence + [event]);
      } else {
        // the first event of the session creates its dictionary
        assert j == 0;
        entry := Entry(map[event := 1], [event]);
      }
      assert entry == Entry(Tally(events[..j + 1]), events[..j + 1]) by {
        TallyStep(events, j);
      }
      d := d[session := entry];
    }
    assert events[..|events|] == events;
  }

  /** The sessions whose dictionary has exactly three keys. */
  function Complete(d: map<string, Entry>): set<string>
  {
    set s | s in d && Len(d[s]) == 3
  }

  /** `complete_funnels`: the number of entries with exactly three keys. */
  method CompleteFunnels(d: map<string, Entry>) returns (complete: nat)
    ensures complete == |Complete(d)|
    ensures complete <= |d|
  {
    ghost var full := Complete(d);
    complete := 0;
    var todo := d.Keys;
    while todo != {}
      invariant todo <= d.Keys
      invariant complete == |full - todo|
      decreases |todo|
    {
      var i :| i in todo;
      DifferenceStep(full, todo, i);
      if Len(d[i]) == 3 {
        complete := complete + 1;
      }
      todo := todo - {i};
    }
    assert full - todo == full;
    SubsetCard(full, d.Keys);
  }

  // ---------------------------------------------------------------- properties

  /** The entries' keys are exactly the sessions that occur in the log. */
  lemma PerSessionKeys(rows: seq<Row>, s: string)
    ensures s in PerSession(rows) <==> exists i :: 0 <= i < |rows| && rows[i].session == s
  {
    if s in Sessions(rows) {
      var r :| r in rows && r.session == s;
      var i :| 0 <= i < |rows| && rows[i] == r;
    }
  }

  /**
   A session's `'seq'` is non-empty and holds each event as often as the log
   holds the (session, event) row, and nothing else.
   */
  lemma PerSessionSequence(rows: seq<Row>, s: string)
    requires s in PerSession(rows)
    ensures PerSession(rows)[s].sequence != []
    ensures forall e :: e in PerSession(rows)[s].sequence <==> Row(s, e) in rows
    ensures forall e :: multiset(PerSession(rows)[s].sequence)[e] == multiset(rows)[Row(s, e)]
  {
    EventsOfNonEmpty(rows, s);
    EventsOfMembers(rows, s);
    forall e ensures multiset(PerSession(rows)[s].sequence)[e] == multiset(rows)[Row(s, e)] {
      EventsOfOccurrences(rows, s, e);
    }
  }

  /**
   Each count is at least one and counts both the event's occurrences in
   `'seq'` and the (session, event) rows of the log; kinds the session never
   performed have no key.
   */
  lemma PerSessionCounts(rows: seq<Row>, s: string, e: string)
    requires s in PerSession(rows)
    ensures e in PerSession(rows)[s].counts <==> Row(s, e) in rows
    ensures e in PerSession(rows)[s].counts ==>
      var n := PerSession(rows)[s].counts[e];
      n >= 1 && n == multiset(PerSession(rows)[s].sequence)[e] && n == multiset(rows)[Row(s, e)]
  {
    var events := EventsOf(rows, s);
    TallyCounts(events, e);
    EventsOfOccurrences(rows, s, e);
    EventsOfMembers(rows, s);
  }

  /** For each session, the length of its `'seq'`. */
  function SequenceLengths(d: map<string, Entry>): map<string, nat>
  {
    map s | s in d :: |d[s].sequence|
  }

  /** A session's counts add up to the length of its `'seq'`; all the `'seq'` lengths add up to the number of rows. */
  lemma PerSessionTotals(rows: seq<Row>)
    ensures forall s | s in PerSession(rows) ::
      SumValues(PerSession(rows)[s].counts) == |PerSession(rows)[s].sequence|
    ensures SumValues(SequenceLengths(PerSession(rows))) == |rows|
  {
    var d := PerSession(rows);
    forall s | s in d ensures SumValues(d[s].counts) == |d[s].sequence| {
      TallyTotal(EventsOf(rows, s));
    }
    assert SequenceLengths(d) == SessionSizes(rows);
    SessionSizesTotal(rows);
  }

  /** A session's dictionary has one key per distinct event kind plus `'seq'`. */
  lemma PerSessionLen(rows: seq<Row>, s: string)
    requires NoSeqEvent(rows)
    requires s in PerSession(rows)
    ensures Len(PerSession(rows)[s]) == |Kinds(rows, s)| + 1
  {
    var events := EventsOf(rows, s);
    TallyKeys(events);
    EventsOfMembers(rows, s);
    assert Tally(events).Keys == Kinds(rows, s);
  }

  /**
   Applied to the output of `ops_per_session`, `complete_funnels` counts the
   sessions with exactly TWO distinct event kinds: the `'seq'` key is the third key.
   */
  lemma CompleteFunnelsOfOps(rows: seq<Row>)
    requires NoSeqEvent(rows)
    ensures Complete(PerSession(rows)) == set s | s in Sessions(rows) && |Kinds(rows, s)| == 2
  {
    forall s | s in Sessions(rows) ensures Len(PerSession(rows)[s]) == |Kinds(rows, s)| + 1 {
      PerSessionLen(rows, s);
    }
  }

  /** A session that only viewed and carted counts as a complete funnel. */
  lemma TwoKindsCountAsComplete()
    ensures |Complete(PerSession([Row("u", "view"), Row("u", "cart")]))| == 1
  {
    var rows := [Row("u", "view"), Row("u", "cart")];
    assert Sessions(rows) == {"u"};
    assert |Kinds(rows, "u")| == 2 by {
      assert "view" != "cart" by { assert "view"[0] != "cart"[0]; }
      assert Kinds(rows, "u") == {"view", "cart"};
    }
    assert NoSeqEvent(rows) by { assert |SeqKey| == 3; }
    CompleteFunnelsOfOps(rows);
    assert (set s | s in Sessions(rows) && |Kinds(rows, s)| == 2) == {"u"};
  }

  /** A session that viewed, carted and purchased does not count as a complete funnel. */
  lemma ThreeKindsDoNotCount()
    ensures |Complete(PerSession([Row("u", "view"), Row("u", "cart"), Row("u", "purchase")]))| == 0
  {
    var rows := [Row("u", "view"), Row("u", "cart"), Row("u", "purchase")];
    assert Sessions(rows) == {"u"};
    assert |Kinds(rows, "u")| == 3 by {
      assert "view" != "cart" by { assert "view"[0] != "cart"[0]; }
      assert "purchase" != "cart" && "purchase" != "view" by { assert |"purchase"| == 8; }
      assert Kinds(rows, "u") == {"view", "cart", "purchase"};
    }
    assert NoSeqEvent(rows) by { assert |SeqKey| == 3; }
    CompleteFunnelsOfOps(rows);
    assert (set s | s in Sessions(rows) && |Kinds(rows, s)| == 2) == {};
  }
}
