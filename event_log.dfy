/**
 The event log and the reference definitions both aggregations are proved against.

 A log is the sequence of its rows in row order; each row carries the
 `user_session` and the `event_type` of one record. Nothing here orders rows by
 timestamp: row order is the only order there is.
 */
module EventLog {

  /** One row of the log: the session it belongs to and the kind of event. */
  datatype Row = Row(session: string, event: string)

  /** The sessions that occur in the log (the Python `set(dataset['user_session'])`). */
  function Sessions(rows: seq<Row>): set<string>
  {
    set r | r in rows :: r.session
  }

  /** The distinct event kinds that session `s` performed. */
  function Kinds(rows: seq<Row>, s: string): set<string>
  {
    set r | r in rows && r.session == s :: r.event
  }

  /**
   The event types of the rows of session `s`, in row order: the column
   `dataset[dataset.user_session == s].event_type` of the Python code.
   */
  function EventsOf(rows: seq<Row>, s: string): seq<string>
    decreases |rows|
  {
    if rows == [] then []
    else
      var last := rows[|rows| - 1];
      EventsOf(rows[..|rows| - 1], s) + (if last.session == s then [last.event] else [])
  }

  /** One counting step: `m[k] += 1` when `k` is a key already, `m[k] = 1` otherwise. */
  function Bump(m: map<string, nat>, k: string): (r: map<string, nat>)
    ensures r.Keys == m.Keys + {k}
    ensures r[k] == (if k in m then m[k] + 1 else 1)
    ensures r - {k} == m - {k}
  {
    m[k := if k in m then m[k] + 1 else 1]
  }

  /** The occurrence count of every element of `xs`, as a left fold of counting steps. */
  function Tally(xs: seq<string>): map<string, nat>
    decreases |xs|
  {
    if xs == [] then map[] else Bump(Tally(xs[..|xs| - 1]), xs[|xs| - 1])
  }

  /** Some key of a non-empty map; fixed once per map, so sums over maps are well defined. */
  ghost function Pick<K>(m: map<K, nat>): (k: K)
    requires m != map[]
    ensures k in m
  {
    var k :| k in m; k
  }

  /** The sum of the values of a map. */
  ghost function SumValues<K>(m: map<K, nat>): nat
    decreases |m|
  {
    if m == map[] then 0
    else
      var k := Pick(m);
      assert |(m - {k}).Keys| == |m.Keys - {k}| == |m.Keys| - 1;
      m[k] + SumValues(m - {k})
  }

  /** For each session of the log, the number of rows it owns. */
  function SessionSizes(rows: seq<Row>): map<string, nat>
  {
    map s | s in Sessions(rows) :: |EventsOf(rows, s)|
  }

  // ---------------------------------------------------------------- the filter

  /** Filtering distributes over concatenation of logs: row order is kept. */
  lemma {:induction false} EventsOfAppend(a: seq<Row>, b: seq<Row>, s: string)
    ensures EventsOf(a + b, s) == EventsOf(a, s) + EventsOf(b, s)
    decreases |b|
  {
    if b == [] {
      assert a + b == a;
    } else {
      var init := b[..|b| - 1];
      assert (a + b)[..|a + b| - 1] == a + init;
      assert (a + b)[|a + b| - 1] == b[|b| - 1];
      EventsOfAppend(a, init, s);
    }
  }

  /** Each event occurs in a session's events as often as its (session, event) row occurs in the log. */
  lemma {:induction false} EventsOfOccurrences(rows: seq<Row>, s: string, e: string)
    ensures multiset(EventsOf(rows, s))[e] == multiset(rows)[Row(s, e)]
    decreases |rows|
  {
    if rows != [] {
      var init, last := rows[..|rows| - 1], rows[|rows| - 1];
      assert rows == init + [last];
      EventsOfOccurrences(init, s, e);
    }
  }

  /** The events of a session are exactly the events of its rows. */
  lemma EventsOfMembers(rows: seq<Row>, s: string)
    ensures forall e :: e in EventsOf(rows, s) <==> Row(s, e) in rows
    ensures (set e | e in EventsOf(rows, s)) == Kinds(rows, s)
  {
    forall e ensures e in EventsOf(rows, s) <==> Row(s, e) in rows {
      EventsOfOccurrences(rows, s, e);
    }
  }

  /** A session has events exactly when it occurs in the log. */
  lemma EventsOfNonEmpty(rows: seq<Row>, s: string)
    ensures EventsOf(rows, s) != [] <==> s in Sessions(rows)
  {
    EventsOfMembers(rows, s);
    if s in Sessions(rows) {
      var r :| r in rows && r.session == s;
      assert r == Row(s, r.event);
      assert r.event in EventsOf(rows, s);
    }
  }

  // ---------------------------------------------------------------- the tally

  /** The tally's keys are the elements of the sequence, each mapped to its occurrence count. */
  lemma {:induction false} TallyCounts(xs: seq<string>, e: string)
    ensures e in Tally(xs) <==> e in xs
    ensures e in Tally(xs) ==> Tally(xs)[e] == multiset(xs)[e] >= 1
    decreases |xs|
  {
    if xs != [] {
      var init, last := xs[..|xs| - 1], xs[|xs| - 1];
      assert xs == init + [last];
      TallyCounts(init, e);
    }
  }

  /** Extending a prefix by the next element extends its tally by one counting step. */
  lemma TallyStep(xs: seq<string>, j: nat)
    requires j < |xs|
    ensures xs[..j + 1] == xs[..j] + [xs[j]]
    ensures Tally(xs[..j + 1]) == Bump(Tally(xs[..j]), xs[j])
  {
    assert xs[..j + 1][..j] == xs[..j];
  }

  /** The tally's key set is the set of distinct elements. */
  lemma TallyKeys(xs: seq<string>)
    ensures Tally(xs).Keys == set x | x in xs
  {
    forall e ensures e in Tally(xs) <==> e in xs {
      TallyCounts(xs, e);
    }
  }

  /** The counts of a tally add up to the length of the sequence. */
  lemma {:induction false} TallyTotal(xs: seq<string>)
    ensures SumValues(Tally(xs)) == |xs|
    decreases |xs|
  {
    if xs != [] {
      var init := xs[..|xs| - 1];
      TallyTotal(init);
      SumValuesBump(Tally(init), xs[|xs| - 1]);
    }
  }

  // ---------------------------------------------------------------- sums

  /** A sum over a map may take out any key first. */
  lemma {:induction false} SumValuesRemove<K>(m: map<K, nat>, k: K)
    requires k in m
    ensures SumValues(m) == m[k] + SumValues(m - {k})
    decreases |m|
  {
    var p := Pick(m);
    if p != k {
      assert |(m - {p}).Keys| == |m.Keys - {p}| == |m.Keys| - 1;
      SumValuesRemove(m - {p}, k);
      SumValuesRemove(m - {k}, p);
      assert m - {p} - {k} == m - {k} - {p};
    }
  }

  /** One counting step raises the sum by exactly one. */
  lemma SumValuesBump(m: map<string, nat>, k: string)
    ensures SumValues(Bump(m, k)) == SumValues(m) + 1
  {
    var b := Bump(m, k);
    SumValuesRemove(b, k);
    if k in m {
      SumValuesRemove(m, k);
      assert b - {k} == m - {k};
    } else {
      assert b - {k} == m;
    }
  }

  // ---------------------------------------------------------------- counting loops over sets

  /** Taking one more element out of `todo` adds it to `full - todo` when it is in `full`. */
  lemma DifferenceStep(full: set<string>, todo: set<string>, i: string)
    requires i in todo
    ensures |full - (todo - {i})| == |full - todo| + (if i in full then 1 else 0)
  {
    if i in full {
      assert full - (todo - {i}) == (full - todo) + {i};
    } else {
      assert full - (todo - {i}) == full - todo;
    }
  }

  /** A subset is no larger than its superset. */
  lemma {:induction false} SubsetCard(a: set<string>, b: set<string>)
    requires a <= b
    ensures |a| <= |b|
    decreases |b|
  {
    if a != {} {
      var x :| x in a;
      SubsetCard(a - {x}, b - {x});
    }
  }

  // ---------------------------------------------------------------- row counts

  /** One more row adds one to its session's row count, creating the session if it is new. */
  lemma SessionSizesStep(rows: seq<Row>)
    requires rows != []
    ensures SessionSizes(rows) == Bump(SessionSizes(rows[..|rows| - 1]), rows[|rows| - 1].session)
  {
    var init, last := rows[..|rows| - 1], rows[|rows| - 1];
    assert Sessions(rows) == Sessions(init) + {last.session} by {
      assert rows == init + [last];
    }
    var after, bumped := SessionSizes(rows), Bump(SessionSizes(init), last.session);
    assert after.Keys == bumped.Keys;
    forall s | s in after ensures after[s] == bumped[s] {
      EventsOfNonEmpty(init, s);
    }
  }

  /** The sessions' row counts add up to the number of rows. */
  lemma {:induction false} SessionSizesTotal(rows: seq<Row>)
    ensures SumValues(SessionSizes(rows)) == |rows|
    decreases |rows|
  {
    if rows != [] {
      var init := rows[..|rows| - 1];
      SessionSizesTotal(init);
      SessionSizesStep(rows);
      SumValuesBump(SessionSizes(init), rows[|rows| - 1].session);
    }
  }
}
