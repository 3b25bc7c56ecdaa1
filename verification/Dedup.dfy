/**
 The bounded dedup table of consumed events (dsl/context.go): lookups, insertion with
 lazy expiry, and eviction of the oldest entry when the table is full.
 */
module Dedup {
  import opened Definition

  /** 72 hours in nanoseconds. */
  const TTL := 259200000000000

  type Table = map<Key, int>

  /** What `t` keeps of `s`: a subset of its entries, with their times. */
  ghost predicate Within(t: Table, s: Table) {
    t.Keys <= s.Keys && forall k <- t :: t[k] == s[k]
  }

  method DropExpired(table: Table, now: int) returns (kept: Table)
    ensures kept == map k | k in table && table[k] > now - TTL :: table[k]
  {
    kept := table;
    var left := table.Keys;
    while left != {}
      invariant left <= table.Keys
      invariant kept == map k | k in table && (k in left || table[k] > now - TTL) :: table[k]
      decreases left
    {
      var k :| k in left;
      if table[k] <= now - TTL {
        kept := kept - {k};
      }
      left := left - {k};
    }
  }

  /** One scan for the entry with the least time; 0 marks that none was seen yet. */
  method Oldest(table: Table) returns (oldest: Option<Key>)
    ensures table != map[] ==> oldest.Some?
    ensures oldest.Some? ==> oldest.value in table
    ensures (forall k <- table :: table[k] > 0) && oldest.Some? ==> forall k <- table :: table[oldest.value] <= table[k]
  {
    oldest := None;
    var oldestTime := 0;
    var left := table.Keys;
    while left != {}
      invariant left <= table.Keys
      invariant left != table.Keys ==> oldest.Some?
      invariant oldest.Some? ==> oldest.value in table && oldestTime == table[oldest.value]
      invariant oldest.None? ==> left == table.Keys && oldestTime == 0
      invariant (forall k <- table :: table[k] > 0) && oldest.Some? ==> forall k <- table.Keys - left :: oldestTime <= table[k]
      decreases left
    {
      var k :| k in left;
      if oldestTime == 0 || table[k] < oldestTime {
        oldest, oldestTime := Some(k), table[k];
      }
      left := left - {k};
    }
  }

  ghost predicate Positive(t: Table) {
    forall k <- t :: t[k] > 0
  }

  /** `kept` is `table` without its expired entries and then without its oldest ones,
      as many as it takes to leave room for one more. */
  ghost predicate Swept(table: Table, now: int, kept: Table) {
    && Within(kept, table)
    && (forall k <- kept :: table[k] > now - TTL)
    && |kept| < MAX_EVENTS
    && (Positive(table) ==>
          forall k <- table :: k !in kept && table[k] > now - TTL ==>
            |kept| == MAX_EVENTS - 1 && forall j <- kept :: table[k] <= table[j])
  }

  method Sweep(table: Table, now: int) returns (kept: Table)
    ensures Swept(table, now, kept)
  {
    kept := DropExpired(table, now);
    ghost var alive := kept;
    while |kept| >= MAX_EVENTS
      invariant Within(kept, alive)
      invariant kept == alive || |kept| >= MAX_EVENTS - 1
      invariant Positive(table) ==> forall k <- alive :: k !in kept ==> forall j <- kept :: table[k] <= table[j]
      decreases |kept|
    {
      var oldest := Oldest(kept);
      if oldest.None? {
        return;
      }
      ghost var before := kept;
      kept := kept - {oldest.value};
      assert before.Keys == kept.Keys + {oldest.value};
      assert |before.Keys| == |kept.Keys| + 1;
    }
  }

  /** trackEvent: an id already present is left alone; a full table is swept first. */
  method TrackEvent(table: Table, key: Key, now: int) returns (t: Table)
    ensures key in table ==> t == table
    ensures key !in table && |table| < MAX_EVENTS ==> t == table[key := now]
    ensures key !in table && |table| >= MAX_EVENTS ==> key in t && t[key] == now && Swept(table, now, t - {key})
    ensures |table| <= MAX_EVENTS ==> |t| <= MAX_EVENTS
  {
    if key in table {
      return table;
    }
    t := table;
    if |t| >= MAX_EVENTS {
      t := Sweep(t, now);
    }
    ghost var kept := t;
    t := t[key := now];
    assert t - {key} == kept;
    assert t.Keys == kept.Keys + {key} && |t.Keys| == |kept.Keys| + 1;
  }

  // --------------------------------------------------------------- whole histories

  datatype Step = Consumed(key: Key, at: int) | Released(key: Key)

  /** What one step makes of the table. */
  ghost predicate StepTable(t: Table, s: Step, u: Table) {
    match s
    case Released(key) => u == t - {key}
    case Consumed(key, at) =>
      if key in t then u == t
      else if |t| < MAX_EVENTS then u == t[key := at]
      else key in u && u[key] == at && Swept(t, at, u - {key})
  }

  /** The tables a history leads through, from the empty one. */
  ghost predicate Tables(steps: seq<Step>, ts: seq<Table>) {
    && |ts| == |steps| + 1 && ts[0] == map[]
    && forall i | 0 <= i < |steps| :: StepTable(ts[i], steps[i], ts[i + 1])
  }

  method PlayOne(t: Table, s: Step) returns (u: Table)
    ensures StepTable(t, s, u)
  {
    match s {
      case Consumed(key, at) =>
        u := TrackEvent(t, key, at);
      case Released(key) =>
        u := t - {key};
    }
  }

  lemma TablesMore(steps: seq<Step>, ts: seq<Table>, s: Step, u: Table)
    requires Tables(steps, ts) && StepTable(ts[|steps|], s, u)
    ensures Tables(steps + [s], ts + [u])
  {
    hide StepTable;
    forall i | 0 <= i < |steps| + 1 ensures StepTable((ts + [u])[i], (steps + [s])[i], (ts + [u])[i + 1]) {
      assert i < |steps| ==> StepTable(ts[i], steps[i], ts[i + 1]);
    }
  }


  /** Every consumption reads a later, positive time. */
  ghost predicate Clocked(steps: seq<Step>) {
    && (forall i | 0 <= i < |steps| :: steps[i].Consumed? ==> steps[i].at > 0)
    && forall i, j | 0 <= i < j < |steps| :: steps[i].Consumed? && steps[j].Consumed? ==> steps[i].at < steps[j].at
  }

  /** How many steps from `i` to `j` put a new id into the table. */
  ghost function Insertions(steps: seq<Step>, ts: seq<Table>, i: nat, j: nat): nat
    requires |ts| == |steps| + 1 && i <= j <= |steps|
    decreases j - i
  {
    if i == j then 0
    else Insertions(steps, ts, i, j - 1) + if steps[j - 1].Consumed? && steps[j - 1].key !in ts[j - 1] then 1 else 0
  }

  /** The times in the table are those of past consumptions. */
  ghost predicate Dated(steps: seq<Step>, t: Table, n: nat)
    requires n <= |steps|
  {
    forall k <- t :: exists i | 0 <= i < n :: steps[i] == Consumed(k, t[k])
  }

  lemma {:induction false} AllDated(steps: seq<Step>, ts: seq<Table>, n: nat)
    requires Tables(steps, ts) && n <= |steps|
    ensures Dated(steps, ts[n], n) && |ts[n]| <= MAX_EVENTS
    decreases n
  {
    if n > 0 {
      AllDated(steps, ts, n - 1);
      var t, s, u := ts[n - 1], steps[n - 1], ts[n];
      assert StepTable(t, s, u);
      forall k | k in u ensures exists i | 0 <= i < n :: steps[i] == Consumed(k, u[k]) {
        if s.Consumed? && s.key !in t && k == s.key {
          assert steps[n - 1] == Consumed(k, u[k]);
        } else {
          assert k in t && u[k] == t[k] by {
            if s.Consumed? && s.key !in t && |t| >= MAX_EVENTS {
              assert k in u - {s.key};
            }
          }
          var i :| 0 <= i < n - 1 && steps[i] == Consumed(k, t[k]);
        }
      }
      StepBounded(t, s, u);
    }
  }

  lemma StepBounded(t: Table, s: Step, u: Table)
    requires StepTable(t, s, u) && |t| <= MAX_EVENTS
    ensures |u| <= MAX_EVENTS
  {
    match s {
      case Released(key) =>
        assert u.Keys <= t.Keys;
        SmallerTable(u.Keys, t.Keys);
      case Consumed(key, at) =>
        if key !in t {
          var kept := u - {key};
          assert u.Keys == kept.Keys + {key};
          if |t| < MAX_EVENTS {
            assert kept == t;
          }
        }
    }
  }

  lemma SmallerTable(a: set<Key>, b: set<Key>)
    requires a <= b
    ensures |a| <= |b|
  {
    if a != {} {
      var x :| x in a;
      SmallerTable(a - {x}, b - {x});
    }
  }

  /** The ids in the table that are newer than time `at`. */
  ghost function Newer(t: Table, at: int): set<Key> {
    set k | k in t && t[k] > at
  }

  /** No step makes more ids newer than a past time than it inserts. */
  lemma NewerStep(t: Table, s: Step, u: Table, at: int)
    requires StepTable(t, s, u)
    ensures |Newer(u, at)| <= |Newer(t, at)| + if s.Consumed? && s.key !in t then 1 else 0
  {
    if s.Consumed? && s.key !in t {
      forall k | k in Newer(u, at) - {s.key} ensures k in Newer(t, at) {
        if |t| >= MAX_EVENTS {
          assert k in u - {s.key};
        }
      }
      SmallerTable(Newer(u, at) - {s.key}, Newer(t, at));
      if s.key in Newer(u, at) {
        assert |Newer(u, at) - {s.key}| == |Newer(u, at)| - 1;
      } else {
        assert Newer(u, at) - {s.key} == Newer(u, at);
      }
    } else {
      assert Newer(u, at) <= Newer(t, at);
      SmallerTable(Newer(u, at), Newer(t, at));
    }
  }

  /** The program goes through such tables. */
  method Play(steps: seq<Step>) returns (table: Table, ghost ts: seq<Table>)
    ensures Tables(steps, ts) && table == ts[|steps|]
    ensures |table| <= MAX_EVENTS && forall k <- table :: exists i | 0 <= i < |steps| :: steps[i] == Consumed(k, table[k])
  {
    hide StepTable;
    table := map[];
    ts := [table];
    var i := 0;
    while i < |steps|
      invariant i <= |steps| && Tables(steps[..i], ts) && table == ts[i]
    {
      ghost var t := table;
      table := PlayOne(table, steps[i]);
      TablesMore(steps[..i], ts, steps[i], table);
      assert steps[..i + 1] == steps[..i] + [steps[i]];
      ts := ts + [table];
      i := i + 1;
    }
    assert steps[..i] == steps;
    AllDated(steps, ts, |steps|);
  }

  /** A full table gives up an id that is neither expired nor older than 4095 others. */
  lemma Survives(t: Table, s: Step, u: Table, key: Key)
    requires StepTable(t, s, u) && key in t && s != Released(key)
    requires Positive(t) && (forall k <- t :: k != key ==> t[k] != t[key])
    requires s.Consumed? ==> s.at - t[key] < TTL
    requires s.Consumed? && s.key !in t ==> |Newer(t, t[key])| < MAX_EVENTS - 1
    ensures key in u && u[key] == t[key]
  {
    if s.Consumed? && s.key !in t && |t| >= MAX_EVENTS {
      var kept := u - {s.key};
      if key !in kept {
        forall j | j in kept ensures j in Newer(t, t[key]) {
          assert t[key] <= t[j] && j != key;
        }
        SmallerTable(kept.Keys, Newer(t, t[key]));
        assert false;
      }
    }
  }

  lemma Inserted(t: Table, key: Key, at: int, u: Table)
    requires StepTable(t, Consumed(key, at), u) && key !in t
    ensures key in u && u[key] == at
  {
  }

  lemma NoneNewer(steps: seq<Step>, t: Table, i: nat)
    requires Clocked(steps) && i < |steps| && steps[i].Consumed? && Dated(steps, t, i + 1)
    ensures Newer(t, steps[i].at) == {}
  {
    forall k | k in t ensures t[k] <= steps[i].at {
      var m :| 0 <= m < i + 1 && steps[m] == Consumed(k, t[k]);
    }
  }

  /** Times are positive, and no other id has the time of step `i`. */
  lemma OtherTimes(steps: seq<Step>, t: Table, i: nat, n: nat)
    requires Clocked(steps) && i < n <= |steps| && steps[i].Consumed? && Dated(steps, t, n)
    ensures Positive(t) && forall k <- t :: k != steps[i].key ==> t[k] != steps[i].at
  {
    forall k | k in t ensures t[k] > 0 && (k != steps[i].key ==> t[k] != steps[i].at) {
      var m :| 0 <= m < n && steps[m] == Consumed(k, t[k]);
    }
  }

  /** An id consumed and not released is still known, and so refused, while it is younger
      than 72 hours and fewer than 4096 new ids were consumed after it. */
  lemma {:induction false} Retained(steps: seq<Step>, ts: seq<Table>, i: nat, j: nat)
    requires Tables(steps, ts) && Clocked(steps) && i < j <= |steps|
    requires steps[i].Consumed? && steps[i].key !in ts[i]
    requires forall m | i < m < j :: steps[m] != Released(steps[i].key)
    requires forall m | i < m < j :: steps[m].Consumed? ==> steps[m].at - steps[i].at < TTL
    requires Insertions(steps, ts, i + 1, j) < MAX_EVENTS
    ensures steps[i].key in ts[j] && ts[j][steps[i].key] == steps[i].at
    ensures |Newer(ts[j], steps[i].at)| <= Insertions(steps, ts, i + 1, j)
    decreases j - i
  {
    hide StepTable, Dated, Swept;
    var key, at := steps[i].key, steps[i].at;
    assert StepTable(ts[j - 1], steps[j - 1], ts[j]);
    if j == i + 1 {
      Inserted(ts[i], key, at, ts[j]);
      AllDated(steps, ts, j);
      NoneNewer(steps, ts[j], i);
    } else {
      Retained(steps, ts, i, j - 1);
      AllDated(steps, ts, j - 1);
      OtherTimes(steps, ts[j - 1], i, j - 1);
      Survives(ts[j - 1], steps[j - 1], ts[j], key);
      NewerStep(ts[j - 1], steps[j - 1], ts[j], at);
    }
  }
}
