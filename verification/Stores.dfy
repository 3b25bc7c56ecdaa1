/**
 The in-memory stores (dsl/journal.go, dsl/store.go): one journal for all instances, and
 the table of instance summaries and snapshots.
 */
module Stores {
  import opened Definition
  import opened Journal
  import opened Replay
  import Lexical

  // ---------------------------------------------------------------- the journal

  datatype Stored = Stored(instance: string, seqNo: int, occ: Occ)

  /** The records of one instance, in the order of the journal. */
  function EntriesOf(stored: seq<Stored>, id: string): seq<Entry> {
    if stored == [] then []
    else
      var last := stored[|stored| - 1];
      EntriesOf(stored[..|stored| - 1], id) + if last.instance == id then [Entry(last.seqNo, last.occ)] else []
  }

  function LastSeq(entries: seq<Entry>): int {
    if entries == [] then 0 else entries[|entries| - 1].seqNo
  }

  /** Numbered from 1 without gaps. */
  ghost predicate Numbered(stored: seq<Stored>) {
    forall i | 0 <= i < |stored| :: stored[i].seqNo == i + 1
  }

  lemma {:induction false} EntriesIncrease(stored: seq<Stored>, id: string)
    requires Numbered(stored)
    ensures Increasing(EntriesOf(stored, id))
    ensures forall e <- EntriesOf(stored, id) :: 0 < e.seqNo <= |stored|
  {
    if stored != [] {
      EntriesIncrease(stored[..|stored| - 1], id);
      var before := EntriesOf(stored[..|stored| - 1], id);
      forall i | 0 <= i < |before| ensures before[i].seqNo < |stored| {
        assert before[i] in before;
      }
    }
  }

  /** `after` extends `before` by records numbered above `mark`. */
  ghost predicate Later(before: seq<Entry>, after: seq<Entry>, mark: int) {
    before <= after && forall i | |before| <= i < |after| :: after[i].seqNo > mark
  }

  lemma LaterSelf(entries: seq<Entry>, mark: int)
    ensures Later(entries, entries, mark)
  {
  }

  lemma LaterMore(before: seq<Entry>, mid: seq<Entry>, after: seq<Entry>, mark: int, e: Entry)
    requires Later(before, mid, mark) && after == mid + [e] && e.seqNo > mark
    ensures Later(before, after, mark)
  {
  }

  lemma Appended(stored: seq<Stored>, last: Stored)
    ensures EntriesOf(stored + [last], last.instance) == EntriesOf(stored, last.instance) + [Entry(last.seqNo, last.occ)]
    ensures forall id: string :: id != last.instance ==> EntriesOf(stored + [last], id) == EntriesOf(stored, id)
    ensures LastSeq(EntriesOf(stored + [last], last.instance)) == last.seqNo
    ensures Numbered(stored) && last.seqNo == |stored| + 1 ==> Numbered(stored + [last])
  {
    assert (stored + [last])[..|stored|] == stored;
  }

  class MemoryJournal {
    var occs: seq<Stored>
    var next: int
    var maxSeq: map<string, int>

    ghost predicate Valid()
      reads this
    {
      && next == |occs| && Numbered(occs)
      && forall id: string :: (if id in maxSeq then maxSeq[id] else 0) == LastSeq(EntriesOf(occs, id))
    }

    ghost function LogOf(id: string): seq<Occ>
      reads this
    {
      Occs(EntriesOf(occs, id))
    }

    constructor ()
      ensures Valid() && occs == []
    {
      occs, next, maxSeq := [], 0, map[];
    }

    /** Append: numbers the record and remembers the instance's progress. */
    method Append(id: string, o: Occ)
      requires Valid()
      modifies this
      ensures Valid() && occs == old(occs) + [Stored(id, old(next) + 1, o)]
      ensures LogOf(id) == old(LogOf(id)) + [o]
      ensures forall other: string :: other != id ==> EntriesOf(occs, other) == old(EntriesOf(occs, other))
      ensures EntriesOf(occs, id) == old(EntriesOf(occs, id)) + [Entry(old(next) + 1, o)] && next == old(next) + 1
    {
      hide EntriesOf, Numbered;
      EntriesIncrease(occs, id);
      next := next + 1;
      Appended(occs, Stored(id, next, o));
      occs := occs + [Stored(id, next, o)];
      assert Occs(EntriesOf(occs, id)) == old(LogOf(id)) + [o];
      if (if id in maxSeq then maxSeq[id] else 0) < next {
        maxSeq := maxSeq[id := next];
      }
    }

    /** MaxSeq. */
    method MaxSeq(id: string) returns (n: int)
      requires Valid()
      ensures n == LastSeq(EntriesOf(occs, id)) && 0 <= n <= next
      ensures forall e <- EntriesOf(occs, id) :: e.seqNo <= n
    {
      n := if id in maxSeq then maxSeq[id] else 0;
      EntriesIncrease(occs, id);
      var entries := EntriesOf(occs, id);
      assert forall i | 0 <= i < |entries| - 1 :: entries[i].seqNo < entries[|entries| - 1].seqNo;
    }

    /** LoadOccurrences: the records of one instance, in ascending order. */
    method Load(id: string) returns (out: seq<Entry>)
      requires Valid()
      ensures out == EntriesOf(occs, id) && Increasing(out)
    {
      out := [];
      var i := 0;
      while i < |occs|
        invariant i <= |occs| && out == EntriesOf(occs[..i], id)
      {
        assert occs[..i + 1][..i] == occs[..i];
        if occs[i].instance == id {
          out := out + [Entry(occs[i].seqNo, occs[i].occ)];
        }
        i := i + 1;
      }
      assert occs[..i] == occs;
      EntriesIncrease(occs, id);
    }

    /** The records an operation wrote, one after the other. */
    method AppendAll(id: string, more: seq<Occ>)
      requires Valid()
      modifies this
      ensures Valid() && LogOf(id) == old(LogOf(id)) + more
      ensures forall other: string :: other != id ==> EntriesOf(occs, other) == old(EntriesOf(occs, other))
      ensures next >= old(next) && Later(old(EntriesOf(occs, id)), EntriesOf(occs, id), old(next))
    {
      hide Later, EntriesOf, Numbered;
      LaterSelf(EntriesOf(occs, id), next);
      var i := 0;
      while i < |more|
        invariant i <= |more| && Valid() && LogOf(id) == old(LogOf(id)) + more[..i]
        invariant forall other: string :: other != id ==> EntriesOf(occs, other) == old(EntriesOf(occs, other))
        invariant next >= old(next) && Later(old(EntriesOf(occs, id)), EntriesOf(occs, id), old(next))
      {
        ghost var mid := EntriesOf(occs, id);
        Append(id, more[i]);
        LaterMore(old(EntriesOf(occs, id)), mid, EntriesOf(occs, id), old(next), Entry(next, more[i]));
        assert more[..i + 1] == more[..i] + [more[i]];
        i := i + 1;
      }
      assert more[..i] == more;
    }
  }

  // ------------------------------------------------------- summaries and snapshots

  /** The summary row of an instance: an index, not its state. */
  datatype InstanceRecord = InstanceRecord(
    instance: string, definition: string, status: Status, node: string, wakeUpAt: Option<int>)

  datatype Snapshot = Snapshot(uptoSeq: int, savepoint: Savepoint)

  predicate Wakeable(r: InstanceRecord, now: int) {
    r.status == Waiting && r.wakeUpAt.Some? && r.wakeUpAt.value <= now
  }

  ghost predicate SortedById(rows: seq<InstanceRecord>) {
    forall i, j | 0 <= i < j < |rows| :: !Lexical.Less(rows[j].instance, rows[i].instance)
  }

  class MemoryStore {
    var rows: map<string, InstanceRecord>
    var snapshots: map<string, Snapshot>

    ghost predicate Valid()
      reads this
    {
      forall id <- rows :: rows[id].instance == id
    }

    constructor ()
      ensures Valid() && rows == map[] && snapshots == map[]
    {
      rows, snapshots := map[], map[];
    }

    /** CreateInstance: refused when the id is taken. */
    method Create(row: InstanceRecord) returns (ok: bool)
      requires Valid()
      modifies this
      ensures Valid() && snapshots == old(snapshots)
      ensures ok <==> row.instance !in old(rows)
      ensures rows == if ok then old(rows)[row.instance := row] else old(rows)
    {
      if row.instance in rows {
        return false;
      }
      rows := rows[row.instance := row];
      ok := true;
    }

    method Put(row: InstanceRecord)
      requires Valid()
      modifies this
      ensures Valid() && rows == old(rows)[row.instance := row] && snapshots == old(snapshots)
    {
      rows := rows[row.instance := row];
    }

    method PutSnapshot(id: string, s: Snapshot)
      requires Valid()
      modifies this
      ensures Valid() && snapshots == old(snapshots)[id := s] && rows == old(rows)
    {
      snapshots := snapshots[id := s];
    }

    /** ListWakeable: waiting rows whose wake-up has come, sorted by instance id; with a
        limit, that many of them picked in any map order. */
    method ListWakeable(now: int, limit: int) returns (out: seq<InstanceRecord>)
      requires Valid()
      ensures SortedById(out)
      ensures forall r <- out :: r.instance in rows && rows[r.instance] == r && Wakeable(r, now)
      ensures forall i, j | 0 <= i < j < |out| :: out[i] != out[j]
      ensures limit > 0 ==> |out| <= limit
      ensures limit <= 0 || |out| < limit ==> forall id <- rows :: Wakeable(rows[id], now) ==> rows[id] in out
    {
      out := [];
      var left := rows.Keys;
      while left != {}
        invariant left <= rows.Keys && SortedById(out)
        invariant forall r <- out :: r.instance in rows.Keys - left && rows[r.instance] == r && Wakeable(r, now)
        invariant forall i, j | 0 <= i < j < |out| :: out[i] != out[j]
        invariant limit > 0 ==> |out| < limit
        invariant forall id <- rows.Keys - left :: Wakeable(rows[id], now) ==> rows[id] in out
        decreases left
      {
        var id :| id in left;
        left := left - {id};
        if Wakeable(rows[id], now) {
          out := InsertById(out, rows[id]);
          if limit > 0 && |out| >= limit {
            return;
          }
        }
      }
    }
  }

  /** Where a row belongs in a list sorted by id. */
  method InsertById(rows: seq<InstanceRecord>, row: InstanceRecord) returns (out: seq<InstanceRecord>)
    requires SortedById(rows) && row !in rows
    requires forall i, j | 0 <= i < j < |rows| :: rows[i] != rows[j]
    ensures SortedById(out) && |out| == |rows| + 1
    ensures forall r: InstanceRecord :: r in out <==> r in rows || r == row
    ensures forall i, j | 0 <= i < j < |out| :: out[i] != out[j]
  {
    var k := |rows|;
    while k > 0 && Lexical.Less(row.instance, rows[k - 1].instance)
      invariant 0 <= k <= |rows|
      invariant forall i | k <= i < |rows| :: Lexical.Less(row.instance, rows[i].instance)
    {
      k := k - 1;
    }
    out := rows[..k] + [row] + rows[k..];
    forall i | 0 <= i < k ensures !Lexical.Less(row.instance, rows[i].instance) {
      if i < k - 1 && Lexical.Less(row.instance, rows[i].instance) {
        Lexical.Trichotomy(rows[i].instance, rows[k - 1].instance);
        if Lexical.Less(rows[i].instance, rows[k - 1].instance) {
          Lexical.Transitive(row.instance, rows[i].instance, rows[k - 1].instance);
        }
      }
    }
    forall i | k <= i < |rows| ensures !Lexical.Less(rows[i].instance, row.instance) {
      Lexical.Trichotomy(row.instance, rows[i].instance);
    }
    forall r: InstanceRecord ensures r in out <==> r in rows || r == row {
      if r in rows {
        var i :| 0 <= i < |rows| && rows[i] == r;
        assert out[if i < k then i else i + 1] == r;
      }
      assert out[k] == row;
    }
  }
}
