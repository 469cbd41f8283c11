/** What the MERGE statement of `GenMergeInto` does to the target table,
    read as a function on maps from primary key to row: the QUALIFY window
    keeps, per key, the staged change with the greatest commit timestamp
    (`$4`), and the three WHEN arms apply it. The main result is that one
    such MERGE of a batch leaves the table as replaying the batch's changes
    one by one, in commit order, would. */
module MergeSemantics {
  import opened Wrappers
  import opened SnowMerge

  /** The primary-key values of a row, in primary-key column order. */
  type Key = seq<string>

  /** The column values of a row, in column order. */
  type Row = seq<string>

  /** One staged change row: the flag (`$1`), the commit timestamp (`$4`),
      the primary-key values and the row values. */
  datatype Change = Change(flag: string, commitTs: int, key: Key, row: Row)

  function Lookup(t: map<Key, Row>, k: Key): Option<Row> {
    if k in t then Some(t[k]) else None
  }

  /** The effect of the arms on one key: `current` is the target's row for
      it, if any. A delete removes it (or finds nothing to match), anything
      else leaves the staged row, whether through UPDATE or INSERT. */
  function Apply(current: Option<Row>, flag: string, row: Row): (r: Option<Row>)
    ensures r == if flag == "D" then None else Some(row)
  {
    MergeArmsChoice(current.Some?, flag);
    match ArmFor(MergeArms, current.Some?, flag)
    case None => current
    case Some(UpdateSet) => Some(row)
    case Some(InsertRow) => Some(row)
    case Some(DeleteRow) => None
  }

  function Cell(t: map<Key, Row>, d: map<Key, Change>, k: Key): Option<Row> {
    if k in d then Apply(Lookup(t, k), d[k].flag, d[k].row) else Lookup(t, k)
  }

  /** The MERGE of the surviving staged rows `d` (one per key) into `t`. */
  function Merge(t: map<Key, Row>, d: map<Key, Change>): (r: map<Key, Row>)
    ensures forall k :: k in r <==> if k in d then d[k].flag != "D" else k in t
    ensures forall k :: k in r ==> r[k] == if k in d then d[k].row else t[k]
  {
    map k | k in t.Keys + d.Keys && Cell(t, d, k).Some? :: Cell(t, d, k).value
  }

  /** Running the same MERGE twice leaves the table as running it once. */
  lemma MergeIdempotent(t: map<Key, Row>, d: map<Key, Change>)
    ensures Merge(Merge(t, d), d) == Merge(t, d)
  {
    var once := Merge(t, d);
    var twice := Merge(once, d);
    SameEntries(twice, once);
  }

  /** Maps with the same keys and the same value under each are equal. */
  lemma SameEntries(a: map<Key, Row>, b: map<Key, Row>)
    requires forall k :: k in a <==> k in b
    requires forall k :: k in a ==> a[k] == b[k]
    ensures a == b
  {
  }

  /** The QUALIFY window: per primary key, the change with the greatest
      commit timestamp. Of changes with equal timestamps the first met is
      kept. */
  function Dedup(batch: seq<Change>): (d: map<Key, Change>)
    ensures forall k :: k in d ==> d[k].key == k
  {
    if batch == [] then map[]
    else
      var b, e := batch[..|batch| - 1], batch[|batch| - 1];
      var d := Dedup(b);
      if e.key in d && e.commitTs <= d[e.key].commitTs then d else d[e.key := e]
  }

  /** Every key of the batch survives, with a staged change of the batch
      whose commit timestamp is the greatest for that key; no other key
      appears. */
  lemma {:induction false} DedupKeepsLatest(batch: seq<Change>)
    ensures forall i :: 0 <= i < |batch| ==>
      batch[i].key in Dedup(batch) && batch[i].commitTs <= Dedup(batch)[batch[i].key].commitTs
    ensures forall k :: k in Dedup(batch) ==> Dedup(batch)[k] in batch
  {
    if batch != [] {
      var b, e := batch[..|batch| - 1], batch[|batch| - 1];
      DedupKeepsLatest(b);
      assert forall i :: 0 <= i < |b| ==> b[i] == batch[i];
      assert forall x :: x in b ==> x in batch;
    }
  }

  /** Applying the changes one at a time, in the order given. */
  function Replay(t: map<Key, Row>, batch: seq<Change>): map<Key, Row>
  {
    if batch == [] then t
    else
      var e := batch[|batch| - 1];
      Merge(Replay(t, batch[..|batch| - 1]), map[e.key := e])
  }

  /** Changes of the same key appear in strictly increasing commit order. */
  ghost predicate CommitOrdered(batch: seq<Change>) {
    forall i, j :: 0 <= i < j < |batch| && batch[i].key == batch[j].key ==> batch[i].commitTs < batch[j].commitTs
  }

  /** A MERGE after another one, of a single change, is the first MERGE
      with that change in place of whatever it held for the key. */
  lemma MergeThenOne(t: map<Key, Row>, d: map<Key, Change>, e: Change)
    ensures Merge(Merge(t, d), map[e.key := e]) == Merge(t, d[e.key := e])
  {
    var lhs := Merge(Merge(t, d), map[e.key := e]);
    var rhs := Merge(t, d[e.key := e]);
    SameEntries(lhs, rhs);
  }

  /** Dropping the last change keeps a batch commit-ordered. */
  lemma CommitOrderedPrefix(batch: seq<Change>)
    requires batch != [] && CommitOrdered(batch)
    ensures CommitOrdered(batch[..|batch| - 1])
  {
    var b := batch[..|batch| - 1];
    assert forall i :: 0 <= i < |b| ==> b[i] == batch[i];
  }

  /** In a commit-ordered batch the last change is its key's latest, so
      the window keeps it. */
  lemma DedupLastWins(batch: seq<Change>)
    requires batch != [] && CommitOrdered(batch)
    ensures var e := batch[|batch| - 1];
      Dedup(batch) == Dedup(batch[..|batch| - 1])[e.key := e]
  {
    var b, e := batch[..|batch| - 1], batch[|batch| - 1];
    var d := Dedup(b);
    if e.key in d {
      DedupKeepsLatest(b);
      var i :| 0 <= i < |b| && b[i] == d[e.key];
      assert batch[i] == d[e.key] && batch[i].key == e.key;
    }
  }

  /** One MERGE of a commit-ordered batch leaves the table as replaying its
      changes one by one would. */
  lemma {:induction false} MergeConvergesToReplay(t: map<Key, Row>, batch: seq<Change>)
    requires CommitOrdered(batch)
    ensures Merge(t, Dedup(batch)) == Replay(t, batch)
  {
    if batch == [] {
      assert Merge(t, map[]) == t;
    } else {
      var b, e := batch[..|batch| - 1], batch[|batch| - 1];
      CommitOrderedPrefix(batch);
      MergeConvergesToReplay(t, b);
      DedupLastWins(batch);
      MergeThenOne(t, Dedup(b), e);
    }
  }
}
