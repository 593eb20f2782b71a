/**
 The owner rollup works on a private copy of three tables. The copy is taken page by page
 while writers go on changing the source, and is then brought forward by replaying the
 journal that triggers fill.
 */
module OwnerReplica {
  import opened Common

  type RowKey = nat
  type Image = nat

  /** A row as the rollup sees it: its key and its projected columns. */
  datatype SourceRow = SourceRow(key: RowKey, image: Image)

  /** A table by rowid; the key is unique but need not be the rowid. */
  type Table = map<int, SourceRow>

  /** A table by key, as the replica stores it. */
  type Copy = map<RowKey, Image>

  /** A journal row: the new image of a key, or None for a deletion. */
  datatype Entry = Entry(table: nat, key: RowKey, image: Option<Image>)

  const TABLES: nat := 3
  const PAGE_ROWS: nat := 512

  predicate KeysUnique(t: Table) {
    forall a, b :: a in t && b in t && t[a].key == t[b].key ==> a == b
  }

  /** `c` shows the rows of `t`, under their keys, and no others. */
  ghost predicate Shows(t: Table, c: Copy) {
    && (forall r :: r in t ==> t[r].key in c && c[t[r].key] == t[r].image)
    && (forall k :: k in c ==> exists r :: r in t && t[r].key == k)
  }

  // ---------------------------------------------------------------- the writer

  /** A row-level write; a REPLACE is a deletion followed by an insertion. */
  datatype Write =
    | Insert(table: nat, rowid: int, row: SourceRow)
    | Update(table: nat, rowid: int, moved: int, row: SourceRow)
    | Delete(table: nat, rowid: int)

  predicate KeyFree(t: Table, key: RowKey, except: int) {
    forall r :: r in t && r != except ==> t[r].key != key
  }

  /** What SQLite admits: free rowids and keys; an update moves a row only by changing its key. */
  predicate WriteOk(tables: seq<Table>, w: Write) {
    w.table < |tables| &&
    var t := tables[w.table];
    match w
    case Insert(_, rowid, row) => rowid !in t && KeyFree(t, row.key, rowid)
    case Update(_, rowid, moved, row) =>
      && rowid in t && KeyFree(t, row.key, rowid)
      && (moved != rowid ==> moved !in t && row.key != t[rowid].key)
    case Delete(_, rowid) => rowid in t
  }

  function Written(tables: seq<Table>, w: Write): seq<Table>
    requires WriteOk(tables, w)
  {
    var t := tables[w.table];
    match w
    case Insert(n, rowid, row) => tables[n := t[rowid := row]]
    case Update(n, rowid, moved, row) => tables[n := (t - {rowid})[moved := row]]
    case Delete(n, rowid) => tables[n := t - {rowid}]
  }

  /** The rows the triggers append: none if no projected column changed, two if the key did. */
  function Journalled(tables: seq<Table>, w: Write): seq<Entry>
    requires WriteOk(tables, w)
  {
    match w
    case Insert(n, _, row) => [Entry(n, row.key, Some(row.image))]
    case Update(n, rowid, _, row) =>
      var prior := tables[n][rowid];
      if prior == row then []
      else (if prior.key != row.key then [Entry(n, prior.key, None)] else []) + [Entry(n, row.key, Some(row.image))]
    case Delete(n, rowid) => [Entry(n, tables[n][rowid].key, None)]
  }

  /** The committed database: the tables, and every journal row ever written. */
  datatype Source = Source(tables: seq<Table>, log: seq<Entry>)

  function AfterWrite(s: Source, w: Write): Source
    requires WriteOk(s.tables, w)
  {
    Source(Written(s.tables, w), s.log + Journalled(s.tables, w))
  }

  // ---------------------------------------------------------------- journal positions

  function ApplyEntry(copies: seq<Copy>, e: Entry): seq<Copy> {
    if e.table < |copies| then
      copies[e.table := if e.image.Some? then copies[e.table][e.key := e.image.value] else copies[e.table] - {e.key}]
    else copies
  }

  function ApplyAll(copies: seq<Copy>, entries: seq<Entry>): (r: seq<Copy>)
    ensures |r| == |copies|
    decreases |entries|
  {
    if |entries| == 0 then copies
    else ApplyEntry(ApplyAll(copies, entries[..|entries| - 1]), entries[|entries| - 1])
  }

  /** The source tables as they stood at journal position `p`. */
  function At(base: seq<Copy>, log: seq<Entry>, p: nat): (r: seq<Copy>)
    requires p <= |log|
    ensures |r| == |base|
  {
    ApplyAll(base, log[..p])
  }

  /** The journal tells the whole story: from `base`, it leads to the tables as they are. */
  ghost predicate SourceOk(base: seq<Copy>, s: Source) {
    && |s.tables| == |base| == TABLES
    && (forall n | 0 <= n < TABLES :: KeysUnique(s.tables[n]) && Shows(s.tables[n], At(base, s.log, |s.log|)[n]))
    && (forall e :: e in s.log ==> e.table < TABLES)
  }

  // ---------------------------------------------------------------- the replica

  /** `cursor` is None before the first page of a table: every rowid is still to come. */
  datatype Replica = Replica(bounds: Option<seq<int>>, table: nat, cursor: Option<int>, through: nat, copies: seq<Copy>)

  const NEW_REPLICA := Replica(None, 0, None, 0, [map[], map[], map[]])

  predicate Ahead(cursor: Option<int>, r: int) {
    cursor.Some? ==> cursor.value <= r
  }

  /** The bounds fixed at the start: the largest rowid of each table, or zero. */
  ghost predicate AreBounds(tables: seq<Table>, bounds: seq<int>) {
    && |bounds| == |tables|
    && forall n | 0 <= n < |tables| ::
         if tables[n] == map[] then bounds[n] == 0
         else bounds[n] in tables[n] && forall r :: r in tables[n] ==> r <= bounds[n]
  }

  function Begin(r: Replica, bounds: seq<int>, head: nat): Replica {
    r.(bounds := Some(bounds), through := head)
  }

  /** The first rows of a table in rowid order, from the cursor up to the bound. */
  ghost predicate IsPage(t: Table, cursor: Option<int>, bound: int, page: seq<int>) {
    && |page| <= PAGE_ROWS
    && (forall i, j :: 0 <= i < j < |page| ==> page[i] < page[j])
    && (forall i :: 0 <= i < |page| ==> page[i] in t && Ahead(cursor, page[i]) && page[i] <= bound)
    && (forall r | r in t && Ahead(cursor, r) && r <= bound ::
          r in page || (|page| == PAGE_ROWS && page[|page| - 1] < r))
  }

  function AddRows(c: Copy, t: Table, page: seq<int>): Copy
    requires forall i :: 0 <= i < |page| ==> page[i] in t
    decreases |page|
  {
    if |page| == 0 then c
    else
      var row := t[page[|page| - 1]];
      AddRows(c, t, page[..|page| - 1])[row.key := row.image]
  }

  predicate Copying(r: Replica) {
    r.bounds.Some? && |r.bounds.value| == |r.copies| == TABLES && r.table < TABLES
  }

  /** Copy one page; an empty page, or one that reaches the bound, ends the table. */
  function CopyPage(r: Replica, t: Table, page: seq<int>): Replica
    requires Copying(r) && forall i :: 0 <= i < |page| ==> page[i] in t
  {
    if |page| == 0 then r.(table := r.table + 1, cursor := None)
    else
      var next := page[|page| - 1] + 1;
      var copied := r.(copies := r.copies[r.table := AddRows(r.copies[r.table], t, page)]);
      if next > r.bounds.value[r.table] then copied.(table := r.table + 1, cursor := None)
      else copied.(cursor := Some(next))
  }

  function Lower(a: nat, b: nat): nat {
    if a < b then a else b
  }

  /** Replay one page of the journal, of which the first `pruned` rows are gone; None if it is empty. */
  function ReplayPage(r: Replica, log: seq<Entry>, pruned: nat, target: nat): Option<Replica>
    requires target <= |log|
  {
    var start := if r.through < pruned then pruned else r.through;
    var end := Lower(start + PAGE_ROWS, target);
    if end <= start then None
    else Some(r.(copies := ApplyAll(r.copies, log[start..end]), through := end))
  }

  // ---------------------------------------------------------------- what the journal says about one key

  predicate Silent(log: seq<Entry>, lo: nat, hi: nat, n: nat, k: RowKey)
    requires lo <= hi <= |log|
  {
    forall i | lo <= i < hi :: !(log[i].table == n && log[i].key == k)
  }

  predicate SameAt(a: Copy, b: Copy, k: RowKey) {
    (k in a <==> k in b) && (k in a ==> a[k] == b[k])
  }

  lemma {:induction false} ApplyAllConcat(c: seq<Copy>, a: seq<Entry>, b: seq<Entry>)
    ensures ApplyAll(c, a + b) == ApplyAll(ApplyAll(c, a), b)
    decreases |b|
  {
    if |b| == 0 {
      assert a + b == a;
    } else {
      assert (a + b)[..|a + b| - 1] == a + b[..|b| - 1];
      ApplyAllConcat(c, a, b[..|b| - 1]);
    }
  }

  lemma AtNext(base: seq<Copy>, log: seq<Entry>, p: nat)
    requires p < |log|
    ensures At(base, log, p + 1) == ApplyEntry(At(base, log, p), log[p])
  {
    assert log[..p + 1][..p] == log[..p];
  }

  /** Between two positions, a key without journal rows keeps its image. */
  lemma {:induction false} SilentKeeps(base: seq<Copy>, log: seq<Entry>, lo: nat, hi: nat, n: nat, k: RowKey)
    requires lo <= hi <= |log| && n < |base| && Silent(log, lo, hi, n, k)
    ensures SameAt(At(base, log, lo)[n], At(base, log, hi)[n], k)
    decreases hi
  {
    if hi > lo {
      SilentKeeps(base, log, lo, hi - 1, n, k);
      AtNext(base, log, hi - 1);
    }
  }

  lemma AtPrefix(base: seq<Copy>, log: seq<Entry>, more: seq<Entry>, p: nat)
    requires p <= |log|
    ensures At(base, log + more, p) == At(base, log, p)
  {
    assert (log + more)[..p] == log[..p];
  }

  // ---------------------------------------------------------------- the triggers are exact

  lemma ShowsInsert(t: Table, c: Copy, rowid: int, row: SourceRow)
    requires KeysUnique(t) && rowid !in t && KeyFree(t, row.key, rowid) && Shows(t, c)
    ensures KeysUnique(t[rowid := row]) && Shows(t[rowid := row], c[row.key := row.image])
  {
    var after, c' := t[rowid := row], c[row.key := row.image];
    forall k | k in c'
      ensures exists r :: r in after && after[r].key == k
    {
      if k == row.key {
        assert after[rowid].key == k;
      } else {
        var r :| r in t && t[r].key == k;
        assert after[r].key == k;
      }
    }
  }

  lemma ShowsDelete(t: Table, c: Copy, rowid: int)
    requires KeysUnique(t) && rowid in t && Shows(t, c)
    ensures KeysUnique(t - {rowid}) && Shows(t - {rowid}, c - {t[rowid].key})
  {
    var after, c' := t - {rowid}, c - {t[rowid].key};
    forall k | k in c'
      ensures exists r :: r in after && after[r].key == k
    {
      var r :| r in t && t[r].key == k;
      assert after[r].key == k;
    }
  }

  /** On its table, the write does what the replay of its journal rows does. */
  ghost predicate Exact(tables: seq<Table>, copies: seq<Copy>, w: Write)
    requires WriteOk(tables, w) && |copies| == |tables|
  {
    var t', copies' := Written(tables, w)[w.table], ApplyAll(copies, Journalled(tables, w));
    && KeysUnique(t') && Shows(t', copies'[w.table])
    && forall n | 0 <= n < |copies| && n != w.table :: copies'[n] == copies[n]
  }

  lemma InsertIsExact(tables: seq<Table>, copies: seq<Copy>, w: Write)
    requires w.Insert? && WriteOk(tables, w) && |copies| == |tables|
    requires KeysUnique(tables[w.table]) && Shows(tables[w.table], copies[w.table])
    ensures Exact(tables, copies, w)
  {
    ShowsInsert(tables[w.table], copies[w.table], w.rowid, w.row);
    OneEntry(copies, Journalled(tables, w)[0]);
    hide Shows, KeysUnique;
  }

  lemma DeleteIsExact(tables: seq<Table>, copies: seq<Copy>, w: Write)
    requires w.Delete? && WriteOk(tables, w) && |copies| == |tables|
    requires KeysUnique(tables[w.table]) && Shows(tables[w.table], copies[w.table])
    ensures Exact(tables, copies, w)
  {
    ShowsDelete(tables[w.table], copies[w.table], w.rowid);
    OneEntry(copies, Journalled(tables, w)[0]);
    hide Shows, KeysUnique;
  }

  lemma UpdateIsExact(tables: seq<Table>, copies: seq<Copy>, w: Write)
    requires w.Update? && WriteOk(tables, w) && |copies| == |tables|
    requires KeysUnique(tables[w.table]) && Shows(tables[w.table], copies[w.table])
    ensures Exact(tables, copies, w)
  {
    var t, c := tables[w.table], copies[w.table];
    var entries := Journalled(tables, w);
    ShowsDelete(t, c, w.rowid);
    ShowsInsert(t - {w.rowid}, c - {t[w.rowid].key}, w.moved, w.row);
    assert t[w.rowid].key in c && c[t[w.rowid].key] == t[w.rowid].image;
    hide Shows, KeysUnique, KeyFree;
    if t[w.rowid] == w.row {
      assert (t - {w.rowid})[w.moved := w.row] == t;
    } else if t[w.rowid].key == w.row.key {
      assert (c - {w.row.key})[w.row.key := w.row.image] == c[w.row.key := w.row.image];
      OneEntry(copies, entries[0]);
    } else {
      assert entries == [entries[0], entries[1]];
      TwoEntries(copies, entries[0], entries[1]);
      assert ApplyAll(copies, entries)[w.table] == (c - {t[w.rowid].key})[w.row.key := w.row.image];
    }
  }

  /** What the triggers journal for one write is exactly what it does to the projected tables. */
  lemma TriggersAreExact(base: seq<Copy>, s: Source, w: Write)
    requires SourceOk(base, s) && WriteOk(s.tables, w)
    ensures SourceOk(base, AfterWrite(s, w))
  {
    var after := AfterWrite(s, w);
    var entries := Journalled(s.tables, w);
    ApplyAllConcat(base, s.log, entries);
    assert s.log[..|s.log|] == s.log && after.log[..|after.log|] == after.log;
    var now := At(base, s.log, |s.log|);
    match w {
      case Insert(_, _, _) => InsertIsExact(s.tables, now, w);
      case Delete(_, _) => DeleteIsExact(s.tables, now, w);
      case Update(_, _, _, _) => UpdateIsExact(s.tables, now, w);
    }
    assert forall e :: e in entries ==> e.table == w.table;
    hide Shows, KeysUnique, Journalled;
  }

  lemma OneEntry(c: seq<Copy>, e: Entry)
    ensures ApplyAll(c, [e]) == ApplyEntry(c, e)
  {
    assert [e][..0] == [];
  }

  lemma TwoEntries(c: seq<Copy>, d: Entry, e: Entry)
    ensures ApplyAll(c, [d, e]) == ApplyEntry(ApplyEntry(c, d), e)
  {
    assert [d, e][..1] == [d];
    OneEntry(c, d);
  }

  /** A key the write does not journal keeps its row, at its rowid. */
  lemma UnjournalledKeeps(tables: seq<Table>, w: Write, n: nat, k: RowKey, r: int)
    requires WriteOk(tables, w) && n < |tables| && KeysUnique(tables[n])
    requires forall e :: e in Journalled(tables, w) ==> !(e.table == n && e.key == k)
    ensures
      var t, t' := tables[n], Written(tables, w)[n];
      (r in t && t[r].key == k) <==> (r in t' && t'[r].key == k)
    ensures
      var t, t' := tables[n], Written(tables, w)[n];
      r in t && t[r].key == k ==> t'[r] == t[r]
  {
    var entries := Journalled(tables, w);
    if w.table == n {
      match w
      case Insert(_, rowid, row) => assert entries[0] in entries;
      case Delete(_, rowid) => assert entries[0] in entries;
      case Update(_, rowid, moved, row) =>
        if tables[n][rowid] != row {
          assert entries[0] in entries && entries[|entries| - 1] in entries;
        }
    }
  }
}
