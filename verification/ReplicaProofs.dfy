/**
 A fuzzy copy plus the journal written meanwhile is a snapshot, however the writer and the
 page reads interleave.
 */
module ReplicaProofs {
  import opened Common
  import opened OwnerReplica

  // ---------------------------------------------------------------- while pages are copied

  /** The page reads have passed rowid `x` of table `n`. */
  predicate Passed(r: Replica, n: nat, x: int) {
    n < r.table || (n == r.table && r.cursor.Some? && x < r.cursor.value)
  }

  /** What is known of a key that has had no journal row since the copy began. */
  ghost predicate Fits(r: Replica, t: Table, n: nat, k: RowKey)
    requires r.bounds.Some? && n < |r.bounds.value| && n < |r.copies|
  {
    && (forall x :: x in t && t[x].key == k ==>
          && x <= r.bounds.value[n]
          && (Passed(r, n, x) ==> k in r.copies[n] && r.copies[n][k] == t[x].image))
    && (k in r.copies[n] ==> exists x :: x in t && t[x].key == k && t[x].image == r.copies[n][k])
  }

  /** The replica has fixed its bounds, and is somewhere in the log. */
  predicate Begun(r: Replica, s: Source) {
    && r.bounds.Some? && |r.bounds.value| == |r.copies| == |s.tables| == TABLES
    && r.table <= TABLES && r.through <= |s.log|
  }

  ghost predicate CopyOk(r: Replica, s: Source) {
    && Begun(r, s)
    && forall n: nat, k: RowKey :: n < TABLES && Silent(s.log, r.through, |s.log|, n, k) ==> Fits(r, s.tables[n], n, k)
  }

  lemma BeginOk(r: Replica, s: Source, bounds: seq<int>)
    requires |s.tables| == TABLES && AreBounds(s.tables, bounds)
    requires r == NEW_REPLICA
    ensures CopyOk(Begin(r, bounds, |s.log|), s)
  {
  }

  /** A write either journals a key or leaves its row where the page reads will find it. */
  lemma WriteKeepsCopy(r: Replica, s: Source, w: Write)
    requires CopyOk(r, s) && WriteOk(s.tables, w) && forall n | 0 <= n < TABLES :: KeysUnique(s.tables[n])
    ensures CopyOk(r, AfterWrite(s, w))
  {
    var after := AfterWrite(s, w);
    var entries := Journalled(s.tables, w);
    forall n: nat, k: RowKey | n < TABLES && Silent(after.log, r.through, |after.log|, n, k)
      ensures Fits(r, after.tables[n], n, k)
    {
      forall i | r.through <= i < |s.log|
        ensures !(s.log[i].table == n && s.log[i].key == k)
      {
        assert after.log[i] == s.log[i];
      }
      forall e | e in entries
        ensures !(e.table == n && e.key == k)
      {
        var i :| 0 <= i < |entries| && entries[i] == e;
        assert after.log[|s.log| + i] == e;
      }
      assert Fits(r, s.tables[n], n, k);
      hide Journalled, Written, Silent, WriteOk;
      forall x: int
        ensures (x in s.tables[n] && s.tables[n][x].key == k) <==> (x in after.tables[n] && after.tables[n][x].key == k)
        ensures x in s.tables[n] && s.tables[n][x].key == k ==> after.tables[n][x] == s.tables[n][x]
      {
        UnjournalledKeeps(s.tables, w, n, k, x);
      }
    }
  }

  lemma {:induction false} AddRowsAt(c: Copy, t: Table, page: seq<int>, k: RowKey)
    requires KeysUnique(t) && forall i :: 0 <= i < |page| ==> page[i] in t
    ensures forall i :: 0 <= i < |page| && t[page[i]].key == k ==>
              k in AddRows(c, t, page) && AddRows(c, t, page)[k] == t[page[i]].image
    ensures (forall i :: 0 <= i < |page| ==> t[page[i]].key != k) ==> SameAt(c, AddRows(c, t, page), k)
    decreases |page|
  {
    if |page| > 0 {
      var last := page[|page| - 1];
      AddRowsAt(c, t, page[..|page| - 1], k);
      forall i | 0 <= i < |page| && t[page[i]].key == k
        ensures k in AddRows(c, t, page) && AddRows(c, t, page)[k] == t[page[i]].image
      {
        if t[last].key == k {
          assert page[i] == last;
        } else {
          assert page[..|page| - 1][i] == page[i];
        }
      }
      if forall i :: 0 <= i < |page| ==> t[page[i]].key != k {
        assert t[last].key != k;
      }
    }
  }

  /** The page holds every row between the cursor and its last rowid. */
  lemma PageCovers(t: Table, cursor: Option<int>, bound: int, page: seq<int>, x: int)
    requires IsPage(t, cursor, bound, page) && x in t && Ahead(cursor, x) && x <= bound
    requires |page| > 0 ==> x <= page[|page| - 1]
    ensures exists i :: 0 <= i < |page| && page[i] == x
  {
    assert x in page;
  }

  lemma PageKeepsFit(r: Replica, s: Source, page: seq<int>, n: nat, k: RowKey)
    requires CopyOk(r, s) && r.table < TABLES && KeysUnique(s.tables[r.table])
    requires IsPage(s.tables[r.table], r.cursor, r.bounds.value[r.table], page)
    requires n < TABLES && Fits(r, s.tables[n], n, k)
    ensures Fits(CopyPage(r, s.tables[r.table], page), s.tables[n], n, k)
  {
    var t, after := s.tables[n], CopyPage(r, s.tables[r.table], page);
    if n == r.table {
      AddRowsAt(r.copies[n], t, page, k);
      forall x | x in t && t[x].key == k
        ensures Passed(after, n, x) ==> k in after.copies[n] && after.copies[n][k] == t[x].image
      {
        if Passed(after, n, x) && !Passed(r, n, x) {
          PageCovers(t, r.cursor, r.bounds.value[n], page, x);
        }
      }
      if k in after.copies[n] {
        if i :| 0 <= i < |page| && t[page[i]].key == k {
          assert t[page[i]].image == after.copies[n][k];
        } else {
          assert SameAt(r.copies[n], after.copies[n], k);
        }
      }
    }
  }

  lemma PageKeepsCopy(r: Replica, s: Source, page: seq<int>)
    requires CopyOk(r, s) && r.table < TABLES && KeysUnique(s.tables[r.table])
    requires IsPage(s.tables[r.table], r.cursor, r.bounds.value[r.table], page)
    ensures CopyOk(CopyPage(r, s.tables[r.table], page), s)
  {
    var after := CopyPage(r, s.tables[r.table], page);
    assert after.through == r.through;
    forall n: nat, k: RowKey | n < TABLES && Silent(s.log, r.through, |s.log|, n, k)
      ensures Fits(after, s.tables[n], n, k)
    {
      PageKeepsFit(r, s, page, n, k);
    }
  }

  // ---------------------------------------------------------------- while the journal is replayed

  /**
   The copy is wrong about a key at most as long as its journal rows up to `q` are still to be
   replayed.
   */
  ghost predicate Fuzzy(base: seq<Copy>, log: seq<Entry>, r: Replica, q: nat) {
    && r.through <= q <= |log| && |r.copies| == |base| == TABLES
    && forall n: nat, k: RowKey :: n < TABLES && Silent(log, r.through, q, n, k) ==>
         SameAt(r.copies[n], At(base, log, q)[n], k)
  }

  lemma CopiedIsFuzzy(base: seq<Copy>, r: Replica, s: Source)
    requires SourceOk(base, s) && CopyOk(r, s) && r.table == TABLES
    ensures Fuzzy(base, s.log, r, |s.log|)
  {
    forall n: nat, k: RowKey | n < TABLES && Silent(s.log, r.through, |s.log|, n, k)
      ensures SameAt(r.copies[n], At(base, s.log, |s.log|)[n], k)
    {
      assert Fits(r, s.tables[n], n, k);
      assert Shows(s.tables[n], At(base, s.log, |s.log|)[n]);
      if k in At(base, s.log, |s.log|)[n] {
        var x :| x in s.tables[n] && s.tables[n][x].key == k;
        assert Passed(r, n, x);
      }
    }
  }

  lemma FuzzyLater(base: seq<Copy>, log: seq<Entry>, r: Replica, q: nat, q': nat)
    requires Fuzzy(base, log, r, q) && q <= q' <= |log|
    ensures Fuzzy(base, log, r, q')
  {
    forall n: nat, k: RowKey | n < TABLES && Silent(log, r.through, q', n, k)
      ensures SameAt(r.copies[n], At(base, log, q')[n], k)
    {
      assert Silent(log, r.through, q, n, k) && Silent(log, q, q', n, k);
      SilentKeeps(base, log, q, q', n, k);
    }
  }

  /** The log grows behind the replica's back. */
  lemma FuzzyGrows(base: seq<Copy>, log: seq<Entry>, more: seq<Entry>, r: Replica, q: nat)
    requires Fuzzy(base, log, r, q)
    ensures Fuzzy(base, log + more, r, q)
  {
    AtPrefix(base, log, more, q);
    forall n: nat, k: RowKey | n < TABLES && Silent(log + more, r.through, q, n, k)
      ensures SameAt(r.copies[n], At(base, log + more, q)[n], k)
    {
      forall i | r.through <= i < q
        ensures !(log[i].table == n && log[i].key == k)
      {
        assert (log + more)[i] == log[i];
      }
    }
  }

  /** A key whose last journal row up to `q` is row `i` has the image of that row at `q`. */
  lemma LastEntryRules(base: seq<Copy>, log: seq<Entry>, i: nat, q: nat)
    requires i < q <= |log| && log[i].table < |base|
    requires Silent(log, i + 1, q, log[i].table, log[i].key)
    ensures
      var c, e := At(base, log, q)[log[i].table], log[i];
      if e.image.Some? then e.key in c && c[e.key] == e.image.value else e.key !in c
  {
    AtNext(base, log, i);
    SilentKeeps(base, log, i + 1, q, log[i].table, log[i].key);
  }

  lemma EntryKeepsFuzzy(base: seq<Copy>, log: seq<Entry>, r: Replica, q: nat)
    requires Fuzzy(base, log, r, q) && r.through < q && log[r.through].table < TABLES
    ensures Fuzzy(base, log, r.(copies := ApplyEntry(r.copies, log[r.through]), through := r.through + 1), q)
  {
    var e := log[r.through];
    var after := r.(copies := ApplyEntry(r.copies, e), through := r.through + 1);
    forall n: nat, k: RowKey | n < TABLES && Silent(log, after.through, q, n, k)
      ensures SameAt(after.copies[n], At(base, log, q)[n], k)
    {
      if n == e.table && k == e.key {
        LastEntryRules(base, log, r.through, q);
      } else {
        assert Silent(log, r.through, q, n, k);
        assert SameAt(r.copies[n], At(base, log, q)[n], k);
      }
    }
  }

  lemma {:induction false} EntriesKeepFuzzy(base: seq<Copy>, log: seq<Entry>, r: Replica, end: nat, q: nat)
    requires Fuzzy(base, log, r, q) && r.through <= end <= q && forall e :: e in log ==> e.table < TABLES
    ensures Fuzzy(base, log, r.(copies := ApplyAll(r.copies, log[r.through..end]), through := end), q)
    decreases end
  {
    if end > r.through {
      EntriesKeepFuzzy(base, log, r, end - 1, q);
      var prior := r.(copies := ApplyAll(r.copies, log[r.through..end - 1]), through := end - 1);
      assert log[end - 1] in log;
      EntryKeepsFuzzy(base, log, prior, q);
      assert log[r.through..end][..end - 1 - r.through] == log[r.through..end - 1];
    } else {
      assert log[r.through..end] == [];
    }
  }

  /** Once the replica has caught up, it is the source as it stood at that journal position. */
  lemma CaughtUp(base: seq<Copy>, log: seq<Entry>, r: Replica)
    requires Fuzzy(base, log, r, r.through)
    ensures r.copies == At(base, log, r.through)
  {
    var now := At(base, log, r.through);
    forall n: nat | n < TABLES
      ensures r.copies[n] == now[n]
    {
      forall k: RowKey
        ensures SameAt(r.copies[n], now[n], k)
      {
        assert Silent(log, r.through, r.through, n, k);
      }
      assert forall k :: k in r.copies[n] ==> SameAt(r.copies[n], now[n], k);
      assert forall k :: k in now[n] ==> SameAt(r.copies[n], now[n], k);
    }
  }

  /** A page that is not pruned moves the replica forward, towards the target and never past it. */
  lemma ReplayAdvances(base: seq<Copy>, s: Source, r: Replica, pruned: nat, target: nat)
    requires SourceOk(base, s) && Fuzzy(base, s.log, r, target) && pruned <= r.through < target
    ensures
      var next := ReplayPage(r, s.log, pruned, target);
      && next.Some?
      && Fuzzy(base, s.log, next.value, target)
      && next.value.through == Lower(r.through + PAGE_ROWS, target)
      && next.value == r.(copies := next.value.copies, through := next.value.through)
  {
    EntriesKeepFuzzy(base, s.log, r, Lower(r.through + PAGE_ROWS, target), target);
  }
}
