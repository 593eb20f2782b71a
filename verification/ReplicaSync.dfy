/** The replica as the object a worker keeps between builds, and its synchronization loop. */
module ReplicaSync {
  import opened Common
  import opened OwnerReplica
  import opened ReplicaProofs

  // ---------------------------------------------------------------- successive snapshots

  /** `t` is `s` some writes later. */
  ghost predicate Later(s: Source, t: Source) {
    exists ws: seq<Write> :: Leads(s, ws, t)
  }

  ghost predicate Leads(s: Source, ws: seq<Write>, t: Source)
    decreases |ws|
  {
    if |ws| == 0 then s == t else WriteOk(s.tables, ws[0]) && Leads(AfterWrite(s, ws[0]), ws[1..], t)
  }

  /** A replica that is sound with respect to the database `s`. */
  ghost predicate Sound(base: seq<Copy>, r: Replica, s: Source) {
    if r.bounds.None? then r == NEW_REPLICA
    else Begun(r, s) && if r.table < TABLES then CopyOk(r, s) else Fuzzy(base, s.log, r, |s.log|)
  }

  lemma WriteKeepsSound(base: seq<Copy>, r: Replica, s: Source, w: Write)
    requires SourceOk(base, s) && Sound(base, r, s) && WriteOk(s.tables, w)
    ensures SourceOk(base, AfterWrite(s, w)) && Sound(base, r, AfterWrite(s, w))
    ensures |s.log| <= |AfterWrite(s, w).log|
  {
    TriggersAreExact(base, s, w);
    var entries := Journalled(s.tables, w);
    if r.bounds.Some? {
      if r.table < TABLES {
        WriteKeepsCopy(r, s, w);
      } else {
        FuzzyGrows(base, s.log, entries, r, |s.log|);
        FuzzyLater(base, s.log + entries, r, |s.log|, |s.log + entries|);
      }
    }
  }

  lemma {:induction false} WritesKeepSound(base: seq<Copy>, r: Replica, s: Source, ws: seq<Write>, t: Source)
    requires SourceOk(base, s) && Sound(base, r, s) && Leads(s, ws, t)
    ensures Sound(base, r, t) && |s.log| <= |t.log| && t.log[..|s.log|] == s.log
    decreases |ws|
  {
    if |ws| > 0 {
      WriteKeepsSound(base, r, s, ws[0]);
      hide Sound, SourceOk, WriteOk, Written;
      WritesKeepSound(base, r, AfterWrite(s, ws[0]), ws[1..], t);
      assert t.log[..|s.log|] == t.log[..|AfterWrite(s, ws[0]).log|][..|s.log|];
    }
  }

  lemma SoundLater(base: seq<Copy>, r: Replica, s: Source, t: Source)
    requires SourceOk(base, s) && Sound(base, r, s) && Later(s, t)
    ensures Sound(base, r, t) && |s.log| <= |t.log| && t.log[..|s.log|] == s.log
  {
    var ws :| Leads(s, ws, t);
    WritesKeepSound(base, r, s, ws, t);
  }

  /** The snapshots a synchronization will see, each some writes after the one before. */
  ghost predicate Views(base: seq<Copy>, views: seq<Source>) {
    && (forall i | 0 <= i < |views| :: SourceOk(base, views[i]))
    && (forall i | 0 <= i < |views| - 1 :: Later(views[i], views[i + 1]))
  }

  /** How many journal rows are gone at each of the snapshots, never more than `limit`. */
  predicate PrunedWithin(pruned: seq<nat>, views: seq<Source>, limit: nat) {
    |pruned| == |views| && forall i :: 0 <= i < |pruned| ==> pruned[i] <= limit
  }

  // ---------------------------------------------------------------- reading one page

  method LargestRowid(t: Table) returns (bound: int)
    ensures if t == map[] then bound == 0 else bound in t && forall r :: r in t ==> r <= bound
  {
    bound := 0;
    var todo := t.Keys;
    while todo != {}
      invariant todo <= t.Keys
      invariant (todo == t.Keys && bound == 0) || (bound in t && forall r :: r in t ==> r in todo || r <= bound)
      decreases |todo|
    {
      SomeRow(todo);
      var r :| r in todo;
      if todo == t.Keys || bound < r {
        bound := r;
      }
      todo := todo - {r};
    }
  }

  lemma SomeRow(s: set<int>)
    ensures s == {} || exists r :: r in s
  {
    if forall r :: r !in s {
      assert s == {};
    }
  }

  method SmallestOf(s: set<int>) returns (least: int)
    requires s != {}
    ensures least in s && forall r :: r in s ==> least <= r
  {
    SomeRow(s);
    least :| least in s;
    var todo := s - {least};
    while todo != {}
      invariant todo <= s && least in s
      invariant forall r :: r in s ==> r in todo || least <= r
      decreases |todo|
    {
      SomeRow(todo);
      var r :| r in todo;
      if r < least {
        least := r;
      }
      todo := todo - {r};
    }
  }

  /** At most a page of rows from the cursor up to the bound, in rowid order. */
  method ReadPage(t: Table, cursor: Option<int>, bound: int) returns (page: seq<int>)
    ensures IsPage(t, cursor, bound, page)
  {
    var todo := set r | r in t && Ahead(cursor, r) && r <= bound;
    ghost var all := todo;
    page := [];
    while todo != {} && |page| < PAGE_ROWS
      invariant todo <= all && |page| <= PAGE_ROWS
      invariant forall i, j :: 0 <= i < j < |page| ==> page[i] < page[j]
      invariant forall i :: 0 <= i < |page| ==> page[i] in all
      invariant forall i, r :: 0 <= i < |page| && r in todo ==> page[i] < r
      invariant forall r :: r in all ==> r in todo || r in page
      decreases |todo|
    {
      var r := SmallestOf(todo);
      page := page + [r];
      todo := todo - {r};
    }
  }

  // ---------------------------------------------------------------- the replica

  class RollupReplica {
    var bounds: Option<seq<int>>
    var table: nat
    var cursor: Option<int>
    var through: nat
    var copies: seq<Copy>

    ghost function Value(): Replica
      reads this
    {
      Replica(bounds, table, cursor, through, copies)
    }

    constructor ()
      ensures Value() == NEW_REPLICA
    {
      bounds, table, cursor, through, copies := None, 0, None, 0, [map[], map[], map[]];
    }

    /** Note the journal head and the largest rowid of every table. */
    method FixBounds(view: Source)
      requires |view.tables| == TABLES && Value() == NEW_REPLICA
      modifies this
      ensures exists b :: AreBounds(view.tables, b) && Value() == Begin(NEW_REPLICA, b, |view.log|)
    {
      var largest: seq<int> := [];
      while |largest| < TABLES
        invariant |largest| <= TABLES && Value() == NEW_REPLICA
        invariant forall n | 0 <= n < |largest| ::
          if view.tables[n] == map[] then largest[n] == 0
          else largest[n] in view.tables[n] && forall r :: r in view.tables[n] ==> r <= largest[n]
      {
        var bound := LargestRowid(view.tables[|largest|]);
        largest := largest + [bound];
      }
      through := |view.log|;
      bounds := Some(largest);
      assert AreBounds(view.tables, largest) && Value() == Begin(NEW_REPLICA, largest, |view.log|);
    }

    /** Copy one page of the table at hand, and move to the next table at its bound. */
    method CopyOne(view: Source)
      requires Copying(Value()) && |view.tables| == TABLES
      modifies this
      ensures exists page :: IsPage(view.tables[old(table)], old(cursor), old(bounds).value[old(table)], page)
                             && Value() == CopyPage(old(Value()), view.tables[old(table)], page)
    {
      var t := view.tables[table];
      var page := ReadPage(t, cursor, bounds.value[table]);
      if |page| == 0 {
        table, cursor := table + 1, None;
        return;
      }
      var c, i := copies[table], 0;
      while i < |page|
        invariant 0 <= i <= |page|
        invariant c == AddRows(copies[table], t, page[..i])
      {
        assert page[..i + 1][..i] == page[..i];
        c := c[t[page[i]].key := t[page[i]].image];
        i := i + 1;
      }
      assert page[..i] == page;
      copies := copies[table := c];
      var next := page[|page| - 1] + 1;
      if next > bounds.value[table] {
        table, cursor := table + 1, None;
      } else {
        cursor := Some(next);
      }
    }

    /** Replay one page of the journal, of which the first `pruned` rows are gone. */
    method ReplayOne(view: Source, pruned: nat, target: nat)
      requires pruned <= through < target <= |view.log|
      modifies this`copies, this`through
      ensures ReplayPage(old(Value()), view.log, pruned, target) == Some(Value())
    {
      var end := Lower(through + PAGE_ROWS, target);
      var i := through;
      while i < end
        invariant through == old(through) <= i <= end
        invariant copies == ApplyAll(old(copies), view.log[through..i])
      {
        assert view.log[through..i + 1][..i - through] == view.log[through..i];
        copies := ApplyEntry(copies, view.log[i]);
        i := i + 1;
      }
      through := end;
    }

    /** Copy pages, one snapshot each, until every table is copied or the snapshots run out. */
    method CopyTables(ghost base: seq<Copy>, views: seq<Source>, first: nat) returns (used: nat)
      requires Views(base, views) && 0 < first <= |views|
      requires Sound(base, Value(), views[first - 1]) && bounds.Some?
      modifies this
      ensures first <= used <= |views| && Sound(base, Value(), views[used - 1])
      ensures bounds == old(bounds) && through == old(through)
      ensures table < TABLES ==> used == |views|
    {
      hide SourceOk, CopyOk, Fuzzy;
      used := first;
      while table < TABLES && used < |views|
        invariant first <= used <= |views| && Sound(base, Value(), views[used - 1])
        invariant bounds == old(bounds) && through == old(through)
        decreases |views| - used
      {
        SoundLater(base, Value(), views[used - 1], views[used]);
        SourceShape(base, views[used]);
        ghost var before := Value();
        CopyOne(views[used]);
        ghost var page :| IsPage(views[used].tables[before.table], before.cursor, before.bounds.value[before.table],
                                 page)
                          && Value() == CopyPage(before, views[used].tables[before.table], page);
        PageSound(base, before, views[used], page);
        used := used + 1;
      }
    }

    /** Replay journal pages, one snapshot each, until the head seen at `aimed` is reached. */
    method ReplayTo(ghost base: seq<Copy>, views: seq<Source>, aimed: nat, pruned: seq<nat>) returns (used: nat)
      requires Views(base, views) && aimed < |views| && PrunedWithin(pruned, views, through)
      requires Sound(base, Value(), views[aimed]) && bounds.Some? && table >= TABLES
      modifies this`copies, this`through
      ensures aimed < used <= |views| && Sound(base, Value(), views[used - 1])
      ensures old(through) <= through <= |views[aimed].log|
      ensures through < |views[aimed].log| ==> used == |views|
      ensures through == |views[aimed].log| ==>
                |copies| == TABLES && forall n | 0 <= n < TABLES :: Shows(views[aimed].tables[n], copies[n])
    {
      SoundAim(base, Value(), views[aimed]);
      hide SourceOk, CopyOk, Fuzzy, Sound, ReplayPage, Shows;
      ghost var head := |views[aimed].log|;
      used := aimed + 1;
      while through < |views[aimed].log| && used < |views|
        invariant aimed < used <= |views|
        invariant Sound(base, Value(), views[used - 1]) && Fuzzy(base, views[used - 1].log, Value(), head)
        invariant head <= |views[used - 1].log| && views[used - 1].log[..head] == views[aimed].log
        invariant old(through) <= through <= head
        decreases |views| - used
      {
        AimLater(base, Value(), views[used - 1], views[used], head);
        assert views[used].log[..head] == views[used].log[..|views[used - 1].log|][..head];
        ReplayAdvances(base, views[used], Value(), pruned[used], head);
        ReplaySound(base, Value(), views[used], pruned[used], head);
        ReplayOne(views[used], pruned[used], |views[aimed].log|);
        used := used + 1;
      }
      if through == |views[aimed].log| {
        SnapshotReached(base, Value(), views[used - 1], views[aimed]);
      }
    }

    /**
     Bring the replica up to date, one snapshot per read, until the snapshots run out. When it
     gets that far, the replica shows the tables as they stood in the snapshot `aimed`, and in
     any case it can be resumed later. Journal rows may be pruned meanwhile, up to where the
     replica stood at the start.
     */
    method Synchronize(ghost base: seq<Copy>, views: seq<Source>, pruned: seq<nat>)
      returns (finished: bool, aimed: nat, used: nat)
      requires Views(base, views) && |views| > 0
      requires Sound(base, Value(), views[0])
      requires PrunedWithin(pruned, views, if bounds.Some? then through else |views[0].log|)
      modifies this
      ensures 0 < used <= |views| && Sound(base, Value(), views[used - 1])
      ensures bounds.Some? && PrunedWithin(pruned, views, through)
      ensures finished ==> aimed < used && through == |views[aimed].log|
      ensures finished ==> |copies| == TABLES && forall n | 0 <= n < TABLES :: Shows(views[aimed].tables[n], copies[n])
      ensures !finished ==> used == |views|
    {
      hide CopyOk, Fuzzy, ReplayPage, Shows;
      if bounds.None? {
        SourceShape(base, views[0]);
        FixBounds(views[0]);
        ghost var b :| AreBounds(views[0].tables, b) && Value() == Begin(NEW_REPLICA, b, |views[0].log|);
        BeginOk(NEW_REPLICA, views[0], b);
        CopyBegun(Value(), views[0]);
      }
      hide Sound;
      used := CopyTables(base, views, 1);
      if table < TABLES || used == |views| {
        return false, 0, used;
      }
      SoundLater(base, Value(), views[used - 1], views[used]);
      aimed := used;
      used := ReplayTo(base, views, aimed, pruned);
      finished := through == |views[aimed].log|;
    }
  }

  lemma SourceShape(base: seq<Copy>, s: Source)
    requires SourceOk(base, s)
    ensures |s.tables| == TABLES
  {
  }

  lemma CopyBegun(r: Replica, s: Source)
    requires CopyOk(r, s)
    ensures Begun(r, s)
  {
  }

  lemma SoundAim(base: seq<Copy>, r: Replica, s: Source)
    requires Sound(base, r, s) && r.bounds.Some? && r.table >= TABLES
    ensures Fuzzy(base, s.log, r, |s.log|) && r.through <= |s.log| && s.log[..|s.log|] == s.log
  {
  }

  lemma PageSound(base: seq<Copy>, r: Replica, s: Source, page: seq<int>)
    requires SourceOk(base, s) && Sound(base, r, s) && r.bounds.Some? && r.table < TABLES
    requires IsPage(s.tables[r.table], r.cursor, r.bounds.value[r.table], page)
    ensures Sound(base, CopyPage(r, s.tables[r.table], page), s)
  {
    PageKeepsCopy(r, s, page);
    var after := CopyPage(r, s.tables[r.table], page);
    if after.table == TABLES {
      CopiedIsFuzzy(base, after, s);
    }
  }

  lemma AimLater(base: seq<Copy>, r: Replica, s: Source, t: Source, q: nat)
    requires SourceOk(base, s) && Sound(base, r, s) && Later(s, t) && Fuzzy(base, s.log, r, q)
    ensures Sound(base, r, t) && Fuzzy(base, t.log, r, q)
    ensures |s.log| <= |t.log| && t.log[..|s.log|] == s.log
  {
    SoundLater(base, r, s, t);
    FuzzyGrows(base, s.log, t.log[|s.log|..], r, q);
    assert s.log + t.log[|s.log|..] == t.log;
  }

  lemma ReplaySound(base: seq<Copy>, r: Replica, s: Source, pruned: nat, q: nat)
    requires SourceOk(base, s) && Sound(base, r, s) && r.bounds.Some? && r.table >= TABLES
    requires Fuzzy(base, s.log, r, q) && pruned <= r.through < q
    ensures
      var next := ReplayPage(r, s.log, pruned, q);
      next.Some? && Sound(base, next.value, s)
  {
    ReplayAdvances(base, s, r, pruned, q);
    var next := ReplayPage(r, s.log, pruned, q).value;
    hide ReplayPage, SourceOk;
    FuzzyLater(base, s.log, next, q, |s.log|);
  }

  lemma SnapshotReached(base: seq<Copy>, r: Replica, s: Source, aimed: Source)
    requires SourceOk(base, s) && SourceOk(base, aimed)
    requires Fuzzy(base, s.log, r, |aimed.log|) && r.through == |aimed.log|
    requires |aimed.log| <= |s.log| && s.log[..|aimed.log|] == aimed.log
    ensures |r.copies| == TABLES && forall n | 0 <= n < TABLES :: Shows(aimed.tables[n], r.copies[n])
  {
    hide Shows;
    CaughtUp(base, s.log, r);
    assert At(base, s.log, |aimed.log|) == At(base, aimed.log, |aimed.log|) by {
      assert aimed.log[..|aimed.log|] == aimed.log;
    }
  }
}
