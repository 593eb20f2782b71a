/**
 Writing a diff: one guarded delete per stale row, then one guarded upsert per changed row.
 */
module ReplayFlush {
  import opened Common
  import opened PositionModel
  import opened ReplayDiff

  /** DELETE a row at a time. */
  method DeleteRows<V>(rows: map<nat, V>, drops: set<nat>) returns (kept: map<nat, V>)
    ensures kept == rows - drops
  {
    kept := rows;
    var todo := drops;
    while todo != {}
      invariant todo <= drops
      invariant kept == rows - (drops - todo)
      decreases |todo|
    {
      var n :| n in todo;
      assert rows - (drops - (todo - {n})) == (rows - (drops - todo)) - {n};
      kept := kept - {n};
      todo := todo - {n};
    }
    assert drops - todo == drops;
  }

  /** Replace or insert a row at a time. */
  method PutRows<V>(rows: map<nat, V>, puts: map<nat, V>) returns (after: map<nat, V>)
    ensures after == rows + puts
  {
    after := rows;
    var todo := puts.Keys;
    while todo != {}
      invariant todo <= puts.Keys
      invariant after == rows + (puts - todo)
      decreases |todo|
    {
      var n :| n in todo;
      assert rows + (puts - (todo - {n})) == (rows + (puts - todo))[n := puts[n]];
      after := after[n := puts[n]];
      todo := todo - {n};
    }
    assert puts - todo == puts;
  }

  lemma SomeEvent(s: set<int>)
    ensures s == {} || exists e :: e in s
  {
    if forall e :: e !in s {
      assert s == {};
    }
  }

  /** DELETE WHERE the event is the given one and the row still names `k`. */
  method DeleteEffects(effects: Effects, k: Key, drops: set<int>) returns (kept: Effects)
    ensures kept == AfterDrops(effects, k, drops)
  {
    kept := effects;
    var todo := drops;
    while todo != {}
      invariant todo <= drops
      invariant kept == AfterDrops(effects, k, drops - todo)
      decreases |todo|
    {
      SomeEvent(todo);
      var e :| e in todo;
      var left := todo - {e};
      assert drops - left == (drops - todo) + {e};
      if e in kept && kept[e].key == k {
        kept := kept - {e};
      }
      assert kept == AfterDrops(effects, k, drops - left);
      todo := left;
    }
    assert drops - todo == drops;
  }

  /** What upserting the rows of `puts` outside `todo` has made of the table. */
  function PutSoFar(kept: Effects, keyOf: map<int, Key>, k: Key, puts: map<int, EffectRow>, todo: set<int>): Effects {
    kept + map e | e in puts && e !in todo && MayPut(kept, keyOf, k, e) :: Held(k, puts[e])
  }

  lemma PutFurther(kept: Effects, keyOf: map<int, Key>, k: Key, puts: map<int, EffectRow>, todo: set<int>, e: int)
    requires e in puts && e in todo
    ensures
      var after := PutSoFar(kept, keyOf, k, puts, todo);
      PutSoFar(kept, keyOf, k, puts, todo - {e})
      == if MayPut(after, keyOf, k, e) then after[e := Held(k, puts[e])] else after
  {
    var after := PutSoFar(kept, keyOf, k, puts, todo);
    assert e in after <==> e in kept;
    assert e in kept ==> after[e] == kept[e];
  }

  /** Upsert an effect row at a time, never over a row of an event mapped elsewhere. */
  method PutEffects(kept: Effects, keyOf: map<int, Key>, k: Key, puts: map<int, EffectRow>) returns (after: Effects)
    ensures after == PutSoFar(kept, keyOf, k, puts, {})
  {
    after := kept;
    var todo := puts.Keys;
    assert after == PutSoFar(kept, keyOf, k, puts, todo);
    hide PutSoFar;
    while todo != {}
      invariant todo <= puts.Keys
      invariant after == PutSoFar(kept, keyOf, k, puts, todo)
      decreases |todo|
    {
      SomeEvent(todo);
      var e :| e in todo;
      PutFurther(kept, keyOf, k, puts, todo, e);
      if e !in after || after[e].key == k || (e in keyOf && keyOf[e] == k) {
        after := after[e := Held(k, puts[e])];
      }
      todo := todo - {e};
    }
  }

  /** Effects first, then the ownership, episode and state rows of the position. */
  method Flush(rows: Rows, effects: Effects, keyOf: map<int, Key>, k: Key, d: Diff)
    returns (rows': Rows, effects': Effects)
    ensures rows' == FlushRows(rows, d)
    ensures effects' == FlushEffects(effects, keyOf, k, d)
  {
    hide AfterDrops, MayPut;
    var kept := DeleteEffects(effects, k, d.dropEffects);
    effects' := PutEffects(kept, keyOf, k, d.effects);
    var ownership := DeleteRows(rows.ownership, d.dropOwnership);
    ownership := PutRows(ownership, d.ownership);
    var episodes := DeleteRows(rows.episodes, d.dropEpisodes);
    episodes := PutRows(episodes, d.episodes);
    var position := if d.dropPosition then None else rows.position;
    if d.position.Some? {
      position := d.position;
    }
    rows' := Rows(position, episodes, ownership);
  }
}
