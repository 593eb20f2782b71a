/** How a projection finds the effect rows to write and the gas totals to refresh, row by row. */
module EffectDiff {
  import opened Common
  import opened PositionModel
  import opened ReplayDiff

  /** The rows looked at so far. */
  function Looked(effects: Effects, ids: set<int>): Effects {
    map e | e in ids && e in effects :: effects[e]
  }

  function ShareOfRow(k: Key, row: EffectRow): set<GasShare> {
    if row.episode.Some? then {GasShare(k, row.episode.value, row.txHash)} else {}
  }

  lemma LookFurther(effects: Effects, ids: set<int>, e: int)
    ensures Shares(Looked(effects, ids + {e}))
         == Shares(Looked(effects, ids)) + if e in effects then ShareOfRow(effects[e].key, effects[e].row) else {}
  {
    var before, after := Looked(effects, ids), Looked(effects, ids + {e});
    if e in effects && effects[e].row.episode.Some? {
      ShareOf(after, e);
    }
    forall s | s in Shares(before)
      ensures s in Shares(after)
    {
      var x :| x in before && before[x].row.episode.Some?
               && s == GasShare(before[x].key, before[x].row.episode.value, before[x].row.txHash);
      ShareOf(after, x);
    }
  }

  /** The changed rows among `ids`. */
  function ChangedAmong(effects: Effects, k: Key, desired: map<int, EffectRow>, ids: set<int>): map<int, EffectRow> {
    map e | e in desired && e in ids && (e !in effects || effects[e] != Held(k, desired[e])) :: desired[e]
  }

  lemma ChangedFurther(effects: Effects, k: Key, desired: map<int, EffectRow>, ids: set<int>, e: int)
    ensures ChangedAmong(effects, k, desired, ids + {e})
         == if e in desired && (e !in effects || effects[e] != Held(k, desired[e]))
            then ChangedAmong(effects, k, desired, ids)[e := desired[e]]
            else ChangedAmong(effects, k, desired, ids)
  {
  }

  function HeldIds(effects: Effects, k: Key): set<int> {
    set e | e in effects && effects[e].key == k
  }

  /** A full replay streams the rows of the position before it probes the rest by event. */
  method StreamPosition(effects: Effects, k: Key, desired: map<int, EffectRow>)
    returns (stale: set<int>, changed: map<int, EffectRow>, shares: set<GasShare>, remaining: set<int>)
    ensures stale == StaleEffects(effects, k, desired)
    ensures changed == ChangedAmong(effects, k, desired, HeldIds(effects, k))
    ensures shares == Shares(Looked(effects, HeldIds(effects, k)))
    ensures remaining == desired.Keys - HeldIds(effects, k)
  {
    var todo := HeldIds(effects, k);
    StaleAre(effects, k, desired);
    ghost var seen, held: set<int> := {}, todo;
    stale, changed, shares, remaining := {}, map[], {}, desired.Keys;
    NothingLooked(effects, k, desired);
    hide Shares, ChangedAmong, Looked, ShareOfRow, HeldIds, StaleEffects;
    while todo != {}
      invariant seen <= held && todo == held - seen
      invariant stale == seen - desired.Keys
      invariant changed == ChangedAmong(effects, k, desired, seen)
      invariant shares == Shares(Looked(effects, seen))
      invariant remaining == desired.Keys - seen
      decreases |todo|
    {
      Pickable(todo);
      var e :| e in todo;
      HeldRow(effects, k, e);
      SeenOneMore(held, seen, desired.Keys, e);
      var row := effects[e].row;
      LookFurther(effects, seen, e);
      ChangedFurther(effects, k, desired, seen, e);
      shares := shares + ShareOfRow(k, row);
      if e in desired {
        remaining := remaining - {e};
        if row != desired[e] {
          changed := changed[e := desired[e]];
        }
      } else {
        stale := stale + {e};
      }
      seen := seen + {e};
      todo := todo - {e};
    }
    assert seen == held;
  }

  lemma Pickable(s: set<int>)
    ensures s == {} || exists e :: e in s
  {
    if forall e :: e !in s {
      assert s == {};
    }
  }

  lemma SeenOneMore(held: set<int>, seen: set<int>, desired: set<int>, e: int)
    requires e in held - seen
    ensures held - (seen + {e}) == held - seen - {e}
    ensures (seen + {e}) - desired == if e in desired then seen - desired else (seen - desired) + {e}
    ensures desired - (seen + {e}) == if e in desired then desired - seen - {e} else desired - seen
  {
  }

  lemma HeldRow(effects: Effects, k: Key, e: int)
    requires e in HeldIds(effects, k)
    ensures e in effects && effects[e] == Held(k, effects[e].row)
  {
  }

  lemma StaleAre(effects: Effects, k: Key, desired: map<int, EffectRow>)
    ensures StaleEffects(effects, k, desired) == HeldIds(effects, k) - desired.Keys
  {
  }

  lemma NothingLooked(effects: Effects, k: Key, desired: map<int, EffectRow>)
    ensures Shares(Looked(effects, {})) == {}
    ensures ChangedAmong(effects, k, desired, {}) == map[]
  {
  }

  /** Desired events not yet looked at: they may have no row, or one of another position. */
  method ProbeEvents(effects: Effects, k: Key, desired: map<int, EffectRow>, ids: set<int>, ghost before: set<int>,
                     changed0: map<int, EffectRow>, shares0: set<GasShare>)
    returns (changed: map<int, EffectRow>, shares: set<GasShare>)
    requires ids <= desired.Keys
    requires changed0 == ChangedAmong(effects, k, desired, before) && shares0 == Shares(Looked(effects, before))
    ensures changed == ChangedAmong(effects, k, desired, before + ids)
        && shares == Shares(Looked(effects, before + ids))
  {
    hide Shares, ChangedAmong, Looked, ShareOfRow;
    changed, shares := changed0, shares0;
    var remaining := ids;
    ghost var seen := before;
    while remaining != {}
      invariant remaining <= ids && seen + remaining == before + ids
      invariant changed == ChangedAmong(effects, k, desired, seen)
      invariant shares == Shares(Looked(effects, seen))
      decreases |remaining|
    {
      Pickable(remaining);
      var e :| e in remaining;
      LookFurther(effects, seen, e);
      ChangedFurther(effects, k, desired, seen, e);
      if e in effects {
        shares := shares + ShareOfRow(effects[e].key, effects[e].row);
      }
      if e !in effects || effects[e] != Held(k, desired[e]) {
        changed := changed[e := desired[e]];
      }
      assert seen + {e} + (remaining - {e}) == seen + remaining;
      seen := seen + {e};
      remaining := remaining - {e};
    }
    assert seen == before + ids;
  }

  /** Rows to delete, rows to write, and the episodes whose gas total may have changed. */
  method DiffEffects(effects: Effects, k: Key, desired: map<int, EffectRow>, append: bool)
    returns (stale: set<int>, changed: map<int, EffectRow>, gas: set<(Key, nat)>)
    ensures stale == if append then {} else StaleEffects(effects, k, desired)
    ensures changed == ChangedEffects(effects, k, desired)
    ensures gas == GasChanged(effects, k, desired, append)
  {
    hide Shares, ChangedAmong, StaleEffects, Looked, ShareOfRow, HeldIds, ChangedEffects, SharesSeen;
    var shares: set<GasShare>;
    if append {
      NothingLooked(effects, k, desired);
      changed, shares := ProbeEvents(effects, k, desired, desired.Keys, {}, map[], {});
      stale := {};
      AllLooked(effects, k, desired, {} + desired.Keys, append);
    } else {
      var remaining: set<int>;
      stale, changed, shares, remaining := StreamPosition(effects, k, desired);
      changed, shares := ProbeEvents(effects, k, desired, remaining, HeldIds(effects, k), changed, shares);
      AllLooked(effects, k, desired, HeldIds(effects, k) + remaining, append);
    }
    var wanted := Shares(AllHeld(k, desired));
    if append {
      shares := shares + wanted * Shares(effects);
    }
    var differing := (shares - wanted) + (wanted - shares);
    gas := set s | s in differing :: (s.key, s.episode);
  }

  lemma AllLooked(effects: Effects, k: Key, desired: map<int, EffectRow>, seen: set<int>, append: bool)
    requires seen == desired.Keys + if append then {} else HeldIds(effects, k)
    ensures ChangedAmong(effects, k, desired, seen) == ChangedEffects(effects, k, desired)
    ensures SharesSeen(effects, k, desired, append)
         == Shares(Looked(effects, seen)) + if append then Shares(AllHeld(k, desired)) * Shares(effects) else {}
  {
    assert append ==> Looked(effects, seen) == map e | e in effects && e in desired :: effects[e];
    assert !append ==>
             Looked(effects, seen) == map e | e in effects && (effects[e].key == k || e in desired) :: effects[e];
    hide Shares;
  }
}
