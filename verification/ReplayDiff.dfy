/**
 The difference a projection computes on its snapshot, and what committing it does to the
 published rows, which may have moved on since.
 */
module ReplayDiff {
  import opened Common
  import opened PositionModel

  type Key = nat

  /** An episode row together with its valuation and cost columns, which replay never computes. */
  datatype Valued = Valued(row: Episode, derived: Option<int>)

  /** The state, episode and ownership rows of one position. */
  datatype Rows = Rows(position: Option<State>, episodes: map<nat, Valued>, ownership: map<nat, Interval>)

  const NO_ROWS := Rows(None, map[], map[])

  /** A row of the effects table, which is keyed by event and names the position holding it. */
  datatype Held = Held(key: Key, row: EffectRow)

  type Effects = map<int, Held>

  /** Everything the tables say, or ought to say, about one position. */
  datatype Target = Target(position: Option<State>, writes: Writes)

  const NO_TARGET := Target(None, NO_WRITES)

  function Cores(episodes: map<nat, Valued>): map<nat, Episode> {
    map n | n in episodes :: episodes[n].row
  }

  function HeldBy(effects: Effects, k: Key): map<int, EffectRow> {
    map e | e in effects && effects[e].key == k :: effects[e].row
  }

  function Shown(rows: Rows, effects: Effects, k: Key): Target {
    Target(rows.position, Writes(Cores(rows.episodes), rows.ownership, HeldBy(effects, k)))
  }

  /** Deletes and upserts, computed against one snapshot. */
  datatype Diff = Diff(
    dropPosition: bool, position: Option<State>,
    dropEpisodes: set<nat>, episodes: map<nat, Valued>,
    dropOwnership: set<nat>, ownership: map<nat, Interval>,
    dropEffects: set<int>, effects: map<int, EffectRow>)

  function ChangedEpisodes(existing: map<nat, Valued>, desired: map<nat, Episode>): map<nat, Valued> {
    map n | n in desired && (n !in existing || existing[n].row != desired[n]) ::
      Valued(desired[n], if n in existing then existing[n].derived else None)
  }

  function ChangedOwnership(existing: map<nat, Interval>, desired: map<nat, Interval>): map<nat, Interval> {
    map n | n in desired && (n !in existing || existing[n] != desired[n]) :: desired[n]
  }

  function ChangedEffects(existing: Effects, k: Key, desired: map<int, EffectRow>): map<int, EffectRow> {
    map e | e in desired && (e !in existing || existing[e] != Held(k, desired[e])) :: desired[e]
  }

  function StaleEffects(existing: Effects, k: Key, desired: map<int, EffectRow>): set<int> {
    set e | e in existing && existing[e].key == k && e !in desired
  }

  /** The writes that turn the snapshot into `t`; an append never deletes. */
  function DiffOf(rows: Rows, effects: Effects, k: Key, t: Target, append: bool): Diff {
    Diff(!append && t.position.None? && rows.position.Some?,
         if t.position != rows.position then t.position else None,
         if append then {} else rows.episodes.Keys - t.writes.episodes.Keys,
         ChangedEpisodes(rows.episodes, t.writes.episodes),
         if append then {} else rows.ownership.Keys - t.writes.ownership.Keys,
         ChangedOwnership(rows.ownership, t.writes.ownership),
         if append then {} else StaleEffects(effects, k, t.writes.effects),
         ChangedEffects(effects, k, t.writes.effects))
  }

  function FlushRows(rows: Rows, d: Diff): Rows {
    Rows(if d.position.Some? then d.position else if d.dropPosition then None else rows.position,
         (rows.episodes - d.dropEpisodes) + d.episodes,
         (rows.ownership - d.dropOwnership) + d.ownership)
  }

  function AfterDrops(effects: Effects, k: Key, drops: set<int>): Effects {
    map e | e in effects && !(e in drops && effects[e].key == k) :: effects[e]
  }

  /** An upsert may overwrite a row only if `k` holds it, or the event is mapped to `k` now. */
  predicate MayPut(effects: Effects, keyOf: map<int, Key>, k: Key, e: int) {
    e !in effects || effects[e].key == k || (e in keyOf && keyOf[e] == k)
  }

  function FlushEffects(effects: Effects, keyOf: map<int, Key>, k: Key, d: Diff): Effects {
    var kept := AfterDrops(effects, k, d.dropEffects);
    kept + map e | e in d.effects && MayPut(kept, keyOf, k, e) :: Held(k, d.effects[e])
  }

  /** What the rows should be once the diff has landed on the snapshot it was computed from. */
  function Landing(rows: Rows, effects: Effects, k: Key, t: Target, append: bool): Target {
    if append then
      Target(if t.position.Some? then t.position else rows.position, Shown(rows, effects, k).writes.Then(t.writes))
    else t
  }

  /** Equal up to the derived columns. */
  predicate SameRows(a: Rows, b: Rows) {
    a.position == b.position && Cores(a.episodes) == Cores(b.episodes) && a.ownership == b.ownership
  }

  lemma EpisodesLand(snapshot: map<nat, Valued>, now: map<nat, Valued>, desired: map<nat, Episode>, append: bool)
    requires Cores(snapshot) == Cores(now)
    ensures
      var drops := if append then {} else snapshot.Keys - desired.Keys;
      Cores((now - drops) + ChangedEpisodes(snapshot, desired)) == if append then Cores(now) + desired else desired
  {
    var drops := if append then {} else snapshot.Keys - desired.Keys;
    var landed := Cores((now - drops) + ChangedEpisodes(snapshot, desired));
    var goal := if append then Cores(now) + desired else desired;
    forall n
      ensures n in landed <==> n in goal
      ensures n in landed ==> landed[n] == goal[n]
    {
      assert n in now <==> n in Cores(now);
      assert n in snapshot <==> n in Cores(snapshot);
      assert n in now ==> now[n].row == Cores(now)[n] == snapshot[n].row;
    }
  }

  lemma OwnershipLands(rows: map<nat, Interval>, desired: map<nat, Interval>, append: bool)
    ensures
      var drops := if append then {} else rows.Keys - desired.Keys;
      (rows - drops) + ChangedOwnership(rows, desired) == if append then rows + desired else desired
  {
  }

  lemma RowsLand(snapshot: Rows, now: Rows, effects: Effects, k: Key, t: Target, append: bool)
    requires SameRows(snapshot, now)
    ensures
      var landed := FlushRows(now, DiffOf(snapshot, effects, k, t, append));
      var goal := Landing(snapshot, effects, k, t, append);
      && landed.position == goal.position
      && Cores(landed.episodes) == goal.writes.episodes
      && landed.ownership == goal.writes.ownership
  {
    hide Cores, ChangedEpisodes, ChangedOwnership, ChangedEffects, StaleEffects, HeldBy;
    EpisodesLand(snapshot.episodes, now.episodes, t.writes.episodes, append);
    OwnershipLands(now.ownership, t.writes.ownership, append);
  }

  /** The effects table may have changed for other positions, and have lost rows of `k`. */
  predicate EffectsSince(snapshot: Effects, now: Effects, k: Key, steady: set<int>) {
    && (forall e :: e in now && now[e].key == k ==> e in snapshot && snapshot[e] == now[e])
    && (forall e :: e in steady && e in snapshot && snapshot[e].key == k ==> e in now && now[e] == snapshot[e])
  }

  /**
   A diff lands on a later effects table if every desired event is still mapped to `k`,
   and `k` has kept the rows of those events.
   */
  lemma EffectsLand(rows: Rows, snapshot: Effects, now: Effects, keyOf: map<int, Key>, k: Key, t: Target, append: bool)
    requires
      var goal := Landing(rows, snapshot, k, t, append).writes.effects.Keys;
      EffectsSince(snapshot, now, k, goal) && forall e :: e in goal ==> e in keyOf && keyOf[e] == k
    ensures HeldBy(FlushEffects(now, keyOf, k, DiffOf(rows, snapshot, k, t, append)), k)
         == Landing(rows, snapshot, k, t, append).writes.effects
  {
    var d := DiffOf(rows, snapshot, k, t, append);
    var held := HeldBy(FlushEffects(now, keyOf, k, d), k);
    var goal := Landing(rows, snapshot, k, t, append).writes.effects;
    forall e
      ensures e in held <==> e in goal
      ensures e in held ==> held[e] == goal[e]
    {
      if e in goal {
        if e in d.effects {
          assert MayPut(AfterDrops(now, k, d.dropEffects), keyOf, k, e);
        } else {
          assert e in snapshot && snapshot[e] == Held(k, goal[e]);
        }
      } else if e in now && now[e].key == k {
        assert e in HeldBy(snapshot, k);
        assert !append && e in d.dropEffects;
      }
    }
  }

  /**
   With no publish in between, a full replay leaves exactly the desired rows and an append
   leaves the old rows overridden by the new ones; an episode that stays keeps its derived
   columns either way.
   */
  lemma DiffLands(rows: Rows, effects: Effects, keyOf: map<int, Key>, k: Key, t: Target, append: bool)
    requires forall e :: e in t.writes.effects ==> e in keyOf && keyOf[e] == k
    requires append ==> forall e :: e in effects && effects[e].key == k ==> e in keyOf && keyOf[e] == k
    ensures
      var d := DiffOf(rows, effects, k, t, append);
      var rows' := FlushRows(rows, d);
      && Shown(rows', FlushEffects(effects, keyOf, k, d), k) == Landing(rows, effects, k, t, append)
      && (forall n :: n in rows.episodes && n in rows'.episodes ==>
                      rows'.episodes[n].derived == rows.episodes[n].derived)
  {
    RowsLand(rows, rows, effects, k, t, append);
    EffectsLand(rows, effects, effects, keyOf, k, t, append);
  }

  /** A row held by the position its event is mapped to is safe from every other position. */
  lemma OthersKeepTheirRows(effects: Effects, keyOf: map<int, Key>, k: Key, d: Diff, e: int)
    requires e in effects && e in keyOf && effects[e].key == keyOf[e] != k
    ensures
      var effects' := FlushEffects(effects, keyOf, k, d);
      e in effects' && effects'[e] == effects[e]
  {
  }

  // ---------------------------------------------------------------- gas attribution

  /** Episode `episode` of position `key` takes part in transaction `tx`. */
  datatype GasShare = GasShare(key: Key, episode: nat, tx: nat)

  function Shares(effects: Effects): set<GasShare> {
    set e | e in effects && effects[e].row.episode.Some? ::
      GasShare(effects[e].key, effects[e].row.episode.value, effects[e].row.txHash)
  }

  function AllHeld(k: Key, rows: map<int, EffectRow>): Effects {
    map e | e in rows :: Held(k, rows[e])
  }

  /** The existing shares the diff looks at: full replays read the position, appends probe. */
  function SharesSeen(effects: Effects, k: Key, desired: map<int, EffectRow>, append: bool): set<GasShare> {
    if append then
      Shares(map e | e in effects && e in desired :: effects[e]) + (Shares(AllHeld(k, desired)) * Shares(effects))
    else
      Shares(map e | e in effects && (effects[e].key == k || e in desired) :: effects[e])
  }

  function SharesChanged(effects: Effects, k: Key, desired: map<int, EffectRow>, append: bool): set<GasShare> {
    var seen, wanted := SharesSeen(effects, k, desired, append), Shares(AllHeld(k, desired));
    (seen - wanted) + (wanted - seen)
  }

  /** The episodes whose gas total is recomputed. */
  function GasChanged(effects: Effects, k: Key, desired: map<int, EffectRow>, append: bool): set<(Key, nat)> {
    set s | s in SharesChanged(effects, k, desired, append) :: (s.key, s.episode)
  }

  function TransactionsOf(effects: Effects, key: Key, episode: nat): set<nat> {
    set s | s in Shares(effects) && s.key == key && s.episode == episode :: s.tx
  }

  lemma InTransactions(effects: Effects, key: Key, episode: nat, tx: nat)
    ensures tx in TransactionsOf(effects, key, episode) <==> GasShare(key, episode, tx) in Shares(effects)
  {
  }

  lemma ShareOf(effects: Effects, e: int)
    requires e in effects && effects[e].row.episode.Some?
    ensures GasShare(effects[e].key, effects[e].row.episode.value, effects[e].row.txHash) in Shares(effects)
  {
  }

  lemma OwnSharesFull(effects: Effects, k: Key, desired: map<int, EffectRow>, s: GasShare)
    requires s.key == k
    ensures s in SharesSeen(effects, k, desired, false) <==> s in Shares(effects)
  {
    var seen: Effects := map e | e in effects && (effects[e].key == k || e in desired) :: effects[e];
    if s in Shares(effects) {
      var e :| e in effects && effects[e].row.episode.Some?
               && s == GasShare(effects[e].key, effects[e].row.episode.value, effects[e].row.txHash);
      assert e in seen;
      ShareOf(seen, e);
    }
  }

  lemma HeldShares(effects: Effects, k: Key, rows: map<int, EffectRow>, s: GasShare)
    requires s.key == k && HeldBy(effects, k) == rows
    ensures s in Shares(effects) <==> s in Shares(AllHeld(k, rows))
  {
    if s in Shares(effects) {
      var e :| e in effects && effects[e].row.episode.Some?
               && s == GasShare(effects[e].key, effects[e].row.episode.value, effects[e].row.txHash);
      assert e in HeldBy(effects, k);
      ShareOf(AllHeld(k, rows), e);
    }
    if s in Shares(AllHeld(k, rows)) {
      var e :| e in AllHeld(k, rows) && rows[e].episode.Some?
               && s == GasShare(k, rows[e].episode.value, rows[e].txHash);
      assert e in HeldBy(effects, k);
      ShareOf(effects, e);
    }
  }

  /** Exactly the episodes of `k` whose set of transactions differs are marked, on a full replay. */
  lemma GasChangedExactly(effects: Effects, after: Effects, k: Key, desired: map<int, EffectRow>, n: nat)
    requires HeldBy(after, k) == desired
    ensures (k, n) in GasChanged(effects, k, desired, false)
       <==> TransactionsOf(effects, k, n) != TransactionsOf(after, k, n)
  {
    var before, later := TransactionsOf(effects, k, n), TransactionsOf(after, k, n);
    forall tx
      ensures tx in before <==> GasShare(k, n, tx) in SharesSeen(effects, k, desired, false)
      ensures tx in later <==> GasShare(k, n, tx) in Shares(AllHeld(k, desired))
    {
      InTransactions(effects, k, n, tx);
      InTransactions(after, k, n, tx);
      OwnSharesFull(effects, k, desired, GasShare(k, n, tx));
      HeldShares(after, k, desired, GasShare(k, n, tx));
    }
    if (k, n) in GasChanged(effects, k, desired, false) {
      var s :| s in SharesChanged(effects, k, desired, false) && s.key == k && s.episode == n;
      assert s.tx in before <==> s.tx !in later by {
        assert s == GasShare(k, n, s.tx);
      }
    }
    if before != later {
      var tx :| (tx in before) != (tx in later);
      assert GasShare(k, n, tx) in SharesChanged(effects, k, desired, false);
    }
  }

  /** Events without an effect row contribute no existing share of their own. */
  lemma ProbedNothing(effects: Effects, k: Key, desired: map<int, EffectRow>)
    requires forall e :: e in desired ==> e !in effects
    ensures SharesSeen(effects, k, desired, true) == Shares(AllHeld(k, desired)) * Shares(effects)
  {
  }

  /** The same for an append of events that have no effect row yet. */
  lemma AppendGasChangedExactly(effects: Effects, after: Effects, k: Key, desired: map<int, EffectRow>, n: nat)
    requires forall e :: e in desired ==> e !in effects
    requires HeldBy(after, k) == HeldBy(effects, k) + desired
    ensures (k, n) in GasChanged(effects, k, desired, true)
       <==> TransactionsOf(effects, k, n) != TransactionsOf(after, k, n)
  {
    var before, later := TransactionsOf(effects, k, n), TransactionsOf(after, k, n);
    var wanted := Shares(AllHeld(k, desired));
    forall tx
      ensures tx in before <==> GasShare(k, n, tx) in Shares(effects)
      ensures tx in later <==> tx in before || GasShare(k, n, tx) in wanted
    {
      var s := GasShare(k, n, tx);
      InTransactions(effects, k, n, tx);
      InTransactions(after, k, n, tx);
      HeldShares(effects, k, HeldBy(effects, k), s);
      HeldShares(after, k, HeldBy(after, k), s);
      UnionShares(k, HeldBy(effects, k), desired, s);
    }
    ProbedNothing(effects, k, desired);
    if (k, n) in GasChanged(effects, k, desired, true) {
      var s :| s in SharesChanged(effects, k, desired, true) && s.key == k && s.episode == n;
      assert s == GasShare(k, n, s.tx);
      assert s.tx !in before && s.tx in later;
    }
    if before != later {
      var tx :| (tx in before) != (tx in later);
      assert GasShare(k, n, tx) in SharesChanged(effects, k, desired, true);
    }
  }

  lemma UnionShares(k: Key, a: map<int, EffectRow>, b: map<int, EffectRow>, s: GasShare)
    requires forall e :: e in b ==> e !in a
    ensures s in Shares(AllHeld(k, a + b)) <==> s in Shares(AllHeld(k, a)) || s in Shares(AllHeld(k, b))
  {
    var all, left, right := AllHeld(k, a + b), AllHeld(k, a), AllHeld(k, b);
    if s in Shares(all) {
      var e :| e in all && all[e].row.episode.Some? && s == GasShare(k, all[e].row.episode.value, all[e].row.txHash);
      if e in b {
        ShareOf(right, e);
      } else {
        ShareOf(left, e);
      }
    }
    if s in Shares(left) {
      var e :| e in left && left[e].row.episode.Some?
               && s == GasShare(k, left[e].row.episode.value, left[e].row.txHash);
      assert all[e] == left[e];
      ShareOf(all, e);
    }
    if s in Shares(right) {
      var e :| e in right && right[e].row.episode.Some?
               && s == GasShare(k, right[e].row.episode.value, right[e].row.txHash);
      assert all[e] == right[e];
      ShareOf(all, e);
    }
  }

  /** An episode of another position is marked exactly when one of its effects is taken over. */
  lemma OtherGasChangedExactly(effects: Effects, k: Key, desired: map<int, EffectRow>, other: Key, n: nat)
    requires other != k
    ensures (other, n) in GasChanged(effects, k, desired, false)
       <==> exists e :: e in desired && e in effects && effects[e].key == other && effects[e].row.episode == Some(n)
  {
    var seen: Effects := map e | e in effects && (effects[e].key == k || e in desired) :: effects[e];
    if e :| e in desired && e in effects && effects[e].key == other && effects[e].row.episode == Some(n) {
      ShareOf(seen, e);
      var s := GasShare(other, n, effects[e].row.txHash);
      assert s in SharesChanged(effects, k, desired, false);
    }
    if (other, n) in GasChanged(effects, k, desired, false) {
      var s :| s in SharesChanged(effects, k, desired, false) && s.key == other && s.episode == n;
      assert s in Shares(seen);
      var e :| e in seen && seen[e].row.episode.Some?
               && s == GasShare(seen[e].key, seen[e].row.episode.value, seen[e].row.txHash);
      assert e in desired && effects[e] == seen[e];
    }
  }

  /** The rows of an episode of another position that the diff takes over. */
  predicate Taken(effects: Effects, desired: map<int, EffectRow>, other: Key, n: nat, e: int) {
    e in desired && e in effects && effects[e].key == other && effects[e].row.episode == Some(n)
  }

  /** Some row of the episode that stays reports the transaction. */
  predicate StillShared(effects: Effects, desired: map<int, EffectRow>, other: Key, n: nat, tx: nat) {
    exists e | e in effects ::
      e !in desired && effects[e].key == other && effects[e].row.episode == Some(n) && effects[e].row.txHash == tx
  }

  /** What a full diff, flushed at once, leaves of the rows of another position. */
  lemma OtherRowsLeft(rows: Rows, effects: Effects, keyOf: map<int, Key>, k: Key, t: Target, other: Key, e: int)
    requires other != k && forall i :: i in t.writes.effects ==> i in keyOf && keyOf[i] == k
    ensures
      var after := FlushEffects(effects, keyOf, k, DiffOf(rows, effects, k, t, false));
      && (e in after && after[e].key == other <==>
            e in effects && effects[e].key == other && e !in t.writes.effects)
      && (e in after && after[e].key == other ==> after[e] == effects[e])
  {
    hide ChangedEpisodes, ChangedOwnership;
  }

  lemma InTransactionsBy(effects: Effects, key: Key, n: nat, tx: nat)
    ensures tx in TransactionsOf(effects, key, n)
       <==> exists e :: e in effects && effects[e].key == key && effects[e].row.episode == Some(n)
                        && effects[e].row.txHash == tx
  {
    InTransactions(effects, key, n, tx);
    if e :| e in effects && effects[e].key == key && effects[e].row.episode == Some(n) && effects[e].row.txHash == tx {
      ShareOf(effects, e);
    }
    if GasShare(key, n, tx) in Shares(effects) {
      var e :| e in effects && effects[e].row.episode.Some?
               && GasShare(key, n, tx)
                  == GasShare(effects[e].key, effects[e].row.episode.value, effects[e].row.txHash);
      assert effects[e].row.episode == Some(n);
    }
  }

  /** A transaction leaves an episode of another position when its last row is taken over. */
  lemma OtherTransactionsLeft(rows: Rows, effects: Effects, keyOf: map<int, Key>, k: Key, t: Target,
                              other: Key, n: nat, tx: nat)
    requires other != k && forall e :: e in t.writes.effects ==> e in keyOf && keyOf[e] == k
    ensures
      var after := FlushEffects(effects, keyOf, k, DiffOf(rows, effects, k, t, false));
      tx in TransactionsOf(after, other, n) <==> StillShared(effects, t.writes.effects, other, n, tx)
  {
    var after := FlushEffects(effects, keyOf, k, DiffOf(rows, effects, k, t, false));
    InTransactionsBy(after, other, n, tx);
    hide FlushEffects, DiffOf, TransactionsOf;
    if e :| e in after && after[e].key == other && after[e].row.episode == Some(n) && after[e].row.txHash == tx {
      OtherRowsLeft(rows, effects, keyOf, k, t, other, e);
    }
    if StillShared(effects, t.writes.effects, other, n, tx) {
      var e :| e in effects && e !in t.writes.effects && effects[e].key == other
               && effects[e].row.episode == Some(n) && effects[e].row.txHash == tx;
      OtherRowsLeft(rows, effects, keyOf, k, t, other, e);
    }
  }

  /**
   An episode of another position whose transactions change is always marked. It is marked
   without a change exactly when every transaction of a row it loses is still reported by a row
   it keeps.
   */
  lemma OtherGasMarked(rows: Rows, effects: Effects, keyOf: map<int, Key>, k: Key, t: Target, other: Key, n: nat)
    requires other != k && forall e :: e in t.writes.effects ==> e in keyOf && keyOf[e] == k
    ensures
      var after := FlushEffects(effects, keyOf, k, DiffOf(rows, effects, k, t, false));
      var same := TransactionsOf(effects, other, n) == TransactionsOf(after, other, n);
      var marked := (other, n) in GasChanged(effects, k, t.writes.effects, false);
      && (!same ==> marked)
      && (same <==> forall e | e in effects && Taken(effects, t.writes.effects, other, n, e) ::
                           StillShared(effects, t.writes.effects, other, n, effects[e].row.txHash))
  {
    var after := FlushEffects(effects, keyOf, k, DiffOf(rows, effects, k, t, false));
    var before, later := TransactionsOf(effects, other, n), TransactionsOf(after, other, n);
    OtherGasChangedExactly(effects, k, t.writes.effects, other, n);
    hide FlushEffects, DiffOf, TransactionsOf, GasChanged, StillShared;
    forall tx: nat
      ensures tx in before <==>
                exists e :: e in effects && effects[e].key == other && effects[e].row.episode == Some(n)
                            && effects[e].row.txHash == tx
      ensures tx in later <==> StillShared(effects, t.writes.effects, other, n, tx)
    {
      InTransactionsBy(effects, other, n, tx);
      OtherTransactionsLeft(rows, effects, keyOf, k, t, other, n, tx);
    }
    OtherUnchanged(effects, t.writes.effects, other, n, before, later);
  }

  lemma OtherUnchanged(effects: Effects, desired: map<int, EffectRow>, other: Key, n: nat, before: set<nat>,
                       later: set<nat>)
    requires forall tx: nat :: tx in before <==>
               exists e :: e in effects && effects[e].key == other && effects[e].row.episode == Some(n)
                           && effects[e].row.txHash == tx
    requires forall tx: nat :: tx in later <==> StillShared(effects, desired, other, n, tx)
    ensures before == later <==>
              forall e | e in effects && Taken(effects, desired, other, n, e) ::
                StillShared(effects, desired, other, n, effects[e].row.txHash)
    ensures before != later ==> exists e :: Taken(effects, desired, other, n, e)
  {
    forall tx | tx in later
      ensures tx in before
    {
      assert StillShared(effects, desired, other, n, tx);
    }
    if before != later {
      var tx :| tx in before && tx !in later;
      var e :| e in effects && effects[e].key == other && effects[e].row.episode == Some(n)
               && effects[e].row.txHash == tx;
      assert Taken(effects, desired, other, n, e);
    }
  }

  /** Two rows of one transaction, one of which moves: marked, although nothing changes. */
  lemma OtherMarkedUnchanged(row: EffectRow, k: Key, other: Key, n: nat)
    requires other != k && row.episode == Some(n)
    ensures
      var effects: Effects := map[1 := Held(other, row), 2 := Held(other, row)];
      var t := Target(None, NO_WRITES.WithEffect(1, row));
      var after := FlushEffects(effects, map[1 := k, 2 := other], k, DiffOf(NO_ROWS, effects, k, t, false));
      && (other, n) in GasChanged(effects, k, t.writes.effects, false)
      && TransactionsOf(effects, other, n) == TransactionsOf(after, other, n) == {row.txHash}
  {
    hide FlushEffects, DiffOf, GasChanged, TransactionsOf, Taken, StillShared;
    var effects: Effects := map[1 := Held(other, row), 2 := Held(other, row)];
    var t := Target(None, NO_WRITES.WithEffect(1, row));
    var keyOf := map[1 := k, 2 := other];
    assert t.writes.effects == map[1 := row];
    SecondRowStays(row, other, n);
    OtherGasMarked(NO_ROWS, effects, keyOf, k, t, other, n);
    OtherGasChangedExactly(effects, k, t.writes.effects, other, n);
    forall tx: nat
      ensures tx in TransactionsOf(effects, other, n) <==> tx == row.txHash
    {
      InTransactionsBy(effects, other, n, tx);
      assert effects[1].row.txHash == row.txHash;
    }
  }

  lemma SecondRowStays(row: EffectRow, other: Key, n: nat)
    requires row.episode == Some(n)
    ensures
      var effects: Effects := map[1 := Held(other, row), 2 := Held(other, row)];
      && Taken(effects, map[1 := row], other, n, 1)
      && StillShared(effects, map[1 := row], other, n, row.txHash)
  {
    var effects: Effects := map[1 := Held(other, row), 2 := Held(other, row)];
    assert 2 in effects;
  }
}
