/**
 The deferred ledger as a step system. Canonical events are mapped to positions and queue
 them; a preparer reads one snapshot and computes a diff; a publisher commits that diff
 later, possibly after the tables have moved on; a reorganisation starts a new epoch.
 */
module DeferredLedger {
  import opened Common
  import opened PositionModel
  import opened AppendProofs
  import opened Histories
  import opened ReplayDiff

  /** A changed event, the position it now names, and whether only its receipt is news. */
  datatype Change = Change(event: Event, key: Option<Key>, receiptOnly: bool)

  type Batch = map<int, Change>

  /** A queue row. The flags are proofs that less than a full replay will do. */
  datatype Pending = Pending(generation: nat, appendOnly: bool, costOnly: bool)

  /** Identities kept for a position whose rows a reorganisation removed. */
  datatype Saved = Saved(ordinal: nat, openings: Identities)

  datatype Ledger = Ledger(
    events: map<int, Event>, keyOf: map<int, Key>, pending: map<Key, Pending>,
    rows: map<Key, Rows>, effects: Effects, identities: map<Key, Saved>, epoch: nat)
  {
    function RowsOf(k: Key): Rows {
      if k in rows then rows[k] else NO_ROWS
    }

    /** The events now mapped to `k`. */
    function Mapped(k: Key): set<int> {
      set e | e in keyOf && keyOf[e] == k
    }

    /** The published rows of `k`. */
    function Published(k: Key): Target {
      Shown(RowsOf(k), effects, k)
    }

    predicate Appending(k: Key) {
      k in pending && pending[k].appendOnly
    }
  }

  const EMPTY_LEDGER := Ledger(map[], map[], map[], map[], map[], map[], 0)

  // ---------------------------------------------------------------- enqueue

  function TouchedKeys(l: Ledger, batch: Batch): set<Key> {
    (set e | e in batch && e in l.keyOf :: l.keyOf[e])
    + (set e | e in batch && batch[e].key.Some? :: batch[e].key.value)
  }

  predicate Touches(l: Ledger, batch: Batch, e: int, k: Key) {
    e in batch && ((e in l.keyOf && l.keyOf[e] == k) || batch[e].key == Some(k))
  }

  /** Every event of the batch that touches `k` is new to it and has never been projected. */
  predicate AppendProof(l: Ledger, batch: Batch, k: Key) {
    forall e | e in batch ::
      Touches(l, batch, e, k) ==> e !in l.keyOf && e !in l.effects && batch[e].key == Some(k)
  }

  /** Every event of the batch that touches `k` is already projected and keeps its facts. */
  predicate CostProof(l: Ledger, batch: Batch, k: Key) {
    forall e | e in batch ::
      Touches(l, batch, e, k) ==>
        batch[e].receiptOnly && e in l.keyOf && l.keyOf[e] == k && batch[e].key == Some(k) && e in l.effects
  }

  /** A new row starts at generation one; an existing row keeps a proof only if it is repeated. */
  function Requeued(pending: map<Key, Pending>, k: Key, append: bool, cost: bool): Pending {
    if k in pending
    then Pending(pending[k].generation + 1, pending[k].appendOnly && append, pending[k].costOnly && cost)
    else Pending(1, append, cost)
  }

  function BatchEvents(batch: Batch): map<int, Event> {
    map e | e in batch :: batch[e].event
  }

  function Remapped(keyOf: map<int, Key>, batch: Batch): map<int, Key> {
    (keyOf - batch.Keys) + map e | e in batch && batch[e].key.Some? :: batch[e].key.value
  }

  function ApplyStep(l: Ledger, batch: Batch): Ledger {
    l.(events := l.events + BatchEvents(batch),
       keyOf := Remapped(l.keyOf, batch),
       pending := l.pending + map k | k in TouchedKeys(l, batch) ::
         Requeued(l.pending, k, AppendProof(l, batch, k), CostProof(l, batch, k)))
  }

  // ---------------------------------------------------------------- prepare

  ghost function HistoryOf(l: Ledger, ids: set<int>): seq<Event> {
    if CanonicalTable(l.events) && ids <= l.events.Keys then History(l.events, ids) else []
  }

  function OpeningOrders(rows: map<nat, Episode>): set<Order> {
    set n | n in rows :: rows[n].openOrder
  }

  ghost function OrdinalAt(rows: map<nat, Episode>, o: Order): nat
    requires o in OpeningOrders(rows)
  {
    var n :| n in rows && rows[n].openOrder == o;
    n
  }

  ghost function Openings(rows: map<nat, Episode>): Identities {
    map o | o in OpeningOrders(rows) :: OrdinalAt(rows, o)
  }

  ghost function Highest(ns: set<nat>): (h: nat)
    ensures forall n :: n in ns ==> n <= h
    ensures h == 0 || h in ns
  {
    if ns == {} then 0
    else
      var n :| n in ns;
      var h := Highest(ns - {n});
      assert forall m :: m in ns ==> m == n || m in ns - {n};
      if h < n then n else h
  }

  function Larger(a: nat, b: nat): nat {
    if a < b then b else a
  }

  /** The ordinals a full replay starts from: saved ones, overridden by published ones. */
  ghost function Restored(l: Ledger, k: Key): Saved {
    var rows := l.RowsOf(k);
    var cores := Cores(rows.episodes);
    var saved := if k in l.identities then l.identities[k] else Saved(0, map[]);
    var stored := if rows.position.Some? then rows.position.value.episodes.ordinal else 0;
    Saved(Larger(Larger(saved.ordinal, stored), Highest(cores.Keys)), saved.openings + Openings(cores))
  }

  /** The rows of a full replay of `h`; a position without events has none. */
  ghost function Result(ids: Identities, base: nat, h: seq<Event>): Target {
    if |h| == 0 then NO_TARGET
    else
      var d := Replay(ids, base, h);
      Target(Some(d.state), d.writes)
  }

  /** Events mapped to `k` that no position has projected yet. */
  function NewIds(l: Ledger, k: Key): set<int> {
    set e | e in l.keyOf && l.keyOf[e] == k && e !in l.effects
  }

  /** The append attempt succeeds: something to append, a stored state, and no shared block. */
  ghost predicate CanAppend(l: Ledger, k: Key) {
    && l.Appending(k) && NewIds(l, k) != {} && l.RowsOf(k).position.Some?
    && Appendable(l.RowsOf(k).position.value, HistoryOf(l, NewIds(l, k)))
  }

  /** The rows the preparer computes: of the new events alone, or of the whole history. */
  ghost function Computed(l: Ledger, k: Key): Target {
    if CanAppend(l, k) then
      var d := Derive(map[], l.RowsOf(k).position.value, HistoryOf(l, NewIds(l, k)));
      Target(Some(d.state), d.writes)
    else
      Result(Restored(l, k).openings, Restored(l, k).ordinal, HistoryOf(l, l.Mapped(k)))
  }

  /** A prepared projection; `diff` is None when only costs are refreshed. */
  datatype Projection = Projection(key: Key, generation: nat, epoch: nat, diff: Option<Diff>)

  ghost function Preparation(l: Ledger, k: Key): Projection
    requires k in l.pending
  {
    Projection(k, l.pending[k].generation, l.epoch,
             if l.pending[k].costOnly then None
             else Some(DiffOf(l.RowsOf(k), l.effects, k, Computed(l, k), CanAppend(l, k))))
  }

  // ---------------------------------------------------------------- publish

  function Flushed(l: Ledger, k: Key, d: Diff): Ledger {
    l.(rows := l.rows[k := FlushRows(l.RowsOf(k), d)],
       effects := FlushEffects(l.effects, l.keyOf, k, d),
       identities := l.identities - {k})
  }

  function PublishStep(l: Ledger, p: Projection): Ledger {
    if p.epoch != l.epoch || p.key !in l.pending then l
    else
      var landed := if p.diff.Some? then Flushed(l, p.key, p.diff.value) else l;
      if l.pending[p.key].generation == p.generation then landed.(pending := l.pending - {p.key}) else landed
  }

  // ---------------------------------------------------------------- reorganisation

  /** Positions with an event, an effect or a state above the common ancestor. */
  function Reorged(l: Ledger, ancestor: int): set<Key> {
    (set e | e in l.keyOf && e in l.events && l.events[e].order.block > ancestor :: l.keyOf[e])
    + (set e | e in l.effects && l.effects[e].row.order.block > ancestor :: l.effects[e].key)
    + (set k | k in l.rows && l.rows[k].position.Some? && l.rows[k].position.value.clock.last.block > ancestor)
  }

  ghost function SavedOf(rows: Rows): Saved
    requires rows.position.Some?
  {
    Saved(rows.position.value.episodes.ordinal, Openings(Cores(rows.episodes)))
  }

  function EventsUpTo(events: map<int, Event>, ancestor: int): map<int, Event> {
    map e | e in events && events[e].order.block <= ancestor :: events[e]
  }

  function MappingsUpTo(keyOf: map<int, Key>, events: map<int, Event>, ancestor: int): map<int, Key> {
    map e | e in keyOf && e in events && events[e].order.block <= ancestor :: keyOf[e]
  }

  function EffectsOutside(effects: Effects, keys: set<Key>): Effects {
    map e | e in effects && effects[e].key !in keys :: effects[e]
  }

  /** Every one of `keys` is queued for a full replay. */
  function RequeuedAll(pending: map<Key, Pending>, keys: set<Key>): map<Key, Pending> {
    pending + map k | k in keys :: Requeued(pending, k, false, false)
  }

  /** The identities saved for those of `keys` that have a state. */
  ghost function SavedRows(l: Ledger, keys: set<Key>): map<Key, Saved> {
    map k | k in keys && l.RowsOf(k).position.Some? :: SavedOf(l.RowsOf(k))
  }

  ghost function RollbackStep(l: Ledger, ancestor: int): Ledger {
    var keys := Reorged(l, ancestor);
    Ledger(EventsUpTo(l.events, ancestor), MappingsUpTo(l.keyOf, l.events, ancestor), RequeuedAll(l.pending, keys),
           l.rows - keys, EffectsOutside(l.effects, keys), l.identities + SavedRows(l, keys), l.epoch + 1)
  }

  // ---------------------------------------------------------------- the system

  /** Valuation refreshes the derived columns of a published episode. */
  function RevalueStep(l: Ledger, k: Key, n: nat, derived: Option<int>): Ledger {
    var rows := l.RowsOf(k);
    if n in rows.episodes then
      l.(rows := l.rows[k := rows.(episodes := rows.episodes[n := rows.episodes[n].(derived := derived)])])
    else l
  }

  /** The tables, and for each prepared but unpublished position the snapshot it was read from. */
  datatype System = System(ledger: Ledger, outstanding: map<Key, Ledger>)

  const INITIAL := System(EMPTY_LEDGER, map[])

  datatype Action =
    | Ingest(news: map<int, Event>)
    | Apply(batch: Batch)
    | Prepare(key: Key)
    | Publish(key: Key)
    | Abandon(key: Key)
    | Rollback(ancestor: int)
    | Revalue(key: Key, episode: nat, derived: Option<int>)

  /** What the store and the projection lock guarantee about the next action. */
  ghost predicate Enabled(s: System, a: Action) {
    match a
    case Ingest(news) => news.Keys !! s.ledger.events.Keys && CanonicalTable(s.ledger.events + news)
    case Apply(batch) =>
      && CanonicalTable(s.ledger.events + BatchEvents(batch))
      && (forall e :: e in batch && batch[e].receiptOnly ==>
            e in s.ledger.events && s.ledger.events[e] == batch[e].event)
    case Prepare(k) => k !in s.outstanding
    case Publish(k) => k in s.outstanding && k in s.outstanding[k].pending
    case _ => true
  }

  ghost function Next(s: System, a: Action): System
    requires Enabled(s, a)
  {
    var l := s.ledger;
    match a
    case Ingest(news) => s.(ledger := l.(events := l.events + news))
    case Apply(batch) => s.(ledger := ApplyStep(l, batch))
    case Prepare(k) => if k in l.pending then s.(outstanding := s.outstanding[k := l]) else s
    case Publish(k) => System(PublishStep(l, Preparation(s.outstanding[k], k)), s.outstanding - {k})
    case Abandon(k) => s.(outstanding := s.outstanding - {k})
    case Rollback(ancestor) => s.(ledger := RollbackStep(l, ancestor))
    case Revalue(k, n, derived) => s.(ledger := RevalueStep(l, k, n, derived))
  }

  /** `states` are the states of a run of `actions`. */
  ghost predicate IsRun(states: seq<System>, actions: seq<Action>) {
    && |states| == |actions| + 1
    && states[0] == INITIAL
    && forall i :: 0 <= i < |actions| ==> Enabled(states[i], actions[i]) && states[i + 1] == Next(states[i], actions[i])
  }
}
