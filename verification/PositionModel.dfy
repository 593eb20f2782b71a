/**
 The position state machine: what one canonical event does to the state of one position,
 and which ledger rows it writes. Everything here is a value; `PositionReplay` holds the
 object that is updated in place.
 */
module PositionModel {
  import opened Common

  type Address = nat
  const ZERO_ADDRESS: Address := 0

  datatype Protocol = V2 | V3 | V4 | Nft | OtherProtocol

  datatype Kind = Add | Remove | Collect | Checkpoint | Transfer | OtherKind

  /** A pinned read of the position at a block boundary. */
  datatype Snapshot = Snapshot(
    liquidity: Option<int>, owed0: Option<int>, owed1: Option<int>, claimsEmpty: Option<bool>)

  datatype EventData = EventData(
    source: Option<Address>, target: Option<Address>, mint: bool, burn: bool,
    before: Option<Snapshot>, after: Option<Snapshot>,
    zeroBaseline: bool, traceComplete: bool,
    callerDelta0: Option<int>, callerDelta1: Option<int>,
    feesAccruedExact: bool, feesAccrued0: Option<int>, feesAccrued1: Option<int>,
    principalDeltaExact: bool, principalDelta0: Option<int>, principalDelta1: Option<int>,
    verifiedMintAfter: bool, verifiedBurnAfter: bool)

  datatype Event = Event(
    id: int, order: Order, txHash: nat, timestamp: int,
    kind: Kind, protocol: Protocol,
    poolId: Option<nat>, tokenId: Option<nat>, tickLower: Option<int>, tickUpper: Option<int>,
    owner: Option<Address>, custody: Option<Address>,
    delta: Option<int>, amount0: Option<int>, amount1: Option<int>,
    fee0: Option<int>, fee1: Option<int>, cash0: Option<int>, cash1: Option<int>,
    data: EventData)

  datatype Status =
    | Open | TransferredOut | Complete | NftBurnUnsettled
    | AmbiguousReentry | PartialHistory | AwaitingClaim

  /** Where a position lives: its pool, its token and its tick range. */
  datatype Range = Range(
    protocol: Protocol, poolId: Option<nat>, tokenId: Option<nat>, tickLower: Option<int>, tickUpper: Option<int>)

  /** Raw cash flows, either of one event or summed over an episode. */
  datatype Flows = Flows(deposit: Pair, proceeds: Pair, released: Pair, principal: Pair, fees: Pair) {
    function Plus(other: Flows): Flows {
      Flows(deposit.Plus(other.deposit), proceeds.Plus(other.proceeds), released.Plus(other.released),
            principal.Plus(other.principal), fees.Plus(other.fees))
    }
  }

  const NO_FLOWS := Flows(ZERO_PAIR, ZERO_PAIR, ZERO_PAIR, ZERO_PAIR, ZERO_PAIR)

  /** Which figures are exact: of one event, or of every event of an episode so far. */
  datatype Exactness = Exactness(cashflow: bool, fees: bool, allocation: bool, release: bool, trace: bool)

  const ALL_EXACT := Exactness(true, true, true, true, true)

  /** What qualifies an episode besides the exactness of its figures. */
  datatype Marks = Marks(
    historyComplete: bool, identityComplete: bool, identityConflict: bool,
    transferredBasis: bool, ambiguousReentry: bool, claimsComplete: bool)

  datatype Closing = Closing(order: Order, at: int)

  /** One holding period of a position: a row of the episodes table. */
  datatype Episode = Episode(
    ordinal: nat, range: Range, owner: Option<Address>, custody: Option<Address>,
    openOrder: Order, openedAt: int, closing: Option<Closing>, lastTimestamp: int,
    status: Status, marks: Marks, exact: Exactness, flows: Flows)

  datatype Acquired = ByMint | ByTransfer | Observed

  /** One row of the ownership interval table; open while `end` is None. */
  datatype Interval = Interval(
    ordinal: nat, tokenId: Option<nat>, owner: Address, custody: Option<Address>, acquired: Acquired,
    start: Order, startedAt: int, end: Option<Closing>, complete: bool)

  /** One row of the effects table; figures that are not exact are stored as None. */
  datatype EffectRow = EffectRow(
    episode: Option<nat>, owner: Option<Address>, custody: Option<Address>,
    txHash: nat, order: Order, kind: Kind,
    deposit: Option<Pair>, proceeds: Option<Pair>, principal: Option<Pair>, fees: Option<Pair>,
    exact: bool)

  /** Liquidity and outstanding claims; None where the history does not prove a value. */
  datatype Claims = Claims(
    liquidity: Option<nat>, pending: Option<Pair>, owed: Option<Pair>, owedBlock: Option<int>,
    settled: bool, mintedToOwner: bool)

  datatype Holder = Holder(owner: Option<Address>, custody: Option<Address>, ordinal: nat, interval: Option<Interval>)

  datatype Episodes = Episodes(historyComplete: bool, ordinal: nat, active: Option<Episode>)

  datatype Clock = Clock(first: Order, last: Order, lastTimestamp: int)

  /** The running state of one position, as stored in its state row. */
  datatype State = State(range: Range, claims: Claims, holder: Holder, episodes: Episodes, clock: Clock)

  /** Rows written so far, by primary key; a later write of a key replaces an earlier one. */
  datatype Writes = Writes(
    episodes: map<nat, Episode>, ownership: map<nat, Interval>, effects: map<int, EffectRow>)
  {
    function Then(later: Writes): Writes {
      Writes(episodes + later.episodes, ownership + later.ownership, effects + later.effects)
    }

    function WithEpisode(row: Episode): Writes {
      this.(episodes := episodes[row.ordinal := row])
    }

    function WithInterval(row: Interval): Writes {
      this.(ownership := ownership[row.ordinal := row])
    }

    function WithEffect(id: int, row: EffectRow): Writes {
      this.(effects := effects[id := row])
    }
  }

  const NO_WRITES := Writes(map[], map[], map[])

  /** Ordinals already published for the openings at these chain positions. */
  type Identities = map<Order, nat>

  /** The outcome of a step: the new state and the rows written on the way. */
  datatype Step = Step(state: State, writes: Writes)

  function NewState(e: Event, ordinal: nat): State {
    State(Range(e.protocol, e.poolId, e.tokenId, e.tickLower, e.tickUpper),
          Claims(None, None, None, None, false, false),
          Holder(None, None, 0, None),
          Episodes(false, ordinal, None),
          Clock(e.order, e.order, e.timestamp))
  }

  // ---------------------------------------------------------------- identity and transfers

  predicate IsTransfer(e: Event) {
    e.kind.Transfer? || e.protocol.Nft?
  }

  function TransferSource(e: Event): Option<Address> {
    if e.data.source.None? && e.data.mint then Some(ZERO_ADDRESS) else e.data.source
  }

  /** The receiver, with the zero address read as "nobody". */
  function TransferTarget(e: Event): Option<Address> {
    var named := if e.data.target.Some? then e.data.target else e.owner;
    if named == Some(ZERO_ADDRESS) then None else named
  }

  function Seen(r: Range, e: Event): Range {
    Range(if e.protocol.Nft? then r.protocol else e.protocol,
          if e.poolId.Some? then e.poolId else r.poolId,
          if e.tokenId.Some? then e.tokenId else r.tokenId,
          if e.tickLower.Some? then e.tickLower else r.tickLower,
          if e.tickUpper.Some? then e.tickUpper else r.tickUpper)
  }

  function Observe(st: State, e: Event): State {
    st.(range := Seen(st.range, e))
  }

  /** The ordinal of an episode opened by `e`: restored if published before, else the next one. */
  function OpeningOrdinal(ids: Identities, st: State, e: Event): nat {
    if e.order in ids then ids[e.order] else st.episodes.ordinal + 1
  }

  function NewEpisode(ids: Identities, st: State, e: Event, history: bool, transferred: bool): Episode {
    Episode(OpeningOrdinal(ids, st, e), st.range, st.holder.owner, st.holder.custody,
            e.order, e.timestamp, None, e.timestamp, Open,
            Marks(history, st.holder.owner.Some?, false, transferred, false, false),
            ALL_EXACT.(fees := (st.range.protocol.V3? || st.range.protocol.V4?) && !transferred),
            NO_FLOWS)
  }

  function WithActive(st: State, active: Option<Episode>): State {
    st.(episodes := st.episodes.(active := active))
  }

  function WithSettled(st: State, settled: bool): State {
    st.(claims := st.claims.(settled := settled))
  }

  function Opened(ids: Identities, st: State, e: Event, history: bool, transferred: bool): State {
    var ordinal := if e.order in ids then st.episodes.ordinal else st.episodes.ordinal + 1;
    st.(episodes := Episodes(st.episodes.historyComplete, ordinal,
                             Some(NewEpisode(ids, st, e, history, transferred))))
  }

  function Closed(ep: Episode, e: Event, status: Status, claims: bool): Episode {
    ep.(closing := Some(Closing(e.order, e.timestamp)), lastTimestamp := e.timestamp,
        status := status, marks := ep.marks.(claimsComplete := claims))
  }

  function OpenInterval(st: State, e: Event, owner: Address, acquired: Acquired, complete: bool): Interval {
    Interval(st.holder.ordinal + 1, if st.range.tokenId.Some? then st.range.tokenId else e.tokenId,
             owner, st.holder.custody, acquired, e.order, e.timestamp, None, complete)
  }

  function EndInterval(interval: Interval, e: Event, complete: bool): Interval {
    interval.(end := Some(Closing(e.order, e.timestamp)), complete := complete)
  }

  predicate NothingPending(c: Claims) {
    c.pending == Some(ZERO_PAIR)
  }

  predicate NothingOwed(c: Claims) {
    c.owed == Some(ZERO_PAIR)
  }

  predicate HasInventory(c: Claims) {
    c.liquidity != Some(0) || !NothingPending(c) || !NothingOwed(c)
  }

  predicate Burns(e: Event) {
    TransferTarget(e).None? && TransferSource(e).Some? && TransferSource(e) != Some(ZERO_ADDRESS)
  }

  /** The token moves from a real (or unnamed) sender to somebody other than `owner`. */
  predicate ChangesHands(owner: Option<Address>, e: Event) {
    TransferSource(e) != Some(ZERO_ADDRESS) && TransferTarget(e).Some? && TransferTarget(e) != owner
  }

  /** A transfer ends the open interval unless it goes to the recorded owner. */
  predicate EndsInterval(h: Holder, e: Event) {
    h.interval.Some? && (TransferTarget(e) != h.owner || TransferTarget(e).None?)
  }

  function EndedRow(h: Holder, e: Event): Interval
    requires h.interval.Some?
  {
    var source := TransferSource(e);
    EndInterval(h.interval.value, e, source.None? || h.owner.None? || source == h.owner)
  }

  /** First half of a transfer: end the open interval and the active episode. */
  function LeaveOwner(st: State, e: Event): Step {
    var ends := EndsInterval(st.holder, e);
    var w0 := if ends then NO_WRITES.WithInterval(EndedRow(st.holder, e)) else NO_WRITES;
    var st0 := if ends then st.(holder := st.holder.(interval := None)) else st;
    var active := st.episodes.active;
    if active.Some? && ChangesHands(st.holder.owner, e) then
      Step(WithSettled(WithActive(st0, None), false),
           w0.WithEpisode(Closed(active.value, e, TransferredOut, false)))
    else if active.Some? && Burns(e) then
      var clean := st.claims.liquidity == Some(0) && NothingPending(st.claims);
      Step(WithSettled(WithActive(st0, None), clean),
           w0.WithEpisode(Closed(active.value, e, if clean then Complete else NftBurnUnsettled, clean)))
    else
      Step(st0, w0)
  }

  /** The transfer event of a mint whose owner was already inferred from the mint itself. */
  predicate ConfirmsMint(prior: Holder, e: Event) {
    && TransferSource(e) == Some(ZERO_ADDRESS) && TransferTarget(e) == prior.owner
    && prior.interval.Some? && prior.interval.value.acquired.ByMint?
  }

  predicate ToSelf(prior: Holder, e: Event) {
    TransferSource(e) == prior.owner && TransferTarget(e) == prior.owner
  }

  function WithMinted(st: State, minted: bool, settled: bool): State {
    st.(claims := st.claims.(mintedToOwner := minted, settled := settled))
  }

  /** Second half: record the receiver, unless the transfer only confirms what is known. */
  function EnterOwner(ids: Identities, st: State, prior: Holder, e: Event): Step {
    var target := TransferTarget(e);
    var st0 := st.(holder := st.holder.(
                     owner := target,
                     custody := if target.Some? && e.custody.Some? then e.custody else st.holder.custody));
    if target.None? then
      Step(st0, NO_WRITES)
    else if ConfirmsMint(prior, e) then
      Step(WithMinted(st0, true, false), NO_WRITES)
    else if ToSelf(prior, e) then
      Step(WithMinted(st0, false, st0.claims.settled), NO_WRITES)
    else
      var minted := TransferSource(e) == Some(ZERO_ADDRESS);
      var interval := OpenInterval(st0, e, target.value, if minted then ByMint else ByTransfer, true);
      var st1 := WithMinted(st0, minted, st0.claims.settled && !minted)
        .(holder := st0.holder.(ordinal := interval.ordinal, interval := Some(interval)));
      Step(if ChangesHands(prior.owner, e) && HasInventory(st1.claims)
           then WithSettled(Opened(ids, st1, e, st1.episodes.historyComplete, true), false)
           else st1,
           NO_WRITES.WithInterval(interval))
  }

  function TransferStep(ids: Identities, st: State, e: Event): Step {
    var left := LeaveOwner(st, e);
    var entered := EnterOwner(ids, left.state, st.holder, e);
    Step(entered.state, left.writes.Then(entered.writes))
  }

  /** An ownerless active episode takes the first observed owner. */
  function Adopt(active: Option<Episode>, owner: Option<Address>): Option<Episode> {
    if active.Some? && active.value.owner.None? then
      Some(active.value.(owner := owner, marks := active.value.marks.(identityComplete := true)))
    else active
  }

  function Conflict(active: Option<Episode>): Option<Episode> {
    if active.Some? then
      Some(active.value.(marks := active.value.marks.(identityComplete := false, identityConflict := true)))
    else None
  }

  function IdentityStep(st: State, e: Event): Step {
    var st0 := if e.custody.Some? then st.(holder := st.holder.(custody := e.custody)) else st;
    if e.owner.None? then
      Step(st0, NO_WRITES)
    else if st0.holder.owner.None? then
      var st1 := WithActive(st0.(holder := st0.holder.(owner := e.owner)), Adopt(st0.episodes.active, e.owner));
      if st1.holder.interval.Some? then
        Step(st1, NO_WRITES)
      else
        var mint := e.data.verifiedMintAfter;
        var interval := OpenInterval(st1, e, e.owner.value, if mint then ByMint else Observed, mint);
        Step(st1.(holder := st1.holder.(ordinal := interval.ordinal, interval := Some(interval))),
             NO_WRITES.WithInterval(interval))
    else if st0.holder.owner != e.owner then
      Step(WithActive(st0, Conflict(st0.episodes.active)), NO_WRITES)
    else
      Step(st0, NO_WRITES)
  }

  // ---------------------------------------------------------------- liquidity facts

  /** What an event proves about the liquidity and the claims around it. */
  datatype Facts = Facts(
    delta: Option<int>, previous: Option<int>, after: Option<nat>,
    priorClaimsEmpty: bool, zeroLiquidity: bool)
  {
    predicate ZeroProven() {
      zeroLiquidity && priorClaimsEmpty
    }
  }

  function SignedDelta(e: Event): Option<int> {
    match e.delta
    case None => None
    case Some(d) =>
      if (e.kind.Add? && d < 0) || (e.kind.Remove? && d > 0) then Some(-d) else Some(d)
  }

  function PreviousLiquidity(c: Claims, e: Event): Option<int> {
    if e.data.before.Some? && e.data.before.value.liquidity.Some? then e.data.before.value.liquidity
    else if e.data.verifiedMintAfter then Some(0)
    else match c.liquidity case None => None case Some(l) => Some(l)
  }

  function AfterLiquidity(c: Claims, e: Event): Option<nat> {
    var stated := if e.data.after.Some? then e.data.after.value.liquidity else None;
    var previous, delta := PreviousLiquidity(c, e), SignedDelta(e);
    var after :=
      if stated.None? && previous.Some? && delta.Some? then Some(previous.value + delta.value) else stated;
    if after.Some? && after.value >= 0 then Some(after.value) else None
  }

  predicate SnapshotNonempty(b: Snapshot) {
    || b.claimsEmpty == Some(false)
    || (b.owed0.Some? && b.owed0.value > 0)
    || (b.owed1.Some? && b.owed1.value > 0)
  }

  predicate SnapshotEmpty(b: Snapshot) {
    if b.owed0.Some? && b.owed1.Some? then b.owed0.value == 0 && b.owed1.value == 0
    else b.claimsEmpty == Some(true)
  }

  predicate PriorClaimsEmpty(c: Claims, e: Event) {
    var b := e.data.before;
    || e.data.verifiedMintAfter
    || (&& !(b.Some? && SnapshotNonempty(b.value))
        && ((b.Some? && SnapshotEmpty(b.value)) || c.mintedToOwner || c.settled
            || (NothingPending(c) && NothingOwed(c))))
  }

  function FactsOf(c: Claims, e: Event): Facts {
    var previous := PreviousLiquidity(c, e);
    Facts(SignedDelta(e), previous, AfterLiquidity(c, e), PriorClaimsEmpty(c, e),
          || e.data.verifiedMintAfter
          || previous == Some(0)
          || e.data.zeroBaseline
          || (c.mintedToOwner && e.kind.Add? && (previous.None? || previous == Some(0))))
  }

  function ClaimsSeen(c: Claims, e: Event, f: Facts): Claims {
    var c0 :=
      if f.after.Some? then c.(liquidity := f.after)
      else if f.delta.Some? && f.previous.None? then c.(liquidity := None)
      else c;
    if !f.ZeroProven() then c0
    else
      var c1 := if c0.pending.Some? then c0 else c0.(pending := Some(ZERO_PAIR));
      if e.data.verifiedMintAfter then c1.(owed := Some(ZERO_PAIR), owedBlock := Some(e.order.block)) else c1
  }

  predicate CompletesInterval(h: Holder, f: Facts) {
    f.ZeroProven() && h.interval.Some? && h.interval.value.acquired.Observed?
  }

  function LiquidityStep(st: State, e: Event, f: Facts): Step {
    var st0 := st.(claims := ClaimsSeen(st.claims, e, f));
    var st1 := if f.ZeroProven() then st0.(episodes := st0.episodes.(historyComplete := true)) else st0;
    if CompletesInterval(st.holder, f) then
      var interval := st.holder.interval.value.(complete := true);
      Step(st1.(holder := st.holder.(interval := Some(interval))), NO_WRITES.WithInterval(interval))
    else
      Step(st1, NO_WRITES)
  }

  // ---------------------------------------------------------------- episodes

  predicate Begins(active: Option<Episode>, e: Event, f: Facts) {
    e.kind.Add? && f.delta.Some? && f.delta.value > 0 && (active.None? || f.previous == Some(0))
  }

  /** The active episode was fully settled; a re-entry then drops it without a write. */
  predicate SettledPrior(st: State) {
    st.episodes.active.Some? && NothingPending(st.claims) && st.episodes.active.value.marks.claimsComplete
  }

  function Displaced(ep: Episode, e: Event): Episode {
    var closed := Closed(ep, e, AmbiguousReentry, false);
    closed.(marks := closed.marks.(ambiguousReentry := true))
  }

  function Ambiguous(ep: Episode): Episode {
    ep.(status := AmbiguousReentry, marks := ep.marks.(ambiguousReentry := true), exact := ep.exact.(fees := false))
  }

  function Reentry(ids: Identities, st: State, e: Event, f: Facts): Step {
    var active := st.episodes.active;
    var displaced := active.Some? && !SettledPrior(st);
    var st0 := Opened(ids, WithSettled(st, false), e, f.ZeroProven() && st.episodes.historyComplete, false);
    Step(if displaced || (f.zeroLiquidity && !f.priorClaimsEmpty)
         then WithActive(st0, Some(Ambiguous(st0.episodes.active.value)))
         else st0,
         if displaced then NO_WRITES.WithEpisode(Displaced(active.value, e)) else NO_WRITES)
  }

  function EpisodeStep(ids: Identities, st: State, e: Event, f: Facts): Step {
    if Begins(st.episodes.active, e, f) then
      Reentry(ids, st, e, f)
    else if st.episodes.active.None? && (e.kind.Remove? || e.kind.Collect? || e.kind.Checkpoint?) then
      var st0 := Opened(ids, st, e, false, false);
      Step(WithActive(st0, Some(st0.episodes.active.value.(status := PartialHistory))), NO_WRITES)
    else
      Step(st, NO_WRITES)
  }

  // ---------------------------------------------------------------- cash flows

  datatype Effect = Effect(flows: Flows, exact: Exactness)

  const NO_EFFECT := Effect(NO_FLOWS, ALL_EXACT)

  function Either(a: Option<int>, b: Option<int>): Option<int> {
    if a.Some? then a else b
  }

  function Both(a: Option<int>, b: Option<int>): Option<Pair> {
    if a.Some? && b.Some? then Some(Pair(a.value, b.value)) else None
  }

  function Inflow(p: Pair): Pair {
    Pair(Max(0, p.a0), Max(0, p.a1))
  }

  function Outflow(p: Pair): Pair {
    Pair(Max(0, -p.a0), Max(0, -p.a1))
  }

  function AbsPair(p: Pair): Pair {
    Pair(Abs(p.a0), Abs(p.a1))
  }

  function V4Effect(e: Event): Effect {
    var cash := Both(Either(e.cash0, e.data.callerDelta0), Either(e.cash1, e.data.callerDelta1));
    var fee := Both(Either(e.fee0, e.data.feesAccrued0), Either(e.fee1, e.data.feesAccrued1));
    var principal := Both(e.data.principalDelta0, e.data.principalDelta1);
    var moved := e.data.traceComplete && cash.Some?;
    var split := e.data.principalDeltaExact && principal.Some?;
    var accrued := e.data.feesAccruedExact && fee.Some?;
    Effect(Flows(if moved then Outflow(cash.value) else ZERO_PAIR,
                 if moved then Inflow(cash.value) else ZERO_PAIR,
                 ZERO_PAIR,
                 if split then Inflow(principal.value) else ZERO_PAIR,
                 if accrued then Inflow(fee.value) else ZERO_PAIR),
           Exactness(moved, accrued, split, true, e.data.traceComplete))
  }

  /** Split a V3 collect into principal and fees; None when the split cannot be proved. */
  function CollectSplit(pending: Option<Pair>, e: Event, collected: Pair): Option<(Pair, Pair)> {
    if e.fee0.Some? && e.fee1.Some? then
      var fees := Inflow(Pair(e.fee0.value, e.fee1.value));
      Some((Pair(Max(0, collected.a0 - Min(collected.a0, fees.a0)),
                 Max(0, collected.a1 - Min(collected.a1, fees.a1))), fees))
    else if pending.Some? then
      var owing := pending.value;
      var last :=
        && ((e.data.after.Some? && e.data.after.value.claimsEmpty == Some(true)) || e.data.verifiedBurnAfter)
        && collected.a0 >= owing.a0 && collected.a1 >= owing.a1;
      if last || owing == ZERO_PAIR then
        Some((owing, Pair(collected.a0 - owing.a0, collected.a1 - owing.a1)))
      else None
    else None
  }

  function V3Effect(pending: Option<Pair>, e: Event): Effect {
    var amounts := Both(e.amount0, e.amount1);
    match e.kind
    case Add =>
      if amounts.None? then Effect(NO_FLOWS, ALL_EXACT.(cashflow := false))
      else Effect(NO_FLOWS.(deposit := AbsPair(amounts.value)), ALL_EXACT)
    case Collect =>
      if amounts.None? then Effect(NO_FLOWS, ALL_EXACT.(cashflow := false, fees := false, allocation := false))
      else
        var collected := AbsPair(amounts.value);
        (match CollectSplit(pending, e, collected)
         case Some((principal, fees)) =>
           Effect(NO_FLOWS.(proceeds := collected, principal := principal, fees := fees), ALL_EXACT)
         case None =>
           Effect(NO_FLOWS.(proceeds := collected), ALL_EXACT.(fees := false, allocation := false)))
    case Remove =>
      if amounts.None? then Effect(NO_FLOWS, ALL_EXACT.(fees := false, release := false))
      else Effect(NO_FLOWS.(released := AbsPair(amounts.value)), ALL_EXACT)
    case _ => NO_EFFECT
  }

  function V2Effect(e: Event): Effect {
    var amounts := Both(e.amount0, e.amount1);
    var exact := ALL_EXACT.(fees := false);
    match e.kind
    case Add =>
      if amounts.None? then Effect(NO_FLOWS, exact.(cashflow := false))
      else Effect(NO_FLOWS.(deposit := AbsPair(amounts.value)), exact)
    case Remove =>
      if amounts.None? then Effect(NO_FLOWS, exact.(cashflow := false))
      else Effect(NO_FLOWS.(proceeds := AbsPair(amounts.value), principal := AbsPair(amounts.value)), exact)
    case _ => Effect(NO_FLOWS, exact)
  }

  function CashEffect(e: Event): Effect {
    var cash := Both(e.cash0, e.cash1);
    if cash.None? then Effect(NO_FLOWS, ALL_EXACT.(cashflow := false, fees := false))
    else Effect(NO_FLOWS.(deposit := Outflow(cash.value), proceeds := Inflow(cash.value)), ALL_EXACT.(fees := false))
  }

  function FinancialEffect(protocol: Protocol, pending: Option<Pair>, e: Event): Effect {
    match protocol
    case V4 =>
      if e.kind.Add? || e.kind.Remove? || e.kind.Collect? || e.kind.Checkpoint? then V4Effect(e) else NO_EFFECT
    case V3 => V3Effect(pending, e)
    case V2 => V2Effect(e)
    case _ => if e.kind.Add? || e.kind.Remove? || e.kind.Collect? then CashEffect(e) else NO_EFFECT
  }

  function ApplyEffect(ep: Episode, x: Effect, e: Event): Episode {
    ep.(flows := ep.flows.Plus(x.flows),
        exact := ep.exact.(cashflow := ep.exact.cashflow && x.exact.cashflow,
                           fees := ep.exact.fees && x.exact.fees,
                           release := ep.exact.release && x.exact.release,
                           trace := ep.exact.trace && x.exact.trace),
        lastTimestamp := if e.timestamp != 0 then e.timestamp else ep.lastTimestamp)
  }

  function PendingAfter(protocol: Protocol, pending: Option<Pair>, e: Event, x: Effect): Option<Pair> {
    if !protocol.V3? then pending
    else if e.kind.Remove? then
      var amounts := Both(e.amount0, e.amount1);
      if amounts.None? then None
      else if pending.Some? then Some(pending.value.Plus(AbsPair(amounts.value)))
      else None
    else if e.kind.Collect? then
      if !x.exact.allocation then None
      else if pending.Some? then
        Some(Pair(Max(0, pending.value.a0 - x.flows.principal.a0), Max(0, pending.value.a1 - x.flows.principal.a1)))
      else None
    else pending
  }

  function StatedOwed(e: Event): Option<Pair> {
    var a := e.data.after;
    var empty := a.Some? && a.value.claimsEmpty == Some(true);
    var owed0 := if a.None? then None else if empty && a.value.owed0.None? then Some(0) else a.value.owed0;
    var owed1 := if a.None? then None else if empty && a.value.owed1.None? then Some(0) else a.value.owed1;
    if e.data.verifiedBurnAfter then Some(ZERO_PAIR) else Both(owed0, owed1)
  }

  function ClaimsAfter(protocol: Protocol, c: Claims, e: Event, x: Effect): Claims {
    var c0 := c.(pending := PendingAfter(protocol, c.pending, e, x));
    match StatedOwed(e)
    case None => c0
    case Some(owed) =>
      c0.(owed := Some(owed), owedBlock := Some(e.order.block),
          pending := if owed == ZERO_PAIR && c0.liquidity == Some(0) then Some(ZERO_PAIR) else c0.pending)
  }

  predicate ClaimsSettled(c: Claims, e: Event) {
    c.liquidity == Some(0) &&
    match e.protocol
    case V2 => true
    case V4 => e.data.traceComplete
    case _ => NothingPending(c) && NothingOwed(c)
  }

  /** A settled V3 episode whose releases are all known takes its principal from them. */
  predicate TakesReleases(ep: Episode, e: Event) {
    && e.protocol.V3? && ep.marks.historyComplete && !ep.marks.transferredBasis && !ep.marks.ambiguousReentry
    && ep.exact.release
    && ep.flows.proceeds.a0 >= ep.flows.released.a0 && ep.flows.proceeds.a1 >= ep.flows.released.a1
  }

  function Reallocated(f: Flows): Flows {
    f.(principal := f.released, fees := Pair(f.proceeds.a0 - f.released.a0, f.proceeds.a1 - f.released.a1))
  }

  function Settle(ep: Episode, e: Event): Episode {
    var done := Closed(ep, e, Complete, true);
    if TakesReleases(ep, e) then done.(flows := Reallocated(ep.flows)) else done
  }

  function Waiting(ep: Episode): Episode {
    ep.(status := AwaitingClaim, marks := ep.marks.(claimsComplete := false))
  }

  function CloseStep(st: State, e: Event): Step {
    if st.episodes.active.None? then
      Step(st, NO_WRITES)
    else
      var ep, liquidity := st.episodes.active.value, st.claims.liquidity;
      if e.kind.Remove? && SignedDelta(e) == Some(0) then
        Step(if liquidity.Some? && liquidity.value > 0 then WithActive(st, Some(ep.(status := Open))) else st,
             NO_WRITES)
      else if liquidity == Some(0) then
        if ClaimsSettled(st.claims, e) then
          Step(WithSettled(WithActive(st, None), true), NO_WRITES.WithEpisode(Settle(ep, e)))
        else
          Step(WithActive(st, Some(Waiting(ep))), NO_WRITES)
      else if liquidity.Some? then
        Step(WithActive(st, Some(ep.(status := Open))), NO_WRITES)
      else
        Step(st, NO_WRITES)
  }

  function EffectRowOf(h: Holder, e: Event, x: Effect, episode: Option<nat>): EffectRow {
    var gas := if IsTransfer(e) && TransferSource(e) != Some(ZERO_ADDRESS) then TransferSource(e) else None;
    EffectRow(
      episode, if gas.Some? then gas else h.owner, h.custody, e.txHash, e.order, e.kind,
      if x.exact.cashflow then Some(x.flows.deposit) else None,
      if x.exact.cashflow then Some(x.flows.proceeds) else None,
      if x.exact.cashflow && x.exact.allocation then Some(x.flows.principal) else None,
      if x.exact.fees then Some(x.flows.fees) else None,
      x.exact.cashflow && x.exact.trace && x.exact.allocation)
  }

  // ---------------------------------------------------------------- one event

  function Entry(ids: Identities, st: State, e: Event): Step {
    if IsTransfer(e) then TransferStep(ids, Observe(st, e), e) else IdentityStep(Observe(st, e), e)
  }

  /** From the liquidity facts to the choice of the episode the event belongs to. */
  function Attach(ids: Identities, st: State, e: Event): Step {
    var f := FactsOf(st.claims, e);
    var liquid := LiquidityStep(st, e, f);
    var episode := EpisodeStep(ids, liquid.state, e, f);
    Step(episode.state, liquid.writes.Then(episode.writes))
  }

  function EffectOf(st: State, e: Event): Effect {
    FinancialEffect(st.range.protocol, st.claims.pending, e)
  }

  /** Book the cash flows of the event on the active episode and on the claims. */
  function Book(st: State, e: Event): State {
    var x := EffectOf(st, e);
    var st0 := if st.episodes.active.Some?
               then WithActive(st, Some(ApplyEffect(st.episodes.active.value, x, e)))
               else st;
    st0.(claims := ClaimsAfter(st.range.protocol, st.claims, e, x))
  }

  function Attribution(st: State, e: Event): Option<nat> {
    if IsTransfer(e) || st.episodes.active.None? then None else Some(st.episodes.active.value.ordinal)
  }

  function Process(ids: Identities, st: State, e: Event): Step {
    var entry := Entry(ids, st, e);
    var attached := Attach(ids, entry.state, e);
    var closed := CloseStep(Book(attached.state, e), e);
    var row := EffectRowOf(closed.state.holder, e, EffectOf(attached.state, e), Attribution(attached.state, e));
    Step(closed.state.(clock := Clock(closed.state.clock.first, e.order, e.timestamp)),
         entry.writes.Then(attached.writes).Then(closed.writes).WithEffect(e.id, row))
  }

  // ---------------------------------------------------------------- a run of events

  function Fold(ids: Identities, st: State, events: seq<Event>): Step
    decreases |events|
  {
    if |events| == 0 then Step(st, NO_WRITES)
    else
      var prior := Fold(ids, st, events[..|events| - 1]);
      var last := Process(ids, prior.state, events[|events| - 1]);
      Step(last.state, prior.writes.Then(last.writes))
  }

  predicate SameTx(a: Event, b: Event) {
    a.order.block == b.order.block && a.order.tx == b.order.tx && a.txHash == b.txHash
  }

  predicate Pinned(e: Event) {
    e.data.before.Some? || e.data.after.Some?
  }

  /** The first add of a transaction that mints the position token later on. */
  ghost predicate MintFollows(events: seq<Event>, i: nat)
    requires i < |events|
  {
    && events[i].kind.Add?
    && (forall k :: 0 <= k < i && SameTx(events[k], events[i]) ==> !events[k].kind.Add?)
    && exists j :: i < j < |events| && SameTx(events[j], events[i]) && events[j].kind.Transfer? && events[j].data.mint
  }

  /** The last collect of a transaction before it burns the position token. */
  ghost predicate BurnFollows(events: seq<Event>, i: nat)
    requires i < |events|
  {
    && events[i].kind.Collect?
    && exists j :: i < j < |events| && SameTx(events[j], events[i]) && events[j].kind.Transfer? && events[j].data.burn
                   && forall k :: i < k < j && SameTx(events[k], events[i]) ==> !events[k].kind.Collect?
  }

  ghost predicate FirstPinned(events: seq<Event>, i: nat)
    requires i < |events|
  {
    forall k :: 0 <= k < i && events[k].order.block == events[i].order.block ==> !Pinned(events[k])
  }

  ghost predicate LastPinned(events: seq<Event>, i: nat)
    requires i < |events|
  {
    forall k :: i < k < |events| && events[k].order.block == events[i].order.block ==> !Pinned(events[k])
  }

  /**
   Event `i` as the state machine sees it: token mints and burns later in its transaction are
   marked on it, and pinned snapshots survive only at the two edges of its block.
   */
  ghost function PreparedAt(events: seq<Event>, i: nat): Event
    requires i < |events|
  {
    var e := events[i];
    e.(data := e.data.(
         verifiedMintAfter := e.data.verifiedMintAfter || MintFollows(events, i),
         verifiedBurnAfter := e.data.verifiedBurnAfter || BurnFollows(events, i),
         before := if FirstPinned(events, i) then e.data.before else None,
         after := if LastPinned(events, i) then e.data.after else None))
  }

  ghost function Prepared(events: seq<Event>): seq<Event> {
    seq(|events|, i requires 0 <= i < |events| => PreparedAt(events, i))
  }

  /** The rows of one position: its state row and its rows in the three other tables. */
  datatype Derived = Derived(state: State, writes: Writes)

  function Sealed(step: Step): Derived {
    Derived(step.state,
            if step.state.episodes.active.Some?
            then step.writes.WithEpisode(step.state.episodes.active.value)
            else step.writes)
  }

  ghost function Derive(ids: Identities, st: State, events: seq<Event>): Derived {
    Sealed(Fold(ids, st, Prepared(events)))
  }

  /** Derivation from scratch, with earlier ordinals restored and new ones above `ordinal`. */
  ghost function Replay(ids: Identities, ordinal: nat, events: seq<Event>): Derived
    requires |events| > 0
  {
    Derive(ids, NewState(events[0], ordinal), events)
  }
}
