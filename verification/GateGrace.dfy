/**
 Token-gated features: granted while a fresh balance reaches the threshold, and for a grace
 period after the last time it was seen to.
 */
module GateGrace {
  import opened Common

  datatype Feature = Trade | Lp | Api | Flags

  const FEATURES: set<Feature> := {Trade, Lp, Api, Flags}
  const ORACLE_TTL_S: real := 30.0
  const QUALIFIED_WRITE_STEP_S: real := 5.0

  type Wallet = nat

  datatype Thresholds = Thresholds(trade: nat, lp: nat, api: nat, flags: nat) {
    function Of(f: Feature): nat {
      match f
      case Trade => trade
      case Lp => lp
      case Api => api
      case Flags => flags
    }
  }

  datatype Policy = Policy(version: nat, hasToken: bool, threshold: Thresholds, graceS: real)

  datatype Holding = Holding(balance: nat, observedAt: real)

  /** The last balance known to qualify: when it was observed, and under which policy. */
  datatype Anchor = Anchor(at: real, version: nat)

  type Anchors = map<Feature, Anchor>

  /** One entitlement call for a wallet: the policy and clock it read, and what the oracle said. */
  datatype Call = Call(policy: Policy, now: real, holding: Option<Holding>)

  /** The oracle is asked only when there is a token. */
  predicate CallOk(c: Call) {
    !c.policy.hasToken ==> c.holding.None?
  }

  datatype Entitlement = Entitlement(features: set<Feature>, graceUntil: map<Feature, real>)

  predicate Fresh(c: Call) {
    c.holding.Some? && c.now - c.holding.value.observedAt < ORACLE_TTL_S
  }

  predicate FreshAtLeast(c: Call, f: Feature) {
    Fresh(c) && c.holding.value.balance >= c.policy.threshold.Of(f)
  }

  predicate FreshBelow(c: Call, f: Feature) {
    Fresh(c) && c.holding.value.balance < c.policy.threshold.Of(f)
  }

  // ---------------------------------------------------------------- one call

  /** Anchors refuted by a fresh balance below a positive threshold go. */
  function Kept(anchors: Anchors, c: Call): Anchors {
    map f | f in anchors && !FreshBelow(c, f) :: anchors[f]
  }

  predicate OnGrace(anchors: Anchors, c: Call, f: Feature) {
    && c.policy.hasToken && c.policy.threshold.Of(f) > 0 && !Fresh(c)
    && f in anchors && anchors[f].version == c.policy.version && c.now - anchors[f].at <= c.policy.graceS
  }

  predicate Qualifies(c: Call, f: Feature) {
    c.policy.hasToken && (c.policy.threshold.Of(f) == 0 || FreshAtLeast(c, f))
  }

  /** The decision as far as the features `fs` are concerned. */
  function EntitleAmong(anchors: Anchors, c: Call, fs: set<Feature>): Entitlement {
    Entitlement(set f | f in fs && (Qualifies(c, f) || OnGrace(anchors, c, f)),
                map f | f in fs && f in anchors && OnGrace(anchors, c, f) :: anchors[f].at + c.policy.graceS)
  }

  function Entitle(anchors: Anchors, c: Call): Entitlement {
    EntitleAmong(anchors, c, FEATURES)
  }

  /** A qualifying balance moves its anchor, unless the anchor is recent enough as it is. */
  predicate Moves(anchors: Anchors, c: Call, f: Feature) {
    && c.policy.threshold.Of(f) > 0 && Qualifies(c, f)
    && (f in anchors && anchors[f].version == c.policy.version ==>
          c.holding.value.observedAt - anchors[f].at >= QUALIFIED_WRITE_STEP_S)
  }

  function MovedAmong(anchors: Anchors, c: Call, fs: set<Feature>): Anchors {
    map f | f in fs && Moves(anchors, c, f) :: Anchor(c.holding.value.observedAt, c.policy.version)
  }

  function After(anchors: Anchors, c: Call): Anchors {
    Kept(anchors, c) + MovedAmong(Kept(anchors, c), c, FEATURES)
  }

  lemma EntitleFurther(anchors: Anchors, c: Call, fs: set<Feature>, f: Feature)
    ensures
      var ent := EntitleAmong(anchors, c, fs);
      EntitleAmong(anchors, c, fs + {f})
      == if OnGrace(anchors, c, f) then
           Entitlement(ent.features + {f}, ent.graceUntil[f := anchors[f].at + c.policy.graceS])
         else if Qualifies(c, f) then Entitlement(ent.features + {f}, ent.graceUntil)
         else if f in fs then EntitleAmong(anchors, c, fs + {f}) else ent
  {
    hide Qualifies;
  }

  lemma MovedFurther(anchors: Anchors, c: Call, fs: set<Feature>, f: Feature)
    ensures MovedAmong(anchors, c, fs + {f})
         == if Moves(anchors, c, f)
            then MovedAmong(anchors, c, fs)[f := Anchor(c.holding.value.observedAt, c.policy.version)]
            else MovedAmong(anchors, c, fs)
  {
    hide Moves;
  }

  lemma SomeFeature(fs: set<Feature>)
    ensures fs == {} || exists f :: f in fs
  {
    if forall f :: f !in fs {
      assert fs == {};
    }
  }

  lemma NoFeatures(anchors: Anchors, c: Call)
    ensures EntitleAmong(anchors, c, {}) == Entitlement({}, map[]) && MovedAmong(anchors, c, {}) == map[]
    ensures !c.policy.hasToken ==> Entitle(anchors, c) == Entitlement({}, map[])
  {
  }

  /** Which features the decision grants, and which of them on grace. */
  lemma EntitleAt(anchors: Anchors, c: Call, f: Feature)
    ensures f in Entitle(anchors, c).features <==> Qualifies(c, f) || OnGrace(anchors, c, f)
    ensures f in Entitle(anchors, c).graceUntil <==> OnGrace(anchors, c, f)
    ensures OnGrace(anchors, c, f) ==> Entitle(anchors, c).graceUntil[f] == anchors[f].at + c.policy.graceS
  {
    assert f in FEATURES;
    hide Qualifies;
  }

  class Gate {
    var qualified: map<Wallet, Anchors>

    function AnchorsOf(wallet: Wallet): Anchors
      reads this
    {
      if wallet in qualified then qualified[wallet] else map[]
    }

    constructor ()
      ensures qualified == map[]
    {
      qualified := map[];
    }

    /** Drop refuted anchors, decide, and remember what qualified. */
    method Entitlement(wallet: Wallet, c: Call) returns (ent: Entitlement)
      requires CallOk(c)
      modifies this
      ensures ent == Entitle(Kept(old(AnchorsOf(wallet)), c), c)
      ensures AnchorsOf(wallet) == After(old(AnchorsOf(wallet)), c)
      ensures forall w :: w != wallet ==> AnchorsOf(w) == old(AnchorsOf(w))
    {
      var anchors := AnchorsOf(wallet);
      anchors := DropRefuted(anchors, c);
      ent := DecideEach(anchors, c);
      var moved := CollectMoved(anchors, c, ent);
      hide Kept, MovedAmong, Entitle;
      qualified := qualified[wallet := anchors + moved];
    }
  }

  method DropRefuted(anchors: Anchors, c: Call) returns (kept: Anchors)
    ensures kept == Kept(anchors, c)
  {
    if Fresh(c) {
      var dropped := set f | f in anchors && c.policy.threshold.Of(f) > 0
          && c.holding.value.balance < c.policy.threshold.Of(f);
      kept := anchors - dropped;
    } else {
      kept := anchors;
    }
  }

  method DecideEach(anchors: Anchors, c: Call) returns (ent: Entitlement)
    ensures ent == Entitle(anchors, c)
  {
    ent := Entitlement({}, map[]);
    NoFeatures(anchors, c);
    if c.policy.hasToken {
      var todo := FEATURES;
      ghost var done: set<Feature> := {};
      hide EntitleAmong;
      while todo != {}
        invariant todo == FEATURES - done && done <= FEATURES
        invariant ent == EntitleAmong(anchors, c, done)
        decreases |todo|
      {
        SomeFeature(todo);
        var f :| f in todo;
        EntitleFurther(anchors, c, done, f);
        if c.policy.threshold.Of(f) == 0 || FreshAtLeast(c, f) {
          ent := ent.(features := ent.features + {f});
        } else if !Fresh(c) && f in anchors && anchors[f].version == c.policy.version
                  && c.now - anchors[f].at <= c.policy.graceS {
          ent := Entitlement(ent.features + {f}, ent.graceUntil[f := anchors[f].at + c.policy.graceS]);
        }
        todo, done := todo - {f}, done + {f};
      }
      assert done == FEATURES;
    }
  }

  method CollectMoved(anchors: Anchors, c: Call, ent: Entitlement) returns (moved: Anchors)
    requires CallOk(c) && ent == Entitle(anchors, c)
    ensures moved == MovedAmong(anchors, c, FEATURES)
  {
    moved := map[];
    NoFeatures(anchors, c);
    var todo := FEATURES;
    ghost var done: set<Feature> := {};
    hide EntitleAmong, Entitle, MovedAmong;
    while todo != {}
      invariant todo == FEATURES - done && done <= FEATURES
      invariant moved == MovedAmong(anchors, c, done)
      decreases |todo|
    {
      SomeFeature(todo);
      var f :| f in todo;
      MovedFurther(anchors, c, done, f);
      EntitleAt(anchors, c, f);
      if f in ent.features && f !in ent.graceUntil && c.policy.threshold.Of(f) > 0 {
        if f !in anchors || anchors[f].version != c.policy.version
           || c.holding.value.observedAt - anchors[f].at >= QUALIFIED_WRITE_STEP_S {
          moved := moved[f := Anchor(c.holding.value.observedAt, c.policy.version)];
        }
      }
      todo, done := todo - {f}, done + {f};
    }
    assert done == FEATURES;
  }

  // ---------------------------------------------------------------- histories

  /** The anchors after a history of calls for one wallet. */
  function AnchorsAfter(calls: seq<Call>): Anchors {
    if |calls| == 0 then map[] else After(AnchorsAfter(calls[..|calls| - 1]), calls[|calls| - 1])
  }

  /** Call `j` set the anchor to what it observed. */
  predicate Moved(calls: seq<Call>, j: nat, f: Feature) {
    j < |calls| && Moves(Kept(AnchorsAfter(calls[..j]), calls[j]), calls[j], f)
  }

  predicate Calls(calls: seq<Call>) {
    forall i :: 0 <= i < |calls| ==> CallOk(calls[i])
  }

  /** No call from `j` on saw a fresh balance below the threshold it read. */
  predicate NeverBelow(calls: seq<Call>, j: nat, f: Feature) {
    forall m :: j <= m < |calls| ==> !FreshBelow(calls[m], f)
  }

  /** Call `j` saw a qualifying balance under this policy version, and nothing refuted it since. */
  predicate Witnesses(calls: seq<Call>, j: nat, f: Feature, version: nat) {
    && j < |calls|
    && calls[j].policy.hasToken && calls[j].policy.version == version && FreshAtLeast(calls[j], f)
    && calls[j].policy.threshold.Of(f) > 0
    && NeverBelow(calls, j, f)
  }

  /** What one call makes of one anchor. */
  lemma AfterAt(anchors: Anchors, c: Call, f: Feature)
    ensures f in After(anchors, c) <==> Moves(Kept(anchors, c), c, f) || (f in anchors && !FreshBelow(c, f))
    ensures Moves(Kept(anchors, c), c, f) ==>
        After(anchors, c)[f] == Anchor(c.holding.value.observedAt, c.policy.version)
    ensures !Moves(Kept(anchors, c), c, f) && f in anchors && !FreshBelow(c, f) ==> After(anchors, c)[f] == anchors[f]
    ensures f in Kept(anchors, c) <==> f in anchors && !FreshBelow(c, f)
    ensures f in Kept(anchors, c) ==> Kept(anchors, c)[f] == anchors[f]
  {
    assert f in FEATURES;
    hide Moves;
  }

  lemma WitnessLater(calls: seq<Call>, j: nat, f: Feature, version: nat)
    requires |calls| > 0 && Witnesses(calls[..|calls| - 1], j, f, version) && !FreshBelow(calls[|calls| - 1], f)
    ensures Witnesses(calls, j, f, version)
    ensures Moved(calls[..|calls| - 1], j, f) <==> Moved(calls, j, f)
  {
    hide FreshBelow, FreshAtLeast, Moves, Kept, AnchorsAfter;
    var init := calls[..|calls| - 1];
    assert init[..j] == calls[..j];
    forall m | j <= m < |calls|
      ensures !FreshBelow(calls[m], f)
    {
      assert m < |init| ==> init[m] == calls[m];
    }
  }

  lemma MoverIsWitness(calls: seq<Call>, f: Feature)
    requires |calls| > 0 && CallOk(calls[|calls| - 1])
    requires Moves(Kept(AnchorsAfter(calls[..|calls| - 1]), calls[|calls| - 1]), calls[|calls| - 1], f)
    ensures Witnesses(calls, |calls| - 1, f, calls[|calls| - 1].policy.version)
    ensures Moved(calls, |calls| - 1, f)
  {
    hide Kept, AnchorsAfter;
  }

  /** Every anchor was set by a call that nothing has refuted since. */
  lemma {:induction false} AnchorIsWitnessed(calls: seq<Call>, f: Feature) returns (j: nat)
    requires Calls(calls) && f in AnchorsAfter(calls)
    ensures Witnesses(calls, j, f, AnchorsAfter(calls)[f].version) && Moved(calls, j, f)
    ensures calls[j].holding.value.observedAt == AnchorsAfter(calls)[f].at
  {
    var init, last := calls[..|calls| - 1], calls[|calls| - 1];
    assert CallOk(last) && forall i :: 0 <= i < |init| ==> init[i] == calls[i];
    AfterAt(AnchorsAfter(init), last, f);
    assert AnchorsAfter(calls) == After(AnchorsAfter(init), last);
    hide AnchorsAfter, After, Kept, Moves, FreshBelow, Witnesses, CallOk, Moved;
    if Moves(Kept(AnchorsAfter(init), last), last, f) {
      MoverIsWitness(calls, f);
      j := |calls| - 1;
    } else {
      j := AnchorIsWitnessed(init, f);
      WitnessLater(calls, j, f, AnchorsAfter(init)[f].version);
    }
  }

  /**
   A feature is granted on grace only if an earlier call saw a fresh balance at or above the
   threshold, under the same policy version and observed at most the grace period ago, and no
   call since then saw a fresh balance below the threshold of its day.
   */
  lemma GraceIsEarned(calls: seq<Call>, c: Call, f: Feature) returns (j: nat)
    requires Calls(calls) && CallOk(c)
    requires f in Entitle(Kept(AnchorsAfter(calls), c), c).graceUntil
    ensures Witnesses(calls, j, f, c.policy.version) && Moved(calls, j, f)
    ensures c.now - calls[j].holding.value.observedAt <= c.policy.graceS
    ensures Entitle(Kept(AnchorsAfter(calls), c), c).graceUntil[f]
         == calls[j].holding.value.observedAt + c.policy.graceS
    ensures !Fresh(c)
  {
    EntitleAt(Kept(AnchorsAfter(calls), c), c, f);
    AfterAt(AnchorsAfter(calls), c, f);
    hide Entitle, Kept, After, Witnesses, Moved;
    j := AnchorIsWitnessed(calls, f);
  }

  predicate VersionsRise(calls: seq<Call>) {
    forall i, j :: 0 <= i < j < |calls| ==> calls[i].policy.version <= calls[j].policy.version
  }

  /** From a witness on, a history that ends under its version has only that version. */
  predicate EndsUnder(calls: seq<Call>, j: nat, f: Feature, version: nat) {
    && Calls(calls) && VersionsRise(calls) && Witnesses(calls, j, f, version)
    && calls[|calls| - 1].policy.version == version
  }

  lemma EndsUnderInit(calls: seq<Call>, j: nat, f: Feature, version: nat)
    requires EndsUnder(calls, j, f, version) && j < |calls| - 1
    ensures EndsUnder(calls[..|calls| - 1], j, f, version)
    ensures CallOk(calls[|calls| - 1]) && !FreshBelow(calls[|calls| - 1], f)
  {
    hide FreshBelow, FreshAtLeast, CallOk, Moves, Kept, AnchorsAfter;
    assert calls[j].policy.version <= calls[|calls| - 2].policy.version;
  }

  /**
   The anchor a witness finds or leaves is as recent as what it saw, or a later call moved it.
   */
  predicate Secured(calls: seq<Call>, j: nat, f: Feature) {
    && j < |calls| && calls[j].holding.Some?
    && var kept := Kept(AnchorsAfter(calls[..j]), calls[j]);
       || Moved(calls, j, f)
       || (f in kept && kept[f].at >= calls[j].holding.value.observedAt)
       || exists m: nat :: j < m < |calls| && Moved(calls, m, f)
  }

  /** One more call secures the witnesses before it if it moves the anchor. */
  lemma SecuredLater(calls: seq<Call>, j: nat, f: Feature)
    requires j < |calls| - 1
    ensures Secured(calls, j, f) <==> Secured(calls[..|calls| - 1], j, f)
                                      || (calls[j].holding.Some? && Moved(calls, |calls| - 1, f))
  {
    hide Kept, AnchorsAfter, Moves;
    var init := calls[..|calls| - 1];
    forall m: nat | m < |init|
      ensures Moved(init, m, f) <==> Moved(calls, m, f)
    {
      assert init[..m] == calls[..m];
    }
    assert init[..j] == calls[..j];
  }

  /** The anchor right after a witness. */
  lemma WitnessSetsAnchor(calls: seq<Call>, f: Feature, version: nat)
    requires |calls| > 0 && EndsUnder(calls, |calls| - 1, f, version)
    ensures f in AnchorsAfter(calls) && AnchorsAfter(calls)[f].version == version
    ensures AnchorsAfter(calls)[f].at > calls[|calls| - 1].holding.value.observedAt - QUALIFIED_WRITE_STEP_S
    ensures AnchorsAfter(calls)[f].at >= calls[|calls| - 1].holding.value.observedAt
       <==> Secured(calls, |calls| - 1, f)
  {
    var init, last := calls[..|calls| - 1], calls[|calls| - 1];
    AfterAt(AnchorsAfter(init), last, f);
    assert AnchorsAfter(calls) == After(AnchorsAfter(init), last);
    hide AnchorsAfter, After, Kept;
  }

  /**
   Once witnessed, an anchor lags behind the observation by less than one write step, and it
   lags behind at all exactly when the witness was not secured.
   */
  lemma {:induction false} WitnessKeepsAnchor(calls: seq<Call>, j: nat, f: Feature, version: nat)
    requires EndsUnder(calls, j, f, version)
    ensures f in AnchorsAfter(calls) && AnchorsAfter(calls)[f].version == version
    ensures AnchorsAfter(calls)[f].at > calls[j].holding.value.observedAt - QUALIFIED_WRITE_STEP_S
    ensures AnchorsAfter(calls)[f].at >= calls[j].holding.value.observedAt <==> Secured(calls, j, f)
    decreases |calls|
  {
    var init, last := calls[..|calls| - 1], calls[|calls| - 1];
    assert AnchorsAfter(calls) == After(AnchorsAfter(init), last);
    hide AnchorsAfter, After, Kept, Secured;
    if j < |init| {
      EndsUnderInit(calls, j, f, version);
      WitnessKeepsAnchor(init, j, f, version);
      SecuredLater(calls, j, f);
      AfterAt(AnchorsAfter(init), last, f);
      assert Moved(calls, |calls| - 1, f) <==> Moves(Kept(AnchorsAfter(init), last), last, f);
      hide EndsUnder, Witnesses, Moved;
    } else {
      WitnessSetsAnchor(calls, f, version);
    }
  }

  /** The decision on one feature after a history. */
  predicate Granted(calls: seq<Call>, c: Call, f: Feature) {
    f in Entitle(Kept(AnchorsAfter(calls), c), c).features
  }

  /** Without a fresh balance, only a sufficiently recent anchor of the same version grants. */
  lemma GrantedByAnchor(calls: seq<Call>, c: Call, f: Feature)
    requires c.policy.hasToken && c.policy.threshold.Of(f) > 0 && !Fresh(c)
    ensures Granted(calls, c, f)
       <==> && f in AnchorsAfter(calls) && AnchorsAfter(calls)[f].version == c.policy.version
            && c.now - AnchorsAfter(calls)[f].at <= c.policy.graceS
  {
    AfterAt(AnchorsAfter(calls), c, f);
    EntitleAt(Kept(AnchorsAfter(calls), c), c, f);
    hide AnchorsAfter, Kept, Entitle;
  }

  /** Under `policy`, what call `j` saw is honoured for the whole grace period. */
  ghost predicate HonouredInFull(calls: seq<Call>, j: nat, f: Feature, policy: Policy)
    requires j < |calls| && calls[j].holding.Some?
  {
    forall c: Call :: c.policy == policy && !Fresh(c) && c.now - calls[j].holding.value.observedAt <= policy.graceS
                ==> Granted(calls, c, f)
  }

  /**
   A qualifying balance that nothing refuted is honoured for the full grace period exactly when
   its call moved the anchor, or found one no older than the balance, or a later call moved it.
   */
  lemma FullGraceExactly(calls: seq<Call>, j: nat, f: Feature, policy: Policy)
    requires EndsUnder(calls, j, f, policy.version) && policy.hasToken && policy.threshold.Of(f) > 0
    ensures HonouredInFull(calls, j, f, policy) <==> Secured(calls, j, f)
  {
    WitnessKeepsAnchor(calls, j, f, policy.version);
    var at, seen := AnchorsAfter(calls)[f].at, calls[j].holding.value.observedAt;
    hide AnchorsAfter, Secured, Granted;
    forall c: Call | c.policy == policy && !Fresh(c)
      ensures Granted(calls, c, f) <==> c.now - at <= policy.graceS
    {
      GrantedByAnchor(calls, c, f);
    }
    var last := Call(policy, seen + policy.graceS, None);
    assert !Fresh(last) && (Granted(calls, last, f) <==> seen <= at);
  }

  lemma EndsUnderNext(calls: seq<Call>, c: Call, j: nat, f: Feature)
    requires Calls(calls) && VersionsRise(calls + [c]) && Witnesses(calls, j, f, c.policy.version)
    ensures EndsUnder(calls, j, f, c.policy.version)
  {
    hide Calls;
    var all := calls + [c];
    forall i | 0 <= i < |calls|
      ensures all[i] == calls[i]
    {
    }
    assert all[j].policy.version <= all[|calls| - 1].policy.version <= all[|calls|].policy.version;
  }

  /** Call `j` saw an unrefuted qualifying balance at most the grace period before `c`. */
  predicate Covers(calls: seq<Call>, c: Call, j: nat, f: Feature) {
    && Witnesses(calls, j, f, c.policy.version)
    && c.now - calls[j].holding.value.observedAt <= c.policy.graceS
  }

  /**
   Without a fresh balance a feature is granted if and only if some balance that qualified,
   moved the anchor and was not refuted since is at most the grace period old.
   */
  lemma GraceIsExact(calls: seq<Call>, c: Call, f: Feature)
    requires Calls(calls) && VersionsRise(calls + [c])
    requires c.policy.hasToken && c.policy.threshold.Of(f) > 0 && !Fresh(c)
    ensures Granted(calls, c, f)
       <==> exists j: nat :: Covers(calls, c, j, f) && Moved(calls, j, f)
  {
    hide AnchorsAfter, Granted, Moved, Calls, VersionsRise;
    GrantedByAnchor(calls, c, f);
    if Granted(calls, c, f) {
      var j := AnchorIsWitnessed(calls, f);
      assert Covers(calls, c, j, f);
    }
    if j: nat :| Covers(calls, c, j, f) && Moved(calls, j, f) {
      EndsUnderNext(calls, c, j, f);
      WitnessKeepsAnchor(calls, j, f, c.policy.version);
    }
  }

  /** A balance that qualified at most the grace period ago, less one write step, is honoured. */
  lemma EarnedGraceIsGranted(calls: seq<Call>, c: Call, j: nat, f: Feature)
    requires Calls(calls) && VersionsRise(calls + [c])
    requires Witnesses(calls, j, f, c.policy.version)
    requires c.policy.hasToken && c.policy.threshold.Of(f) > 0 && !Fresh(c)
    requires c.now - calls[j].holding.value.observedAt <= c.policy.graceS - QUALIFIED_WRITE_STEP_S
    ensures Granted(calls, c, f) && f in Entitle(Kept(AnchorsAfter(calls), c), c).graceUntil
  {
    EndsUnderNext(calls, c, j, f);
    WitnessKeepsAnchor(calls, j, f, c.policy.version);
    GrantedByAnchor(calls, c, f);
    EntitleAt(Kept(AnchorsAfter(calls), c), c, f);
    hide AnchorsAfter;
  }

  /** Under one version, observations are the same or a write step apart. */
  predicate StepsApart(calls: seq<Call>) {
    forall i, j :: 0 <= i < j < |calls| && calls[i].policy.version == calls[j].policy.version
                   && calls[i].holding.Some? && calls[j].holding.Some?
                   ==> ApartBy(calls[i].holding.value, calls[j].holding.value, QUALIFIED_WRITE_STEP_S)
  }

  predicate ApartBy(earlier: Holding, later: Holding, gap: real) {
    later.observedAt == earlier.observedAt || later.observedAt - earlier.observedAt >= gap
  }

  /** Observations a write step apart secure every witness. */
  lemma StepsApartSecure(calls: seq<Call>, j: nat, f: Feature)
    requires j < |calls| && Calls(calls) && StepsApart(calls)
    requires Witnesses(calls, j, f, calls[j].policy.version)
    ensures Secured(calls, j, f)
  {
    if !Moved(calls, j, f) {
      var init, c := calls[..j], calls[j];
      AfterAt(AnchorsAfter(init), c, f);
      assert f in AnchorsAfter(init);
      assert Calls(init);
      hide AnchorsAfter, Kept, Calls;
      var i := AnchorIsWitnessed(init, f);
      assert init[i] == calls[i];
    }
  }

  /**
   Where observations are a write step apart, a feature is granted without a fresh balance if and
   only if some unrefuted balance that qualified is at most the grace period old.
   */
  lemma SpacedGraceIsExact(calls: seq<Call>, c: Call, f: Feature)
    requires Calls(calls) && VersionsRise(calls + [c]) && StepsApart(calls)
    requires c.policy.hasToken && c.policy.threshold.Of(f) > 0 && !Fresh(c)
    ensures Granted(calls, c, f)
       <==> exists j: nat :: Covers(calls, c, j, f)
  {
    hide AnchorsAfter, Granted, Moved, Calls, VersionsRise, StepsApart;
    GrantedByAnchor(calls, c, f);
    if Granted(calls, c, f) {
      var j := AnchorIsWitnessed(calls, f);
      assert Covers(calls, c, j, f);
    }
    if j: nat :| Covers(calls, c, j, f) {
      EndsUnderNext(calls, c, j, f);
      WitnessKeepsAnchor(calls, j, f, c.policy.version);
      StepsApartSecure(calls, j, f);
    }
  }
}
