/**
 The balance oracle behind the gate: it answers from its cache for as long as an observation is
 fresh, which is what keeps the observations of one wallet apart.
 */
module GateOracle {
  import opened Common
  import opened GateGrace

  const CACHED_WALLETS: nat := 4096

  /** What comes of asking the chain for a balance; nothing when the request fails. */
  type Fetched = Option<nat>

  /** An old observation still answers when the chain does not, within the grace period. */
  function Usable(cached: Option<Holding>, at: real, graceS: real): Option<Holding> {
    if cached.Some? && at - cached.value.observedAt <= graceS then cached else None
  }

  predicate FreshAt(cached: Option<Holding>, at: real) {
    cached.Some? && at - cached.value.observedAt < ORACLE_TTL_S
  }

  /** The cached observation of the wallet after asking for it at a time. */
  function CachedAfter(cached: Option<Holding>, at: real, fetched: Fetched): Option<Holding> {
    if !FreshAt(cached, at) && fetched.Some? then Some(Holding(fetched.value, at)) else cached
  }

  /** What the oracle answers: the cached observation it is left with, unless that is too old. */
  function Observed(cached: Option<Holding>, at: real, fetched: Fetched, graceS: real): Option<Holding> {
    if FreshAt(cached, at) then cached
    else if fetched.Some? then CachedAfter(cached, at, fetched)
    else Usable(cached, at, graceS)
  }

  class Oracle {
    var cache: map<Wallet, Holding>
    var order: seq<Wallet>

    /** `order` lists the cached wallets, the least recently used first. */
    ghost predicate Valid()
      reads this
    {
      && |order| <= CACHED_WALLETS
      && (forall w :: w in order <==> w in cache)
      && (forall i, j :: 0 <= i < j < |order| ==> order[i] != order[j])
    }

    function Cached(wallet: Wallet): Option<Holding>
      reads this
    {
      if wallet in cache then Some(cache[wallet]) else None
    }

    constructor ()
      ensures Valid() && cache == map[]
    {
      cache, order := map[], [];
    }

    method ForgetAll()
      modifies this
      ensures Valid() && cache == map[]
    {
      cache, order := map[], [];
    }

    /** The wallet becomes the most recently used. */
    method Touch(wallet: Wallet)
      requires |order| <= CACHED_WALLETS
      requires forall w :: w in order ==> w in cache
      requires forall w :: w in cache ==> w in order || w == wallet
      requires forall i, j :: 0 <= i < j < |order| ==> order[i] != order[j]
      requires wallet in cache
      modifies this`order
      ensures order == Without(old(order), wallet) + [wallet]
      ensures forall w :: w in order <==> w in cache
      ensures forall i, j :: 0 <= i < j < |order| ==> order[i] != order[j]
      ensures |order| <= CACHED_WALLETS + if wallet in old(order) then 0 else 1
    {
      WithoutIsDistinct(order, wallet);
      order := Without(order, wallet) + [wallet];
    }

    /**
     Answer for one wallet. Storing a new observation can push out the least recently used other
     wallet; nothing else changes.
     */
    method Observe(wallet: Wallet, at: real, fetched: Fetched, graceS: real) returns (holding: Option<Holding>)
      requires Valid()
      modifies this
      ensures Valid()
      ensures holding == Observed(old(Cached(wallet)), at, fetched, graceS)
      ensures Cached(wallet) == CachedAfter(old(Cached(wallet)), at, fetched)
      ensures forall w :: w != wallet ==>
                Cached(w) == old(Cached(w))
                || (Cached(w) == None && |old(order)| == CACHED_WALLETS && w == old(order)[0]
                    && wallet !in old(order))
    {
      var cached := Cached(wallet);
      if FreshAt(cached, at) {
        Touch(wallet);
        return cached;
      }
      if fetched == None {
        return Usable(cached, at, graceS);
      }
      holding := Some(Holding(fetched.value, at));
      cache := cache[wallet := holding.value];
      Touch(wallet);
      if |order| > CACHED_WALLETS {
        assert Without(old(order), wallet) == old(order) by {
          WithoutAbsent(old(order), wallet);
        }
        assert order[0] == old(order)[0] && order[|order| - 1] == wallet;
        cache := cache - {order[0]};
        order := order[1..];
      }
    }
  }

  function Without(order: seq<Wallet>, wallet: Wallet): seq<Wallet> {
    if order == [] then []
    else if order[0] == wallet then Without(order[1..], wallet)
    else [order[0]] + Without(order[1..], wallet)
  }

  lemma {:induction false} WithoutAbsent(order: seq<Wallet>, wallet: Wallet)
    requires wallet !in order
    ensures Without(order, wallet) == order
  {
    if order != [] {
      WithoutAbsent(order[1..], wallet);
    }
  }

  lemma {:induction false} WithoutIsDistinct(order: seq<Wallet>, wallet: Wallet)
    requires forall i, j :: 0 <= i < j < |order| ==> order[i] != order[j]
    ensures forall w :: w in Without(order, wallet) <==> w in order && w != wallet
    ensures
      var rest := Without(order, wallet);
      forall i, j :: 0 <= i < j < |rest| ==> rest[i] != rest[j]
    ensures |Without(order, wallet)| == |order| - if wallet in order then 1 else 0
  {
    if order != [] {
      assert order[0] !in order[1..];
      WithoutIsDistinct(order[1..], wallet);
    }
  }

  // ---------------------------------------------------------------- the calls of one wallet

  /**
   One entitlement call: the policy and clock the gate read, the clock the oracle read and what
   the chain would tell it. `forgotten` says that the wallet's observation was dropped since the
   call before: another wallet pushed it out, the policy changed, or the process restarted.
   */
  datatype Visit = Visit(policy: Policy, now: real, at: real, fetched: Fetched, forgotten: bool)

  function CacheBefore(visits: seq<Visit>, forgotten: bool): Option<Holding>
    decreases |visits|, 1
  {
    if forgotten then None else CacheAfter(visits)
  }

  function CacheAfter(visits: seq<Visit>): Option<Holding>
    decreases |visits|, 0
  {
    if |visits| == 0 then None
    else
      var init, v := visits[..|visits| - 1], visits[|visits| - 1];
      if v.policy.hasToken then CachedAfter(CacheBefore(init, v.forgotten), v.at, v.fetched)
      else CacheBefore(init, v.forgotten)
  }

  /** The call the gate makes of a visit; the oracle is asked only when there is a token. */
  function CallAfter(visits: seq<Visit>, v: Visit): Call {
    Call(v.policy, v.now,
         if v.policy.hasToken then Observed(CacheBefore(visits, v.forgotten), v.at, v.fetched, v.policy.graceS)
         else None)
  }

  function CallsOf(visits: seq<Visit>): (calls: seq<Call>)
    ensures |calls| == |visits|
  {
    if |visits| == 0 then []
    else CallsOf(visits[..|visits| - 1]) + [CallAfter(visits[..|visits| - 1], visits[|visits| - 1])]
  }

  predicate PoliciesRise(visits: seq<Visit>) {
    forall i, j :: 0 <= i < j < |visits| ==> visits[i].policy.version <= visits[j].policy.version
  }

  /** The cache is dropped only when a newer policy arrives. */
  predicate RemembersWithinVersions(visits: seq<Visit>) {
    forall i :: 0 < i < |visits| && visits[i].forgotten
                ==> visits[i - 1].policy.version < visits[i].policy.version
  }

  lemma {:induction false} CallsAreOk(visits: seq<Visit>)
    ensures Calls(CallsOf(visits))
    ensures forall i :: 0 <= i < |visits| ==> CallsOf(visits)[i].policy == visits[i].policy
  {
    if |visits| > 0 {
      CallsAreOk(visits[..|visits| - 1]);
    }
  }

  /** The observation is the cached one, or lies at least a cache lifetime before it. */
  predicate Behind(seen: Option<Holding>, cached: Option<Holding>) {
    seen.Some? ==> cached.Some? && ApartBy(seen.value, cached.value, ORACLE_TTL_S)
  }

  /** Asking never brings the cached observation closer to the earlier ones. */
  lemma StaysBehind(seen: Option<Holding>, cached: Option<Holding>, at: real, fetched: Fetched, graceS: real)
    requires Behind(seen, cached)
    ensures Behind(seen, CachedAfter(cached, at, fetched))
    ensures
      var holding := Observed(cached, at, fetched, graceS);
      Behind(holding, CachedAfter(cached, at, fetched))
      && (holding.Some? ==> holding == CachedAfter(cached, at, fetched))
  {
  }

  /** What the next visit makes of an observation of its own version. */
  lemma BehindNext(init: seq<Visit>, v: Visit, i: nat, seen: Option<Holding>)
    requires PoliciesRise(init + [v]) && RemembersWithinVersions(init + [v])
    requires i < |init| && init[i].policy.version == v.policy.version
    requires init[i].policy.version == init[|init| - 1].policy.version ==> Behind(seen, CacheAfter(init))
    ensures Behind(seen, CacheAfter(init + [v]))
    ensures
      var holding := CallAfter(init, v).holding;
      seen.Some? && holding.Some? ==> ApartBy(seen.value, holding.value, QUALIFIED_WRITE_STEP_S)
  {
    var visits := init + [v];
    assert visits[..|init|] == init && visits[i] == init[i] && visits[|init|] == v;
    assert visits[|init| - 1] == init[|init| - 1];
    assert visits[i].policy.version <= visits[|init| - 1].policy.version <= visits[|init|].policy.version;
    assert !v.forgotten;
    StaysBehind(seen, CacheAfter(init), v.at, v.fetched, v.policy.graceS);
    StaysBehind(None, CacheAfter(init), v.at, v.fetched, v.policy.graceS);
    hide CachedAfter, Observed, PoliciesRise, RemembersWithinVersions;
  }

  lemma StepsApartNone()
    ensures StepsApart([])
  {
  }

  lemma StepsApartNext(calls: seq<Call>, c: Call)
    requires StepsApart(calls)
    requires forall i :: 0 <= i < |calls| && calls[i].policy.version == c.policy.version
                         && calls[i].holding.Some? && c.holding.Some?
                         ==> ApartBy(calls[i].holding.value, c.holding.value, QUALIFIED_WRITE_STEP_S)
    ensures StepsApart(calls + [c])
  {
    hide ApartBy;
  }

  lemma RisesBefore(visits: seq<Visit>)
    requires |visits| > 0 && PoliciesRise(visits) && RemembersWithinVersions(visits)
    ensures PoliciesRise(visits[..|visits| - 1]) && RemembersWithinVersions(visits[..|visits| - 1])
  {
  }

  /** The observations made under the version of the last visit lie behind the cached one. */
  lemma {:induction false} ObservationsSpaced(visits: seq<Visit>)
    requires PoliciesRise(visits) && RemembersWithinVersions(visits)
    ensures StepsApart(CallsOf(visits))
    ensures forall i :: 0 <= i < |visits| && visits[i].policy.version == visits[|visits| - 1].policy.version
                        ==> Behind(CallsOf(visits)[i].holding, CacheAfter(visits))
  {
    hide PoliciesRise, RemembersWithinVersions, StepsApart, Calls, ApartBy;
    if |visits| == 0 {
      StepsApartNone();
    } else {
      var init, v := visits[..|visits| - 1], visits[|visits| - 1];
      assert visits == init + [v];
      RisesBefore(visits);
      ObservationsSpaced(init);
      CallsAreOk(visits);
      var calls := CallsOf(visits);
      assert calls == CallsOf(init) + [CallAfter(init, v)];
      var cached := CacheBefore(init, v.forgotten);
      StaysBehind(None, cached, v.at, v.fetched, v.policy.graceS);
      assert Behind(calls[|init|].holding, CacheAfter(visits));
      hide CallsOf, CacheAfter, CallAfter, CacheBefore, Behind, CachedAfter, Observed;
      forall i | 0 <= i < |init| && visits[i].policy.version == v.policy.version
        ensures Behind(calls[i].holding, CacheAfter(visits))
        ensures calls[i].holding.Some? && calls[|init|].holding.Some?
                ==> ApartBy(calls[i].holding.value, calls[|init|].holding.value, QUALIFIED_WRITE_STEP_S)
      {
        BehindNext(init, v, i, calls[i].holding);
      }
      StepsApartNext(CallsOf(init), CallAfter(init, v));
    }
  }

  /**
   As long as the cache is dropped only when a newer policy arrives, a wallet without a fresh
   balance is granted a feature if and only if some unrefuted balance that qualified under this
   policy version is at most the grace period old.
   */
  lemma RememberedGraceIsExact(visits: seq<Visit>, c: Call, f: Feature)
    requires PoliciesRise(visits) && RemembersWithinVersions(visits)
    requires forall i :: 0 <= i < |visits| ==> visits[i].policy.version <= c.policy.version
    requires c.policy.hasToken && c.policy.threshold.Of(f) > 0 && !Fresh(c)
    ensures Granted(CallsOf(visits), c, f) <==> exists j: nat :: Covers(CallsOf(visits), c, j, f)
  {
    CallsAreOk(visits);
    ObservationsSpaced(visits);
    hide CallsOf, Granted, Covers, StepsApart, Calls;
    assert VersionsRise(CallsOf(visits) + [c]);
    SpacedGraceIsExact(CallsOf(visits), c, f);
  }

  /**
   The write step is the whole gap. The wallet's observation is pushed out of the cache, or lost
   in a restart, four seconds after it was made; the balance read then moves no anchor, so grace
   ends before a full period has passed since.
   */
  lemma GraceCanEndAStepEarly(policy: Policy, f: Feature, balance: nat)
    requires policy.hasToken && 0 < policy.threshold.Of(f) <= balance && policy.graceS > 40.0
    ensures
      var visits := [Visit(policy, 0.0, 0.0, Some(balance), false), Visit(policy, 4.0, 4.0, Some(balance), true)];
      var late := policy.graceS + 1.0;
      var c := CallAfter(visits, Visit(policy, late, late, None, false));
      && Covers(CallsOf(visits), c, 1, f)
      && c.now - CallsOf(visits)[1].holding.value.observedAt < policy.graceS
      && !Granted(CallsOf(visits), c, f)
  {
    var visits := [Visit(policy, 0.0, 0.0, Some(balance), false), Visit(policy, 4.0, 4.0, Some(balance), true)];
    var first, second := Call(policy, 0.0, Some(Holding(balance, 0.0))), Call(policy, 4.0, Some(Holding(balance, 4.0)));
    var late := policy.graceS + 1.0;
    var c := CallAfter(visits, Visit(policy, late, late, None, false));
    assert visits[..1] == [visits[0]] && visits[..1][..0] == [];
    assert CallsOf(visits[..1]) == CallsOf([]) + [CallAfter([], visits[0])];
    assert CallsOf(visits) == [first, second] && CacheAfter(visits) == Some(Holding(balance, 4.0));
    assert c == Call(policy, late, Some(Holding(balance, 4.0)));
    hide CallsOf, CacheAfter, CallAfter;
    AnchorStays(first, second, c, f);
  }

  lemma AnchorStays(first: Call, second: Call, c: Call, f: Feature)
    requires first.policy == second.policy == c.policy && c.policy.hasToken && c.policy.threshold.Of(f) > 0
    requires first.holding.Some? && FreshAtLeast(first, f) && FreshAtLeast(second, f) && !Fresh(c)
    requires 0.0 <= second.holding.value.observedAt - first.holding.value.observedAt < QUALIFIED_WRITE_STEP_S
    requires c.now - first.holding.value.observedAt > c.policy.graceS
    ensures Witnesses([first, second], 1, f, c.policy.version)
    ensures !Granted([first, second], c, f)
  {
    var calls := [first, second];
    assert calls[..1] == [first] && [first][..0] == [];
    assert AnchorsAfter([first]) == After(map[], first);
    assert AnchorsAfter(calls) == After(After(map[], first), second);
    AfterAt(map[], first, f);
    AfterAt(After(map[], first), second, f);
    GrantedByAnchor(calls, c, f);
    hide AnchorsAfter, After, Kept, Granted;
  }
}
