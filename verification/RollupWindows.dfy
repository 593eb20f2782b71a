/**
 What a window query asks for, computed directly from the episodes, and the proof that the
 tiers inside the window add up to it.
 */
module RollupWindows {
  import opened Common
  import opened SqlAggregates
  import opened RollupTiers

  /** All protocols together, or one of them; NULL counts as a protocol of its own. */
  datatype Scope = AllProtocols | Only(protocol: Option<Protocol>)

  datatype Group = Group(kind: Kind, identity: Identity, scope: Scope)

  function IdentityOf(kind: Kind, r: EpisodeRow): Option<Identity> {
    if kind.Owners? then r.owner else r.custody
  }

  predicate Belongs(g: Group, r: EpisodeRow) {
    IdentityOf(g.kind, r) == Some(g.identity) && (g.scope.Only? ==> r.protocol == g.scope.protocol)
  }

  // ---------------------------------------------------------------- by tier

  function TierFilter(g: Group, now: int, tiers: set<nat>): EpisodeRow -> bool {
    (r: EpisodeRow) => Belongs(g, r) && TierOf(now, r.lastTimestamp) in tiers
  }

  function InTiers(rows: seq<EpisodeRow>, g: Group, now: int, tiers: set<nat>): seq<EpisodeRow> {
    Pick(rows, TierFilter(g, now, tiers))
  }

  predicate OpenRow(stale: set<nat>, r: EpisodeRow) {
    !r.closed && r.position !in stale
  }

  function OnPosition(g: Group, p: nat): EpisodeRow -> bool {
    (r: EpisodeRow) => Belongs(g, r) && r.position == p
  }

  function OpenOnPosition(g: Group, stale: set<nat>, p: nat): EpisodeRow -> bool {
    (r: EpisodeRow) => Belongs(g, r) && r.position == p && OpenRow(stale, r)
  }

  /** MAX(last_timestamp) of a position, or of its open episodes; None without any. */
  function Latest(rows: seq<EpisodeRow>, keep: EpisodeRow -> bool): Option<int> {
    var kept := Pick(rows, keep);
    if |kept| == 0 then None else Some(MaxOf(kept, Timestamp))
  }

  function PositionsOf(rows: seq<EpisodeRow>): set<nat> {
    set r | r in rows :: r.position
  }

  predicate AtTiers(now: int, tiers: set<nat>, latest: Option<int>) {
    latest.Some? && TierOf(now, latest.value) in tiers
  }

  /** The positions whose latest episode is in one of the tiers. */
  function PositionsAt(rows: seq<EpisodeRow>, g: Group, now: int, tiers: set<nat>): set<nat> {
    set p | p in PositionsOf(rows) && AtTiers(now, tiers, Latest(rows, OnPosition(g, p)))
  }

  function OpenAt(rows: seq<EpisodeRow>, g: Group, stale: set<nat>, now: int, tiers: set<nat>): set<nat> {
    set p | p in PositionsOf(rows) && AtTiers(now, tiers, Latest(rows, OpenOnPosition(g, stale, p)))
  }

  /** What the tiers say about a group. */
  function PartialAt(rows: seq<EpisodeRow>, g: Group, stale: set<nat>, now: int, tiers: set<nat>): Partial {
    Summary(InTiers(rows, g, now, tiers), |PositionsAt(rows, g, now, tiers)|, |OpenAt(rows, g, stale, now, tiers)|)
  }

  // ---------------------------------------------------------------- directly

  function WindowFilter(g: Group, now: int, d: nat): EpisodeRow -> bool {
    (r: EpisodeRow) => Belongs(g, r) && InWindow(now, d, r.lastTimestamp)
  }

  /** The episodes of a group in a window: the WHERE clause of the direct scan. */
  function Selected(rows: seq<EpisodeRow>, g: Group, now: int, d: nat): seq<EpisodeRow> {
    Pick(rows, WindowFilter(g, now, d))
  }

  /** COUNT(DISTINCT position_key), and the same over open positions that are not stale. */
  function DirectPositions(selected: seq<EpisodeRow>): set<nat> {
    set r | r in selected :: r.position
  }

  function DirectOpen(selected: seq<EpisodeRow>, stale: set<nat>): set<nat> {
    set r | r in selected && OpenRow(stale, r) :: r.position
  }

  // ---------------------------------------------------------------- one position

  lemma LatestIs(rows: seq<EpisodeRow>, keep: EpisodeRow -> bool)
    ensures Latest(rows, keep).None? <==> forall r :: r in rows ==> !keep(r)
    ensures Latest(rows, keep).Some? ==>
              && (forall r :: r in rows && keep(r) ==> r.lastTimestamp <= Latest(rows, keep).value)
              && (exists r :: r in rows && keep(r) && r.lastTimestamp == Latest(rows, keep).value)
  {
    var kept := Pick(rows, keep);
    PickMembers(rows, keep);
    if |kept| > 0 {
      assert kept[0] in kept;
      MaxIs(kept, Timestamp, MaxOf(kept, Timestamp));
      var r :| r in kept && Timestamp(r) == MaxOf(kept, Timestamp);
      assert r in rows && keep(r);
    } else {
      assert forall r :: r in rows ==> r !in kept;
    }
  }

  function UpTo(d: nat): (tiers: set<nat>)
    ensures forall t: nat :: t in tiers <==> t <= d
  {
    if d == 0 then {0} else UpTo(d - 1) + {d}
  }

  /** The latest of a kind of rows is in the window exactly when one of them is. */
  lemma LatestInWindow(rows: seq<EpisodeRow>, keep: EpisodeRow -> bool, now: int, d: nat)
    requires d < TIERS
    ensures AtTiers(now, UpTo(d), Latest(rows, keep))
       <==> exists r :: r in rows && keep(r) && InWindow(now, d, r.lastTimestamp)
  {
    LatestIs(rows, keep);
    var latest := Latest(rows, keep);
    hide Latest;
    if latest.Some? {
      WindowIsTiers(now, d, latest.value);
    }
  }

  // ---------------------------------------------------------------- the window is the sum of its tiers

  lemma WindowPositions(rows: seq<EpisodeRow>, g: Group, stale: set<nat>, now: int, d: nat)
    requires d < TIERS
    ensures PositionsAt(rows, g, now, UpTo(d)) == DirectPositions(Selected(rows, g, now, d))
    ensures OpenAt(rows, g, stale, now, UpTo(d)) == DirectOpen(Selected(rows, g, now, d), stale)
  {
    var selected := Selected(rows, g, now, d);
    PickMembers(rows, WindowFilter(g, now, d));
    hide Latest, AtTiers, Pick, InWindow;
    forall p
      ensures p in PositionsAt(rows, g, now, UpTo(d)) <==> p in DirectPositions(selected)
      ensures p in OpenAt(rows, g, stale, now, UpTo(d)) <==> p in DirectOpen(selected, stale)
    {
      LatestInWindow(rows, OnPosition(g, p), now, d);
      LatestInWindow(rows, OpenOnPosition(g, stale, p), now, d);
      if p in DirectPositions(selected) {
        var r :| r in selected && r.position == p;
        assert r in rows && OnPosition(g, p)(r) && InWindow(now, d, r.lastTimestamp);
      }
      if p in DirectOpen(selected, stale) {
        var r :| r in selected && OpenRow(stale, r) && r.position == p;
        assert r in rows && OpenOnPosition(g, stale, p)(r) && InWindow(now, d, r.lastTimestamp);
      }
    }
  }

  /** The tiers of a window, taken together, are the direct scan of that window. */
  lemma WindowIsItsTiers(rows: seq<EpisodeRow>, g: Group, stale: set<nat>, now: int, d: nat)
    requires d < TIERS
    ensures
      var selected := Selected(rows, g, now, d);
      PartialAt(rows, g, stale, now, UpTo(d))
      == Summary(selected, |DirectPositions(selected)|, |DirectOpen(selected, stale)|)
  {
    WindowPositions(rows, g, stale, now, d);
    forall r | r in rows
      ensures TierFilter(g, now, UpTo(d))(r) == WindowFilter(g, now, d)(r)
    {
      WindowIsTiers(now, d, r.lastTimestamp);
    }
    PickSame(rows, TierFilter(g, now, UpTo(d)), WindowFilter(g, now, d));
    hide Summary, PositionsAt, OpenAt;
  }

  // ---------------------------------------------------------------- one more tier

  /** A position counted in a tier has an episode in it. */
  lemma CountedHasRow(rows: seq<EpisodeRow>, g: Group, stale: set<nat>, now: int, tiers: set<nat>)
    ensures |InTiers(rows, g, now, tiers)| == 0 ==>
              PositionsAt(rows, g, now, tiers) == {} && OpenAt(rows, g, stale, now, tiers) == {}
  {
    var picked := InTiers(rows, g, now, tiers);
    PickMembers(rows, TierFilter(g, now, tiers));
    forall p | p in PositionsAt(rows, g, now, tiers)
      ensures |picked| > 0
    {
      LatestIs(rows, OnPosition(g, p));
      var r :| r in rows && OnPosition(g, p)(r) && r.lastTimestamp == Latest(rows, OnPosition(g, p)).value;
      assert TierFilter(g, now, tiers)(r);
      assert r in picked;
    }
    forall p | p in OpenAt(rows, g, stale, now, tiers)
      ensures |picked| > 0
    {
      LatestIs(rows, OpenOnPosition(g, stale, p));
      var r :| r in rows && OpenOnPosition(g, stale, p)(r)
               && r.lastTimestamp == Latest(rows, OpenOnPosition(g, stale, p)).value;
      assert TierFilter(g, now, tiers)(r);
      assert r in picked;
    }
  }

  lemma NoRowNoCount(rows: seq<EpisodeRow>, g: Group, stale: set<nat>, now: int, tiers: set<nat>)
    ensures |Pick(rows, TierFilter(g, now, tiers))| == 0 ==>
              |PositionsAt(rows, g, now, tiers)| == 0 && |OpenAt(rows, g, stale, now, tiers)| == 0
  {
    CountedHasRow(rows, g, stale, now, tiers);
    hide PositionsAt, OpenAt, Pick;
  }

  lemma DisjointCount(a: set<nat>, b: set<nat>, c: set<nat>)
    requires a !! b && c == a + b
    ensures |c| == |a| + |b|
  {
  }

  lemma CountsByTier(rows: seq<EpisodeRow>, g: Group, stale: set<nat>, now: int, tiers: set<nat>, t: nat)
    requires t !in tiers
    ensures |PositionsAt(rows, g, now, tiers + {t})|
        == |PositionsAt(rows, g, now, tiers)| + |PositionsAt(rows, g, now, {t})|
    ensures |OpenAt(rows, g, stale, now, tiers + {t})|
        == |OpenAt(rows, g, stale, now, tiers)| + |OpenAt(rows, g, stale, now, {t})|
  {
    PositionsSplit(rows, g, now, tiers, t);
    OpenSplit(rows, g, stale, now, tiers, t);
    hide PositionsAt, OpenAt;
    DisjointCount(PositionsAt(rows, g, now, tiers), PositionsAt(rows, g, now, {t}),
                  PositionsAt(rows, g, now, tiers + {t}));
    DisjointCount(OpenAt(rows, g, stale, now, tiers), OpenAt(rows, g, stale, now, {t}),
                  OpenAt(rows, g, stale, now, tiers + {t}));
  }

  lemma PositionsSplit(rows: seq<EpisodeRow>, g: Group, now: int, tiers: set<nat>, t: nat)
    requires t !in tiers
    ensures PositionsAt(rows, g, now, tiers) !! PositionsAt(rows, g, now, {t})
    ensures PositionsAt(rows, g, now, tiers + {t}) == PositionsAt(rows, g, now, tiers) + PositionsAt(rows, g, now, {t})
  {
    hide Latest, PositionsOf, TierOf, OnPosition;
    forall p
      ensures p in PositionsAt(rows, g, now, tiers + {t})
          <==> p in PositionsAt(rows, g, now, tiers) + PositionsAt(rows, g, now, {t})
      ensures !(p in PositionsAt(rows, g, now, tiers) && p in PositionsAt(rows, g, now, {t}))
    {
    }
  }

  lemma OpenSplit(rows: seq<EpisodeRow>, g: Group, stale: set<nat>, now: int, tiers: set<nat>, t: nat)
    requires t !in tiers
    ensures OpenAt(rows, g, stale, now, tiers) !! OpenAt(rows, g, stale, now, {t})
    ensures OpenAt(rows, g, stale, now, tiers + {t})
        == OpenAt(rows, g, stale, now, tiers) + OpenAt(rows, g, stale, now, {t})
  {
    hide Latest, PositionsOf, TierOf, OpenOnPosition;
    forall p
      ensures p in OpenAt(rows, g, stale, now, tiers + {t})
          <==> p in OpenAt(rows, g, stale, now, tiers) + OpenAt(rows, g, stale, now, {t})
      ensures !(p in OpenAt(rows, g, stale, now, tiers) && p in OpenAt(rows, g, stale, now, {t}))
    {
    }
  }

  lemma MergeIfAny(rows: seq<EpisodeRow>, a: EpisodeRow -> bool, b: EpisodeRow -> bool, c: EpisodeRow -> bool,
                   pa: nat, oa: nat, pb: nat, ob: nat)
    requires Splits(a, b, c)
    requires |Pick(rows, a)| == 0 ==> pa == 0 && oa == 0
    requires |Pick(rows, b)| == 0 ==> pb == 0 && ob == 0
    ensures Summary(Pick(rows, c), pa + pb, oa + ob)
         == if |Pick(rows, b)| == 0 then Summary(Pick(rows, a), pa, oa)
            else MergeActivity(Summary(Pick(rows, a), pa, oa), Summary(Pick(rows, b), pb, ob))
  {
    hide Summary, MergeActivity, Splits, Pick;
    if |Pick(rows, b)| == 0 {
      EmptyPick(rows, a, b, c);
    } else {
      SummariesMerge(rows, a, b, c, pa, oa, pb, ob);
    }
  }

  /** Merging the row of one more tier, if there is one, adds exactly that tier. */
  lemma OneMoreTier(rows: seq<EpisodeRow>, g: Group, stale: set<nat>, now: int, tiers: set<nat>, t: nat)
    requires t !in tiers
    ensures PartialAt(rows, g, stale, now, tiers + {t})
         == if |InTiers(rows, g, now, {t})| == 0 then PartialAt(rows, g, stale, now, tiers)
            else MergeActivity(PartialAt(rows, g, stale, now, tiers), PartialAt(rows, g, stale, now, {t}))
  {
    hide PositionsAt, OpenAt, Summary, MergeActivity, Splits, TierFilter, Pick, AllFalsy, Latest, PositionsOf;
    CountsByTier(rows, g, stale, now, tiers, t);
    NoRowNoCount(rows, g, stale, now, {t});
    NoRowNoCount(rows, g, stale, now, tiers);
    TierSplits(g, now, tiers, t);
    MergeIfAny(rows, TierFilter(g, now, tiers), TierFilter(g, now, {t}), TierFilter(g, now, tiers + {t}),
               |PositionsAt(rows, g, now, tiers)|, |OpenAt(rows, g, stale, now, tiers)|,
               |PositionsAt(rows, g, now, {t})|, |OpenAt(rows, g, stale, now, {t})|);
  }

  lemma TierSplits(g: Group, now: int, tiers: set<nat>, t: nat)
    requires t !in tiers
    ensures Splits(TierFilter(g, now, tiers), TierFilter(g, now, {t}), TierFilter(g, now, tiers + {t}))
  {
    hide Belongs, TierOf;
  }

  /** A part that picks nothing leaves the other part the whole. */
  lemma EmptyPick(rows: seq<EpisodeRow>, a: EpisodeRow -> bool, b: EpisodeRow -> bool, c: EpisodeRow -> bool)
    requires Splits(a, b, c) && |Pick(rows, b)| == 0
    ensures Pick(rows, c) == Pick(rows, a)
  {
    PickMembers(rows, b);
    forall r | r in rows
      ensures a(r) == c(r)
    {
      assert r !in Pick(rows, b);
    }
    PickSame(rows, a, c);
  }
}
