/**
 Pairing call frames with receipt logs. A trace gives each frame its own logs and its own
 calls but not how they interleave; a receipt gives the order of all logs but not their
 frames.
 */
module TraceCorrelation {
  import opened Common
  import opened TraceDecoders

  /** Pool identifiers are hashes of the pool key; distinct keys never collide. */
  datatype PoolId = PoolId(token0: nat, token1: nat, fee: nat, spacing: int, hook: nat)

  /** The emitter, topics and data of a log; only pool manager ModifyLiquidity logs matter. */
  datatype LogKey =
    | ModifyEvent(pool: PoolId, sender: nat, lower: nat, upper: nat, delta: nat, salt: nat)
    | MalformedModify(bytes: nat)
    | OtherLog(bytes: nat)

  predicate IsModify(k: LogKey) {
    !k.OtherLog?
  }

  /** The header of a call: what it targets, and its input and output. */
  datatype Call = Call(selects: bool, toManager: bool, plain: bool, from: nat, args: seq<byte>, output: seq<byte>)

  /** The arguments of a modifyLiquidity call and the balance deltas it returned. */
  datatype Decoded = Decoded(call: ModifyCall, caller: (int, int), fees: (int, int))

  function DecodeCall(c: Call): Option<Decoded> {
    var args := DecodeArgs(c.args);
    if args.None? || |c.output| != 64 then None
    else Some(Decoded(args.value, DecodeBalanceDelta(WordAt(c.output, 0)), DecodeBalanceDelta(WordAt(c.output, 1))))
  }

  predicate EventMatches(k: LogKey, from: nat, d: Decoded) {
    && k.ModifyEvent?
    && k.pool == PoolId(d.call.token0, d.call.token1, d.call.fee, d.call.spacing, d.call.hook)
    && k.sender == from
    && Sint(k.lower, TWO_24 / 2) == Some(d.call.lower)
    && Sint(k.upper, TWO_24 / 2) == Some(d.call.upper)
    && Sint(k.delta, TWO_256 / 2) == Some(d.call.delta)
    && k.salt == d.call.salt
  }

  // ---------------------------------------------------------------- what happened

  /** An execution: a frame emits logs and makes calls in some order. */
  datatype Frame = Frame(call: Call, error: bool, items: Items)
  datatype Items = Done | Emit(key: LogKey, rest: Items) | Nested(frame: Frame, rest: Items)

  type Path = seq<nat>

  /** A log that survived, and the path of the frame that emitted it. */
  datatype Emission = Emission(path: Path, key: LogKey)

  /** The surviving logs of a frame in emission order; a failed frame leaves none. */
  function Emitted(f: Frame, path: Path, failed: bool): seq<Emission> {
    if failed || f.error then [] else EmittedBy(f.items, path, 0)
  }

  function EmittedBy(items: Items, path: Path, next: nat): seq<Emission> {
    match items
    case Done => []
    case Emit(key, rest) => [Emission(path, key)] + EmittedBy(rest, path, next)
    case Nested(frame, rest) => Emitted(frame, path + [next], false) + EmittedBy(rest, path, next + 1)
  }

  // ---------------------------------------------------------------- what the trace shows

  datatype Trace = Trace(call: Call, error: bool, logs: seq<LogKey>, calls: Traces)
  datatype Traces = NoTraces | Traces(head: Trace, tail: Traces)

  function TraceOf(f: Frame): Trace {
    Trace(f.call, f.error, LogsOf(f.items), CallsOf(f.items))
  }

  function LogsOf(items: Items): seq<LogKey> {
    match items
    case Done => []
    case Emit(key, rest) => [key] + LogsOf(rest)
    case Nested(_, rest) => LogsOf(rest)
  }

  function CallsOf(items: Items): Traces {
    match items
    case Done => NoTraces
    case Emit(_, rest) => CallsOf(rest)
    case Nested(frame, rest) => Traces(TraceOf(frame), CallsOf(rest))
  }

  /** One frame of the walk: its path, its trace, and whether it or an ancestor failed. */
  datatype Visit = Visit(path: Path, call: Call, logs: seq<LogKey>, failed: bool)

  /** Depth first, each frame before its calls. */
  function Walk(t: Trace, path: Path, failed: bool): seq<Visit> {
    var fails := failed || t.error;
    [Visit(path, t.call, t.logs, fails)] + WalkCalls(t.calls, path, 0, fails)
  }

  function WalkCalls(ts: Traces, path: Path, next: nat, failed: bool): seq<Visit> {
    match ts
    case NoTraces => []
    case Traces(head, tail) => Walk(head, path + [next], failed) + WalkCalls(tail, path, next + 1, failed)
  }

  // ---------------------------------------------------------------- paths

  predicate IsPrefix(a: Path, b: Path) {
    |a| <= |b| && b[..|a|] == a
  }

  predicate NestedPaths(a: Path, b: Path) {
    IsPrefix(a, b) || IsPrefix(b, a)
  }

  /** Lexicographic order, a prefix first. */
  predicate Less(a: Path, b: Path) {
    if |b| == 0 then false
    else if |a| == 0 then true
    else a[0] < b[0] || (a[0] == b[0] && Less(a[1..], b[1..]))
  }

  lemma {:induction false} LessUnder(p: Path, a: Path, b: Path)
    ensures Less(p + a, p + b) == Less(a, b)
  {
    if |p| > 0 {
      assert (p + a)[1..] == p[1..] + a && (p + b)[1..] == p[1..] + b;
      LessUnder(p[1..], a, b);
    } else {
      assert p + a == a && p + b == b;
    }
  }

  lemma {:induction false} LessTransitive(a: Path, b: Path, c: Path)
    requires Less(a, b) && Less(b, c)
    ensures Less(a, c)
  {
    if |a| > 0 && a[0] == b[0] && b[0] == c[0] {
      LessTransitive(a[1..], b[1..], c[1..]);
    }
  }

  lemma {:induction false} LessIrreflexive(a: Path)
    ensures !Less(a, a)
  {
    if |a| > 0 {
      LessIrreflexive(a[1..]);
    }
  }

  /** A later call of the same frame, and everything below it, comes later. */
  lemma LaterSibling(path: Path, i: nat, j: nat, a: Path, b: Path)
    requires i < j && IsPrefix(path + [i], a) && IsPrefix(path + [j], b)
    ensures Less(a, b) && !NestedPaths(a, b)
  {
    var n := |path|;
    assert a == path + ([i] + a[n + 1..]) && b == path + ([j] + b[n + 1..]) by {
      assert a[..n + 1] == path + [i] && b[..n + 1] == path + [j];
    }
    LessUnder(path, [i] + a[n + 1..], [j] + b[n + 1..]);
    assert a[n] == i && b[n] == j;
  }

  lemma PrefixTrans(a: Path, b: Path, c: Path)
    requires IsPrefix(a, b) && IsPrefix(b, c)
    ensures IsPrefix(a, c)
  {
    assert c[..|a|] == c[..|b|][..|a|];
  }

  lemma PrefixLess(a: Path, b: Path)
    requires IsPrefix(a, b) && a != b
    ensures Less(a, b)
  {
    assert b == a + b[|a|..];
    LessUnder(a, [], b[|a|..]);
    assert a + [] == a;
  }

  // ---------------------------------------------------------------- the walk is in path order

  lemma {:induction false} WalkBelow(t: Trace, path: Path, failed: bool)
    ensures forall v :: v in Walk(t, path, failed) ==> IsPrefix(path, v.path)
  {
    CallsBelow(t.calls, path, 0, failed || t.error);
  }

  /** Visits of a frame's calls from the `next`-th on lie below that call or a later one. */
  lemma {:induction false} CallsBelow(ts: Traces, path: Path, next: nat, failed: bool)
    ensures forall v :: v in WalkCalls(ts, path, next, failed) ==>
                        IsPrefix(path, v.path) && |v.path| > |path| && v.path[|path|] >= next
  {
    match ts
    case NoTraces =>
    case Traces(head, tail) =>
      WalkBelow(head, path + [next], failed);
      CallsBelow(tail, path, next + 1, failed);
      forall v | v in Walk(head, path + [next], failed)
        ensures IsPrefix(path, v.path) && |v.path| > |path| && v.path[|path|] >= next
      {
        PrefixTrans(path, path + [next], v.path);
        assert v.path[..|path| + 1][|path|] == next;
      }
  }

  ghost predicate InPathOrder(vs: seq<Visit>) {
    forall i, j :: 0 <= i < j < |vs| ==> Less(vs[i].path, vs[j].path)
  }

  lemma {:induction false} WalkInOrder(t: Trace, path: Path, failed: bool)
    ensures InPathOrder(Walk(t, path, failed))
  {
    var fails := failed || t.error;
    CallsInOrder(t.calls, path, 0, fails);
    CallsBelow(t.calls, path, 0, fails);
    var rest := WalkCalls(t.calls, path, 0, fails);
    forall j | 0 <= j < |rest|
      ensures Less(path, rest[j].path)
    {
      assert rest[j] in rest;
      PrefixLess(path, rest[j].path);
    }
  }

  lemma {:induction false} CallsInOrder(ts: Traces, path: Path, next: nat, failed: bool)
    ensures InPathOrder(WalkCalls(ts, path, next, failed))
  {
    match ts
    case NoTraces =>
    case Traces(head, tail) =>
      WalkInOrder(head, path + [next], failed);
      CallsInOrder(tail, path, next + 1, failed);
      WalkBelow(head, path + [next], failed);
      CallsBelow(tail, path, next + 1, failed);
      var first, rest := Walk(head, path + [next], failed), WalkCalls(tail, path, next + 1, failed);
      forall i, j | 0 <= i < |first| && 0 <= j < |rest|
        ensures Less(first[i].path, rest[j].path)
      {
        assert first[i] in first && rest[j] in rest;
        BelowSibling(path, rest[j].path);
        LaterSibling(path, next, rest[j].path[|path|], first[i].path, rest[j].path);
      }
  }

  lemma BelowSibling(path: Path, b: Path)
    requires IsPrefix(path, b) && |b| > |path|
    ensures IsPrefix(path + [b[|path|]], b)
  {
    assert b[..|path| + 1] == b[..|path|] + [b[|path|]];
  }

  // ---------------------------------------------------------------- emissions and visits

  lemma {:induction false} EmittedBelow(f: Frame, path: Path, failed: bool)
    ensures forall e :: e in Emitted(f, path, failed) ==> IsPrefix(path, e.path)
  {
    if !(failed || f.error) {
      ItemsBelow(f.items, path, 0);
    }
  }

  lemma {:induction false} ItemsBelow(items: Items, path: Path, next: nat)
    ensures forall e :: e in EmittedBy(items, path, next) ==>
              IsPrefix(path, e.path) && (e.path == path || (|e.path| > |path| && e.path[|path|] >= next))
  {
    match items
    case Done =>
    case Emit(_, rest) => ItemsBelow(rest, path, next);
    case Nested(frame, rest) =>
      EmittedBelow(frame, path + [next], false);
      ItemsBelow(rest, path, next + 1);
      forall e | e in Emitted(frame, path + [next], false)
        ensures IsPrefix(path, e.path) && |e.path| > |path| && e.path[|path|] >= next
      {
        PrefixTrans(path, path + [next], e.path);
        assert e.path[..|path| + 1][|path|] == next;
      }
  }

  /** For frames that are not nested in each other, emission order is path order. */
  ghost predicate OrderIsPaths(es: seq<Emission>) {
    forall i, j :: 0 <= i < j < |es| && !NestedPaths(es[i].path, es[j].path) ==> Less(es[i].path, es[j].path)
  }

  lemma {:induction false} EmissionOrder(f: Frame, path: Path, failed: bool)
    ensures OrderIsPaths(Emitted(f, path, failed))
  {
    if !(failed || f.error) {
      ItemsOrder(f.items, path, 0);
    }
  }

  lemma {:induction false} ItemsOrder(items: Items, path: Path, next: nat)
    ensures OrderIsPaths(EmittedBy(items, path, next))
  {
    match items
    case Done =>
    case Emit(key, rest) =>
      ItemsOrder(rest, path, next);
      ItemsBelow(rest, path, next);
      var es := EmittedBy(rest, path, next);
      assert forall j :: 0 <= j < |es| ==> es[j] in es;
    case Nested(frame, rest) =>
      EmissionOrder(frame, path + [next], false);
      ItemsOrder(rest, path, next + 1);
      EmittedBelow(frame, path + [next], false);
      ItemsBelow(rest, path, next + 1);
      var first, es := Emitted(frame, path + [next], false), EmittedBy(rest, path, next + 1);
      forall i, j | 0 <= i < |first| && 0 <= j < |es| && !NestedPaths(first[i].path, es[j].path)
        ensures Less(first[i].path, es[j].path)
      {
        assert first[i] in first && es[j] in es;
        PrefixTrans(path, path + [next], first[i].path);
        if es[j].path != path {
          BelowSibling(path, es[j].path);
          LaterSibling(path, next, es[j].path[|path|], first[i].path, es[j].path);
        }
      }
  }

  /** The keys a frame emitted, in order. */
  function KeysAt(es: seq<Emission>, path: Path): seq<LogKey> {
    if |es| == 0 then []
    else (if es[0].path == path then [es[0].key] else []) + KeysAt(es[1..], path)
  }

  lemma {:induction false} KeysAtConcat(a: seq<Emission>, b: seq<Emission>, path: Path)
    ensures KeysAt(a + b, path) == KeysAt(a, path) + KeysAt(b, path)
  {
    if |a| == 0 {
      assert a + b == b;
    } else {
      assert (a + b)[1..] == a[1..] + b;
      KeysAtConcat(a[1..], b, path);
    }
  }

  lemma {:induction false} KeysAtElsewhere(es: seq<Emission>, path: Path)
    requires forall e :: e in es ==> e.path != path
    ensures KeysAt(es, path) == []
  {
    if |es| > 0 {
      assert es[0] in es;
      KeysAtElsewhere(es[1..], path);
    }
  }

  /** The trace logs of a frame are exactly the keys it emitted, if it did not fail. */
  ghost predicate VisitTrue(es: seq<Emission>, v: Visit) {
    KeysAt(es, v.path) == if v.failed then [] else v.logs
  }

  lemma {:induction false} WalkIsTrue(f: Frame, path: Path, failed: bool)
    ensures forall v :: v in Walk(TraceOf(f), path, failed) ==> VisitTrue(Emitted(f, path, failed), v)
  {
    var fails := failed || f.error;
    ItemsTrue(f.items, path, 0, fails);
    OwnLogs(f.items, path, 0);
  }

  lemma {:induction false} OwnLogs(items: Items, path: Path, next: nat)
    ensures KeysAt(EmittedBy(items, path, next), path) == LogsOf(items)
  {
    match items
    case Done =>
    case Emit(key, rest) =>
      OwnLogs(rest, path, next);
      KeysAtConcat([Emission(path, key)], EmittedBy(rest, path, next), path);
      assert [Emission(path, key)][1..] == [];
    case Nested(frame, rest) =>
      OwnLogs(rest, path, next + 1);
      EmittedBelow(frame, path + [next], false);
      KeysAtElsewhere(Emitted(frame, path + [next], false), path);
      KeysAtConcat(Emitted(frame, path + [next], false), EmittedBy(rest, path, next + 1), path);
  }

  lemma {:induction false} ItemsTrue(items: Items, path: Path, next: nat, failed: bool)
    ensures forall v :: v in WalkCalls(CallsOf(items), path, next, failed) ==>
              VisitTrue(if failed then [] else EmittedBy(items, path, next), v)
  {
    match items
    case Done =>
    case Emit(key, rest) =>
      ItemsTrue(rest, path, next, failed);
      CallsBelow(CallsOf(rest), path, next, failed);
      forall v | v in WalkCalls(CallsOf(rest), path, next, failed)
        ensures VisitTrue(if failed then [] else EmittedBy(items, path, next), v)
      {
        assert v.path != path;
        KeysAtElsewhere([Emission(path, key)], v.path);
        KeysAtConcat([Emission(path, key)], EmittedBy(rest, path, next), v.path);
      }
    case Nested(frame, rest) =>
      WalkIsTrue(frame, path + [next], failed);
      ItemsTrue(rest, path, next + 1, failed);
      forall v | v in WalkCalls(CallsOf(items), path, next, failed)
        ensures VisitTrue(if failed then [] else EmittedBy(items, path, next), v)
      {
        NestedTrue(frame, rest, path, next, failed, v, WalkCalls(CallsOf(rest), path, next + 1, failed));
      }
  }

  /** Visits below one call see the emissions of that call only. */
  lemma NestedTrue(frame: Frame, rest: Items, path: Path, next: nat, failed: bool, v: Visit, later: seq<Visit>)
    requires forall w :: w in Walk(TraceOf(frame), path + [next], failed) ==>
                         VisitTrue(Emitted(frame, path + [next], failed), w)
    requires later == WalkCalls(CallsOf(rest), path, next + 1, failed)
    requires forall w :: w in later ==> VisitTrue(if failed then [] else EmittedBy(rest, path, next + 1), w)
    requires v in Walk(TraceOf(frame), path + [next], failed) + later
    ensures VisitTrue(if failed then [] else Emitted(frame, path + [next], false) + EmittedBy(rest, path, next + 1), v)
  {
    hide Emitted, EmittedBy, Walk, WalkCalls;
    var first, es := Emitted(frame, path + [next], false), EmittedBy(rest, path, next + 1);
    KeysAtConcat(first, es, v.path);
    if v in Walk(TraceOf(frame), path + [next], failed) {
      WalkBelow(TraceOf(frame), path + [next], failed);
      ItemsBelow(rest, path, next + 1);
      assert v.path[..|path| + 1][|path|] == next;
      KeysAtElsewhere(es, v.path);
      NoneWhenFailed(frame, path + [next]);
    } else {
      CallsBelow(CallsOf(rest), path, next + 1, failed);
      EmittedBelow(frame, path + [next], false);
      forall e | e in first
        ensures e.path != v.path
      {
        assert e.path[..|path| + 1][|path|] == next;
      }
      KeysAtElsewhere(first, v.path);
    }
  }

  lemma NoneWhenFailed(frame: Frame, path: Path)
    ensures Emitted(frame, path, true) == []
  {
  }
}
