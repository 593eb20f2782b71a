/**
 The listener's window of recent observations, fed row by row and trimmed by an ordered list
 of arrival times, and the search for the sequence to start reading from.
 */
module ObservationWindows {
  import opened Common

  type Hash = nat

  /** What is kept of one event of a transaction. */
  datatype Observation = Observation(index: nat, content: nat, at: int)

  datatype Row = Row(hash: Hash, item: Observation, block: int)

  type Events = map<nat, Observation>

  /** An entry of the order list; lists are kept in this order. */
  datatype Stamp = Stamp(at: int, hash: Hash)

  predicate Leq(a: Stamp, b: Stamp) {
    a.at < b.at || (a.at == b.at && a.hash <= b.hash)
  }

  // ---------------------------------------------------------------- the specification

  /** The last row for each event of each transaction. */
  function LastWrites(rows: seq<Row>): map<(Hash, nat), Observation> {
    if |rows| == 0 then map[]
    else
      var last := rows[|rows| - 1];
      LastWrites(rows[..|rows| - 1])[(last.hash, last.item.index) := last.item]
  }

  /** The latest time of any row, or zero. */
  function LatestMs(rows: seq<Row>): int {
    if |rows| == 0 then 0 else Max(LatestMs(rows[..|rows| - 1]), rows[|rows| - 1].item.at)
  }

  function LatestBlock(rows: seq<Row>): int {
    if |rows| == 0 then 0 else Max(LatestBlock(rows[..|rows| - 1]), rows[|rows| - 1].block)
  }

  /** The last writes that are not older than the window. */
  function InWindow(rows: seq<Row>, windowMs: int): map<(Hash, nat), Observation> {
    map k | k in LastWrites(rows) && LastWrites(rows)[k].at >= LatestMs(rows) - windowMs :: LastWrites(rows)[k]
  }

  // ---------------------------------------------------------------- what is held

  function Held(byHash: map<Hash, Events>, h: Hash, i: nat): Option<Observation> {
    if h in byHash && i in byHash[h] then Some(byHash[h][i]) else None
  }

  ghost predicate Sorted(order: seq<Stamp>) {
    forall i, j :: 0 <= i < j < |order| ==> Leq(order[i], order[j])
  }

  /** Everything held is a last write that the order list will still evict in time. */
  ghost predicate Tracked(byHash: map<Hash, Events>, order: seq<Stamp>, rows: seq<Row>) {
    && Sorted(order)
    && (forall h: Hash, i: nat :: Held(byHash, h, i).Some? ==>
          && (h, i) in LastWrites(rows) && LastWrites(rows)[(h, i)] == Held(byHash, h, i).value
          && Held(byHash, h, i).value.index == i
          && Stamp(Held(byHash, h, i).value.at, h) in order)
    && (forall h :: h in byHash ==> byHash[h] != map[])
  }

  /** Every last write from `cutoff` on is held. */
  ghost predicate CompleteFrom(byHash: map<Hash, Events>, rows: seq<Row>, cutoff: int) {
    forall h: Hash, i: nat :: (h, i) in LastWrites(rows) && LastWrites(rows)[(h, i)].at >= cutoff ==>
                              Held(byHash, h, i).Some?
  }

  /** `bisect.insort`: a binary search for the place after all entries that are not greater. */
  method Insort(order: seq<Stamp>, s: Stamp) returns (r: seq<Stamp>)
    requires Sorted(order)
    ensures Sorted(r) && forall x :: x in r <==> x in order || x == s
  {
    var low, high := 0, |order|;
    while low < high
      invariant 0 <= low <= high <= |order|
      invariant forall i :: 0 <= i < low ==> Leq(order[i], s)
      invariant forall i :: high <= i < |order| ==> !Leq(order[i], s)
      decreases high - low
    {
      var middle := (low + high) / 2;
      if Leq(order[middle], s) {
        low := middle + 1;
      } else {
        high := middle;
      }
    }
    r := order[..low] + [s] + order[low..];
    assert order == order[..low] + order[low..];
  }

  /** `bisect.bisect_left` at the start of a time: how many entries are older. */
  method CountOlder(order: seq<Stamp>, cutoff: int) returns (n: nat)
    requires Sorted(order)
    ensures n <= |order| && forall i :: 0 <= i < n ==> order[i].at < cutoff
    ensures forall i :: n <= i < |order| ==> order[i].at >= cutoff
  {
    var low, high := 0, |order|;
    while low < high
      invariant 0 <= low <= high <= |order|
      invariant forall i :: 0 <= i < low ==> order[i].at < cutoff
      invariant forall i :: high <= i < |order| ==> order[i].at >= cutoff
      decreases high - low
    {
      var middle := (low + high) / 2;
      if order[middle].at < cutoff {
        low := middle + 1;
      } else {
        high := middle;
      }
    }
    n := low;
  }

  function Recent(events: Events, cutoff: int): Events {
    map i | i in events && events[i].at >= cutoff :: events[i]
  }

  class ObservationWindow {
    const windowS: nat
    var byHash: map<Hash, Events>
    var order: seq<Stamp>
    var latestMs: int
    var latestBlock: int
    ghost var rows: seq<Row>

    /** The window holds exactly the recent last writes of all rows ever ingested. */
    ghost predicate Valid()
      reads this
    {
      && Tracked(byHash, order, rows)
      && latestMs == LatestMs(rows) && latestBlock == LatestBlock(rows)
      && CompleteFrom(byHash, rows, latestMs - windowS * 1000)
      && forall h: Hash, i: nat :: Held(byHash, h, i).Some? ==> Held(byHash, h, i).value.at >= latestMs - windowS * 1000
    }

    constructor (windowS: nat)
      ensures Valid() && rows == [] && this.windowS == windowS
    {
      this.windowS := windowS;
      byHash, order, latestMs, latestBlock, rows := map[], [], 0, 0, [];
    }

    /** Take in a batch of rows, then evict whatever has become too old. */
    method Ingest(news: seq<Row>)
      requires Valid()
      modifies this
      ensures Valid() && rows == old(rows) + news
    {
      hide Tracked, CompleteFrom, LastWrites, Recorded, LatestMs, LatestBlock;
      var n := 0;
      while n < |news|
        invariant 0 <= n <= |news| && rows == old(rows) + news[..n]
        invariant Tracked(byHash, order, rows)
        invariant latestMs == LatestMs(rows) && latestBlock == LatestBlock(rows)
        invariant CompleteFrom(byHash, rows, latestMs - windowS * 1000)
      {
        var row := news[n];
        OrderSorted(byHash, order, rows);
        var sorted := Insort(order, Stamp(row.item.at, row.hash));
        WriteKeeps(byHash, order, sorted, rows, row, latestMs - windowS * 1000,
                   Max(latestMs, row.item.at) - windowS * 1000);
        byHash := Recorded(byHash, row);
        order := sorted;
        latestMs := Max(latestMs, row.item.at);
        latestBlock := Max(latestBlock, row.block);
        rows := rows + [row];
        n := n + 1;
      }
      assert news[..n] == news;
      Evict();
    }

    method Evict()
      requires Tracked(byHash, order, rows)
      requires latestMs == LatestMs(rows) && latestBlock == LatestBlock(rows)
      requires CompleteFrom(byHash, rows, latestMs - windowS * 1000)
      modifies this`byHash, this`order
      ensures Valid()
    {
      var cutoff := latestMs - windowS * 1000;
      var keep := CountOlder(order, cutoff);
      var expired, kept := order[..keep], order[keep..];
      ghost var whole := order;
      var n := 0;
      while n < |expired|
        invariant 0 <= n <= |expired| && order == whole
        invariant Tracked(byHash, whole, rows)
        invariant CompleteFrom(byHash, rows, cutoff)
        invariant forall m, i: nat :: 0 <= m < n && Held(byHash, whole[m].hash, i).Some? ==>
          Held(byHash, whole[m].hash, i).value.at >= cutoff
      {
        var h := expired[n].hash;
        TrimKeeps(byHash, whole, rows, cutoff, h);
        if h in byHash {
          var left := Recent(byHash[h], cutoff);
          byHash := if left == map[] then byHash - {h} else byHash[h := left];
        }
        n := n + 1;
      }
      AllTrimmed(byHash, whole, rows, keep, cutoff);
      order := kept;
    }

    /** The observations of a transaction, by event index. */
    method Observations(h: Hash) returns (found: seq<Observation>)
      requires Valid()
      ensures forall i, j :: 0 <= i < j < |found| ==> found[i].index < found[j].index
      ensures
        var window := InWindow(rows, windowS * 1000);
        forall o :: o in found <==> (h, o.index) in window && window[(h, o.index)] == o
    {
      found := [];
      var events := if h in byHash then byHash[h] else map[];
      var todo := events.Keys;
      while todo != {}
        invariant todo <= events.Keys
        invariant forall i, j :: 0 <= i < j < |found| ==> found[i].index < found[j].index
        invariant forall o :: o in found <==> o.index in events && o.index !in todo && events[o.index] == o
        invariant forall o, i :: o in found && i in todo ==> o.index < i
        decreases |todo|
      {
        var least := Smallest(todo);
        assert Held(byHash, h, least).Some?;
        found := found + [events[least]];
        todo := todo - {least};
      }
      HeldIsWindow(byHash, order, rows, windowS * 1000, h);
    }
  }

  method Smallest(s: set<nat>) returns (least: nat)
    requires s != {}
    ensures least in s && forall i :: i in s ==> least <= i
  {
    SomeIndex(s);
    least :| least in s;
    var todo := s - {least};
    while todo != {}
      invariant todo <= s && least in s
      invariant forall i :: i in s ==> i in todo || least <= i
      decreases |todo|
    {
      SomeIndex(todo);
      var i :| i in todo;
      if i < least {
        least := i;
      }
      todo := todo - {i};
    }
  }

  lemma SomeIndex(s: set<nat>)
    ensures s == {} || exists i :: i in s
  {
    if forall i :: i !in s {
      assert s == {};
    }
  }

  lemma OrderSorted(byHash: map<Hash, Events>, order: seq<Stamp>, rows: seq<Row>)
    requires Tracked(byHash, order, rows)
    ensures Sorted(order)
  {
  }

  function Recorded(byHash: map<Hash, Events>, row: Row): map<Hash, Events> {
    var events := if row.hash in byHash then byHash[row.hash] else map[];
    byHash[row.hash := events[row.item.index := row.item]]
  }

  /** Recording one row keeps the window honest; only the eviction is still due. */
  lemma WriteKeeps(byHash: map<Hash, Events>, order: seq<Stamp>, sorted: seq<Stamp>, rows: seq<Row>, row: Row,
                   cutoff: int, later: int)
    requires Tracked(byHash, order, rows) && CompleteFrom(byHash, rows, cutoff) && cutoff <= later
    requires Sorted(sorted) && forall x :: x in sorted <==> x in order || x == Stamp(row.item.at, row.hash)
    ensures Tracked(Recorded(byHash, row), sorted, rows + [row])
    ensures CompleteFrom(Recorded(byHash, row), rows + [row], later)
    ensures LatestMs(rows + [row]) == Max(LatestMs(rows), row.item.at)
    ensures LatestBlock(rows + [row]) == Max(LatestBlock(rows), row.block)
  {
    var all := rows + [row];
    assert all[..|all| - 1] == rows;
    var after := Recorded(byHash, row);
    forall h: Hash, i: nat
      ensures Held(after, h, i) == if h == row.hash && i == row.item.index then Some(row.item) else Held(byHash, h, i)
    {
    }
    assert row.item.index in after[row.hash];
  }

  /** Trimming one transaction to what is recent keeps the window honest. */
  lemma TrimKeeps(byHash: map<Hash, Events>, order: seq<Stamp>, rows: seq<Row>, cutoff: int, h: Hash)
    requires Tracked(byHash, order, rows) && CompleteFrom(byHash, rows, cutoff)
    ensures
      var after :=
        if h !in byHash then byHash
        else if Recent(byHash[h], cutoff) == map[] then byHash - {h}
        else byHash[h := Recent(byHash[h], cutoff)];
      && Tracked(after, order, rows) && CompleteFrom(after, rows, cutoff)
      && (forall g: Hash, i: nat :: Held(after, g, i).Some? ==> Held(byHash, g, i) == Held(after, g, i))
      && (forall i: nat :: Held(after, h, i).Some? ==> Held(after, h, i).value.at >= cutoff)
  {
    var after :=
      if h !in byHash then byHash
      else if Recent(byHash[h], cutoff) == map[] then byHash - {h}
      else byHash[h := Recent(byHash[h], cutoff)];
    hide LastWrites;
    forall g: Hash, i: nat
      ensures Held(after, g, i) ==
        if g == h && Held(byHash, g, i).Some? && Held(byHash, g, i).value.at < cutoff then None else Held(byHash, g, i)
    {
      if g == h && h in byHash && i in byHash[h] && byHash[h][i].at >= cutoff {
        assert i in Recent(byHash[h], cutoff);
      }
    }
  }

  /** Once every expired entry has been handled, nothing old is held. */
  lemma AllTrimmed(byHash: map<Hash, Events>, order: seq<Stamp>, rows: seq<Row>, keep: nat, cutoff: int)
    requires Tracked(byHash, order, rows) && keep <= |order|
    requires forall i :: 0 <= i < keep ==> order[i].at < cutoff
    requires forall i :: keep <= i < |order| ==> order[i].at >= cutoff
    requires forall m, i: nat :: 0 <= m < keep && Held(byHash, order[m].hash, i).Some? ==>
               Held(byHash, order[m].hash, i).value.at >= cutoff
    ensures forall h: Hash, i: nat :: Held(byHash, h, i).Some? ==> Held(byHash, h, i).value.at >= cutoff
    ensures Tracked(byHash, order[keep..], rows)
  {
    hide LastWrites;
    forall h: Hash, i: nat | Held(byHash, h, i).Some?
      ensures Held(byHash, h, i).value.at >= cutoff
      ensures Stamp(Held(byHash, h, i).value.at, h) in order[keep..]
    {
      var stamp := Stamp(Held(byHash, h, i).value.at, h);
      assert stamp in order;
      var x :| 0 <= x < |order| && order[x] == stamp;
      assert x >= keep;
      assert order[keep..][x - keep] == stamp;
    }
  }

  lemma HeldIsWindow(byHash: map<Hash, Events>, order: seq<Stamp>, rows: seq<Row>, windowMs: int, h: Hash)
    requires Tracked(byHash, order, rows) && CompleteFrom(byHash, rows, LatestMs(rows) - windowMs)
    requires forall h: Hash, i: nat :: Held(byHash, h, i).Some? ==>
                                       Held(byHash, h, i).value.at >= LatestMs(rows) - windowMs
    ensures forall i: nat :: Held(byHash, h, i).Some? <==> (h, i) in InWindow(rows, windowMs)
    ensures forall i: nat :: Held(byHash, h, i).Some? ==> InWindow(rows, windowMs)[(h, i)] == Held(byHash, h, i).value
  {
    hide LastWrites, LatestMs;
  }

  // ---------------------------------------------------------------- where to start reading

  /** The stored events of one source: times by sequence number, with gaps. */
  type Times = map<nat, int>

  predicate Nondecreasing(times: Times) {
    forall a, b :: a in times && b in times && a <= b ==> times[a] <= times[b]
  }

  /** The time of the first event from a sequence number on. */
  ghost predicate IsFirstFrom(times: Times, from: nat, first: Option<int>) {
    match first
    case None => forall s :: s in times ==> s < from
    case Some(t) => exists s :: IsFirst(times, from, s) && times[s] == t
  }

  method FirstFrom(times: Times, from: nat) returns (first: Option<int>)
    ensures IsFirstFrom(times, from, first)
  {
    var later := set s | s in times && from <= s;
    if later == {} {
      assert forall s :: s in times && from <= s ==> s in later;
      return None;
    }
    var s := Smallest(later);
    assert forall r :: r in times && from <= r ==> r in later;
    assert IsFirst(times, from, s);
    return Some(times[s]);
  }

  /** The first event from `from` on is older than `since`. */
  ghost predicate StartsOld(times: Times, from: nat, since: int) {
    exists s :: IsFirst(times, from, s) && times[s] < since
  }

  lemma FirstIsUnique(times: Times, from: nat, first: Option<int>, since: int)
    requires IsFirstFrom(times, from, first)
    ensures StartsOld(times, from, since) <==> first.Some? && first.value < since
  {
    if first.Some? {
      var s :| IsFirst(times, from, s) && times[s] == first.value;
      if StartsOld(times, from, since) {
        var x :| IsFirst(times, from, x) && times[x] < since;
        assert x <= s && s <= x;
      }
    }
  }

  /** Event `x` is the first from `from` on. */
  ghost predicate IsFirst(times: Times, from: nat, x: nat) {
    x in times && from <= x && forall r :: r in times && from <= r ==> x <= r
  }

  lemma {:induction false} FirstExists(times: Times, from: nat, s: nat) returns (x: nat)
    requires s in times && from <= s
    ensures IsFirst(times, from, x) && x <= s
    decreases s
  {
    if r :| r in times && from <= r && r < s {
      x := FirstExists(times, from, r);
    } else {
      x := s;
    }
  }

  lemma StartsOldIsDownward(times: Times, a: nat, b: nat, since: int)
    requires Nondecreasing(times) && a <= b && StartsOld(times, b, since)
    ensures StartsOld(times, a, since)
  {
    var s :| IsFirst(times, b, s) && times[s] < since;
    var x := FirstExists(times, a, s);
    assert times[x] <= times[s];
  }

  /**
   The greatest sequence number that an old event is still the first from. With times that do
   not decrease, reading after it misses nothing recent, and every later start would be too late
   to see an old event first.
   */
  method Seek(times: Times, lastSequence: nat, since: int) returns (low: nat)
    ensures low <= lastSequence
    ensures low == 0 || StartsOld(times, low, since)
    ensures Nondecreasing(times) ==> forall s :: s in times && 0 < s <= low ==> times[s] < since
    ensures Nondecreasing(times) ==> forall m: nat :: low < m <= lastSequence ==> !StartsOld(times, m, since)
  {
    low := 0;
    var high := lastSequence;
    while low < high
      invariant 0 <= low <= high <= lastSequence
      invariant low == 0 || StartsOld(times, low, since)
      invariant Nondecreasing(times) ==> forall m: nat :: high < m <= lastSequence ==> !StartsOld(times, m, since)
      decreases high - low
    {
      var middle := (low + high + 1) / 2;
      var first := FirstFrom(times, middle);
      FirstIsUnique(times, middle, first, since);
      if first.Some? && first.value < since {
        low := middle;
      } else {
        forall m: nat | Nondecreasing(times) && middle <= m
          ensures !StartsOld(times, m, since)
        {
          if StartsOld(times, m, since) {
            StartsOldIsDownward(times, middle, m, since);
          }
        }
        high := middle - 1;
      }
    }
    if low > 0 {
      OldBefore(times, low, since);
    }
  }

  lemma OldBefore(times: Times, low: nat, since: int)
    requires StartsOld(times, low, since)
    ensures Nondecreasing(times) ==> forall s :: s in times && s <= low ==> times[s] < since
  {
    var x :| IsFirst(times, low, x) && times[x] < since;
    if Nondecreasing(times) {
      forall s | s in times && s <= low
        ensures times[s] < since
      {
        assert times[s] <= times[x];
      }
    }
  }
}
