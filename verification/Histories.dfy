/** The history of a position: its events in chain order, as a function of their set. */
module Histories {
  import opened Common
  import opened PositionModel
  import opened AppendProofs
  import opened EpisodeProofs

  ghost predicate OrdersDistinct(events: set<Event>) {
    forall a, b :: a in events && b in events && a != b ==> a.order != b.order
  }

  ghost predicate IsHistory(events: set<Event>, h: seq<Event>) {
    Sorted(h) && forall e :: e in h <==> e in events
  }

  lemma LatestExists(events: set<Event>) returns (latest: Event)
    requires events != {} && OrdersDistinct(events)
    ensures latest in events && forall e :: e in events && e != latest ==> Before(e.order, latest.order)
  {
    var some :| some in events;
    var rest := events - {some};
    if rest == {} {
      latest := some;
      assert events == {some} + rest;
    } else {
      var other := LatestExists(rest);
      latest := if Before(other.order, some.order) then some else other;
      forall e | e in events && e != latest
        ensures Before(e.order, latest.order)
      {
        assert e == some || e == other || e in rest;
      }
    }
  }

  lemma HistoryExists(events: set<Event>)
    requires OrdersDistinct(events)
    ensures exists h :: IsHistory(events, h)
  {
    if events == {} {
      assert IsHistory(events, []);
    } else {
      var latest := LatestExists(events);
      HistoryExists(events - {latest});
      var h :| IsHistory(events - {latest}, h);
      assert IsHistory(events, h + [latest]) by {
        forall i, j | 0 <= i < j < |h + [latest]|
          ensures Before((h + [latest])[i].order, (h + [latest])[j].order)
        {
          assert h[i] in events;
        }
      }
    }
  }

  lemma HistoryLast(events: set<Event>, h: seq<Event>)
    requires IsHistory(events, h) && |h| > 0
    ensures h[|h| - 1] in events && forall e :: e in events && e != h[|h| - 1] ==> Before(e.order, h[|h| - 1].order)
    ensures IsHistory(events - {h[|h| - 1]}, h[..|h| - 1])
  {
    var last, init := h[|h| - 1], h[..|h| - 1];
    assert last in h;
    forall e | e in events && e != last
      ensures Before(e.order, last.order)
    {
      assert e in h;
    }
    forall e
      ensures e in init <==> e in events - {last}
    {
      if e in init {
        var i :| 0 <= i < |init| && init[i] == e;
        assert h[i] == e && Before(h[i].order, last.order);
      }
      if e in events && e != last {
        assert e in h;
      }
    }
  }

  lemma HistoryEmpty(events: set<Event>, h: seq<Event>)
    requires IsHistory(events, h)
    ensures h == [] <==> events == {}
  {
    if h != [] {
      assert h[0] in h;
    } else {
      assert forall e :: e in events ==> e in h;
    }
  }

  lemma HistoryUnique(events: set<Event>, a: seq<Event>, b: seq<Event>)
    requires IsHistory(events, a) && IsHistory(events, b)
    ensures a == b
    decreases |a|
  {
    HistoryEmpty(events, a);
    HistoryEmpty(events, b);
    if |a| > 0 {
      HistoryLast(events, a);
      HistoryLast(events, b);
      var x, y := a[|a| - 1], b[|b| - 1];
      assert x == y;
      HistoryUnique(events - {x}, a[..|a| - 1], b[..|b| - 1]);
    }
  }

  ghost function Picked(events: map<int, Event>, ids: set<int>): set<Event>
    requires ids <= events.Keys
  {
    set id | id in ids :: events[id]
  }

  /** The canonical event table: events carry their own key, and no two share a chain position. */
  ghost predicate CanonicalTable(events: map<int, Event>) {
    && (forall id :: id in events ==> events[id].id == id)
    && (forall id :: id in events ==> (events[id].protocol.Nft? ==> events[id].kind.Transfer?))
    && (forall a, b :: a in events && b in events && a != b ==> events[a].order != events[b].order)
  }

  lemma PickedDistinct(events: map<int, Event>, ids: set<int>)
    requires CanonicalTable(events) && ids <= events.Keys
    ensures OrdersDistinct(Picked(events, ids))
  {
  }

  /** The events with these ids, in chain order. */
  ghost function History(events: map<int, Event>, ids: set<int>): (h: seq<Event>)
    requires CanonicalTable(events) && ids <= events.Keys
    ensures IsHistory(Picked(events, ids), h)
  {
    PickedDistinct(events, ids);
    HistoryExists(Picked(events, ids));
    var h :| IsHistory(Picked(events, ids), h);
    h
  }

  lemma HistoryIds(events: map<int, Event>, ids: set<int>)
    requires CanonicalTable(events) && ids <= events.Keys
    ensures
      var h := History(events, ids);
      && (forall id :: id in ids ==> events[id] in h)
      && (forall e :: e in h ==> e.id in ids && events[e.id] == e)
      && DistinctIds(h) && WellKinded(h)
      && (h == [] <==> ids == {})
  {
    var h := History(events, ids);
    forall id | id in ids
      ensures events[id] in h
    {
      assert events[id] in Picked(events, ids);
    }
    forall e | e in h
      ensures e.id in ids && events[e.id] == e
    {
      assert e in Picked(events, ids);
    }
    forall i, j | 0 <= i < j < |h|
      ensures h[i].id != h[j].id
    {
      assert h[i] in h && h[j] in h;
      assert Before(h[i].order, h[j].order);
    }
    HistoryEmpty(Picked(events, ids), h);
    if ids != {} {
      var id :| id in ids;
      assert events[id] in Picked(events, ids);
    }
  }

  /** Only the facts of the picked events matter. */
  lemma HistoryFrame(a: map<int, Event>, b: map<int, Event>, ids: set<int>)
    requires CanonicalTable(a) && CanonicalTable(b) && ids <= a.Keys && ids <= b.Keys
    requires forall id :: id in ids ==> a[id] == b[id]
    ensures History(a, ids) == History(b, ids)
  {
    assert Picked(a, ids) == Picked(b, ids);
    HistoryUnique(Picked(a, ids), History(a, ids), History(b, ids));
  }

  /** Events that all come later extend the history at its end. */
  lemma HistoryExtends(events: map<int, Event>, base: set<int>, more: set<int>)
    requires CanonicalTable(events) && base + more <= events.Keys
    requires forall a, b :: a in base && b in more ==> Before(events[a].order, events[b].order)
    ensures History(events, base + more) == History(events, base) + History(events, more)
  {
    var a, b := History(events, base), History(events, more);
    HistoryIds(events, base);
    HistoryIds(events, more);
    var h := a + b;
    assert Sorted(h) by {
      forall i, j | 0 <= i < j < |h|
        ensures Before(h[i].order, h[j].order)
      {
        if i < |a| <= j {
          assert a[i] in a && b[j - |a|] in b;
        }
      }
    }
    forall e
      ensures e in h <==> e in Picked(events, base + more)
    {
      if e in h {
        assert e in a || e in b;
      }
    }
    HistoryUnique(Picked(events, base + more), h, History(events, base + more));
  }
}
