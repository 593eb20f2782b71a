/** SQL aggregates over a sequence of rows, and how they split along a partition. */
module SqlAggregates {
  import opened Common

  function Pick<T>(rows: seq<T>, keep: T -> bool): seq<T> {
    if |rows| == 0 then []
    else
      var init := Pick(rows[..|rows| - 1], keep);
      if keep(rows[|rows| - 1]) then init + [rows[|rows| - 1]] else init
  }

  /** SUM of a condition. */
  function CountOf<T>(rows: seq<T>, p: T -> bool): nat {
    if |rows| == 0 then 0
    else CountOf(rows[..|rows| - 1], p) + if p(rows[|rows| - 1]) then 1 else 0
  }

  /** Add like SUM: NULL contributes nothing, and the sum of nothing but NULL is NULL. */
  function AddNullable(a: Option<real>, b: Option<real>): Option<real> {
    if a.None? then b else if b.None? then a else Some(a.value + b.value)
  }

  function SumOf<T>(rows: seq<T>, value: T -> Option<real>): Option<real> {
    if |rows| == 0 then None
    else AddNullable(SumOf(rows[..|rows| - 1], value), value(rows[|rows| - 1]))
  }

  function MaxOf<T>(rows: seq<T>, value: T -> int): int
    requires |rows| > 0
  {
    var last := value(rows[|rows| - 1]);
    if |rows| == 1 then last else Max(MaxOf(rows[..|rows| - 1], value), last)
  }

  function MinOf<T>(rows: seq<T>, value: T -> int): int
    requires |rows| > 0
  {
    var last := value(rows[|rows| - 1]);
    if |rows| == 1 then last else Min(MinOf(rows[..|rows| - 1], value), last)
  }

  /** MAX is the greatest value of a row. */
  lemma {:induction false} MaxIs<T>(rows: seq<T>, value: T -> int, m: int)
    requires |rows| > 0
    ensures MaxOf(rows, value) == m
        <==> (exists x :: x in rows && value(x) == m) && forall x :: x in rows ==> value(x) <= m
  {
    var init, last := rows[..|rows| - 1], rows[|rows| - 1];
    assert rows == init + [last] && last in rows;
    if |rows| > 1 {
      MaxIs(init, value, MaxOf(init, value));
      var x :| x in init && value(x) == MaxOf(init, value);
      assert x in rows;
    } else {
      assert forall x :: x in rows ==> x == last;
    }
  }

  lemma {:induction false} MinIs<T>(rows: seq<T>, value: T -> int, m: int)
    requires |rows| > 0
    ensures MinOf(rows, value) == m
        <==> (exists x :: x in rows && value(x) == m) && forall x :: x in rows ==> m <= value(x)
  {
    var init, last := rows[..|rows| - 1], rows[|rows| - 1];
    assert rows == init + [last] && last in rows;
    if |rows| > 1 {
      MinIs(init, value, MinOf(init, value));
      var x :| x in init && value(x) == MinOf(init, value);
      assert x in rows;
    } else {
      assert forall x :: x in rows ==> x == last;
    }
  }

  /** `c` keeps what `a` or `b` keeps, and no row is kept by both. */
  ghost predicate Splits<T(!new)>(a: T -> bool, b: T -> bool, c: T -> bool) {
    forall x: T :: (c(x) <==> a(x) || b(x)) && !(a(x) && b(x))
  }

  lemma {:induction false} PickMembers<T>(rows: seq<T>, keep: T -> bool)
    ensures forall x :: x in Pick(rows, keep) <==> x in rows && keep(x)
  {
    if |rows| > 0 {
      PickMembers(rows[..|rows| - 1], keep);
      assert rows == rows[..|rows| - 1] + [rows[|rows| - 1]];
    }
  }

  lemma PickSnoc<T>(rows: seq<T>, keep: T -> bool, p: T -> bool)
    requires |rows| > 0
    ensures
      var init, last := rows[..|rows| - 1], rows[|rows| - 1];
      CountOf(Pick(rows, keep), p) == CountOf(Pick(init, keep), p) + if keep(last) && p(last) then 1 else 0
  {
    var init, last := Pick(rows[..|rows| - 1], keep), rows[|rows| - 1];
    assert (init + [last])[..|init|] == init;
  }

  lemma {:induction false} CountSplits<T(!new)>(rows: seq<T>, a: T -> bool, b: T -> bool, c: T -> bool, p: T -> bool)
    requires Splits(a, b, c)
    ensures CountOf(Pick(rows, c), p) == CountOf(Pick(rows, a), p) + CountOf(Pick(rows, b), p)
  {
    if |rows| > 0 {
      PickSnoc(rows, a, p);
      PickSnoc(rows, b, p);
      PickSnoc(rows, c, p);
      CountSplits(rows[..|rows| - 1], a, b, c, p);
      hide Pick, CountOf;
    }
  }

  lemma AddNullableLaws(a: Option<real>, b: Option<real>, c: Option<real>)
    ensures AddNullable(a, b) == AddNullable(b, a)
    ensures AddNullable(AddNullable(a, b), c) == AddNullable(a, AddNullable(b, c))
  {
  }

  lemma {:induction false} SumSplits<T(!new)>(rows: seq<T>, a: T -> bool, b: T -> bool, c: T -> bool,
                                              value: T -> Option<real>)
    requires Splits(a, b, c)
    ensures SumOf(Pick(rows, c), value) == AddNullable(SumOf(Pick(rows, a), value), SumOf(Pick(rows, b), value))
  {
    if |rows| > 0 {
      SumSplits(rows[..|rows| - 1], a, b, c, value);
      var last := value(rows[|rows| - 1]);
      var sa, sb := SumOf(Pick(rows[..|rows| - 1], a), value), SumOf(Pick(rows[..|rows| - 1], b), value);
      AddNullableLaws(sa, sb, last);
      AddNullableLaws(sa, last, sb);
      AddNullableLaws(sb, last, sa);
    }
  }

  lemma ExtremesSplit<T(!new)>(rows: seq<T>, a: T -> bool, b: T -> bool, c: T -> bool, value: T -> int)
    requires Splits(a, b, c) && |Pick(rows, a)| > 0 && |Pick(rows, b)| > 0
    ensures |Pick(rows, c)| > 0
    ensures MaxOf(Pick(rows, c), value) == Max(MaxOf(Pick(rows, a), value), MaxOf(Pick(rows, b), value))
    ensures MinOf(Pick(rows, c), value) == Min(MinOf(Pick(rows, a), value), MinOf(Pick(rows, b), value))
  {
    var pa, pb, pc := Pick(rows, a), Pick(rows, b), Pick(rows, c);
    PickMembers(rows, a);
    PickMembers(rows, b);
    PickMembers(rows, c);
    assert pa[0] in pa && pa[0] in pc;
    assert forall x :: x in pc <==> x in pa || x in pb;
    hide Pick, Splits;
    MaxIs(pa, value, MaxOf(pa, value));
    MaxIs(pb, value, MaxOf(pb, value));
    MaxIs(pc, value, Max(MaxOf(pa, value), MaxOf(pb, value)));
    MinIs(pa, value, MinOf(pa, value));
    MinIs(pb, value, MinOf(pb, value));
    MinIs(pc, value, Min(MinOf(pa, value), MinOf(pb, value)));
  }

  /** Filters that keep the same rows of the sequence pick the same. */
  lemma {:induction false} PickSame<T>(rows: seq<T>, a: T -> bool, b: T -> bool)
    requires forall x :: x in rows ==> a(x) == b(x)
    ensures Pick(rows, a) == Pick(rows, b)
  {
    if |rows| > 0 {
      assert rows[|rows| - 1] in rows;
      PickSame(rows[..|rows| - 1], a, b);
    }
  }

  lemma {:induction false} PickNone<T>(rows: seq<T>, keep: T -> bool)
    requires forall x :: x in rows ==> !keep(x)
    ensures Pick(rows, keep) == []
  {
    if |rows| > 0 {
      assert rows[|rows| - 1] in rows;
      PickNone(rows[..|rows| - 1], keep);
    }
  }

  lemma {:induction false} CountZero<T>(rows: seq<T>, p: T -> bool)
    ensures CountOf(rows, p) <= |rows|
    ensures CountOf(rows, p) == 0 <==> forall x :: x in rows ==> !p(x)
    ensures CountOf(rows, p) == |rows| <==> forall x :: x in rows ==> p(x)
  {
    if |rows| > 0 {
      CountZero(rows[..|rows| - 1], p);
      assert rows == rows[..|rows| - 1] + [rows[|rows| - 1]];
    }
  }
}
