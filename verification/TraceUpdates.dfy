/** The correlation procedure, and why its answers are right whenever it gives any. */
module TraceUpdates {
  import opened Common
  import opened TraceDecoders
  import opened TraceCorrelation

  /** A receipt log of the transaction: its index in the block and its bytes. */
  datatype ReceiptLog = ReceiptLog(index: int, key: LogKey)

  /** An accepted call frame: where it is, the event it emitted, and what it returned. */
  datatype Row = Row(path: Path, key: LogKey, decoded: Decoded)

  function Candidates(logs: seq<LogKey>): seq<LogKey> {
    if |logs| == 0 then [] else (if IsModify(logs[0]) then [logs[0]] else []) + Candidates(logs[1..])
  }

  datatype Verdict = Skip | Accept(row: Row) | Reject

  /** What becomes of one visited frame. */
  function Judge(v: Visit): Verdict {
    if !v.call.selects || !v.call.toManager || v.failed then Skip
    else if !v.call.plain || DecodeCall(v.call).None? || |Candidates(v.logs)| != 1 then Reject
    else
      var decoded, event := DecodeCall(v.call).value, Candidates(v.logs)[0];
      if EventMatches(event, v.call.from, decoded) then Accept(Row(v.path, event, decoded)) else Reject
  }

  /** The accepted frames in walk order; None if any frame is rejected. */
  function RowsOf(vs: seq<Visit>): Option<seq<Row>> {
    if |vs| == 0 then Some([])
    else
      var init, last := RowsOf(vs[..|vs| - 1]), Judge(vs[|vs| - 1]);
      if init.None? || last.Reject? then None
      else if last.Skip? then init
      else Some(init.value + [last.row])
  }

  function RowsWith(rows: seq<Row>, k: LogKey): seq<Row> {
    if |rows| == 0 then []
    else RowsWith(rows[..|rows| - 1], k) + if rows[|rows| - 1].key == k then [rows[|rows| - 1]] else []
  }

  function LogsWith(logs: seq<ReceiptLog>, k: LogKey): seq<ReceiptLog> {
    if |logs| == 0 then []
    else LogsWith(logs[..|logs| - 1], k) + if logs[|logs| - 1].key == k then [logs[|logs| - 1]] else []
  }

  predicate Unnested(rows: seq<Row>) {
    forall i, j :: 0 <= i < j < |rows| ==> !NestedPaths(rows[i].path, rows[j].path)
  }

  // ---------------------------------------------------------------- sorting

  function InsertRow(rows: seq<Row>, r: Row): seq<Row> {
    if |rows| == 0 || !Less(r.path, rows[|rows| - 1].path) then rows + [r]
    else InsertRow(rows[..|rows| - 1], r) + [rows[|rows| - 1]]
  }

  function SortRows(rows: seq<Row>): seq<Row> {
    if |rows| == 0 then [] else InsertRow(SortRows(rows[..|rows| - 1]), rows[|rows| - 1])
  }

  function InsertLog(logs: seq<ReceiptLog>, r: ReceiptLog): seq<ReceiptLog> {
    if |logs| == 0 || logs[|logs| - 1].index <= r.index then logs + [r]
    else InsertLog(logs[..|logs| - 1], r) + [logs[|logs| - 1]]
  }

  function SortLogs(logs: seq<ReceiptLog>): seq<ReceiptLog> {
    if |logs| == 0 then [] else InsertLog(SortLogs(logs[..|logs| - 1]), logs[|logs| - 1])
  }

  predicate LogsSorted(logs: seq<ReceiptLog>) {
    forall i, j :: 0 <= i < j < |logs| ==> logs[i].index < logs[j].index
  }

  predicate DistinctIndexes(logs: seq<ReceiptLog>) {
    forall i, j :: 0 <= i < j < |logs| ==> logs[i].index != logs[j].index
  }

  lemma {:induction false} InsertLogSorted(logs: seq<ReceiptLog>, r: ReceiptLog)
    requires LogsSorted(logs) && forall l :: l in logs ==> l.index != r.index
    ensures LogsSorted(InsertLog(logs, r)) && |InsertLog(logs, r)| == |logs| + 1
    ensures forall l :: l in InsertLog(logs, r) <==> l in logs || l == r
  {
    if |logs| > 0 {
      var init, last := logs[..|logs| - 1], logs[|logs| - 1];
      assert logs == init + [last] && last in logs;
      if last.index > r.index {
        InsertLogSorted(init, r);
        var sorted := InsertLog(init, r);
        forall i | 0 <= i < |sorted|
          ensures sorted[i].index < last.index
        {
          assert sorted[i] in sorted;
        }
      }
    }
  }

  lemma {:induction false} SortLogsSorted(logs: seq<ReceiptLog>)
    requires DistinctIndexes(logs)
    ensures LogsSorted(SortLogs(logs)) && |SortLogs(logs)| == |logs|
    ensures forall l :: l in SortLogs(logs) <==> l in logs
  {
    if |logs| > 0 {
      var init, last := logs[..|logs| - 1], logs[|logs| - 1];
      assert logs == init + [last];
      SortLogsSorted(init);
      forall l | l in SortLogs(init)
        ensures l.index != last.index
      {
        var i :| 0 <= i < |init| && init[i] == l;
        assert logs[i] == l;
      }
      InsertLogSorted(SortLogs(init), last);
    }
  }

  ghost predicate RowsSorted(rows: seq<Row>) {
    forall i, j :: 0 <= i < j < |rows| ==> Less(rows[i].path, rows[j].path)
  }

  /** The walk already delivers the frames in path order. */
  lemma {:induction false} SortRowsKeeps(rows: seq<Row>)
    requires RowsSorted(rows)
    ensures SortRows(rows) == rows
  {
    if |rows| > 0 {
      SortRowsKeeps(rows[..|rows| - 1]);
      if |rows| > 1 {
        var a, b := rows[|rows| - 2].path, rows[|rows| - 1].path;
        if Less(b, a) {
          LessTransitive(a, b, a);
          LessIrreflexive(a);
        }
      }
    }
  }

  // ---------------------------------------------------------------- the procedure

  /** The trace and the receipt fit together: same count of every event, no nested duplicates. */
  ghost predicate Consistent(receipt: seq<ReceiptLog>, rows: seq<Row>) {
    forall k: LogKey | IsModify(k) :: |RowsWith(rows, k)| == |LogsWith(receipt, k)| && Unnested(RowsWith(rows, k))
  }

  lemma {:induction false} SortRowsLength(rows: seq<Row>)
    ensures |SortRows(rows)| == |rows|
  {
    if |rows| > 0 {
      SortRowsLength(rows[..|rows| - 1]);
      InsertRowLength(SortRows(rows[..|rows| - 1]), rows[|rows| - 1]);
    }
  }

  lemma {:induction false} InsertRowLength(rows: seq<Row>, r: Row)
    ensures |InsertRow(rows, r)| == |rows| + 1
  {
    if |rows| > 0 {
      InsertRowLength(rows[..|rows| - 1], r);
    }
  }

  lemma {:induction false} SortLogsLength(logs: seq<ReceiptLog>)
    ensures |SortLogs(logs)| == |logs|
  {
    if |logs| > 0 {
      SortLogsLength(logs[..|logs| - 1]);
      InsertLogLength(SortLogs(logs[..|logs| - 1]), logs[|logs| - 1]);
    }
  }

  lemma {:induction false} InsertLogLength(logs: seq<ReceiptLog>, r: ReceiptLog)
    ensures |InsertLog(logs, r)| == |logs| + 1
  {
    if |logs| > 0 {
      InsertLogLength(logs[..|logs| - 1], r);
    }
  }

  ghost predicate Grouped(groups: map<LogKey, seq<Row>>, rows: seq<Row>) {
    && (forall k :: k in groups <==> RowsWith(rows, k) != [])
    && (forall k :: k in groups ==> groups[k] == RowsWith(rows, k))
  }

  ghost predicate LogsGrouped(groups: map<LogKey, seq<ReceiptLog>>, logs: seq<ReceiptLog>) {
    && (forall k :: k in groups <==> IsModify(k) && LogsWith(logs, k) != [])
    && (forall k :: k in groups ==> groups[k] == LogsWith(logs, k))
  }

  /** Collect the accepted frames by event; None if a frame is rejected. */
  method GroupCalls(vs: seq<Visit>) returns (groups: Option<map<LogKey, seq<Row>>>)
    ensures groups.Some? <==> RowsOf(vs).Some?
    ensures groups.Some? ==> Grouped(groups.value, RowsOf(vs).value)
  {
    hide Judge;
    var found: map<LogKey, seq<Row>> := map[];
    assert vs[..0] == [];
    var i := 0;
    while i < |vs|
      invariant 0 <= i <= |vs| && RowsOf(vs[..i]).Some?
      invariant Grouped(found, RowsOf(vs[..i]).value)
    {
      assert vs[..i + 1][..i] == vs[..i];
      var verdict := Judge(vs[i]);
      if verdict.Reject? {
        RejectedStays(vs, i + 1);
        return None;
      }
      if verdict.Accept? {
        var key := verdict.row.key;
        ghost var rows := RowsOf(vs[..i]).value;
        assert (rows + [verdict.row])[..|rows|] == rows;
        found := found[key := (if key in found then found[key] else []) + [verdict.row]];
      }
      i := i + 1;
    }
    assert vs[..i] == vs;
    return Some(found);
  }

  lemma {:induction false} RejectedStays(vs: seq<Visit>, i: nat)
    requires i <= |vs| && RowsOf(vs[..i]).None?
    ensures RowsOf(vs).None?
    decreases |vs| - i
  {
    if i == |vs| {
      assert vs[..i] == vs;
    } else {
      assert vs[..i + 1][..i] == vs[..i];
      RejectedStays(vs, i + 1);
    }
  }

  method GroupReceipt(receipt: seq<ReceiptLog>) returns (groups: map<LogKey, seq<ReceiptLog>>)
    ensures LogsGrouped(groups, receipt)
  {
    groups := map[];
    var i := 0;
    while i < |receipt|
      invariant 0 <= i <= |receipt|
      invariant LogsGrouped(groups, receipt[..i])
    {
      assert receipt[..i + 1][..i] == receipt[..i];
      var log := receipt[i];
      if IsModify(log.key) {
        groups := groups[log.key := (if log.key in groups then groups[log.key] else []) + [log]];
      }
      i := i + 1;
    }
    assert receipt[..i] == receipt;
  }

  method AnyNested(rows: seq<Row>) returns (nested: bool)
    ensures nested <==> !Unnested(rows)
  {
    var i := 0;
    while i < |rows|
      invariant 0 <= i <= |rows|
      invariant forall a, b :: 0 <= a < i && a < b < |rows| ==> !NestedPaths(rows[a].path, rows[b].path)
    {
      var j := i + 1;
      while j < |rows|
        invariant i < j <= |rows|
        invariant forall b :: i < b < j ==> !NestedPaths(rows[i].path, rows[b].path)
      {
        if NestedPaths(rows[i].path, rows[j].path) {
          return true;
        }
        j := j + 1;
      }
      i := i + 1;
    }
    return false;
  }

  /** The indexes the pairing of one group writes. */
  ghost predicate PairedUpTo(updates: map<int, Decoded>, before: map<int, Decoded>, calls: seq<Row>,
                             logs: seq<ReceiptLog>, n: nat)
    requires n <= |calls| == |logs|
  {
    && (forall i | 0 <= i < n :: logs[i].index in updates && updates[logs[i].index] == calls[i].decoded)
    && (forall x :: x in updates ==> x in before || exists i :: 0 <= i < n && logs[i].index == x)
    && (forall x :: x in before && (forall i :: 0 <= i < n ==> logs[i].index != x) ==>
                    x in updates && updates[x] == before[x])
  }

  method PairGroup(before: map<int, Decoded>, rows: seq<Row>, receipt: seq<ReceiptLog>)
    returns (updates: map<int, Decoded>)
    requires |rows| == |receipt| && DistinctIndexes(receipt)
    ensures |SortRows(rows)| == |SortLogs(receipt)| == |rows|
    ensures PairedUpTo(updates, before, SortRows(rows), SortLogs(receipt), |rows|)
  {
    SortRowsLength(rows);
    SortLogsSorted(receipt);
    var calls, logs := SortRows(rows), SortLogs(receipt);
    hide SortRows, SortLogs, DistinctIndexes, PairedUpTo;
    NothingPaired(before, calls, logs);
    updates := before;
    var i := 0;
    while i < |calls|
      invariant 0 <= i <= |calls|
      invariant PairedUpTo(updates, before, calls, logs, i)
    {
      PairNext(updates, before, calls, logs, i);
      updates := updates[logs[i].index := calls[i].decoded];
      i := i + 1;
    }
  }

  lemma NothingPaired(before: map<int, Decoded>, calls: seq<Row>, logs: seq<ReceiptLog>)
    requires |calls| == |logs|
    ensures PairedUpTo(before, before, calls, logs, 0)
  {
  }

  lemma PairNext(updates: map<int, Decoded>, before: map<int, Decoded>, calls: seq<Row>, logs: seq<ReceiptLog>, i: nat)
    requires i < |calls| == |logs| && DistinctIndexes(logs) && PairedUpTo(updates, before, calls, logs, i)
    ensures PairedUpTo(updates[logs[i].index := calls[i].decoded], before, calls, logs, i + 1)
  {
    var after := updates[logs[i].index := calls[i].decoded];
    forall x | x in after
      ensures x in before || exists j :: 0 <= j < i + 1 && logs[j].index == x
    {
      if x in updates && x !in before {
        var j :| 0 <= j < i && logs[j].index == x;
      } else if x !in before {
        assert logs[i].index == x;
      }
    }
  }

  lemma {:induction false} LogsWithMembers(logs: seq<ReceiptLog>, k: LogKey)
    ensures forall l :: l in LogsWith(logs, k) <==> l in logs && l.key == k
    ensures DistinctIndexes(logs) ==> DistinctIndexes(LogsWith(logs, k))
    decreases |logs|
  {
    if |logs| > 0 {
      var init, last := logs[..|logs| - 1], logs[|logs| - 1];
      assert logs == init + [last];
      LogsWithMembers(init, k);
      if DistinctIndexes(logs) {
        forall l | l in LogsWith(init, k)
          ensures l.index != last.index
        {
          var i :| 0 <= i < |init| && init[i] == l;
          assert logs[i] == l;
        }
        var kept := LogsWith(init, k);
        assert forall i :: 0 <= i < |kept| ==> kept[i] in kept;
      }
    }
  }

  /** The pairing of one event group is in the updates. */
  ghost predicate GroupPaired(updates: map<int, Decoded>, receipt: seq<ReceiptLog>, rows: seq<Row>, k: LogKey) {
    var calls, logs := SortRows(RowsWith(rows, k)), SortLogs(LogsWith(receipt, k));
    |calls| == |logs| && forall i | 0 <= i < |calls| :: logs[i].index in updates
                                                        && updates[logs[i].index] == calls[i].decoded
  }

  ghost predicate OnlyModifyIndexes(updates: map<int, Decoded>, receipt: seq<ReceiptLog>) {
    forall x :: x in updates ==> exists l :: l in receipt && l.index == x && IsModify(l.key)
  }

  lemma SameIndexSameLog(receipt: seq<ReceiptLog>, a: ReceiptLog, b: ReceiptLog)
    requires DistinctIndexes(receipt) && a in receipt && b in receipt && a.index == b.index
    ensures a == b
  {
  }

  lemma DisjointGroups(receipt: seq<ReceiptLog>, k: LogKey, other: LogKey, i: nat, j: nat)
    requires DistinctIndexes(receipt) && k != other
    requires i < |SortLogs(LogsWith(receipt, other))| && j < |SortLogs(LogsWith(receipt, k))|
    ensures SortLogs(LogsWith(receipt, k))[j].index != SortLogs(LogsWith(receipt, other))[i].index
  {
    LogsWithMembers(receipt, k);
    LogsWithMembers(receipt, other);
    SortLogsSorted(LogsWith(receipt, k));
    SortLogsSorted(LogsWith(receipt, other));
    var own, others := SortLogs(LogsWith(receipt, k))[j], SortLogs(LogsWith(receipt, other))[i];
    assert own in SortLogs(LogsWith(receipt, k)) && others in SortLogs(LogsWith(receipt, other));
    if own.index == others.index {
      SameIndexSameLog(receipt, own, others);
    }
  }

  /** Pairing one more group disturbs none of the others. */
  lemma PairKeepsGroups(before: map<int, Decoded>, updates: map<int, Decoded>, receipt: seq<ReceiptLog>, rows: seq<Row>,
                        k: LogKey, other: LogKey)
    requires DistinctIndexes(receipt) && k != other && GroupPaired(before, receipt, rows, other)
    requires |SortRows(RowsWith(rows, k))| == |SortLogs(LogsWith(receipt, k))|
    requires PairedUpTo(updates, before, SortRows(RowsWith(rows, k)), SortLogs(LogsWith(receipt, k)),
                        |SortRows(RowsWith(rows, k))|)
    ensures GroupPaired(updates, receipt, rows, other)
  {
    hide SortRows, SortLogs, RowsWith, LogsWith, DistinctIndexes;
    var own, others := SortLogs(LogsWith(receipt, k)), SortLogs(LogsWith(receipt, other));
    forall i | 0 <= i < |others|
      ensures forall j :: 0 <= j < |own| ==> own[j].index != others[i].index
    {
      forall j | 0 <= j < |own|
        ensures own[j].index != others[i].index
      {
        DisjointGroups(receipt, k, other, i, j);
      }
    }
  }

  lemma PairedGroup(before: map<int, Decoded>, updates: map<int, Decoded>, receipt: seq<ReceiptLog>, rows: seq<Row>,
                    k: LogKey)
    requires DistinctIndexes(receipt) && IsModify(k) && OnlyModifyIndexes(before, receipt)
    requires |SortRows(RowsWith(rows, k))| == |SortLogs(LogsWith(receipt, k))|
    requires PairedUpTo(updates, before, SortRows(RowsWith(rows, k)), SortLogs(LogsWith(receipt, k)),
                        |SortRows(RowsWith(rows, k))|)
    ensures GroupPaired(updates, receipt, rows, k) && OnlyModifyIndexes(updates, receipt)
  {
    LogsWithMembers(receipt, k);
    SortLogsSorted(LogsWith(receipt, k));
    var own := SortLogs(LogsWith(receipt, k));
    hide SortRows, SortLogs, RowsWith, LogsWith, DistinctIndexes;
    forall x | x in updates
      ensures exists l :: l in receipt && l.index == x && IsModify(l.key)
    {
      if i :| 0 <= i < |own| && own[i].index == x {
        assert own[i] in own;
      }
    }
  }

  lemma RowsWithModify(vs: seq<Visit>, k: LogKey)
    requires RowsOf(vs).Some? && RowsWith(RowsOf(vs).value, k) != []
    ensures IsModify(k)
  {
    RowsWithMembers(RowsOf(vs).value, k);
    var r := RowsWith(RowsOf(vs).value, k)[0];
    assert r in RowsWith(RowsOf(vs).value, k);
    var v := RowVisit(vs, r);
  }

  lemma {:induction false} RowsWithMembers(rows: seq<Row>, k: LogKey)
    ensures forall r :: r in RowsWith(rows, k) <==> r in rows && r.key == k
  {
    if |rows| > 0 {
      assert rows == rows[..|rows| - 1] + [rows[|rows| - 1]];
      RowsWithMembers(rows[..|rows| - 1], k);
    }
  }

  /** Every accepted row comes from a visited frame. */
  lemma {:induction false} RowVisit(vs: seq<Visit>, r: Row) returns (v: Visit)
    requires RowsOf(vs).Some? && r in RowsOf(vs).value
    ensures v in vs && Judge(v) == Accept(r) && IsModify(r.key)
  {
    var init, last := vs[..|vs| - 1], vs[|vs| - 1];
    if Judge(last) == Accept(r) {
      v := last;
      CandidatesModify(v.logs);
      assert Candidates(v.logs)[0] in Candidates(v.logs);
    } else {
      v := RowVisit(init, r);
    }
  }

  lemma {:induction false} CandidatesModify(logs: seq<LogKey>)
    ensures forall k :: k in Candidates(logs) <==> k in logs && IsModify(k)
  {
    if |logs| > 0 {
      CandidatesModify(logs[1..]);
    }
  }

  /** Pair every accepted call frame with its receipt log; None where the source raises an error. */
  method Correlate(receipt: seq<ReceiptLog>, trace: Trace) returns (updates: Option<map<int, Decoded>>)
    requires DistinctIndexes(receipt)
    ensures updates.Some? <==>
              var rows := RowsOf(Walk(trace, [], false));
              rows.Some? && Consistent(receipt, rows.value)
    ensures updates.Some? ==>
              && (forall k | IsModify(k) ::
                  GroupPaired(updates.value, receipt, RowsOf(Walk(trace, [], false)).value, k))
              && OnlyModifyIndexes(updates.value, receipt)
  {
    hide RowsOf, Walk, Judge, SortRows, SortLogs, RowsWith, LogsWith, DistinctIndexes, PairedUpTo, Unnested;
    var visits := Walk(trace, [], false);
    var matching := GroupReceipt(receipt);
    var calls := GroupCalls(visits);
    if calls.None? {
      return None;
    }
    ghost var rows := RowsOf(visits).value;
    var found: map<int, Decoded> := map[];
    var todo := calls.value.Keys;
    while todo != {}
      invariant todo <= calls.value.Keys
      invariant OnlyModifyIndexes(found, receipt)
      invariant forall k | k in calls.value && k !in todo ::
        && |RowsWith(rows, k)| == |LogsWith(receipt, k)| && Unnested(RowsWith(rows, k))
        && GroupPaired(found, receipt, rows, k)
      decreases |todo|
    {
      SomeKey(todo);
      var k :| k in todo;
      RowsWithModify(visits, k);
      var group := if k in matching then matching[k] else [];
      if |calls.value[k]| != |group| {
        return None;
      }
      var nested := AnyNested(calls.value[k]);
      if nested {
        return None;
      }
      LogsWithMembers(receipt, k);
      ghost var before := found;
      found := PairGroup(found, calls.value[k], group);
      PairedGroup(before, found, receipt, rows, k);
      forall other | other in calls.value && other !in todo
        ensures GroupPaired(found, receipt, rows, other)
      {
        PairKeepsGroups(before, found, receipt, rows, k, other);
      }
      todo := todo - {k};
    }
    if matching.Keys - calls.value.Keys != {} {
      SomeKey(matching.Keys - calls.value.Keys);
      return None;
    }
    EmptyGroups(matching, calls.value, receipt, rows, found);
    return Some(found);
  }

  lemma SomeKey(s: set<LogKey>)
    ensures s == {} || exists k :: k in s
  {
    if forall k :: k !in s {
      assert s == {};
    }
  }

  lemma EmptyGroups(matching: map<LogKey, seq<ReceiptLog>>, calls: map<LogKey, seq<Row>>, receipt: seq<ReceiptLog>,
                    rows: seq<Row>, found: map<int, Decoded>)
    requires LogsGrouped(matching, receipt) && Grouped(calls, rows) && matching.Keys - calls.Keys == {}
    requires forall k | k in calls ::
               && |RowsWith(rows, k)| == |LogsWith(receipt, k)| && Unnested(RowsWith(rows, k))
               && GroupPaired(found, receipt, rows, k)
    ensures Consistent(receipt, rows)
    ensures forall k | IsModify(k) :: GroupPaired(found, receipt, rows, k)
  {
    hide RowsWith, LogsWith;
    forall k: LogKey | IsModify(k)
      ensures |RowsWith(rows, k)| == |LogsWith(receipt, k)| && Unnested(RowsWith(rows, k))
          && GroupPaired(found, receipt, rows, k)
    {
      if k !in calls {
        assert k !in matching.Keys - calls.Keys;
      }
    }
  }

  // ---------------------------------------------------------------- why the pairing is right

  /** The receipt lists exactly the emitted logs, with indexes that rise in emission order. */
  ghost predicate IsReceiptOf(receipt: seq<ReceiptLog>, es: seq<Emission>, index: seq<int>) {
    && |index| == |es| && DistinctIndexes(receipt)
    && Rising(index)
    && (forall l :: l in receipt ==> exists i :: 0 <= i < |es| && l == ReceiptLog(index[i], es[i].key))
    && (forall i | 0 <= i < |es| :: ReceiptLog(index[i], es[i].key) in receipt)
  }

  ghost predicate Rising(a: seq<int>) {
    forall i, j :: 0 <= i < j < |a| ==> a[i] < a[j]
  }

  /** Rising positions, all among `b` and as many as `b`, are `b`. */
  lemma Increasing(a: seq<int>, b: seq<int>)
    requires |a| == |b| && Rising(a) && Rising(b)
    requires forall i | 0 <= i < |a| :: a[i] in b
    ensures a == b
  {
    hide Rising;
    forall i | 0 <= i < |a|
      ensures a[i] == b[i]
    {
      AtMost(a, b, i);
      AtLeast(a, b, i);
    }
  }

  lemma {:induction false} AtMost(a: seq<int>, b: seq<int>, i: nat)
    requires |a| == |b| && i < |a| && Rising(a) && Rising(b)
    requires forall i | 0 <= i < |a| :: a[i] in b
    ensures a[i] <= b[i]
    decreases |a| - i
  {
    assert a[i] in b;
    var j :| 0 <= j < |b| && b[j] == a[i];
    if j > i {
      AtMost(a, b, i + 1);
    }
  }

  lemma {:induction false} AtLeast(a: seq<int>, b: seq<int>, i: nat)
    requires |a| == |b| && i < |a| && Rising(a) && Rising(b)
    requires forall i | 0 <= i < |a| :: a[i] in b
    ensures b[i] <= a[i]
    decreases i
  {
    assert a[i] in b;
    var j :| 0 <= j < |b| && b[j] == a[i];
    if j < i {
      AtLeast(a, b, i - 1);
    }
  }

  lemma {:induction false} KeysAtPosition(es: seq<Emission>, path: Path, k: LogKey) returns (q: nat)
    requires k in KeysAt(es, path)
    ensures q < |es| && es[q] == Emission(path, k)
  {
    if es[0] == Emission(path, k) {
      q := 0;
    } else {
      var q' := KeysAtPosition(es[1..], path, k);
      q := q' + 1;
    }
  }

  /** Each accepted frame emitted its event somewhere. */
  lemma RowPosition(f: Frame, r: Row) returns (v: Visit, q: nat)
    requires
      var rows := RowsOf(Walk(TraceOf(f), [], false));
      rows.Some? && r in rows.value
    ensures v in Walk(TraceOf(f), [], false) && Judge(v) == Accept(r)
    ensures
      var es := Emitted(f, [], false);
      q < |es| && es[q] == Emission(r.path, r.key)
  {
    var vs := Walk(TraceOf(f), [], false);
    var es := Emitted(f, [], false);
    WalkIsTrue(f, [], false);
    hide Walk, Emitted, RowsOf, TraceOf;
    v := RowVisit(vs, r);
    assert VisitTrue(es, v);
    CandidatesModify(v.logs);
    assert r.key == Candidates(v.logs)[0] && r.key in Candidates(v.logs);
    q := KeysAtPosition(es, v.path, r.key);
  }

  lemma {:induction false} RowsFollowWalk(vs: seq<Visit>)
    requires InPathOrder(vs) && RowsOf(vs).Some?
    ensures RowsSorted(RowsOf(vs).value)
    ensures forall r :: r in RowsOf(vs).value ==> exists v :: v in vs && v.path == r.path
  {
    if |vs| > 0 {
      var init, last := vs[..|vs| - 1], vs[|vs| - 1];
      RowsFollowWalk(init);
      var rows := RowsOf(init).value;
      forall i | 0 <= i < |rows|
        ensures Less(rows[i].path, last.path)
      {
        assert rows[i] in rows;
        var v :| v in init && v.path == rows[i].path;
        var j :| 0 <= j < |init| && init[j] == v;
        assert vs[j] == v;
      }
      assert vs == init + [last];
    }
  }

  lemma {:induction false} RowsWithSorted(rows: seq<Row>, k: LogKey)
    requires RowsSorted(rows)
    ensures RowsSorted(RowsWith(rows, k))
  {
    if |rows| > 0 {
      var init, last := rows[..|rows| - 1], rows[|rows| - 1];
      RowsWithSorted(init, k);
      RowsWithMembers(init, k);
      var kept := RowsWith(init, k);
      forall i | 0 <= i < |kept|
        ensures Less(kept[i].path, last.path)
      {
        assert kept[i] in kept;
        var j :| 0 <= j < |init| && init[j] == kept[i];
        assert rows[j] == kept[i];
      }
    }
  }

  /** Where the frames of one event group emitted it: rising positions, since no two are nested. */
  lemma {:induction false} GroupPositions(f: Frame, calls: seq<Row>) returns (qs: seq<int>)
    requires RowsOf(Walk(TraceOf(f), [], false)).Some?
    requires forall r :: r in calls ==> r in RowsOf(Walk(TraceOf(f), [], false)).value
    requires RowsSorted(calls) && Unnested(calls)
    ensures |qs| == |calls|
    ensures
      var es := Emitted(f, [], false);
      forall i | 0 <= i < |calls| :: 0 <= qs[i] < |es| && es[qs[i]] == Emission(calls[i].path, calls[i].key)
    ensures Rising(qs)
  {
    var es := Emitted(f, [], false);
    EmissionOrder(f, [], false);
    hide Emitted, Walk, RowsOf, TraceOf, NestedPaths;
    qs := [];
    if |calls| > 0 {
      var init, last := calls[..|calls| - 1], calls[|calls| - 1];
      qs := GroupPositions(f, init);
      assert last in calls;
      var _, q := RowPosition(f, last);
      forall i | 0 <= i < |init|
        ensures qs[i] < q
      {
        assert Less(calls[i].path, last.path) && !NestedPaths(calls[i].path, last.path);
        assert es[qs[i]].path == calls[i].path && es[q].path == last.path;
        LessIrreflexive(last.path);
        if q < qs[i] {
          NestedSymmetric(calls[i].path, last.path);
          assert Less(es[q].path, es[qs[i]].path);
          LessTransitive(last.path, calls[i].path, last.path);
        }
      }
      qs := qs + [q];
    }
  }

  lemma NestedSymmetric(a: Path, b: Path)
    ensures NestedPaths(a, b) <==> NestedPaths(b, a)
  {
  }

  /** The positions of an event among the emissions. */
  function PositionsOf(es: seq<Emission>, k: LogKey): seq<int> {
    if |es| == 0 then []
    else PositionsOf(es[..|es| - 1], k) + if es[|es| - 1].key == k then [|es| - 1] else []
  }

  lemma {:induction false} PositionsAre(es: seq<Emission>, k: LogKey)
    ensures forall q :: q in PositionsOf(es, k) <==> 0 <= q < |es| && es[q].key == k
    ensures Rising(PositionsOf(es, k))
  {
    if |es| > 0 {
      var init := es[..|es| - 1];
      PositionsAre(init, k);
      var ps := PositionsOf(init, k);
      assert forall i :: 0 <= i < |ps| ==> ps[i] in ps;
    }
  }

  /** The logs of an event, at the positions where it was emitted. */
  function LogsAt(ps: seq<int>, index: seq<int>, k: LogKey): (logs: seq<ReceiptLog>)
    requires forall i | 0 <= i < |ps| :: 0 <= ps[i] < |index|
    ensures |logs| == |ps|
  {
    seq(|ps|, i requires 0 <= i < |ps| => ReceiptLog(index[ps[i]], k))
  }

  lemma LogIsAtPosition(receipt: seq<ReceiptLog>, es: seq<Emission>, index: seq<int>, k: LogKey, ps: seq<int>,
                        l: ReceiptLog)
    requires IsReceiptOf(receipt, es, index)
    requires forall q :: q in ps <==> 0 <= q < |es| && es[q].key == k
    requires forall i | 0 <= i < |ps| :: 0 <= ps[i] < |index|
    ensures l in LogsAt(ps, index, k) <==> l in receipt && l.key == k
  {
    hide DistinctIndexes, Rising;
    if l in receipt && l.key == k {
      var q :| 0 <= q < |es| && l == ReceiptLog(index[q], es[q].key);
      assert q in ps;
      var i :| 0 <= i < |ps| && ps[i] == q;
      assert LogsAt(ps, index, k)[i] == l;
    }
    if l in LogsAt(ps, index, k) {
      var i :| 0 <= i < |ps| && LogsAt(ps, index, k)[i] == l;
      assert ps[i] in ps;
      assert ReceiptLog(index[ps[i]], es[ps[i]].key) in receipt;
    }
  }

  /** The sorted receipt group lists the emissions of the event in order. */
  lemma GroupIsPositions(receipt: seq<ReceiptLog>, es: seq<Emission>, index: seq<int>, k: LogKey)
    requires IsReceiptOf(receipt, es, index)
    ensures forall i | 0 <= i < |PositionsOf(es, k)| :: 0 <= PositionsOf(es, k)[i] < |es|
    ensures SortLogs(LogsWith(receipt, k)) == LogsAt(PositionsOf(es, k), index, k)
  {
    var logs, ps := SortLogs(LogsWith(receipt, k)), PositionsOf(es, k);
    LogsWithMembers(receipt, k);
    SortLogsSorted(LogsWith(receipt, k));
    PositionsAre(es, k);
    forall i | 0 <= i < |ps|
      ensures 0 <= ps[i] < |es|
    {
      assert ps[i] in ps;
    }
    WantSorted(ps, index, LogsAt(ps, index, k));
    hide SortLogs, LogsWith, PositionsOf, LogsSorted, LogsAt, DistinctIndexes, Rising;
    forall l: ReceiptLog
      ensures l in logs <==> l in LogsAt(ps, index, k)
    {
      LogIsAtPosition(receipt, es, index, k, ps, l);
    }
    hide IsReceiptOf;
    SortedSame(logs, LogsAt(ps, index, k));
  }

  lemma WantSorted(ps: seq<int>, index: seq<int>, want: seq<ReceiptLog>)
    requires Rising(ps) && Rising(index) && |want| == |ps|
    requires forall i | 0 <= i < |ps| :: 0 <= ps[i] < |index| && want[i].index == index[ps[i]]
    ensures LogsSorted(want)
  {
  }

  lemma TailMembers(a: seq<ReceiptLog>)
    requires LogsSorted(a) && |a| > 0
    ensures forall l :: l in a[1..] <==> l in a && a[0].index < l.index
    ensures forall l :: l in a ==> l == a[0] || a[0].index < l.index
    ensures LogsSorted(a[1..])
  {
    assert a == [a[0]] + a[1..];
  }

  lemma FirstIn(a: seq<ReceiptLog>)
    ensures |a| == 0 || a[0] in a
  {
  }

  lemma {:induction false} SortedSame(a: seq<ReceiptLog>, b: seq<ReceiptLog>)
    requires LogsSorted(a) && LogsSorted(b) && forall l :: l in a <==> l in b
    ensures a == b
    decreases |a|
  {
    FirstIn(a);
    FirstIn(b);
    if |a| > 0 && |b| > 0 {
      TailMembers(a);
      TailMembers(b);
      hide LogsSorted;
      assert a[0] in b && b[0] in a;
      SortedSame(a[1..], b[1..]);
      assert a == [a[0]] + a[1..] && b == [b[0]] + b[1..];
    }
  }

  /** An update is what the call at the emitting frame returned. */
  ghost predicate FromEmitter(f: Frame, path: Path, d: Decoded) {
    exists v :: v in Walk(TraceOf(f), [], false) && v.path == path && !v.failed
                && v.call.selects && v.call.toManager && DecodeCall(v.call) == Some(d)
  }

  /**
   Whenever the correlation succeeds, every surviving ModifyLiquidity log gets the return
   values of the very call frame that emitted it, and nothing else gets any.
   */
  lemma CorrelationIsRight(f: Frame, receipt: seq<ReceiptLog>, index: seq<int>, updates: map<int, Decoded>)
    requires IsReceiptOf(receipt, Emitted(f, [], false), index)
    requires
      var rows := RowsOf(Walk(TraceOf(f), [], false));
      && rows.Some? && Consistent(receipt, rows.value)
      && (forall k | IsModify(k) :: GroupPaired(updates, receipt, rows.value, k))
    requires OnlyModifyIndexes(updates, receipt)
    ensures
      var es := Emitted(f, [], false);
      forall i | 0 <= i < |es| && IsModify(es[i].key) ::
        index[i] in updates && FromEmitter(f, es[i].path, updates[index[i]])
    ensures
      var es := Emitted(f, [], false);
      forall x :: x in updates ==> exists i :: 0 <= i < |es| && IsModify(es[i].key) && index[i] == x
  {
    var es := Emitted(f, [], false);
    hide Emitted, Walk, RowsOf, TraceOf, SortRows, SortLogs, RowsWith, LogsWith, FromEmitter;
    forall i | 0 <= i < |es| && IsModify(es[i].key)
      ensures index[i] in updates && FromEmitter(f, es[i].path, updates[index[i]])
    {
      EmissionIsPaired(f, receipt, index, updates, i);
    }
  }

  lemma EmissionIsPaired(f: Frame, receipt: seq<ReceiptLog>, index: seq<int>, updates: map<int, Decoded>, i: nat)
    requires IsReceiptOf(receipt, Emitted(f, [], false), index)
    requires i < |Emitted(f, [], false)| && IsModify(Emitted(f, [], false)[i].key)
    requires
      var k := Emitted(f, [], false)[i].key;
      var rows := RowsOf(Walk(TraceOf(f), [], false));
      && rows.Some? && GroupPaired(updates, receipt, rows.value, k)
      && |RowsWith(rows.value, k)| == |LogsWith(receipt, k)| && Unnested(RowsWith(rows.value, k))
    ensures index[i] in updates && FromEmitter(f, Emitted(f, [], false)[i].path, updates[index[i]])
  {
    var es := Emitted(f, [], false);
    var k := es[i].key;
    var rows := RowsOf(Walk(TraceOf(f), [], false)).value;
    var calls := RowsWith(rows, k);
    WalkInOrder(TraceOf(f), [], false);
    RowsFollowWalk(Walk(TraceOf(f), [], false));
    RowsWithSorted(rows, k);
    RowsWithMembers(rows, k);
    SortRowsKeeps(calls);
    SortLogsLength(LogsWith(receipt, k));
    hide Emitted, Walk, RowsOf, TraceOf, SortRows, SortLogs, RowsWith, LogsWith, Unnested, RowsSorted,
      DistinctIndexes, Rising, PositionsOf;
    var qs := GroupPositions(f, calls);
    var ps := PositionsOf(es, k);
    PositionsAre(es, k);
    GroupIsPositions(receipt, es, index, k);
    forall j | 0 <= j < |qs|
      ensures qs[j] in ps
    {
      assert calls[j] in calls;
    }
    Increasing(qs, ps);
    assert i in ps;
    var j :| 0 <= j < |ps| && ps[j] == i;
    assert calls[j] in calls;
    RowIsEmitter(f, calls[j]);
    assert LogsAt(ps, index, k)[j].index == index[i];
  }

  lemma RowIsEmitter(f: Frame, r: Row)
    requires RowsOf(Walk(TraceOf(f), [], false)).Some? && r in RowsOf(Walk(TraceOf(f), [], false)).value
    ensures FromEmitter(f, r.path, r.decoded)
  {
    var v, _ := RowPosition(f, r);
    hide Walk, RowsOf, TraceOf;
  }
}
