/**
 * The engine's private `StatisticsWrapper` of src/analytics-engine.ts: the same
 * reduction as `Statistics` without bounds or end timestamp. It is specified on its own
 * and then shown to be the projection of the `Statistics` reducer, so that every count
 * and error-map property proved there carries over.
 */
module StatisticsWrappers {
  import opened Basics
  import opened ErrorCounts
  import opened Packets
  import opened JsonObject
  import opened Logs
  import opened AnalyticsStatistics

  datatype WrapperSnapshot = WrapperSnapshot(
    timestamp: Time,
    totalRequests: nat, totalMultipartRequests: nat, totalErrors: nat,
    averageHandleTime: Option<real>, averageProcessTime: Option<real>, averageTotalTime: real,
    errorMap: ErrorMap)

  function WFresh(now: Time): WrapperSnapshot {
    WrapperSnapshot(now, 0, 0, 0, None, None, 0.0, map[])
  }

  ghost predicate WConsistent(w: WrapperSnapshot) {
    && w.totalErrors <= w.totalRequests
    && w.totalMultipartRequests <= w.totalRequests
    && MapSum(w.errorMap) == w.totalErrors
    && ((w.averageHandleTime.Some? || w.averageProcessTime.Some?) ==> w.totalMultipartRequests > 0)
  }

  /** `if (!acc) acc = 0; acc += t`. */
  function ResetAdd(acc: Option<real>, t: real): Option<real> {
    Some((if Truthy(acc) then acc.value else 0.0) + t)
  }

  /** One pass of the `buffer.forEach` callback of the wrapper's `fromRequestBuffer`. */
  function WAddPacket(w: WrapperSnapshot, p: Packet): WrapperSnapshot {
    var w1 := w.(
      totalRequests := w.totalRequests + 1,
      averageTotalTime := w.averageTotalTime + p.totalTime,
      totalErrors := if HasError(p) then w.totalErrors + 1 else w.totalErrors,
      errorMap := if HasError(p) then AddCount(w.errorMap, p.error.value, 1) else w.errorMap);
    match p
    case NetworkRequest(_, _) => w1
    case MultipartNetworkRequest(_, handle, processing, _) =>
      w1.(
        averageHandleTime := ResetAdd(w1.averageHandleTime, handle),
        averageProcessTime := ResetAdd(w1.averageProcessTime, processing),
        totalMultipartRequests := w1.totalMultipartRequests + 1)
  }

  function WAddPackets(w: WrapperSnapshot, b: seq<Packet>): WrapperSnapshot {
    if |b| == 0 then w else WAddPacket(WAddPackets(w, Init(b)), Last(b))
  }

  /** The division after either loop; the wrapper keeps no end timestamp. */
  function WAveraged(w: WrapperSnapshot, n: nat, k: nat): WrapperSnapshot
    requires n > 0
    requires Truthy(w.averageHandleTime) || Truthy(w.averageProcessTime) ==> k > 0
  {
    w.(
      averageTotalTime := w.averageTotalTime / (n as real),
      averageHandleTime :=
        if Truthy(w.averageHandleTime) then Some(w.averageHandleTime.value / (k as real)) else w.averageHandleTime,
      averageProcessTime :=
        if Truthy(w.averageProcessTime) then Some(w.averageProcessTime.value / (k as real)) else w.averageProcessTime)
  }

  /** The wrapper's `fromRequestBuffer`. */
  function WFromPackets(w: WrapperSnapshot, b: seq<Packet>): WrapperSnapshot
    requires WConsistent(w)
  {
    if |b| == 0 then w
    else
      WAddPacketsDivisors(w, b);
      var a := WAddPackets(w, b);
      WAveraged(a, a.totalRequests, a.totalMultipartRequests)
  }

  lemma {:induction false} WAddPacketsDivisors(w: WrapperSnapshot, b: seq<Packet>)
    requires WConsistent(w)
    ensures WAddPackets(w, b).totalRequests == w.totalRequests + |b|
    ensures WConsistent(WAddPackets(w, b))
  {
    if |b| > 0 {
      WAddPacketsDivisors(w, Init(b));
      var p := Last(b);
      if HasError(p) {
        MapSumAdd(WAddPackets(w, Init(b)).errorMap, p.error.value, 1);
      }
    }
  }

  /** One pass of the `buffer.forEach` callback of the wrapper's `fromStatisticsBuffer`. */
  function WAddChild(w: WrapperSnapshot, c: WrapperSnapshot): WrapperSnapshot {
    w.(
      totalRequests := w.totalRequests + c.totalRequests,
      totalMultipartRequests := w.totalMultipartRequests + c.totalMultipartRequests,
      totalErrors := w.totalErrors + c.totalErrors,
      errorMap := Merged(w.errorMap, c.errorMap),
      averageTotalTime := w.averageTotalTime + c.averageTotalTime,
      averageHandleTime := MergeSum(w.averageHandleTime, c.averageHandleTime),
      averageProcessTime := MergeSum(w.averageProcessTime, c.averageProcessTime))
  }

  function WAddChildren(w: WrapperSnapshot, cs: seq<WrapperSnapshot>): WrapperSnapshot {
    if |cs| == 0 then w else WAddChild(WAddChildren(w, Init(cs)), Last(cs))
  }

  function WMultipartChildren(cs: seq<WrapperSnapshot>): nat {
    if |cs| == 0 then 0
    else WMultipartChildren(Init(cs)) + (if Last(cs).totalMultipartRequests > 0 then 1 else 0)
  }

  ghost predicate WCanMerge(w: WrapperSnapshot, cs: seq<WrapperSnapshot>) {
    && |cs| > 0
    && WConsistent(w)
    && (forall i :: 0 <= i < |cs| ==> WConsistent(cs[i]))
    && ((w.averageHandleTime.Some? || w.averageProcessTime.Some?) ==> WMultipartChildren(cs) > 0)
  }

  /** The wrapper's `fromStatisticsBuffer`: the timestamp comes from the first child. */
  function WFromChildren(w: WrapperSnapshot, cs: seq<WrapperSnapshot>): WrapperSnapshot
    requires WCanMerge(w, cs)
  {
    var w0 := w.(timestamp := cs[0].timestamp);
    WAddChildrenDivisor(w0, cs);
    WAveraged(WAddChildren(w0, cs), |cs|, WMultipartChildren(cs))
  }

  lemma WAddChildrenDivisor(w: WrapperSnapshot, cs: seq<WrapperSnapshot>)
    requires WCanMerge(w, cs)
    ensures Truthy(WAddChildren(w, cs).averageHandleTime) || Truthy(WAddChildren(w, cs).averageProcessTime)
      ==> WMultipartChildren(cs) > 0
  {
    LiftedCanMerge(w, cs);
    AddChildrenDivisorPositive(Lift(w), Lifts(cs));
    ProjectAddChildren(Lift(w), Lifts(cs));
    ProjectLifts(cs);
    MultipartChildrenProjected(Lifts(cs));
  }

  // ---------------------------------------------------------------- agreement with Statistics

  /** The wrapper's fields of a `Statistics` snapshot. */
  function Project(s: Snapshot): WrapperSnapshot {
    WrapperSnapshot(s.startTimestamp, s.totalRequests, s.totalMultipartRequests, s.totalErrors,
      s.averageHandleTime, s.averageProcessTime, s.averageTotalTime, s.errorMap)
  }

  /** A `Statistics` snapshot with the wrapper's fields and no bounds. */
  function Lift(w: WrapperSnapshot): (s: Snapshot)
    ensures Project(s) == w
  {
    Snapshot(w.timestamp, None, w.totalRequests, w.totalMultipartRequests, w.totalErrors,
      w.averageHandleTime, w.averageProcessTime, w.averageTotalTime,
      None, None, None, None, None, None, w.errorMap)
  }

  function Projects(ss: seq<Snapshot>): (ws: seq<WrapperSnapshot>)
    ensures |ws| == |ss|
    ensures forall i :: 0 <= i < |ss| ==> ws[i] == Project(ss[i])
  {
    if |ss| == 0 then [] else Projects(Init(ss)) + [Project(Last(ss))]
  }

  function Lifts(ws: seq<WrapperSnapshot>): (ss: seq<Snapshot>)
    ensures |ss| == |ws|
    ensures forall i :: 0 <= i < |ws| ==> ss[i] == Lift(ws[i])
  {
    if |ws| == 0 then [] else Lifts(Init(ws)) + [Lift(Last(ws))]
  }

  lemma ProjectLifts(ws: seq<WrapperSnapshot>)
    ensures Projects(Lifts(ws)) == ws
  {
  }

  lemma ProjectConsistent(s: Snapshot)
    ensures Consistent(s) <==> WConsistent(Project(s))
  {
  }

  lemma LiftedCanMerge(w: WrapperSnapshot, cs: seq<WrapperSnapshot>)
    requires WCanMerge(w, cs)
    ensures CanMerge(Lift(w), Lifts(cs))
  {
    ProjectLifts(cs);
    MultipartChildrenProjected(Lifts(cs));
    forall i | 0 <= i < |cs|
      ensures Consistent(Lifts(cs)[i])
    {
      ProjectConsistent(Lifts(cs)[i]);
    }
    ProjectConsistent(Lift(w));
  }

  /** The wrapper's packet step is the projection of the `Statistics` step. */
  lemma {:induction false} ProjectAddPackets(s: Snapshot, b: seq<Packet>)
    ensures Project(AddPackets(s, b)) == WAddPackets(Project(s), b)
  {
    if |b| > 0 {
      ProjectAddPackets(s, Init(b));
    }
  }

  lemma {:induction false} MultipartChildrenProjected(ss: seq<Snapshot>)
    ensures WMultipartChildren(Projects(ss)) == MultipartChildren(ss)
  {
    if |ss| > 0 {
      assert Init(Projects(ss)) == Projects(Init(ss));
      MultipartChildrenProjected(Init(ss));
    }
  }

  lemma ProjectAddChild(s: Snapshot, c: Snapshot)
    ensures Project(AddChild(s, c)) == WAddChild(Project(s), Project(c))
  {
    var m := MergeCounts(s, c);
    assert Project(MergeBounds(m, c)) == Project(m);
  }

  /** The wrapper's child step is the projection of the `Statistics` step. */
  lemma {:induction false} ProjectAddChildren(s: Snapshot, ss: seq<Snapshot>)
    ensures Project(AddChildren(s, ss)) == WAddChildren(Project(s), Projects(ss))
  {
    if |ss| > 0 {
      assert Init(Projects(ss)) == Projects(Init(ss));
      ProjectAddChildren(s, Init(ss));
      ProjectAddChild(AddChildren(s, Init(ss)), Last(ss));
    }
  }

  /** The wrapper's `fromRequestBuffer` is the projection of `Statistics.fromRequestBuffer`. */
  lemma ProjectFromPackets(s: Snapshot, b: seq<Packet>, now: Time)
    requires Consistent(s)
    ensures WConsistent(Project(s))
    ensures Project(FromPackets(s, b, now)) == WFromPackets(Project(s), b)
  {
    ProjectConsistent(s);
    ProjectAddPackets(s, b);
  }

  /** The wrapper's `fromStatisticsBuffer` is the projection of `Statistics.fromStatisticsBuffer`. */
  lemma ProjectFromChildren(s: Snapshot, ss: seq<Snapshot>, now: Time)
    requires CanMerge(s, ss)
    ensures WCanMerge(Project(s), Projects(ss))
    ensures Project(FromChildren(s, ss, now)) == WFromChildren(Project(s), Projects(ss))
  {
    ProjectConsistent(s);
    forall i | 0 <= i < |ss|
      ensures WConsistent(Projects(ss)[i])
    {
      ProjectConsistent(ss[i]);
    }
    MultipartChildrenProjected(ss);
    var s0 := s.(startTimestamp := ss[0].startTimestamp, endTimestamp := Last(ss).endTimestamp);
    ProjectAddChildren(s0, ss);
  }

  // ---------------------------------------------------------------- what the wrapper computes

  function Requests(ws: seq<WrapperSnapshot>): nat {
    if |ws| == 0 then 0 else Requests(Init(ws)) + Last(ws).totalRequests
  }

  function Errors(ws: seq<WrapperSnapshot>): nat {
    if |ws| == 0 then 0 else Errors(Init(ws)) + Last(ws).totalErrors
  }

  function CodeCounts(ws: seq<WrapperSnapshot>, e: int): nat {
    if |ws| == 0 then 0 else CodeCounts(Init(ws), e) + CountOf(Last(ws).errorMap, e)
  }

  lemma {:induction false} ChildSumsLifted(ws: seq<WrapperSnapshot>)
    ensures ChildRequests(Lifts(ws)) == Requests(ws)
    ensures ChildErrors(Lifts(ws)) == Errors(ws)
    ensures forall e :: ChildCodeCount(Lifts(ws), e) == CodeCounts(ws, e)
  {
    if |ws| > 0 {
      assert Init(Lifts(ws)) == Lifts(Init(ws));
      ChildSumsLifted(Init(ws));
    }
  }

  /**
   * A fresh wrapper fed a non-empty batch counts one request per packet, counts every
   * truthy error code as often as it occurs, and ends consistent.
   */
  lemma WrapperPacketsTotals(b: seq<Packet>, now: Time)
    requires |b| > 0
    ensures WConsistent(WFresh(now))
    ensures var r := WFromPackets(WFresh(now), b);
      && r.timestamp == now
      && r.totalRequests == |b|
      && r.totalErrors == ErrorCount(b)
      && (forall e :: CountOf(r.errorMap, e) == CodeCount(b, e))
      && r.averageTotalTime == Mean(TotalTimes(b))
      && WConsistent(r)
  {
    FreshConsistent(now);
    FreshPacketsTotals(b, now, now);
    ProjectFromPackets(Fresh(now), b, now);
    ProjectConsistent(FromPackets(Fresh(now), b, now));
  }

  /**
   * A fresh wrapper merging consistent children takes the first child's timestamp, sums
   * requests, errors and per-code counts, averages the children's total times, and ends
   * consistent.
   */
  lemma WrapperChildrenTotals(cs: seq<WrapperSnapshot>, now: Time)
    requires |cs| > 0 && forall i :: 0 <= i < |cs| ==> WConsistent(cs[i])
    ensures WCanMerge(WFresh(now), cs)
    ensures var r := WFromChildren(WFresh(now), cs);
      && r.timestamp == cs[0].timestamp
      && r.totalRequests == Requests(cs)
      && r.totalErrors == Errors(cs)
      && (forall e :: CountOf(r.errorMap, e) == CodeCounts(cs, e))
      && WConsistent(r)
  {
    var ss := Lifts(cs);
    forall i | 0 <= i < |cs|
      ensures Consistent(ss[i])
    {
      ProjectConsistent(ss[i]);
    }
    FreshCanMerge(ss, now);
    FreshChildrenTotals(ss, now, now);
    FromChildrenConsistent(Fresh(now), ss, now);
    ProjectFromChildren(Fresh(now), ss, now);
    ProjectLifts(cs);
    ProjectConsistent(FromChildren(Fresh(now), ss, now));
    ChildSumsLifted(cs);
  }

  // ---------------------------------------------------------------- export

  /** The record the wrapper's `export` writes: no bounds and no error map. */
  function WExportRecord(w: WrapperSnapshot): LogData
    requires w.totalRequests > 0
  {
    LogData(
      LogOverview(w.totalRequests, w.totalErrors, Fixed2((w.totalErrors as real) / (w.totalRequests as real))),
      LogTimings(
        Fixed2(w.averageTotalTime), None,
        Fixed2(w.averageHandleTime.OrElse(0.0)), None,
        Fixed2(w.averageProcessTime.OrElse(0.0)), None),
      None)
  }

  /** The document a missing log file starts from. */
  function DefaultDocument(): Document {
    [("overview", []), ("hourly", [])]
  }

  /** The in-memory part of the wrapper's `export`. */
  function WExport(w: WrapperSnapshot, existing: Option<Document>, group: string, timeStamp: string): Document {
    WriteEntry(existing.OrElse(DefaultDocument()), group, timeStamp,
      if w.totalRequests <= 0 then None else Some(WExportRecord(w)))
  }

  /**
   * What the wrapper's `export` stores: `null` without traffic, otherwise its record (see
   * `WExportRecordContent`); a missing file yields both the `overview` and the `hourly`
   * group, and the other group is kept.
   */
  lemma WExportStores(w: WrapperSnapshot, existing: Option<Document>, group: string, timeStamp: string)
    requires WConsistent(w)
    ensures var r := WExport(w, existing, group, timeStamp);
      && Lookup(r, group).Some?
      && Lookup(Lookup(r, group).value, timeStamp).Some?
      && (Lookup(Lookup(r, group).value, timeStamp).value.None? <==> w.totalRequests == 0)
      && (w.totalRequests > 0 ==> Lookup(Lookup(r, group).value, timeStamp).value == Some(WExportRecord(w)))
      && (existing.None? ==> Keys(r) == ["overview", "hourly"] || Keys(r) == ["overview", "hourly", group])
      && (forall g :: g != group ==> Lookup(r, g) == Lookup(existing.OrElse(DefaultDocument()), g))
  {
    assert Keys(DefaultDocument()) == ["overview", "hourly"];
  }

  /**
   * The record the wrapper writes for traffic: the counts, the error fraction and the
   * three averages within rounding (a missing handle or processing average as 0), and
   * neither bounds nor an error map.
   */
  lemma WExportRecordContent(w: WrapperSnapshot)
    requires WConsistent(w) && w.totalRequests > 0
    ensures var rec := WExportRecord(w);
      var fraction := (w.totalErrors as real) / (w.totalRequests as real);
      && rec.overview.totalRequests == w.totalRequests
      && rec.overview.totalErrors == w.totalErrors
      && -0.005 <= rec.overview.errorPercentage <= 1.005
      && fraction - 0.005 <= rec.overview.errorPercentage <= fraction + 0.005
      && w.averageTotalTime - 0.005 <= rec.timings.averageTotalTime <= w.averageTotalTime + 0.005
      && w.averageHandleTime.OrElse(0.0) - 0.005 <= rec.timings.averageHandleTime
      && rec.timings.averageHandleTime <= w.averageHandleTime.OrElse(0.0) + 0.005
      && w.averageProcessTime.OrElse(0.0) - 0.005 <= rec.timings.averageProcessTime
      && rec.timings.averageProcessTime <= w.averageProcessTime.OrElse(0.0) + 0.005
      && rec.timings.minMaxTotalTime.None?
      && rec.timings.minMaxHandleTime.None?
      && rec.timings.minMaxProcessTime.None?
      && rec.errorMap.None?
  {
    var e := w.totalErrors as real;
    var d := w.totalRequests as real;
    FractionBounds(e, d);
    Fixed2Close(e / d);
    Fixed2Close(w.averageTotalTime);
    Fixed2Close(w.averageHandleTime.OrElse(0.0));
    Fixed2Close(w.averageProcessTime.OrElse(0.0));
  }

  // ---------------------------------------------------------------- the class

  class StatisticsWrapper {
    var timestamp: Time
    var totalrequests: nat
    var totalMultipartRequests: nat
    var totalErrors: nat
    var averageHandleTime: Option<real>
    var averageProcessTime: Option<real>
    var averageTotalTime: real
    var errorMap: ErrorMap

    function Snap(): WrapperSnapshot
      reads this
    {
      WrapperSnapshot(timestamp, totalrequests, totalMultipartRequests, totalErrors,
        averageHandleTime, averageProcessTime, averageTotalTime, errorMap)
    }

    ghost predicate Valid()
      reads this
    {
      WConsistent(Snap())
    }

    /** `now` stands for the `new Date()` of the timestamp initialiser. */
    constructor(now: Time)
      ensures Valid() && Snap() == WFresh(now)
    {
      timestamp := now;
      totalrequests, totalMultipartRequests, totalErrors := 0, 0, 0;
      averageHandleTime, averageProcessTime, averageTotalTime := None, None, 0.0;
      errorMap := map[];
      new;
      MapSumEmpty(errorMap);
    }

    /** The `forEach` callback of `fromRequestBuffer`, applied to one request. */
    method AddRequest(request: Packet)
      modifies this
      ensures Snap() == WAddPacket(old(Snap()), request)
    {
      totalrequests := totalrequests + 1;
      averageTotalTime := averageTotalTime + request.totalTime;
      if HasError(request) {
        totalErrors := totalErrors + 1;
        errorMap := errorMap[request.error.value := CountOf(errorMap, request.error.value) + 1];
      }
      match request
      case NetworkRequest(_, _) =>
      case MultipartNetworkRequest(_, handle, processing, _) => {
        if !Truthy(averageHandleTime) {
          averageHandleTime := Some(0.0);
        }
        if !Truthy(averageProcessTime) {
          averageProcessTime := Some(0.0);
        }
        totalMultipartRequests := totalMultipartRequests + 1;
        averageHandleTime := Some(averageHandleTime.value + handle);
        averageProcessTime := Some(averageProcessTime.value + processing);
      }
    }

    /** The division that ends both reducers. */
    method ComputeAverages(n: nat, k: nat)
      requires n > 0
      requires Truthy(averageHandleTime) || Truthy(averageProcessTime) ==> k > 0
      modifies this
      ensures Snap() == WAveraged(old(Snap()), n, k)
    {
      averageTotalTime := averageTotalTime / (n as real);
      if Truthy(averageHandleTime) {
        averageHandleTime := Some(averageHandleTime.value / (k as real));
      }
      if Truthy(averageProcessTime) {
        averageProcessTime := Some(averageProcessTime.value / (k as real));
      }
    }

    method FromRequestBuffer(buffer: seq<Packet>)
      requires Valid()
      modifies this
      ensures Valid()
      ensures Snap() == WFromPackets(old(Snap()), buffer)
      ensures |buffer| == 0 ==> Snap() == old(Snap())
    {
      if |buffer| == 0 {
        return;
      }
      ghost var s0 := Snap();
      var i := 0;
      while i < |buffer|
        invariant 0 <= i <= |buffer|
        invariant Snap() == WAddPackets(s0, buffer[..i])
      {
        AddRequest(buffer[i]);
        assert buffer[..i + 1] == buffer[..i] + [buffer[i]];
        i := i + 1;
      }
      assert buffer[..i] == buffer;
      WAddPacketsDivisors(s0, buffer);
      ComputeAverages(totalrequests, totalMultipartRequests);
    }

    /** The `forEach` callback of `fromStatisticsBuffer`, applied to one child. */
    method AddChildStatistics(child: StatisticsWrapper)
      requires child != this
      modifies this
      ensures Snap() == WAddChild(old(Snap()), child.Snap())
    {
      totalrequests := totalrequests + child.totalrequests;
      totalMultipartRequests := totalMultipartRequests + child.totalMultipartRequests;
      totalErrors := totalErrors + child.totalErrors;
      errorMap := AddErrorCounts(errorMap, child.errorMap);
      averageTotalTime := averageTotalTime + child.averageTotalTime;
      averageHandleTime := MergeSum(averageHandleTime, child.averageHandleTime);
      averageProcessTime := MergeSum(averageProcessTime, child.averageProcessTime);
    }

    /** `buffer.forEach(statistics => ...)` of `fromStatisticsBuffer`. */
    method MergeChildren(buffer: seq<StatisticsWrapper>, ghost kids: seq<WrapperSnapshot>)
      requires this !in buffer
      requires Holds(buffer, kids)
      modifies this
      ensures Snap() == WAddChildren(old(Snap()), kids)
    {
      ghost var s0 := Snap();
      var i := 0;
      while i < |buffer|
        invariant 0 <= i <= |buffer|
        invariant Holds(buffer, kids)
        invariant Snap() == WAddChildren(s0, kids[..i])
      {
        AddChildStatistics(buffer[i]);
        assert kids[..i + 1] == kids[..i] + [kids[i]];
        i := i + 1;
      }
      assert kids[..i] == kids;
    }

    /** `kids` are the snapshots of the wrappers in `buffer`. */
    method FromStatisticsBuffer(buffer: seq<StatisticsWrapper>, ghost kids: seq<WrapperSnapshot>)
      requires this !in buffer
      requires Holds(buffer, kids)
      requires WCanMerge(Snap(), kids)
      modifies this
      ensures Valid()
      ensures Snap() == WFromChildren(old(Snap()), kids)
    {
      ghost var old0 := Snap();
      var totalCount := |buffer|;
      var multipartCount := CountMultipart(buffer, kids);
      timestamp := buffer[0].timestamp;
      ghost var s0 := Snap();
      assert s0 == old0.(timestamp := kids[0].timestamp);
      MergeChildren(buffer, kids);
      WAddChildrenDivisor(s0, kids);
      ComputeAverages(totalCount, multipartCount);
      WrapperMergeConsistent(old0, kids);
    }
  }

  /** The wrappers of `buffer` have the snapshots `kids`, in order. */
  ghost predicate Holds(buffer: seq<StatisticsWrapper>, kids: seq<WrapperSnapshot>)
    reads buffer
  {
    |buffer| == |kids| && forall j :: 0 <= j < |buffer| ==> buffer[j].Snap() == kids[j]
  }

  /** `buffer.filter(s => s.totalMultipartRequests > 0).length`. */
  method CountMultipart(buffer: seq<StatisticsWrapper>, ghost kids: seq<WrapperSnapshot>) returns (n: nat)
    requires Holds(buffer, kids)
    ensures n == WMultipartChildren(kids)
  {
    n := 0;
    var i := 0;
    while i < |buffer|
      invariant 0 <= i <= |buffer|
      invariant n == WMultipartChildren(kids[..i])
    {
      assert Init(kids[..i + 1]) == kids[..i];
      if buffer[i].totalMultipartRequests > 0 {
        n := n + 1;
      }
      i := i + 1;
    }
    assert kids[..i] == kids;
  }

  /** A fresh wrapper may merge any non-empty buffer of consistent children. */
  lemma FreshWCanMerge(cs: seq<WrapperSnapshot>, now: Time)
    requires |cs| > 0 && forall i :: 0 <= i < |cs| ==> WConsistent(cs[i])
    ensures WCanMerge(WFresh(now), cs)
  {
    MapSumEmpty(map[]);
  }

  /** Merging consistent children keeps a wrapper consistent. */
  lemma WrapperMergeConsistent(w: WrapperSnapshot, cs: seq<WrapperSnapshot>)
    requires WCanMerge(w, cs)
    ensures WConsistent(WFromChildren(w, cs))
  {
    LiftedCanMerge(w, cs);
    FromChildrenConsistent(Lift(w), Lifts(cs), 0);
    ProjectFromChildren(Lift(w), Lifts(cs), 0);
    ProjectLifts(cs);
    ProjectConsistent(FromChildren(Lift(w), Lifts(cs), 0));
  }
}
