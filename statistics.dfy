/**
 * The `Statistics` reducer of src/analytics/statistics.ts: folds a batch of packets, or
 * a batch of child snapshots, into one snapshot; formats it for display and writes it
 * into a log document.
 */
module AnalyticsStatistics {
  import opened Basics
  import opened ErrorCounts
  import opened Packets
  import opened JsonObject
  import opened Logs

  /** Wall-clock instants are opaque inputs. */
  type Time = int

  /** The reducer's fields as a value. Running sums live in the `average*` fields until divided. */
  datatype Snapshot = Snapshot(
    startTimestamp: Time, endTimestamp: Option<Time>,
    totalRequests: nat, totalMultipartRequests: nat, totalErrors: nat,
    averageHandleTime: Option<real>, averageProcessTime: Option<real>, averageTotalTime: real,
    maxTotalTime: Option<real>, minTotalTime: Option<real>,
    maxHandleTime: Option<real>, minHandleTime: Option<real>,
    maxProcessTime: Option<real>, minProcessTime: Option<real>,
    errorMap: ErrorMap)

  /** The field initialisers. */
  function Fresh(now: Time): Snapshot {
    Snapshot(now, None, 0, 0, 0, None, None, 0.0, None, None, None, None, None, None, map[])
  }

  /**
   * What every reachable snapshot satisfies: errors and multipart requests are among the
   * requests, the error map accounts for every error, and a handle or process figure
   * exists only once a multipart request was seen (so no division by zero happens).
   */
  ghost predicate Consistent(s: Snapshot) {
    && s.totalErrors <= s.totalRequests
    && s.totalMultipartRequests <= s.totalRequests
    && MapSum(s.errorMap) == s.totalErrors
    && ((s.averageHandleTime.Some? || s.averageProcessTime.Some?) ==> s.totalMultipartRequests > 0)
  }

  // ---------------------------------------------------------------- packets

  /** The total-time part of one request: count it, add its time, track the extremes. */
  function ObserveTotal(s: Snapshot, t: real): Snapshot {
    s.(
      totalRequests := s.totalRequests + 1,
      averageTotalTime := s.averageTotalTime + t,
      maxTotalTime := RaiseMax(s.maxTotalTime, t),
      minTotalTime := LowerMin(s.minTotalTime, t))
  }

  /** The error part of one request: a truthy code is counted in total and per code. */
  function ObserveError(s: Snapshot, p: Packet): Snapshot {
    if HasError(p) then
      s.(totalErrors := s.totalErrors + 1, errorMap := AddCount(s.errorMap, p.error.value, 1))
    else s
  }

  /** The multipart part of one request: handle and processing times are summed and bounded. */
  function ObserveMultipart(s: Snapshot, p: Packet): Snapshot {
    match p
    case NetworkRequest(_, _) => s
    case MultipartNetworkRequest(_, handle, processing, _) =>
      s.(
        totalMultipartRequests := s.totalMultipartRequests + 1,
        maxHandleTime := RaiseMax(s.maxHandleTime, handle),
        minHandleTime := LowerMin(s.minHandleTime, handle),
        maxProcessTime := RaiseMax(s.maxProcessTime, processing),
        minProcessTime := LowerMin(s.minProcessTime, processing),
        averageHandleTime := Some(s.averageHandleTime.OrElse(0.0) + handle),
        averageProcessTime := Some(s.averageProcessTime.OrElse(0.0) + processing))
  }

  /** One pass of the `buffer.forEach` callback of `fromRequestBuffer`. */
  function AddPacket(s: Snapshot, p: Packet): Snapshot {
    ObserveMultipart(ObserveError(ObserveTotal(s, p.totalTime), p), p)
  }

  function AddPackets(s: Snapshot, b: seq<Packet>): Snapshot {
    if |b| == 0 then s else AddPacket(AddPackets(s, Init(b)), Last(b))
  }

  /**
   * After either loop: the total-time sum is divided by `n`, a non-zero handle or process
   * sum by `k`, and the end timestamp is set.
   */
  function Averaged(s: Snapshot, n: nat, k: nat, now: Time): Snapshot
    requires n > 0
    requires Truthy(s.averageHandleTime) || Truthy(s.averageProcessTime) ==> k > 0
  {
    s.(
      averageTotalTime := s.averageTotalTime / (n as real),
      averageHandleTime :=
        if Truthy(s.averageHandleTime) then Some(s.averageHandleTime.value / (k as real)) else s.averageHandleTime,
      averageProcessTime :=
        if Truthy(s.averageProcessTime) then Some(s.averageProcessTime.value / (k as real)) else s.averageProcessTime,
      endTimestamp := Some(now))
  }

  /** `fromRequestBuffer`: an empty batch leaves the snapshot as it is. */
  function FromPackets(s: Snapshot, b: seq<Packet>, now: Time): Snapshot
    requires Consistent(s)
  {
    if |b| == 0 then s
    else
      AddPacketsCounts(s, b);
      AddPacketsConsistent(s, b);
      var a := AddPackets(s, b);
      Averaged(a, a.totalRequests, a.totalMultipartRequests, now)
  }

  /** Accumulating one packet keeps a snapshot consistent. */
  lemma AddPacketConsistent(s: Snapshot, p: Packet)
    requires Consistent(s)
    ensures Consistent(AddPacket(s, p))
  {
    if HasError(p) {
      MapSumAdd(s.errorMap, p.error.value, 1);
    }
  }

  lemma {:induction false} AddPacketsConsistent(s: Snapshot, b: seq<Packet>)
    requires Consistent(s)
    ensures Consistent(AddPackets(s, b))
  {
    if |b| > 0 {
      AddPacketsConsistent(s, Init(b));
      AddPacketConsistent(AddPackets(s, Init(b)), Last(b));
    }
  }

  /** One request per packet, and the total-time sum covers every packet. */
  lemma {:induction false} AddPacketsCounts(s: Snapshot, b: seq<Packet>)
    ensures AddPackets(s, b).startTimestamp == s.startTimestamp
    ensures AddPackets(s, b).totalRequests == s.totalRequests + |b|
    ensures AddPackets(s, b).averageTotalTime == s.averageTotalTime + Sum(TotalTimes(b))
    ensures AddPackets(s, b).totalMultipartRequests == s.totalMultipartRequests + |Multiparts(b)|
  {
    if |b| > 0 {
      var b', p := Init(b), Last(b);
      AddPacketsCounts(s, b');
      assert TotalTimes(b) == TotalTimes(b') + [p.totalTime];
      SumAppend(TotalTimes(b'), p.totalTime);
    }
  }

  /** The error total and the error map count exactly the truthy error codes of the batch. */
  lemma {:induction false} AddPacketsErrors(s: Snapshot, b: seq<Packet>)
    ensures AddPackets(s, b).totalErrors == s.totalErrors + ErrorCount(b)
    ensures AddPackets(s, b).errorMap.Keys == s.errorMap.Keys + ErrorCodes(b)
    ensures forall e :: CountOf(AddPackets(s, b).errorMap, e) == CountOf(s.errorMap, e) + CodeCount(b, e)
  {
    if |b| > 0 {
      AddPacketsErrors(s, Init(b));
    }
  }

  /** The total-time bounds after accumulating a batch are running extremes over its times. */
  lemma {:induction false} AddPacketsTotalBounds(s: Snapshot, b: seq<Packet>)
    ensures AddPackets(s, b).maxTotalTime == MaxOf(s.maxTotalTime, TotalTimes(b))
    ensures AddPackets(s, b).minTotalTime == MinOf(s.minTotalTime, TotalTimes(b))
  {
    if |b| > 0 {
      AddPacketsTotalBounds(s, Init(b));
      assert Init(TotalTimes(b)) == TotalTimes(Init(b));
    }
  }

  /** The handle and process bounds are running extremes over the multipart packets' times. */
  lemma {:induction false} AddPacketsMultipartBounds(s: Snapshot, b: seq<Packet>)
    ensures AddPackets(s, b).maxHandleTime == MaxOf(s.maxHandleTime, HandleTimes(b))
    ensures AddPackets(s, b).minHandleTime == MinOf(s.minHandleTime, HandleTimes(b))
    ensures AddPackets(s, b).maxProcessTime == MaxOf(s.maxProcessTime, ProcessingTimes(b))
    ensures AddPackets(s, b).minProcessTime == MinOf(s.minProcessTime, ProcessingTimes(b))
  {
    if |b| > 0 {
      var b', p := Init(b), Last(b);
      AddPacketsMultipartBounds(s, b');
      if p.MultipartNetworkRequest? {
        assert Init(HandleTimes(b)) == HandleTimes(b');
        assert Init(ProcessingTimes(b)) == ProcessingTimes(b');
      } else {
        assert HandleTimes(b) == HandleTimes(b');
        assert ProcessingTimes(b) == ProcessingTimes(b');
      }
    }
  }

  /** The handle sum covers exactly the multipart packets. */
  lemma {:induction false} AddPacketsHandleSum(s: Snapshot, b: seq<Packet>)
    ensures |Multiparts(b)| == 0 ==> AddPackets(s, b).averageHandleTime == s.averageHandleTime
    ensures |Multiparts(b)| > 0 ==>
      AddPackets(s, b).averageHandleTime == Some(s.averageHandleTime.OrElse(0.0) + Sum(HandleTimes(b)))
  {
    if |b| > 0 {
      var b', p := Init(b), Last(b);
      AddPacketsHandleSum(s, b');
      if p.MultipartNetworkRequest? {
        assert HandleTimes(b) == HandleTimes(b') + [p.handleTime];
        SumAppend(HandleTimes(b'), p.handleTime);
      } else {
        assert HandleTimes(b) == HandleTimes(b');
      }
    }
  }

  /** The processing sum covers exactly the multipart packets. */
  lemma {:induction false} AddPacketsProcessSum(s: Snapshot, b: seq<Packet>)
    ensures |Multiparts(b)| == 0 ==> AddPackets(s, b).averageProcessTime == s.averageProcessTime
    ensures |Multiparts(b)| > 0 ==>
      AddPackets(s, b).averageProcessTime == Some(s.averageProcessTime.OrElse(0.0) + Sum(ProcessingTimes(b)))
  {
    if |b| > 0 {
      var b', p := Init(b), Last(b);
      AddPacketsProcessSum(s, b');
      if p.MultipartNetworkRequest? {
        assert ProcessingTimes(b) == ProcessingTimes(b') + [p.processingTime];
        SumAppend(ProcessingTimes(b'), p.processingTime);
      } else {
        assert ProcessingTimes(b) == ProcessingTimes(b');
      }
    }
  }

  lemma FreshConsistent(start: Time)
    ensures Consistent(Fresh(start))
  {
    MapSumEmpty(map[]);
  }

  /**
   * On a fresh snapshot and a non-empty batch: one request per packet, the mean total
   * time, and an error map that counts every truthy error code exactly as often as it
   * occurs and sums to the error total.
   */
  lemma FreshPacketsTotals(b: seq<Packet>, start: Time, now: Time)
    requires |b| > 0
    ensures Consistent(Fresh(start))
    ensures var r := FromPackets(Fresh(start), b, now);
      && r.totalRequests == |b|
      && r.averageTotalTime == Mean(TotalTimes(b))
      && r.totalErrors == ErrorCount(b)
      && MapSum(r.errorMap) == r.totalErrors
      && r.errorMap.Keys == ErrorCodes(b)
      && (forall e :: CountOf(r.errorMap, e) == CodeCount(b, e))
      && r.totalMultipartRequests == |Multiparts(b)|
      && r.startTimestamp == start && r.endTimestamp == Some(now)
      && Consistent(r)
  {
    var f := Fresh(start);
    FreshConsistent(start);
    AddPacketsCounts(f, b);
    AddPacketsErrors(f, b);
    AddPacketsConsistent(f, b);
    assert f.errorMap.Keys + ErrorCodes(b) == ErrorCodes(b);
  }

  /** On a fresh snapshot, the total-time bounds enclose every packet and are attained. */
  lemma FreshPacketsTotalBounds(b: seq<Packet>, start: Time, now: Time)
    requires |b| > 0
    ensures Consistent(Fresh(start))
    ensures var r := FromPackets(Fresh(start), b, now);
      && r.minTotalTime.Some? && r.maxTotalTime.Some?
      && (forall i :: 0 <= i < |b| ==> r.minTotalTime.value <= b[i].totalTime <= r.maxTotalTime.value)
      && (exists i :: 0 <= i < |b| && r.maxTotalTime.value == b[i].totalTime)
      && (exists i :: 0 <= i < |b| && r.minTotalTime.value == b[i].totalTime)
  {
    FreshConsistent(start);
    AddPacketsTotalBounds(Fresh(start), b);
    MaxOfBounds(None, TotalTimes(b));
    MinOfBounds(None, TotalTimes(b));
  }

  /** On a fresh snapshot, handle and process figures stay null exactly when no packet is multipart. */
  lemma FreshPacketsMultipartPresence(b: seq<Packet>, start: Time, now: Time)
    requires |b| > 0
    ensures Consistent(Fresh(start))
    ensures var r := FromPackets(Fresh(start), b, now);
      && (|Multiparts(b)| == 0 <==> r.averageHandleTime.None?)
      && (|Multiparts(b)| == 0 <==> r.averageProcessTime.None?)
      && (|Multiparts(b)| == 0 <==> r.minHandleTime.None? && r.maxHandleTime.None?)
      && (|Multiparts(b)| == 0 <==> r.minProcessTime.None? && r.maxProcessTime.None?)
  {
    FreshConsistent(start);
    AddPacketsMultipartBounds(Fresh(start), b);
    AddPacketsHandleSum(Fresh(start), b);
    AddPacketsProcessSum(Fresh(start), b);
    MaxOfBounds(None, HandleTimes(b));
    MinOfBounds(None, HandleTimes(b));
    MaxOfBounds(None, ProcessingTimes(b));
    MinOfBounds(None, ProcessingTimes(b));
  }

  /** On a fresh snapshot with multipart packets, handle and process averages are their means over those packets. */
  lemma FreshPacketsMultipartMeans(b: seq<Packet>, start: Time, now: Time)
    requires |Multiparts(b)| > 0
    ensures Consistent(Fresh(start))
    ensures var r := FromPackets(Fresh(start), b, now);
      && r.averageHandleTime == Some(Mean(HandleTimes(b)))
      && r.averageProcessTime == Some(Mean(ProcessingTimes(b)))
  {
    FreshConsistent(start);
    var a := FreshAverages(b, start, now);
    assert a.averageHandleTime == Some(Sum(HandleTimes(b))) by {
      AddPacketsHandleSum(Fresh(start), b);
    }
    assert a.averageProcessTime == Some(Sum(ProcessingTimes(b))) by {
      AddPacketsProcessSum(Fresh(start), b);
    }
  }

  /** The accumulated snapshot `fromRequestBuffer` divides, for a fresh start. */
  lemma FreshAverages(b: seq<Packet>, start: Time, now: Time) returns (a: Snapshot)
    requires |Multiparts(b)| > 0
    ensures Consistent(Fresh(start))
    ensures a == AddPackets(Fresh(start), b)
    ensures a.totalMultipartRequests == |HandleTimes(b)| == |ProcessingTimes(b)| > 0
    ensures FromPackets(Fresh(start), b, now) == Averaged(a, a.totalRequests, a.totalMultipartRequests, now)
  {
    FreshConsistent(start);
    assert |b| > 0;
    AddPacketsCounts(Fresh(start), b);
    a := AddPackets(Fresh(start), b);
  }

  /** On a fresh snapshot with multipart packets, the handle and process bounds enclose each of their times. */
  lemma FreshPacketsMultipartBounds(b: seq<Packet>, start: Time, now: Time)
    requires |Multiparts(b)| > 0
    ensures Consistent(Fresh(start))
    ensures var r := FromPackets(Fresh(start), b, now);
      && r.minHandleTime.Some? && r.maxHandleTime.Some?
      && r.minProcessTime.Some? && r.maxProcessTime.Some?
      && (forall i :: 0 <= i < |HandleTimes(b)| ==>
            r.minHandleTime.value <= HandleTimes(b)[i] <= r.maxHandleTime.value)
      && (forall i :: 0 <= i < |ProcessingTimes(b)| ==>
            r.minProcessTime.value <= ProcessingTimes(b)[i] <= r.maxProcessTime.value)
  {
    FreshConsistent(start);
    assert |b| > 0;
    AddPacketsMultipartBounds(Fresh(start), b);
    MaxOfBounds(None, HandleTimes(b));
    MinOfBounds(None, HandleTimes(b));
    MaxOfBounds(None, ProcessingTimes(b));
    MinOfBounds(None, ProcessingTimes(b));
  }

  // ---------------------------------------------------------------- child snapshots

  /** `if (child.x) if (child.x > (this.x ?? -Infinity)) this.x = child.x`. */
  function MergeMax(o: Option<real>, c: Option<real>): Option<real> {
    if Truthy(c) then RaiseMax(o, c.value) else o
  }

  function MergeMin(o: Option<real>, c: Option<real>): Option<real> {
    if Truthy(c) then LowerMin(o, c.value) else o
  }

  /** `if (child.avg) { if (!this.avg) this.avg = 0; this.avg += child.avg; }`. */
  function MergeSum(acc: Option<real>, c: Option<real>): Option<real> {
    if Truthy(c) then Some((if Truthy(acc) then acc.value else 0.0) + c.value) else acc
  }

  /** Counts, the error map and the total-time sum of a child are added. */
  function MergeCounts(s: Snapshot, c: Snapshot): Snapshot {
    s.(
      totalRequests := s.totalRequests + c.totalRequests,
      totalMultipartRequests := s.totalMultipartRequests + c.totalMultipartRequests,
      totalErrors := s.totalErrors + c.totalErrors,
      errorMap := Merged(s.errorMap, c.errorMap),
      averageTotalTime := s.averageTotalTime + c.averageTotalTime)
  }

  /** The child's non-zero bounds widen the receiver's. */
  function MergeBounds(s: Snapshot, c: Snapshot): Snapshot {
    s.(
      maxTotalTime := MergeMax(s.maxTotalTime, c.maxTotalTime),
      minTotalTime := MergeMin(s.minTotalTime, c.minTotalTime),
      maxHandleTime := MergeMax(s.maxHandleTime, c.maxHandleTime),
      minHandleTime := MergeMin(s.minHandleTime, c.minHandleTime),
      maxProcessTime := MergeMax(s.maxProcessTime, c.maxProcessTime),
      minProcessTime := MergeMin(s.minProcessTime, c.minProcessTime))
  }

  /** The child's non-zero handle and process averages are added to the receiver's sums. */
  function MergeSums(s: Snapshot, c: Snapshot): Snapshot {
    s.(
      averageHandleTime := MergeSum(s.averageHandleTime, c.averageHandleTime),
      averageProcessTime := MergeSum(s.averageProcessTime, c.averageProcessTime))
  }

  /** One pass of the `buffer.forEach` callback of `fromStatisticsBuffer`. */
  function AddChild(s: Snapshot, c: Snapshot): Snapshot {
    MergeSums(MergeBounds(MergeCounts(s, c), c), c)
  }

  function AddChildren(s: Snapshot, cs: seq<Snapshot>): Snapshot {
    if |cs| == 0 then s else AddChild(AddChildren(s, Init(cs)), Last(cs))
  }

  function ChildRequests(cs: seq<Snapshot>): nat {
    if |cs| == 0 then 0 else ChildRequests(Init(cs)) + Last(cs).totalRequests
  }

  function ChildErrors(cs: seq<Snapshot>): nat {
    if |cs| == 0 then 0 else ChildErrors(Init(cs)) + Last(cs).totalErrors
  }

  function ChildMultiparts(cs: seq<Snapshot>): nat {
    if |cs| == 0 then 0 else ChildMultiparts(Init(cs)) + Last(cs).totalMultipartRequests
  }

  function ChildCodeCount(cs: seq<Snapshot>, e: int): nat {
    if |cs| == 0 then 0 else ChildCodeCount(Init(cs), e) + CountOf(Last(cs).errorMap, e)
  }

  function ChildErrorCodes(cs: seq<Snapshot>): set<int> {
    if |cs| == 0 then {} else ChildErrorCodes(Init(cs)) + Last(cs).errorMap.Keys
  }

  function ChildAverageTotals(cs: seq<Snapshot>): (ts: seq<real>)
    ensures |ts| == |cs|
  {
    seq(|cs|, i requires 0 <= i < |cs| => cs[i].averageTotalTime)
  }

  /** `buffer.filter(s => s.totalMultipartRequests > 0).length`. */
  function MultipartChildren(cs: seq<Snapshot>): nat {
    if |cs| == 0 then 0
    else MultipartChildren(Init(cs)) + (if Last(cs).totalMultipartRequests > 0 then 1 else 0)
  }

  /** The six running-bound fields, named so that one lemma covers them all. */
  datatype Bound = MaxTotal | MinTotal | MaxHandle | MinHandle | MaxProcess | MinProcess {
    predicate IsMax() { this == MaxTotal || this == MaxHandle || this == MaxProcess }
  }

  function BoundOf(s: Snapshot, f: Bound): Option<real> {
    match f
    case MaxTotal => s.maxTotalTime
    case MinTotal => s.minTotalTime
    case MaxHandle => s.maxHandleTime
    case MinHandle => s.minHandleTime
    case MaxProcess => s.maxProcessTime
    case MinProcess => s.minProcessTime
  }

  function BoundsOf(cs: seq<Snapshot>, f: Bound): (xs: seq<Option<real>>)
    ensures |xs| == |cs|
  {
    seq(|cs|, i requires 0 <= i < |cs| => BoundOf(cs[i], f))
  }

  /** A handle or process sum exists after merging exactly when one existed or some child had a non-zero one. */
  lemma {:induction false} AddChildrenSumPresence(s: Snapshot, cs: seq<Snapshot>)
    ensures AddChildren(s, cs).averageHandleTime.Some? <==>
      s.averageHandleTime.Some? || exists i :: 0 <= i < |cs| && Truthy(cs[i].averageHandleTime)
    ensures AddChildren(s, cs).averageProcessTime.Some? <==>
      s.averageProcessTime.Some? || exists i :: 0 <= i < |cs| && Truthy(cs[i].averageProcessTime)
  {
    if |cs| > 0 {
      var cs' := Init(cs);
      assert forall i :: 0 <= i < |cs'| ==> cs'[i] == cs[i];
      AddChildrenSumPresence(s, cs');
    }
  }

  /** A child with multipart requests is counted by `MultipartChildren`. */
  lemma {:induction false} MultipartChildCounted(cs: seq<Snapshot>, i: nat)
    requires i < |cs| && cs[i].totalMultipartRequests > 0
    ensures MultipartChildren(cs) > 0
  {
    if i < |cs| - 1 {
      assert Init(cs)[i] == cs[i];
      MultipartChildCounted(Init(cs), i);
    }
  }

  /** Division by the multipart-child count is only reached when that count is positive. */
  lemma AddChildrenDivisorPositive(s: Snapshot, cs: seq<Snapshot>)
    requires forall i :: 0 <= i < |cs| ==> Consistent(cs[i])
    requires (s.averageHandleTime.Some? || s.averageProcessTime.Some?) ==> MultipartChildren(cs) > 0
    ensures Truthy(AddChildren(s, cs).averageHandleTime) || Truthy(AddChildren(s, cs).averageProcessTime)
      ==> MultipartChildren(cs) > 0
  {
    AddChildrenSumPresence(s, cs);
    if exists i :: 0 <= i < |cs| && (Truthy(cs[i].averageHandleTime) || Truthy(cs[i].averageProcessTime)) {
      var i :| 0 <= i < |cs| && (Truthy(cs[i].averageHandleTime) || Truthy(cs[i].averageProcessTime));
      MultipartChildCounted(cs, i);
    }
  }

  /** Merging one consistent child keeps a snapshot consistent. */
  lemma AddChildConsistent(s: Snapshot, c: Snapshot)
    requires Consistent(s) && Consistent(c)
    ensures Consistent(AddChild(s, c))
  {
    MapSumMerged(s.errorMap, c.errorMap);
  }

  lemma {:induction false} AddChildrenConsistent(s: Snapshot, cs: seq<Snapshot>)
    requires Consistent(s) && forall i :: 0 <= i < |cs| ==> Consistent(cs[i])
    ensures Consistent(AddChildren(s, cs))
  {
    if |cs| > 0 {
      assert forall i :: 0 <= i < |Init(cs)| ==> Init(cs)[i] == cs[i];
      AddChildrenConsistent(s, Init(cs));
      AddChildConsistent(AddChildren(s, Init(cs)), Last(cs));
    }
  }

  /** Request, error and multipart counts and the total-time sums add up over the children. */
  lemma {:induction false} AddChildrenCounts(s: Snapshot, cs: seq<Snapshot>)
    ensures AddChildren(s, cs).startTimestamp == s.startTimestamp
    ensures AddChildren(s, cs).totalRequests == s.totalRequests + ChildRequests(cs)
    ensures AddChildren(s, cs).totalErrors == s.totalErrors + ChildErrors(cs)
    ensures AddChildren(s, cs).totalMultipartRequests == s.totalMultipartRequests + ChildMultiparts(cs)
    ensures AddChildren(s, cs).averageTotalTime == s.averageTotalTime + Sum(ChildAverageTotals(cs))
  {
    if |cs| > 0 {
      var cs', c := Init(cs), Last(cs);
      AddChildrenCounts(s, cs');
      assert ChildAverageTotals(cs) == ChildAverageTotals(cs') + [c.averageTotalTime];
      SumAppend(ChildAverageTotals(cs'), c.averageTotalTime);
    }
  }

  /** The merged error map is the pointwise sum of the children's maps. */
  lemma {:induction false} AddChildrenErrors(s: Snapshot, cs: seq<Snapshot>)
    ensures AddChildren(s, cs).errorMap.Keys == s.errorMap.Keys + ChildErrorCodes(cs)
    ensures forall e :: CountOf(AddChildren(s, cs).errorMap, e) == CountOf(s.errorMap, e) + ChildCodeCount(cs, e)
  {
    if |cs| > 0 {
      AddChildrenErrors(s, Init(cs));
    }
  }

  /** Every bound field after merging is the running extreme over the truthy child bounds. */
  lemma {:induction false} AddChildrenBounds(s: Snapshot, cs: seq<Snapshot>, f: Bound)
    ensures f.IsMax() ==> BoundOf(AddChildren(s, cs), f) == MaxOf(BoundOf(s, f), TruthyValues(BoundsOf(cs, f)))
    ensures !f.IsMax() ==> BoundOf(AddChildren(s, cs), f) == MinOf(BoundOf(s, f), TruthyValues(BoundsOf(cs, f)))
  {
    if |cs| > 0 {
      var cs' := Init(cs);
      AddChildrenBounds(s, cs', f);
      assert Init(BoundsOf(cs, f)) == BoundsOf(cs', f);
      var c := Last(BoundsOf(cs, f));
      if Truthy(c) {
        assert Init(TruthyValues(BoundsOf(cs, f))) == TruthyValues(BoundsOf(cs', f));
      } else {
        assert TruthyValues(BoundsOf(cs, f)) == TruthyValues(BoundsOf(cs', f));
      }
    }
  }

  /** The precondition `fromStatisticsBuffer` needs to stay clear of a division by zero. */
  ghost predicate CanMerge(s: Snapshot, cs: seq<Snapshot>) {
    && |cs| > 0
    && Consistent(s)
    && (forall i :: 0 <= i < |cs| ==> Consistent(cs[i]))
    && ((s.averageHandleTime.Some? || s.averageProcessTime.Some?) ==> MultipartChildren(cs) > 0)
  }

  /**
   * `fromStatisticsBuffer`: timestamps come from the first and last child, counts and
   * sums are accumulated, then the total average is divided by the number of children
   * and the handle and process averages by the number of children with multipart requests.
   */
  function FromChildren(s: Snapshot, cs: seq<Snapshot>, now: Time): Snapshot
    requires CanMerge(s, cs)
  {
    var s0 := s.(startTimestamp := cs[0].startTimestamp, endTimestamp := Last(cs).endTimestamp);
    AddChildrenDivisorPositive(s0, cs);
    Averaged(AddChildren(s0, cs), |cs|, MultipartChildren(cs), now)
  }

  /** Merging consistent children into a consistent snapshot gives a consistent snapshot. */
  lemma FromChildrenConsistent(s: Snapshot, cs: seq<Snapshot>, now: Time)
    requires CanMerge(s, cs)
    ensures Consistent(FromChildren(s, cs, now))
  {
    var s0 := s.(startTimestamp := cs[0].startTimestamp, endTimestamp := Last(cs).endTimestamp);
    AddChildrenConsistent(s0, cs);
    AddChildrenDivisorPositive(s0, cs);
  }

  lemma FreshCanMerge(cs: seq<Snapshot>, start: Time)
    requires |cs| > 0 && forall i :: 0 <= i < |cs| ==> Consistent(cs[i])
    ensures CanMerge(Fresh(start), cs)
  {
    FreshConsistent(start);
  }

  /**
   * On a fresh snapshot: requests, errors and multipart requests are the children's
   * sums, the error map is their pointwise sum and accounts for every error, and the
   * total time is the mean of the children's averages.
   */
  lemma FreshChildrenTotals(cs: seq<Snapshot>, start: Time, now: Time)
    requires |cs| > 0 && forall i :: 0 <= i < |cs| ==> Consistent(cs[i])
    ensures CanMerge(Fresh(start), cs)
    ensures var r := FromChildren(Fresh(start), cs, now);
      && r.totalRequests == ChildRequests(cs)
      && r.totalErrors == ChildErrors(cs)
      && r.totalMultipartRequests == ChildMultiparts(cs)
      && r.errorMap.Keys == ChildErrorCodes(cs)
      && (forall e :: CountOf(r.errorMap, e) == ChildCodeCount(cs, e))
      && MapSum(r.errorMap) == r.totalErrors
      && r.averageTotalTime == Mean(ChildAverageTotals(cs))
      && r.startTimestamp == cs[0].startTimestamp && r.endTimestamp == Some(now)
  {
    FreshCanMerge(cs, start);
    var s0 := Fresh(start).(startTimestamp := cs[0].startTimestamp, endTimestamp := Last(cs).endTimestamp);
    AddChildrenCounts(s0, cs);
    AddChildrenErrors(s0, cs);
    FromChildrenConsistent(Fresh(start), cs, now);
    assert s0.errorMap.Keys + ChildErrorCodes(cs) == ChildErrorCodes(cs);
  }

  /** On a fresh snapshot, a handle or process average exists exactly when some child had a non-zero one. */
  lemma FreshChildrenSumPresence(cs: seq<Snapshot>, start: Time, now: Time)
    requires |cs| > 0 && forall i :: 0 <= i < |cs| ==> Consistent(cs[i])
    ensures CanMerge(Fresh(start), cs)
    ensures var r := FromChildren(Fresh(start), cs, now);
      && (r.averageHandleTime.Some? <==> exists i :: 0 <= i < |cs| && Truthy(cs[i].averageHandleTime))
      && (r.averageProcessTime.Some? <==> exists i :: 0 <= i < |cs| && Truthy(cs[i].averageProcessTime))
  {
    FreshCanMerge(cs, start);
    var s0 := Fresh(start).(startTimestamp := cs[0].startTimestamp, endTimestamp := Last(cs).endTimestamp);
    AddChildrenSumPresence(s0, cs);
  }

  /**
   * For any receiver, the merged maximum is at least every child's non-null, non-zero
   * maximum and the merged minimum at most every such child minimum, for total, handle
   * and process times alike.
   */
  lemma ChildrenBounds(s: Snapshot, cs: seq<Snapshot>, now: Time, f: Bound)
    requires CanMerge(s, cs)
    ensures var r := FromChildren(s, cs, now);
      forall i :: 0 <= i < |cs| && Truthy(BoundOf(cs[i], f)) ==>
        BoundOf(r, f).Some? &&
        (if f.IsMax() then BoundOf(r, f).value >= BoundOf(cs[i], f).value
         else BoundOf(r, f).value <= BoundOf(cs[i], f).value)
  {
    var s0 := s.(startTimestamp := cs[0].startTimestamp, endTimestamp := Last(cs).endTimestamp);
    AddChildrenBounds(s0, cs, f);
    var xs := BoundsOf(cs, f);
    MaxOfBounds(BoundOf(s0, f), TruthyValues(xs));
    MinOfBounds(BoundOf(s0, f), TruthyValues(xs));
    forall i | 0 <= i < |cs| && Truthy(BoundOf(cs[i], f))
      ensures xs[i].value in TruthyValues(xs)
    {
      TruthyListed(xs, i);
    }
  }

  // ---------------------------------------------------------------- format

  /** The display projection of a snapshot. */
  datatype View = View(
    timeStamp: Time,
    averageHandleTime: real, minMaxHandleTime: (real, real),
    averageProcessTime: real, minMaxProcessTime: (real, real),
    errorPercentage: real)

  /** The `Math.random()` draws of the seven call sites of `#calculateRandomNoise` in `format`. */
  datatype NoiseDraws = NoiseDraws(
    handle: real, process: real,
    minHandle: real, maxHandle: real, minProcess: real, maxProcess: real,
    errorPercentage: real)

  /** `#calculateRandomNoise` for one random draw `r`. */
  function Noise(time: real, r: real): real {
    Fixed2(time + (r * 3.0 - 1.0) * (time * 0.05))
  }

  /** For a draw in [0, 1) the noise moves a non-negative value between -5% and +10%, give or take the rounding. */
  lemma NoiseRange(time: real, r: real)
    requires time >= 0.0 && 0.0 <= r < 1.0
    ensures time * 0.95 - 0.005 <= Noise(time, r) <= time * 1.1 + 0.005
  {
    var d := r * 3.0 - 1.0;
    var t := time * 0.05;
    assert -1.0 <= d < 2.0;
    assert d * t >= -1.0 * t && d * t <= 2.0 * t by {
      assert (d + 1.0) * t >= 0.0;
      assert (2.0 - d) * t >= 0.0;
    }
    Fixed2Close(time + d * t);
  }

  /** A draw of 0.9 moves 100 to 108.5, outside a ±5% band. */
  lemma NoiseExceedsFivePercent()
    ensures Noise(100.0, 0.9) == 108.5 && Noise(100.0, 0.9) > 100.0 * 1.05
  {
    assert 100.0 + (0.9 * 3.0 - 1.0) * (100.0 * 0.05) == 108.5;
    assert (108.5 * 100.0 + 0.5).Floor == 10850;
  }

  /** `errors / (requests == 0 ? 1 : requests)`, before rounding. */
  function ErrorFraction(s: Snapshot): real {
    (s.totalErrors as real) / (if s.totalRequests == 0 then 1 else s.totalRequests) as real
  }

  /**
   * The error fraction of a consistent snapshot lies in [0, 1] and is errors over requests
   * once there are requests; its rounding is zero exactly when fewer than one request in
   * two hundred failed, so a low but non-zero error rate is shown as noise by `format`.
   */
  lemma ErrorFractionRange(s: Snapshot)
    requires Consistent(s)
    ensures 0.0 <= ErrorFraction(s) <= 1.0
    ensures s.totalRequests > 0 ==> ErrorFraction(s) == (s.totalErrors as real) / (s.totalRequests as real)
    ensures Fixed2(ErrorFraction(s)) == 0.0 <==> 200 * s.totalErrors < (if s.totalRequests == 0 then 1 else s.totalRequests)
  {
    var d := (if s.totalRequests == 0 then 1 else s.totalRequests) as real;
    var e := s.totalErrors as real;
    assert e <= d;
    FractionBounds(e, d);
    FractionBelowHalfPercent(e, d);
    Fixed2Zero(e / d);
  }

  // ---------------------------------------------------------------- export

  /** The record `export` writes for a snapshot with traffic. */
  function ExportRecord(s: Snapshot): LogData
    requires s.totalRequests > 0
  {
    LogData(
      LogOverview(s.totalRequests, s.totalErrors, Fixed2((s.totalErrors as real) / (s.totalRequests as real))),
      LogTimings(
        Fixed2(s.averageTotalTime), Some(MinMax(s.minTotalTime, s.maxTotalTime)),
        Fixed2(s.averageHandleTime.OrElse(0.0)), Some(MinMax(s.minHandleTime, s.maxHandleTime)),
        Fixed2(s.averageProcessTime.OrElse(0.0)), Some(MinMax(s.minProcessTime, s.maxProcessTime))),
      Some(s.errorMap))
  }

  /**
   * The in-memory part of `export`: start from the file's document, or from an empty
   * object when there is no file, and write `null` for a snapshot without traffic or its
   * record otherwise under `data[group][timeStamp]`.
   */
  function Export(s: Snapshot, existing: Option<Document>, group: string, timeStamp: string): (r: Document)
  {
    WriteEntry(existing.OrElse([]), group, timeStamp, if s.totalRequests <= 0 then None else Some(ExportRecord(s)))
  }

  /**
   * What `export` stores: nothing but `null` without traffic; otherwise the counts, the
   * error fraction and averages within rounding, the bounds and the error map; every
   * other group and key of the document is kept.
   */
  lemma ExportStores(s: Snapshot, existing: Option<Document>, group: string, timeStamp: string)
    requires Consistent(s)
    ensures var r := Export(s, existing, group, timeStamp);
      && Lookup(r, group).Some?
      && Lookup(Lookup(r, group).value, timeStamp).Some?
      && (Lookup(Lookup(r, group).value, timeStamp).value.None? <==> s.totalRequests == 0)
      && (s.totalRequests > 0 ==> Lookup(Lookup(r, group).value, timeStamp).value == Some(ExportRecord(s)))
      && (forall g :: g != group ==> Lookup(r, g) == Lookup(existing.OrElse([]), g))
      && (forall k :: k != timeStamp ==>
            Lookup(Lookup(r, group).value, k) == Lookup(Lookup(existing.OrElse([]), group).OrElse([]), k))
  {
  }

  /** The record `export` stores for a snapshot with traffic. */
  lemma ExportRecordContent(s: Snapshot)
    requires Consistent(s) && s.totalRequests > 0
    ensures var rec := ExportRecord(s);
      && rec.overview.totalRequests == s.totalRequests
      && rec.overview.totalErrors == s.totalErrors
      && rec.overview.totalErrors <= rec.overview.totalRequests
      && -0.005 <= rec.overview.errorPercentage <= 1.005
      && ErrorFraction(s) - 0.005 <= rec.overview.errorPercentage <= ErrorFraction(s) + 0.005
      && s.averageTotalTime - 0.005 <= rec.timings.averageTotalTime <= s.averageTotalTime + 0.005
      && s.averageHandleTime.OrElse(0.0) - 0.005 <= rec.timings.averageHandleTime
      && rec.timings.averageHandleTime <= s.averageHandleTime.OrElse(0.0) + 0.005
      && s.averageProcessTime.OrElse(0.0) - 0.005 <= rec.timings.averageProcessTime
      && rec.timings.averageProcessTime <= s.averageProcessTime.OrElse(0.0) + 0.005
      && rec.timings.minMaxTotalTime == Some(MinMax(s.minTotalTime, s.maxTotalTime))
      && rec.timings.minMaxHandleTime == Some(MinMax(s.minHandleTime, s.maxHandleTime))
      && rec.timings.minMaxProcessTime == Some(MinMax(s.minProcessTime, s.maxProcessTime))
      && rec.errorMap == Some(s.errorMap)
  {
    ErrorFractionRange(s);
    Fixed2Close(ErrorFraction(s));
    Fixed2Close(s.averageTotalTime);
    Fixed2Close(s.averageHandleTime.OrElse(0.0));
    Fixed2Close(s.averageProcessTime.OrElse(0.0));
  }

  // ---------------------------------------------------------------- the class

  class Statistics {
    const defaultHandleTime: real
    const defaultProcessTime: real
    const defaultErrorPercentage: real

    var startTimestamp: Time
    var endTimestamp: Option<Time>
    var totalrequests: nat
    var totalMultipartRequests: nat
    var totalErrors: nat
    var averageHandleTime: Option<real>
    var averageProcessTime: Option<real>
    var averageTotalTime: real
    var maxTotalTime: Option<real>
    var minTotalTime: Option<real>
    var maxHandleTime: Option<real>
    var minHandleTime: Option<real>
    var maxProcessTime: Option<real>
    var minProcessTime: Option<real>
    var errorMap: ErrorMap

    function Snap(): Snapshot
      reads this
    {
      Snapshot(startTimestamp, endTimestamp, totalrequests, totalMultipartRequests, totalErrors,
        averageHandleTime, averageProcessTime, averageTotalTime,
        maxTotalTime, minTotalTime, maxHandleTime, minHandleTime, maxProcessTime, minProcessTime,
        errorMap)
    }

    ghost predicate Valid()
      reads this
    {
      Consistent(Snap())
    }

    /** The defaults come from the history baseline; `now` is the start timestamp. */
    constructor(defaultHandleTime: real, defaultProcessTime: real, defaultErrorPercentage: real, now: Time)
      ensures Valid() && Snap() == Fresh(now)
      ensures this.defaultHandleTime == defaultHandleTime
      ensures this.defaultProcessTime == defaultProcessTime
      ensures this.defaultErrorPercentage == defaultErrorPercentage
    {
      this.defaultHandleTime := defaultHandleTime;
      this.defaultProcessTime := defaultProcessTime;
      this.defaultErrorPercentage := defaultErrorPercentage;
      startTimestamp, endTimestamp := now, None;
      totalrequests, totalMultipartRequests, totalErrors := 0, 0, 0;
      averageHandleTime, averageProcessTime, averageTotalTime := None, None, 0.0;
      maxTotalTime, minTotalTime := None, None;
      maxHandleTime, minHandleTime := None, None;
      maxProcessTime, minProcessTime := None, None;
      errorMap := map[];
      new;
      MapSumEmpty(errorMap);
    }

    /** Count a request, add its total time and widen the total-time bounds. */
    method ObserveTotalTime(t: real)
      modifies this
      ensures Snap() == ObserveTotal(old(Snap()), t)
    {
      totalrequests := totalrequests + 1;
      averageTotalTime := averageTotalTime + t;
      maxTotalTime := RaiseMax(maxTotalTime, t);
      minTotalTime := LowerMin(minTotalTime, t);
    }

    /** Count a truthy error code, in total and in the error map. */
    method ObserveErrorCode(request: Packet)
      modifies this
      ensures Snap() == ObserveError(old(Snap()), request)
    {
      if HasError(request) {
        totalErrors := totalErrors + 1;
        errorMap := errorMap[request.error.value := CountOf(errorMap, request.error.value) + 1];
      }
    }

    /** Sum and bound the handle and processing times of a multipart request. */
    method ObserveMultipartTimes(request: Packet)
      modifies this
      ensures Snap() == ObserveMultipart(old(Snap()), request)
    {
      match request
      case NetworkRequest(_, _) =>
      case MultipartNetworkRequest(_, handle, processing, _) => {
        totalMultipartRequests := totalMultipartRequests + 1;
        maxHandleTime := RaiseMax(maxHandleTime, handle);
        minHandleTime := LowerMin(minHandleTime, handle);
        maxProcessTime := RaiseMax(maxProcessTime, processing);
        minProcessTime := LowerMin(minProcessTime, processing);
        averageHandleTime := Some(averageHandleTime.OrElse(0.0) + handle);
        averageProcessTime := Some(averageProcessTime.OrElse(0.0) + processing);
      }
    }

    /** The `forEach` callback of `fromRequestBuffer`, applied to one request. */
    method AddRequest(request: Packet)
      modifies this
      ensures Snap() == AddPacket(old(Snap()), request)
    {
      ObserveTotalTime(request.totalTime);
      ObserveErrorCode(request);
      ObserveMultipartTimes(request);
    }

    /** The division that ends both reducers, and the end timestamp. */
    method ComputeAverages(n: nat, k: nat, now: Time)
      requires n > 0
      requires Truthy(averageHandleTime) || Truthy(averageProcessTime) ==> k > 0
      modifies this
      ensures Snap() == Averaged(old(Snap()), n, k, now)
    {
      averageTotalTime := averageTotalTime / (n as real);
      if Truthy(averageHandleTime) {
        averageHandleTime := Some(averageHandleTime.value / (k as real));
      }
      if Truthy(averageProcessTime) {
        averageProcessTime := Some(averageProcessTime.value / (k as real));
      }
      endTimestamp := Some(now);
    }

    method FromRequestBuffer(buffer: seq<Packet>, now: Time)
      requires Valid()
      modifies this
      ensures Valid()
      ensures Snap() == FromPackets(old(Snap()), buffer, now)
      ensures |buffer| == 0 ==> Snap() == old(Snap())
    {
      if |buffer| == 0 {
        return;
      }
      ghost var s0 := Snap();
      var i := 0;
      while i < |buffer|
        invariant 0 <= i <= |buffer|
        invariant Snap() == AddPackets(s0, buffer[..i])
      {
        AddRequest(buffer[i]);
        assert buffer[..i + 1] == buffer[..i] + [buffer[i]];
        i := i + 1;
      }
      assert buffer[..i] == buffer;
      AddPacketsCounts(s0, buffer);
      AddPacketsConsistent(s0, buffer);
      ComputeAverages(totalrequests, totalMultipartRequests, now);
    }

    /** Add a child's counts, error map and total-time sum. */
    method MergeChildCounts(child: Statistics)
      requires child != this
      modifies this
      ensures Snap() == MergeCounts(old(Snap()), child.Snap())
    {
      totalrequests := totalrequests + child.totalrequests;
      totalMultipartRequests := totalMultipartRequests + child.totalMultipartRequests;
      totalErrors := totalErrors + child.totalErrors;
      errorMap := AddErrorCounts(errorMap, child.errorMap);
      averageTotalTime := averageTotalTime + child.averageTotalTime;
    }

    /** Widen the bounds by a child's non-zero bounds. */
    method MergeChildBounds(child: Statistics)
      requires child != this
      modifies this
      ensures Snap() == MergeBounds(old(Snap()), child.Snap())
    {
      maxTotalTime := MergeMax(maxTotalTime, child.maxTotalTime);
      minTotalTime := MergeMin(minTotalTime, child.minTotalTime);
      maxHandleTime := MergeMax(maxHandleTime, child.maxHandleTime);
      minHandleTime := MergeMin(minHandleTime, child.minHandleTime);
      maxProcessTime := MergeMax(maxProcessTime, child.maxProcessTime);
      minProcessTime := MergeMin(minProcessTime, child.minProcessTime);
    }

    /** Add a child's non-zero handle and process averages to the sums. */
    method MergeChildSums(child: Statistics)
      requires child != this
      modifies this
      ensures Snap() == MergeSums(old(Snap()), child.Snap())
    {
      averageHandleTime := MergeSum(averageHandleTime, child.averageHandleTime);
      averageProcessTime := MergeSum(averageProcessTime, child.averageProcessTime);
    }

    /** The `forEach` callback of `fromStatisticsBuffer`, applied to one child. */
    method AddChildStatistics(child: Statistics)
      requires child != this
      modifies this
      ensures Snap() == AddChild(old(Snap()), child.Snap())
    {
      MergeChildCounts(child);
      MergeChildBounds(child);
      MergeChildSums(child);
    }

    /** `buffer.forEach(child => ...)` of `fromStatisticsBuffer`. */
    method MergeChildren(buffer: seq<Statistics>)
      requires this !in buffer
      modifies this
      ensures Snap() == AddChildren(old(Snap()), old(Snaps(buffer)))
    {
      ghost var kids := Snaps(buffer);
      ghost var s0 := Snap();
      var i := 0;
      while i < |buffer|
        invariant 0 <= i <= |buffer|
        invariant forall j :: 0 <= j < |buffer| ==> buffer[j].Snap() == kids[j]
        invariant Snap() == AddChildren(s0, kids[..i])
      {
        AddChildStatistics(buffer[i]);
        assert kids[..i + 1] == kids[..i] + [kids[i]];
        i := i + 1;
      }
      assert kids[..i] == kids;
    }

    method FromStatisticsBuffer(buffer: seq<Statistics>, now: Time)
      requires this !in buffer
      requires Valid() && forall c :: c in buffer ==> c.Valid()
      requires |buffer| > 0
      requires (averageHandleTime.Some? || averageProcessTime.Some?) ==> MultipartChildren(Snaps(buffer)) > 0
      modifies this
      ensures Valid()
      ensures CanMerge(old(Snap()), old(Snaps(buffer)))
      ensures Snap() == FromChildren(old(Snap()), old(Snaps(buffer)), now)
    {
      ghost var kids := Snaps(buffer);
      assert forall i :: 0 <= i < |kids| ==> Consistent(kids[i]) by {
        forall i | 0 <= i < |kids|
          ensures Consistent(kids[i])
        {
          assert buffer[i] in buffer;
        }
      }
      ghost var old0 := Snap();
      var totalCount := |buffer|;
      var multipartCount := MultipartChildren(Snaps(buffer));
      startTimestamp := buffer[0].startTimestamp;
      endTimestamp := buffer[|buffer| - 1].endTimestamp;
      ghost var s0 := Snap();
      assert s0 == old0.(startTimestamp := kids[0].startTimestamp, endTimestamp := Last(kids).endTimestamp);
      assert Snaps(buffer) == kids by {
        assert forall j :: 0 <= j < |buffer| ==> buffer[j].Snap() == kids[j];
      }
      MergeChildren(buffer);
      assert Snap() == AddChildren(s0, kids);
      AddChildrenDivisorPositive(s0, kids);
      ComputeAverages(totalCount, multipartCount, now);
      assert Snap() == FromChildren(old0, kids, now);
      FromChildrenConsistent(old0, kids, now);
    }

    /**
     * `format`: real figures are used as they are; a missing one is replaced by noise
     * around the baseline default, and an error fraction that rounds to zero by noise
     * around the default error percentage.
     */
    function Format(draws: NoiseDraws): (v: View)
      reads this
      ensures v.timeStamp == startTimestamp
      ensures averageHandleTime.Some? ==> v.averageHandleTime == averageHandleTime.value
      ensures averageHandleTime.None? ==> v.averageHandleTime == Noise(defaultHandleTime, draws.handle)
      ensures averageProcessTime.Some? ==> v.averageProcessTime == averageProcessTime.value
      ensures averageProcessTime.None? ==> v.averageProcessTime == Noise(defaultProcessTime, draws.process)
      ensures minHandleTime.Some? ==> v.minMaxHandleTime.0 == minHandleTime.value
      ensures maxHandleTime.Some? ==> v.minMaxHandleTime.1 == maxHandleTime.value
      ensures minProcessTime.Some? ==> v.minMaxProcessTime.0 == minProcessTime.value
      ensures maxProcessTime.Some? ==> v.minMaxProcessTime.1 == maxProcessTime.value
      ensures minHandleTime.None? ==>
        v.minMaxHandleTime.0 == Noise(Noise(defaultHandleTime, draws.handle) - 10.0, draws.minHandle)
      ensures maxHandleTime.None? ==>
        v.minMaxHandleTime.1 == Noise(Noise(defaultHandleTime, draws.handle) + 10.0, draws.maxHandle)
      ensures minProcessTime.None? ==>
        v.minMaxProcessTime.0 == Noise(Noise(defaultProcessTime, draws.process) - 10.0, draws.minProcess)
      ensures maxProcessTime.None? ==>
        v.minMaxProcessTime.1 == Noise(Noise(defaultProcessTime, draws.process) + 10.0, draws.maxProcess)
      ensures Fixed2(ErrorFraction(Snap())) != 0.0 ==> v.errorPercentage == Fixed2(ErrorFraction(Snap()))
      ensures Fixed2(ErrorFraction(Snap())) == 0.0 ==>
        v.errorPercentage == Noise(defaultErrorPercentage, draws.errorPercentage)
    {
      var percentage := Fixed2(ErrorFraction(Snap()));
      var handleTime := Noise(defaultHandleTime, draws.handle);
      var processTime := Noise(defaultProcessTime, draws.process);
      View(
        startTimestamp,
        averageHandleTime.OrElse(handleTime),
        (minHandleTime.OrElse(Noise(handleTime - 10.0, draws.minHandle)),
         maxHandleTime.OrElse(Noise(handleTime + 10.0, draws.maxHandle))),
        averageProcessTime.OrElse(processTime),
        (minProcessTime.OrElse(Noise(processTime - 10.0, draws.minProcess)),
         maxProcessTime.OrElse(Noise(processTime + 10.0, draws.maxProcess))),
        if percentage == 0.0 then Noise(defaultErrorPercentage, draws.errorPercentage) else percentage)
    }
  }

  function Snaps(cs: seq<Statistics>): (ss: seq<Snapshot>)
    reads cs
    ensures |ss| == |cs|
    ensures forall i :: 0 <= i < |cs| ==> ss[i] == cs[i].Snap()
  {
    if |cs| == 0 then [] else Snaps(Init(cs)) + [Last(cs).Snap()]
  }
}
