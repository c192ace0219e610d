/**
 * The telemetry packets the worker sends over IPC (the `AnalyticsPacket` types of the
 * runtime's dependency package), and the per-batch quantities the reducers are
 * specified against.
 */
module Packets {
  import opened Basics

  /** A packet is either a plain network request or a multipart one; times in ms. */
  datatype Packet =
    | NetworkRequest(totalTime: real, error: Option<int>)
    | MultipartNetworkRequest(totalTime: real, handleTime: real, processingTime: real, error: Option<int>)

  /** `if (request.error)`: the code is present and not zero. */
  predicate HasError(p: Packet) {
    p.error.Some? && p.error.value != 0
  }

  /** Number of packets that carry an error. */
  function ErrorCount(b: seq<Packet>): nat {
    if |b| == 0 then 0 else ErrorCount(Init(b)) + (if HasError(Last(b)) then 1 else 0)
  }

  /** Number of packets that carry error code `e`. */
  function CodeCount(b: seq<Packet>, e: int): nat {
    if |b| == 0 then 0
    else CodeCount(Init(b), e) + (if HasError(Last(b)) && Last(b).error.value == e then 1 else 0)
  }

  /** The error codes that occur in the batch. */
  function ErrorCodes(b: seq<Packet>): set<int> {
    if |b| == 0 then {}
    else ErrorCodes(Init(b)) + (if HasError(Last(b)) then {Last(b).error.value} else {})
  }

  function TotalTimes(b: seq<Packet>): (ts: seq<real>)
    ensures |ts| == |b|
    ensures forall i :: 0 <= i < |b| ==> ts[i] == b[i].totalTime
  {
    seq(|b|, i requires 0 <= i < |b| => b[i].totalTime)
  }

  /** The multipart packets of the batch, in order. */
  function Multiparts(b: seq<Packet>): (ms: seq<Packet>)
    ensures forall i :: 0 <= i < |ms| ==> ms[i].MultipartNetworkRequest?
  {
    if |b| == 0 then []
    else Multiparts(Init(b)) + (if Last(b).MultipartNetworkRequest? then [Last(b)] else [])
  }

  function HandleTimes(b: seq<Packet>): (ts: seq<real>)
    ensures |ts| == |Multiparts(b)|
  {
    var ms := Multiparts(b);
    seq(|ms|, i requires 0 <= i < |ms| => ms[i].handleTime)
  }

  function ProcessingTimes(b: seq<Packet>): (ts: seq<real>)
    ensures |ts| == |Multiparts(b)|
  {
    var ms := Multiparts(b);
    seq(|ms|, i requires 0 <= i < |ms| => ms[i].processingTime)
  }
}
