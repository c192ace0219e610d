/**
 * `AnalyticsEngine` of src/analytics-engine.ts: a tick-driven roll-up that turns the
 * request buffer into a wrapper every tick, merges the latest wrappers into an hourly one
 * every `2 * 2` ticks, and merges the hourly ones into a daily overview once the tick
 * count reaches `1 * 13`.
 */
module Engine {
  import opened Basics
  import opened ErrorCounts
  import opened Packets
  import opened AnalyticsStatistics
  import opened StatisticsWrappers

  /** Ticks per hourly roll-up (`2 * 2`). */
  const HourTicks: nat := 4
  /** Tick count that triggers the daily roll-up (`1 * 13`). */
  const DayTicks: nat := 13

  datatype EngineState = EngineState(
    tick: nat, requestBuffer: seq<Packet>, latest: seq<WrapperSnapshot>, hourly: seq<WrapperSnapshot>)

  /** A wrapper handed to `export`, with the group it is written under. */
  datatype Exported = Exported(group: string, snapshot: WrapperSnapshot)

  datatype Step = Step(state: EngineState, exported: Option<Exported>)

  ghost predicate AllConsistent(ws: seq<WrapperSnapshot>) {
    forall i :: 0 <= i < |ws| ==> WConsistent(ws[i])
  }

  /** Between ticks: one latest wrapper per tick since the last hour, one hourly per hour. */
  ghost predicate EngineInv(st: EngineState) {
    && st.tick < DayTicks
    && |st.latest| == st.tick % HourTicks
    && |st.hourly| == st.tick / HourTicks
    && AllConsistent(st.latest)
    && AllConsistent(st.hourly)
  }

  /** Right after `#on30sTick`, before an hourly or daily roll-up. */
  ghost predicate Ticked(st: EngineState) {
    && 0 < st.tick <= DayTicks
    && |st.latest| == (st.tick - 1) % HourTicks + 1
    && |st.hourly| == (st.tick - 1) / HourTicks
    && AllConsistent(st.latest)
    && AllConsistent(st.hourly)
  }

  function InitialState(): EngineState {
    EngineState(0, [], [], [])
  }

  lemma WFreshConsistent(now: Time)
    ensures WConsistent(WFresh(now))
  {
    MapSumEmpty(map[]);
  }

  /** `onRequest`. */
  function Request(st: EngineState, p: Packet): EngineState {
    st.(requestBuffer := st.requestBuffer + [p])
  }

  /** `#on30sTick`: the buffer becomes a new latest wrapper and the tick advances. */
  function After30s(st: EngineState, now: Time): EngineState {
    WFreshConsistent(now);
    st.(latest := st.latest + [WFromPackets(WFresh(now), st.requestBuffer)], requestBuffer := [], tick := st.tick + 1)
  }

  /** `#onHourTick`: the latest wrappers are merged, exported as `hourly` and kept. */
  function AfterHour(st: EngineState, now: Time): Step
    requires |st.latest| > 0 && AllConsistent(st.latest)
  {
    FreshWCanMerge(st.latest, now);
    var h := WFromChildren(WFresh(now), st.latest);
    Step(st.(hourly := st.hourly + [h], latest := []), Some(Exported("hourly", h)))
  }

  /** `#onDayTick`: the hourly wrappers are merged and exported as `overview`; all is reset. */
  function AfterDay(st: EngineState, now: Time): Step
    requires |st.hourly| > 0 && AllConsistent(st.hourly)
  {
    FreshWCanMerge(st.hourly, now);
    var d := WFromChildren(WFresh(now), st.hourly);
    Step(st.(latest := [], hourly := [], tick := 0), Some(Exported("overview", d)))
  }

  /** `#onTick`: the hourly check comes first, so tick 12 rolls up an hour and tick 13 a day. */
  function Tick(st: EngineState, now: Time): Step
    requires EngineInv(st)
  {
    var s1 := After30s(st, now);
    TickedAfter30s(st, now);
    if s1.tick % HourTicks == 0 then AfterHour(s1, now)
    else if s1.tick >= DayTicks then AfterDay(s1, now)
    else Step(s1, None)
  }

  /** The tick arithmetic behind the schedule. */
  lemma TickArithmetic(t: nat)
    requires t < DayTicks
    ensures (t + 1) % HourTicks == 0 ==> t % HourTicks == HourTicks - 1 && (t + 1) / HourTicks == t / HourTicks + 1
    ensures (t + 1) % HourTicks != 0 ==> (t + 1) % HourTicks == t % HourTicks + 1 && (t + 1) / HourTicks == t / HourTicks
    ensures t % HourTicks == (t + 1 - 1) % HourTicks && t / HourTicks == (t + 1 - 1) / HourTicks
    ensures t + 1 >= DayTicks <==> t == DayTicks - 1
    ensures (DayTicks - 1) / HourTicks == 3 && (DayTicks - 1) % HourTicks == 0
  {
  }

  lemma TickedAfter30s(st: EngineState, now: Time)
    requires EngineInv(st)
    ensures Ticked(After30s(st, now))
    ensures WFromPackets(WFresh(now), st.requestBuffer).totalRequests == |st.requestBuffer|
    ensures WFromPackets(WFresh(now), st.requestBuffer).totalErrors == ErrorCount(st.requestBuffer)
  {
    WFreshConsistent(now);
    TickArithmetic(st.tick);
    if |st.requestBuffer| > 0 {
      WrapperPacketsTotals(st.requestBuffer, now);
    }
  }

  /** Requests in the wrappers kept between ticks. */
  function Accounted(st: EngineState): nat {
    Requests(st.latest) + Requests(st.hourly)
  }

  lemma RequestsAppend(ws: seq<WrapperSnapshot>, w: WrapperSnapshot)
    ensures Requests(ws + [w]) == Requests(ws) + w.totalRequests
    ensures Errors(ws + [w]) == Errors(ws) + w.totalErrors
  {
    assert Init(ws + [w]) == ws;
  }

  /** An hourly roll-up right after a tick restores the invariant. */
  lemma HourRollupInvariant(s1: EngineState, now: Time)
    requires Ticked(s1) && s1.tick % HourTicks == 0
    ensures EngineInv(AfterHour(s1, now).state)
  {
    FreshWCanMerge(s1.latest, now);
    WrapperMergeConsistent(WFresh(now), s1.latest);
    var h := WFromChildren(WFresh(now), s1.latest);
    assert forall i :: 0 <= i < |s1.hourly| ==> (s1.hourly + [h])[i] == s1.hourly[i];
    TickArithmetic(s1.tick - 1);
  }

  /** Every tick keeps the invariant: the roll-ups always find non-empty, consistent buffers. */
  lemma TickPreservesInvariant(st: EngineState, now: Time)
    requires EngineInv(st)
    ensures EngineInv(Tick(st, now).state)
  {
    var s1 := After30s(st, now);
    TickedAfter30s(st, now);
    TickArithmetic(st.tick);
    if s1.tick % HourTicks == 0 {
      HourRollupInvariant(s1, now);
    }
  }

  /**
   * The schedule: the tick advances and wraps from 12 to 0; an hourly export happens on
   * ticks 4, 8 and 12 and the daily overview on tick 13, and nothing is exported otherwise.
   */
  lemma TickSchedule(st: EngineState, now: Time)
    requires EngineInv(st)
    ensures Tick(st, now).state.tick == if st.tick == DayTicks - 1 then 0 else st.tick + 1
    ensures Tick(st, now).state.requestBuffer == []
    ensures Tick(st, now).exported.Some? && Tick(st, now).exported.value.group == "hourly"
      <==> (st.tick + 1) % HourTicks == 0
    ensures Tick(st, now).exported.Some? && Tick(st, now).exported.value.group == "overview"
      <==> st.tick == DayTicks - 1
    ensures Tick(st, now).exported.None? <==> (st.tick + 1) % HourTicks != 0 && st.tick != DayTicks - 1
  {
    TickedAfter30s(st, now);
  }

  /**
   * The roll-ups never see an empty buffer: an hourly roll-up merges exactly four latest
   * wrappers and the daily one exactly three hourly wrappers.
   */
  lemma RollupSizes(st: EngineState, now: Time)
    requires EngineInv(st)
    ensures (st.tick + 1) % HourTicks == 0 ==> |After30s(st, now).latest| == HourTicks
    ensures st.tick == DayTicks - 1 ==> |After30s(st, now).hourly| == 3
  {
    TickedAfter30s(st, now);
    TickArithmetic(st.tick);
  }

  /**
   * Request accounting: a tick adds the buffered requests to the kept wrappers, an hourly
   * export carries exactly the requests of the hour's wrappers, and the daily overview
   * carries exactly the requests of the hourly wrappers; the requests buffered in the
   * window that triggers it are then discarded.
   */
  lemma TickAccounting(st: EngineState, now: Time)
    requires EngineInv(st)
    ensures var r := Tick(st, now);
      && (r.exported.None? ==> Accounted(r.state) == Accounted(st) + |st.requestBuffer|)
      && (r.exported.Some? && r.exported.value.group == "hourly" ==>
            && r.exported.value.snapshot.totalRequests == Requests(st.latest) + |st.requestBuffer|
            && Accounted(r.state) == Accounted(st) + |st.requestBuffer|)
      && (r.exported.Some? && r.exported.value.group == "overview" ==>
            && r.exported.value.snapshot.totalRequests == Accounted(st)
            && Accounted(r.state) == 0)
  {
    var s1 := After30s(st, now);
    TickedAfter30s(st, now);
    var n := WFromPackets(WFresh(now), st.requestBuffer);
    RequestsAppend(st.latest, n);
    if s1.tick % HourTicks == 0 {
      WrapperChildrenTotals(s1.latest, now);
      RequestsAppend(st.hourly, WFromChildren(WFresh(now), s1.latest));
    } else if s1.tick >= DayTicks {
      WrapperChildrenTotals(s1.hourly, now);
    }
  }

  /** The same accounting for errors: exports carry every error of their window. */
  lemma TickErrorAccounting(st: EngineState, now: Time)
    requires EngineInv(st)
    ensures var r := Tick(st, now);
      && (r.exported.Some? && r.exported.value.group == "hourly" ==>
            r.exported.value.snapshot.totalErrors == Errors(st.latest) + ErrorCount(st.requestBuffer))
      && (r.exported.Some? && r.exported.value.group == "overview" ==>
            r.exported.value.snapshot.totalErrors == Errors(st.hourly))
  {
    var s1 := After30s(st, now);
    TickedAfter30s(st, now);
    RequestsAppend(st.latest, WFromPackets(WFresh(now), st.requestBuffer));
    if s1.tick % HourTicks == 0 {
      WrapperChildrenTotals(s1.latest, now);
    } else if s1.tick >= DayTicks {
      WrapperChildrenTotals(s1.hourly, now);
    }
  }

  class AnalyticsEngine {
    var tick: nat
    var requestBuffer: seq<Packet>
    var lateststatistics: seq<StatisticsWrapper>
    var hourlyStatistics: seq<StatisticsWrapper>

    /** The snapshots of the wrappers in the two lists, and the wrappers themselves. */
    ghost var latest: seq<WrapperSnapshot>
    ghost var hourly: seq<WrapperSnapshot>
    ghost var Repr: set<StatisticsWrapper>

    ghost function Abs(): EngineState
      reads this
    {
      EngineState(tick, requestBuffer, latest, hourly)
    }

    /** Each list holds wrappers of `Repr` whose snapshots are the ghost ones. */
    ghost predicate Coupled()
      reads this, Repr
    {
      && |lateststatistics| == |latest|
      && |hourlyStatistics| == |hourly|
      && (forall i :: 0 <= i < |latest| ==> lateststatistics[i] in Repr && lateststatistics[i].Snap() == latest[i])
      && (forall i :: 0 <= i < |hourly| ==> hourlyStatistics[i] in Repr && hourlyStatistics[i].Snap() == hourly[i])
    }

    ghost predicate Valid()
      reads this, Repr
    {
      Coupled() && EngineInv(Abs())
    }

    /** The interval timer and the console are not modelled. */
    constructor()
      ensures Valid() && Abs() == InitialState()
    {
      tick := 0;
      requestBuffer := [];
      lateststatistics := [];
      hourlyStatistics := [];
      latest, hourly, Repr := [], [], {};
    }

    method OnRequest(request: Packet)
      requires Valid()
      modifies this
      ensures Valid() && Repr == old(Repr)
      ensures Abs() == Request(old(Abs()), request)
    {
      requestBuffer := requestBuffer + [request];
    }

    method On30sTick(now: Time)
      requires Coupled()
      modifies this
      ensures Coupled()
      ensures Abs() == After30s(old(Abs()), now)
    {
      var statistics := new StatisticsWrapper(now);
      statistics.FromRequestBuffer(requestBuffer);
      lateststatistics := lateststatistics + [statistics];
      latest := latest + [statistics.Snap()];
      Repr := Repr + {statistics};
      requestBuffer := [];
      tick := tick + 1;
    }

    method OnHourTick(now: Time) returns (exported: WrapperSnapshot)
      requires Coupled() && |latest| > 0 && AllConsistent(latest)
      modifies this
      ensures Coupled()
      ensures AfterHour(old(Abs()), now) == Step(Abs(), Some(Exported("hourly", exported)))
    {
      var statistics := Rollup(lateststatistics, latest, now);
      exported := statistics.Snap();
      hourlyStatistics := hourlyStatistics + [statistics];
      hourly := hourly + [exported];
      Repr := Repr + {statistics};
      lateststatistics := [];
      latest := [];
    }

    method OnDayTick(now: Time) returns (exported: WrapperSnapshot)
      requires Coupled() && |hourly| > 0 && AllConsistent(hourly)
      modifies this
      ensures Coupled()
      ensures AfterDay(old(Abs()), now) == Step(Abs(), Some(Exported("overview", exported)))
    {
      var statistics := Rollup(hourlyStatistics, hourly, now);
      exported := statistics.Snap();
      lateststatistics := [];
      hourlyStatistics := [];
      latest, hourly := [], [];
      tick := 0;
    }

    /** `#onTick`, returning the wrapper it exported, if any, and the group it went to. */
    method OnTick(now: Time) returns (exported: Option<Exported>)
      requires Valid()
      modifies this
      ensures Valid()
      ensures Step(Abs(), exported) == Tick(old(Abs()), now)
    {
      ghost var st := Abs();
      On30sTick(now);
      TickedAfter30s(st, now);
      if tick % HourTicks == 0 {
        var h := OnHourTick(now);
        exported := Some(Exported("hourly", h));
      } else if tick >= DayTicks {
        var d := OnDayTick(now);
        exported := Some(Exported("overview", d));
      } else {
        exported := None;
      }
      TickPreservesInvariant(st, now);
    }
  }

  /** `new StatisticsWrapper().fromStatisticsBuffer(buffer)`. */
  method Rollup(buffer: seq<StatisticsWrapper>, ghost kids: seq<WrapperSnapshot>, now: Time)
    returns (w: StatisticsWrapper)
    requires Holds(buffer, kids) && |kids| > 0 && AllConsistent(kids)
    ensures fresh(w)
    ensures w.Snap() == WFromChildren(WFresh(now), kids)
  {
    w := new StatisticsWrapper(now);
    FreshWCanMerge(kids, now);
    w.FromStatisticsBuffer(buffer, kids);
  }
}
