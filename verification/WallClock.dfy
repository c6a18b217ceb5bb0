/** The wall clock: UTC as a reference instant plus the uptime elapsed since.  `now` is the uptime
    in microseconds, read under the clock's mutex. */
module WallClock {
  import opened Int64

  datatype Option = None | Some(value: int)

  datatype Mapping = Mapping(unix: int, uptime: int)

  const POWER_ON := Mapping(0, 0)

  /** The overflow checks of a read, in the order they are made. */
  function Reading(m: Mapping, now: int): Option {
    var elapsed := now - m.uptime;
    if !IsInt64(elapsed) then None
    else if !IsInt64(m.unix + elapsed) then None
    else Some(m.unix + elapsed)
  }

  class WallClock {
    var referenceUnix: int
    var referenceUptime: int

    ghost function Contents(): Mapping
      reads this
    {
      Mapping(referenceUnix, referenceUptime)
    }

    constructor ()
      ensures Contents() == POWER_ON
    {
      referenceUnix, referenceUptime := 0, 0;
    }

    method SetUnixTimeMicros(unix: int, now: int) returns (ok: bool)
      modifies this
      ensures ok && Contents() == Applied(old(Contents()), Call(Set(unix), now))
    {
      referenceUnix := unix;
      referenceUptime := now;
      return true;
    }

    /** `was` is the caller's variable, written only on success. */
    method GetUnixTimeMicros(was: int, now: int) returns (ok: bool, unix: int)
      ensures ok <==> Reading(Contents(), now).Some?
      ensures unix == if ok then Reading(Contents(), now).value else was
    {
      var elapsed := now - referenceUptime;
      if !IsInt64(elapsed) { return false, was; }
      var result := referenceUnix + elapsed;
      if !IsInt64(result) { return false, was; }
      return true, result;
    }

    method ResetToPowerOnMapping(ghost now: int)
      modifies this
      ensures Contents() == Applied(old(Contents()), Call(Reset, now))
    {
      referenceUnix := 0;
      referenceUptime := 0;
    }
  }

  // ---------- Runs ----------

  datatype Op = Set(unix: int) | Reset | Get

  /** A call and the uptime at which it held the mutex. */
  datatype Call = Call(op: Op, now: int)

  function Applied(m: Mapping, call: Call): Mapping {
    match call.op
    case Set(unix) => Mapping(unix, call.now)
    case Reset => POWER_ON
    case Get => m
  }

  function AfterCalls(calls: seq<Call>): Mapping {
    if |calls| == 0 then POWER_ON
    else Applied(AfterCalls(calls[..|calls| - 1]), calls[|calls| - 1])
  }

  /** The run as the uptime allows it: monotonic, never negative, with 64-bit arguments. */
  ghost predicate Plausible(calls: seq<Call>, now: int) {
    && 0 <= now <= INT64_MAX
    && (forall i :: 0 <= i < |calls| ==> 0 <= calls[i].now <= now && (calls[i].op.Set? ==> IsInt64(calls[i].op.unix)))
    && (forall i, j :: 0 <= i < j < |calls| ==> calls[i].now <= calls[j].now)
  }

  /** Call `k` set the mapping in force after the run. */
  predicate Rules(calls: seq<Call>, k: int) {
    && 0 <= k < |calls| && !calls[k].op.Get?
    && forall j :: k < j < |calls| ==> calls[j].op.Get?
  }

  predicate OnlyReads(calls: seq<Call>) {
    forall j :: 0 <= j < |calls| ==> calls[j].op.Get?
  }

  lemma {:induction false} RulerIsInForce(calls: seq<Call>, k: int)
    requires Rules(calls, k)
    ensures AfterCalls(calls) == if calls[k].op.Set? then Mapping(calls[k].op.unix, calls[k].now) else POWER_ON
    decreases |calls|
  {
    var front := calls[..|calls| - 1];
    if k < |calls| - 1 {
      assert Rules(front, k);
      RulerIsInForce(front, k);
    }
  }

  lemma {:induction false} UnsetStaysAtPowerOn(calls: seq<Call>)
    requires OnlyReads(calls)
    ensures AfterCalls(calls) == POWER_ON
    decreases |calls|
  {
    if |calls| > 0 { UnsetStaysAtPowerOn(calls[..|calls| - 1]); }
  }

  /** After any run whose last change was setting `unix`, a read succeeds exactly when the sum
      fits, and gives `unix` plus the uptime elapsed since; the difference of uptimes never
      overflows. */
  lemma ReadsLastSet(calls: seq<Call>, k: int, now: int)
    requires Plausible(calls, now) && Rules(calls, k) && calls[k].op.Set?
    ensures Reading(AfterCalls(calls), now) ==
      (var expected := calls[k].op.unix + (now - calls[k].now);
       if expected <= INT64_MAX then Some(expected) else None)
  {
    RulerIsInForce(calls, k);
  }

  /** With no setting since power-on or since the last reset, a read gives the uptime itself. */
  lemma ReadsUptimeAfterReset(calls: seq<Call>, k: int, now: int)
    requires Plausible(calls, now) && (OnlyReads(calls) || (Rules(calls, k) && calls[k].op.Reset?))
    ensures Reading(AfterCalls(calls), now) == Some(now)
  {
    if OnlyReads(calls) { UnsetStaysAtPowerOn(calls); } else { RulerIsInForce(calls, k); }
  }

  lemma {:induction false} ReadsChangeNothing(calls: seq<Call>, more: seq<Call>)
    requires OnlyReads(more)
    ensures AfterCalls(calls + more) == AfterCalls(calls)
    decreases |more|
  {
    if |more| == 0 {
      assert calls + more == calls;
    } else {
      var front := more[..|more| - 1];
      assert (calls + more)[..|calls + more| - 1] == calls + front;
      ReadsChangeNothing(calls, front);
    }
  }

  /** Between two settings the clock never goes back and advances exactly with the uptime, and a
      read that fails keeps failing. */
  lemma ClockFollowsUptime(calls: seq<Call>, more: seq<Call>, earlier: int, later: int)
    requires Plausible(calls, earlier) && Plausible(calls + more, later) && OnlyReads(more) && earlier <= later
    ensures var a, b := Reading(AfterCalls(calls), earlier), Reading(AfterCalls(calls + more), later);
      && (b.Some? ==> a.Some? && b.value - a.value == later - earlier)
      && (a.None? ==> b.None?)
  {
    ReadsChangeNothing(calls, more);
    MappingIsPast(calls, earlier);
  }

  /** The mapping refers to an uptime that has passed. */
  lemma {:induction false} MappingIsPast(calls: seq<Call>, now: int)
    requires Plausible(calls, now)
    ensures 0 <= AfterCalls(calls).uptime <= now && IsInt64(AfterCalls(calls).unix)
    decreases |calls|
  {
    if |calls| > 0 {
      var front := calls[..|calls| - 1];
      assert forall i :: 0 <= i < |front| ==> front[i] == calls[i];
      MappingIsPast(front, now);
    }
  }

  /** Setting and reading at the same uptime round-trips every 64-bit value. */
  lemma SetGetRoundTrip(calls: seq<Call>, unix: int, now: int)
    requires IsInt64(unix)
    ensures Reading(AfterCalls(calls + [Call(Set(unix), now)]), now) == Some(unix)
  {
    var run := calls + [Call(Set(unix), now)];
    RulerIsInForce(run, |calls|);
  }
}
