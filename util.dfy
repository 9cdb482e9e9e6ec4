/** The profiler and the time formatter of to_trust/util.py. A profiler
    keeps, per timer name, the list of start and of stop timestamps and a
    hit count; the clock readings `time_ns()` are parameters. */
module Util {
  import opened Errors
  import Arith

  /** The conversion factors `Profiler.s`, `ms`, `us` and `ns`, in
      nanoseconds. */
  const Second: int := 1_000_000_000
  const Milli: int := 1_000_000
  const Micro: int := 1_000
  const Nano: int := 1

  /** One entry of `timers`: `{"start": [...], "stop": [...], "hits": n}`. */
  datatype Timer = Timer(starts: seq<int>, stops: seq<int>, hits: int)

  /** The sum of the n first `stop - start` differences. */
  function PairedSum(starts: seq<int>, stops: seq<int>, n: nat): int
    requires n <= |starts| && n <= |stops|
  {
    if n == 0 then 0 else PairedSum(starts, stops, n - 1) + (stops[n - 1] - starts[n - 1])
  }

  function IntSum(s: seq<int>, n: nat): int
    requires n <= |s|
  {
    if n == 0 then 0 else IntSum(s, n - 1) + s[n - 1]
  }

  /** The paired differences add up to the sum of the stops minus the sum
      of the starts. */
  lemma {:induction false} PairedSumSplit(starts: seq<int>, stops: seq<int>, n: nat)
    requires n <= |starts| && n <= |stops|
    ensures PairedSum(starts, stops, n) == IntSum(stops, n) - IntSum(starts, n)
  {
    if n > 0 {
      PairedSumSplit(starts, stops, n - 1);
    }
  }

  /** A clock that never runs backwards gives a non-negative total. */
  lemma {:induction false} PairedSumNonNegative(starts: seq<int>, stops: seq<int>, n: nat)
    requires n <= |starts| && n <= |stops|
    requires forall i :: 0 <= i < n ==> starts[i] <= stops[i]
    ensures PairedSum(starts, stops, n) >= 0
  {
    if n > 0 {
      PairedSumNonNegative(starts, stops, n - 1);
    }
  }

  class Profiler {
    var timers: map<string, Timer>

    /** Every timer counts exactly its stops. */
    ghost predicate Valid()
      reads this
    {
      forall name :: name in timers ==> timers[name].hits == |timers[name].stops|
    }

    /** The constructor: no timers. */
    constructor ()
      ensures Valid() && timers == map[]
    {
      timers := map[];
    }

    /** `start(name)` at clock reading `now`: a new name gets an empty
        timer first, then `now` is appended to its starts. */
    method Start(name: string, now: int)
      requires Valid()
      modifies this
      ensures Valid()
      ensures name !in old(timers) ==> timers == old(timers)[name := Timer([now], [], 0)]
      ensures name in old(timers) ==>
        timers == old(timers)[name := old(timers)[name].(starts := old(timers)[name].starts + [now])]
    {
      if name !in timers {
        timers := timers[name := Timer([], [], 0)];
        assert [] + [now] == [now];
      }
      var t := timers[name];
      timers := timers[name := t.(starts := t.starts + [now])];
    }

    /** `stop(name)` at clock reading `now`: an unknown name raises;
        otherwise `now` is appended to the stops and one hit is counted. */
    method Stop(name: string, now: int) returns (r: Outcome)
      requires Valid()
      modifies this
      ensures Valid()
      ensures name !in old(timers) ==> r == Fail(InvalidTimer) && timers == old(timers)
      ensures name in old(timers) ==>
        && r == Pass
        && timers == old(timers)[name := old(timers)[name].(stops := old(timers)[name].stops + [now],
                                                         hits := old(timers)[name].hits + 1)]
    {
      if name !in timers {
        return Fail(InvalidTimer);
      }
      var t := timers[name];
      timers := timers[name := t.(stops := t.stops + [now])];
      t := timers[name];
      timers := timers[name := t.(hits := t.hits + 1)];
      r := Pass;
    }

    /** `switch(name1, name2)`: `stop(name1)` and then, unless it raised,
        `start(name2)`. */
    method Switch(name1: string, name2: string, now1: int, now2: int) returns (r: Outcome)
      requires Valid()
      modifies this
      ensures Valid()
      ensures name1 !in old(timers) ==> r == Fail(InvalidTimer) && timers == old(timers)
      ensures name1 in old(timers) ==> r == Pass
      ensures name1 in old(timers) ==> name1 in timers && name2 in timers
      ensures name1 in old(timers) && name1 != name2 ==>
        && timers[name1].stops == old(timers)[name1].stops + [now1]
        && timers[name1].starts == old(timers)[name1].starts
        && timers[name2].starts == (if name2 in old(timers) then old(timers)[name2].starts else []) + [now2]
    {
      r := Stop(name1, now1);
      if r.Pass? {
        Start(name2, now2);
      }
    }

    /** `total_time(name)`: an unknown name raises; a timer started more
        often than it was stopped gives 0; otherwise the sum of the
        `stop - start` differences of the paired entries. */
    method TotalTime(name: string) returns (r: Result<int>)
      requires Valid()
      ensures name !in timers ==> r == Err(InvalidTimer)
      ensures name in timers && |timers[name].starts| != |timers[name].stops| ==> r == Ok(0)
      ensures name in timers && |timers[name].starts| == |timers[name].stops| ==>
        r == Ok(IntSum(timers[name].stops, |timers[name].stops|)
                - IntSum(timers[name].starts, |timers[name].starts|))
    {
      if name !in timers {
        return Err(InvalidTimer);
      }
      var t := timers[name];
      if |t.starts| != t.hits {
        return Ok(0);
      }
      var total := 0;
      var n := if |t.starts| < |t.stops| then |t.starts| else |t.stops|;
      for i := 0 to n
        invariant total == PairedSum(t.starts, t.stops, i)
      {
        total := total + (t.stops[i] - t.starts[i]);
      }
      PairedSumSplit(t.starts, t.stops, n);
      r := Ok(total);
    }

    /** A `profile`-wrapped call of f on x, timed under `name` with the
        clock readings `before` and `after`. The timer gains a start
        first; when f raises, its exception propagates and the timer keeps
        that start without a stop or a hit; otherwise the result is f's and
        the timer also gains one stop and one hit. */
    method Profile<A, B>(name: string, f: A -> Result<B>, x: A, before: int, after: int) returns (r: Result<B>)
      requires Valid()
      modifies this
      ensures Valid()
      ensures r == f(x)
      ensures name in timers
      ensures timers[name].starts == (if name in old(timers) then old(timers)[name].starts else []) + [before]
      ensures r.Ok? ==> timers[name].stops == (if name in old(timers) then old(timers)[name].stops else []) + [after]
      ensures r.Ok? ==> timers[name].hits == (if name in old(timers) then old(timers)[name].hits else 0) + 1
      ensures r.Err? ==> timers[name].stops == (if name in old(timers) then old(timers)[name].stops else [])
      ensures r.Err? ==> timers[name].hits == (if name in old(timers) then old(timers)[name].hits else 0)
      ensures forall n :: n != name ==> (n in timers <==> n in old(timers))
      ensures forall n :: n != name && n in old(timers) ==> timers[n] == old(timers)[n]
    {
      Start(name, before);
      r := f(x);
      if r.Err? {
        return;
      }
      var _ := Stop(name, after);
    }
  }

  /** The argument of `format_time`: a string, or a number of nanoseconds. */
  datatype TimeValue = Text(s: string) | Nanos(x: real)

  /** The unit `format_time` picks. */
  datatype Unit = Seconds | Millis | Micros | Nanoseconds

  /** Nanoseconds per unit. */
  function Factor(u: Unit): (r: int)
    ensures r >= 1
  {
    match u
    case Seconds => Second
    case Millis => Milli
    case Micros => Micro
    case Nanoseconds => Nano
  }

  /** What `format_time` shows: a string unchanged, or a number scaled to
      a unit (the two-decimal rendering is not modelled). */
  datatype Shown = Same(s: string) | Scaled(value: real, unit: Unit)

  /** `format_time(x)`: the first unit whose size x strictly exceeds. */
  function FormatTime(v: TimeValue): (r: Shown)
    ensures v.Text? ==> r == Same(v.s)
    ensures v.Nanos? ==> r.Scaled? && r.value == v.x / Factor(r.unit) as real
  {
    match v
    case Text(s) => Same(s)
    case Nanos(x) =>
      var u := if x > Second as real then Seconds
               else if x > Milli as real then Millis
               else if x > Micro as real then Micros
               else Nanoseconds;
      Scaled(x / Factor(u) as real, u)
  }

  /** The shown number exceeds 1 whenever a unit larger than nanoseconds
      is chosen, and stays at most 1000 whenever a unit smaller than
      seconds is chosen. */
  lemma FormatRange(x: real)
    ensures var r := FormatTime(Nanos(x));
      && (r.unit != Nanoseconds ==> r.value > 1.0)
      && (r.unit != Seconds ==> r.value <= 1000.0)
      && (r.unit == Nanoseconds <==> x <= Micro as real)
      && (r.unit == Seconds <==> x > Second as real)
  {
    var r := FormatTime(Nanos(x));
    var f := Factor(r.unit) as real;
    var q := r.value;
    assert q * f == x;
    Arith.MulSigns(f, q - 1.0);
    Arith.MulSigns(f, q - 1000.0);
  }
}
