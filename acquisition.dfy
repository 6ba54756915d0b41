/**
 * The daemon's device loop (cmd/belowdeck/main.go): the single-flight guard
 * around device enumeration, the bounded retries of `waitForHardwareDevice`,
 * the draining of stale wake signals, and the fixed resource grants of
 * `runWithDevice`. Enumeration runs on its own goroutine in the daemon; here
 * each attempt names its outcome, and a stuck enumeration finishes in an
 * explicit step.
 */
module Acquisition {
  import opened Wrappers
  import opened Geometry
  import opened Resources
  import opened Coordination

  /** An opened hardware device. */
  type DeviceRef = nat

  /** How one enumeration goes: it opens a device in time, fails, or is still blocked when the 5 s timeout fires. */
  datatype Outcome = Opened(dev: DeviceRef) | GetDeviceFailed | OpenFailed | TimedOut

  /** One attempt: whether a stuck enumeration returned first (and with what), and how this attempt's enumeration goes. */
  datatype Probe = Probe(stuckReturns: Option<Option<DeviceRef>>, outcome: Outcome)

  /** What wakes the outer wait. */
  datatype Signal = Cancel | Arrival | Wake

  /** Why an attempt was made. */
  datatype Cause = Initial | AfterArrival | AfterWake(round: nat)

  datatype WaitResult = Connected(dev: DeviceRef) | Cancelled | StillWaiting

  /** The most attempts a run of signals allows: one per arrival, ten per wake. */
  function AttemptBudget(signals: seq<Signal>): nat {
    if signals == [] then 0
    else
      var last := signals[|signals| - 1];
      AttemptBudget(signals[..|signals| - 1]) + (match last case Arrival => 1 case Wake => 10 case Cancel => 0)
  }

  const WakeRetries := 10

  // What one attempt does, given whether an enumeration is in flight when it starts.

  /** The guard lets a new enumeration start: none is in flight, or the stuck one returns first. */
  predicate Free(inFlight: bool, p: Probe) {
    !inFlight || p.stuckReturns.Some?
  }

  /** The device an attempt returns. */
  function ProbeResult(inFlight: bool, p: Probe): Option<DeviceRef> {
    if Free(inFlight, p) && p.outcome.Opened? then Some(p.outcome.dev) else None
  }

  /** Whether an enumeration is in flight after the attempt. */
  function FlagAfter(inFlight: bool, p: Probe): bool {
    if Free(inFlight, p) then p.outcome.TimedOut? else true
  }

  /** The late device the attempt closes, if the stuck enumeration returned one. */
  function LateClosed(inFlight: bool, p: Probe): seq<DeviceRef> {
    if inFlight && p.stuckReturns.Some? && p.stuckReturns.value.Some? then [p.stuckReturns.value.value] else []
  }

  /** Whether an enumeration is in flight before attempt `n`, starting from `inFlight`. */
  function FlagBefore(inFlight: bool, probes: seq<Probe>, n: nat): bool
    requires n <= |probes|
  {
    if n == 0 then inFlight else FlagAfter(FlagBefore(inFlight, probes, n - 1), probes[n - 1])
  }

  /** What attempt `j` returns. */
  function OutcomeAt(inFlight: bool, probes: seq<Probe>, j: nat): Option<DeviceRef>
    requires j < |probes|
  {
    ProbeResult(FlagBefore(inFlight, probes, j), probes[j])
  }

  /** None of the first `n` attempts returns a device. */
  predicate NoneBefore(inFlight: bool, probes: seq<Probe>, n: nat)
    requires n <= |probes|
  {
    n == 0 || (NoneBefore(inFlight, probes, n - 1) && OutcomeAt(inFlight, probes, n - 1) == None)
  }

  lemma {:induction false} NoneBeforeMeans(inFlight: bool, probes: seq<Probe>, n: nat)
    requires n <= |probes| && NoneBefore(inFlight, probes, n)
    ensures forall j :: 0 <= j < n ==> OutcomeAt(inFlight, probes, j) == None
  {
    if n > 0 {
      NoneBeforeMeans(inFlight, probes, n - 1);
    }
  }

  /** Enumerations started by the first `n` attempts. */
  function StartsBefore(inFlight: bool, probes: seq<Probe>, n: nat): nat
    requires n <= |probes|
  {
    if n == 0 then 0
    else StartsBefore(inFlight, probes, n - 1) + (if Free(FlagBefore(inFlight, probes, n - 1), probes[n - 1]) then 1 else 0)
  }

  /** Late devices closed during the first `n` attempts. */
  function LateBefore(inFlight: bool, probes: seq<Probe>, n: nat): seq<DeviceRef>
    requires n <= |probes|
  {
    if n == 0 then []
    else LateBefore(inFlight, probes, n - 1) + LateClosed(FlagBefore(inFlight, probes, n - 1), probes[n - 1])
  }

  /**
   * Once an enumeration is stuck, every later attempt returns nothing and
   * starts nothing until the stuck one returns.
   */
  lemma {:induction false} StuckBlocksAll(inFlight: bool, probes: seq<Probe>, k: nat, j: nat)
    requires k <= j < |probes|
    requires FlagBefore(inFlight, probes, k)
    requires forall i :: k <= i <= j ==> probes[i].stuckReturns.None?
    ensures OutcomeAt(inFlight, probes, j) == None
    ensures FlagBefore(inFlight, probes, j + 1)
    ensures StartsBefore(inFlight, probes, j + 1) == StartsBefore(inFlight, probes, k)
    decreases j - k
  {
    if k < j {
      StuckBlocksAll(inFlight, probes, k, j - 1);
    }
  }

  /** Each attempt starts at most one enumeration. */
  lemma {:induction false} StartsAtMostAttempts(inFlight: bool, probes: seq<Probe>, n: nat)
    requires n <= |probes|
    ensures StartsBefore(inFlight, probes, n) <= n
  {
    if n > 0 {
      StartsAtMostAttempts(inFlight, probes, n - 1);
    }
  }

  // The attempts the signals and pauses call for when none of them finds a device.

  /** The causes of the attempts, in order, and how the wait ends if all of them fail. */
  datatype Schedule = Schedule(causes: seq<Cause>, ending: WaitResult)

  function Then(c: Cause, s: Schedule): Schedule {
    Schedule([c] + s.causes, s.ending)
  }

  /** One attempt before waiting, then what the signals call for. */
  function Plan(signals: seq<Signal>, pauses: seq<bool>): Schedule {
    Then(Initial, PlanFrom(signals, pauses))
  }

  /** The outer wait: a cancel ends it, an arrival makes one attempt, a wake starts the retry rounds. */
  function PlanFrom(signals: seq<Signal>, pauses: seq<bool>): Schedule
    decreases |signals|, 0
  {
    if signals == [] then Schedule([], StillWaiting)
    else
      match signals[0]
      case Cancel => Schedule([], Cancelled)
      case Arrival => Then(AfterArrival, PlanFrom(signals[1..], pauses))
      case Wake => WakeRounds(0, signals[1..], pauses)
  }

  /** Retry round `i` after a wake: an attempt, then a pause that a cancellation ends. */
  function WakeRounds(i: nat, signals: seq<Signal>, pauses: seq<bool>): Schedule
    requires i <= WakeRetries
    decreases |signals|, WakeRetries + 1 - i
  {
    if i == WakeRetries then PlanFrom(signals, pauses)
    else if pauses == [] then Schedule([AfterWake(i)], StillWaiting)
    else if pauses[0] then Schedule([AfterWake(i)], Cancelled)
    else Then(AfterWake(i), WakeRounds(i + 1, signals, pauses[1..]))
  }

  /** The causes `AfterWake(i)`, ..., `AfterWake(n - 1)`. */
  function Rounds(i: nat, n: nat): (r: seq<Cause>)
    ensures |r| == (if i <= n then n - i else 0)
    ensures forall j :: 0 <= j < |r| ==> r[j] == AfterWake(i + j)
  {
    seq(if i <= n then n - i else 0, (j: nat) => AfterWake(i + j))
  }

  /** The attempts one signal calls for when nothing interrupts them. */
  function Cost(sig: Signal): seq<Cause> {
    match sig
    case Cancel => []
    case Arrival => [AfterArrival]
    case Wake => Rounds(0, WakeRetries)
  }

  /** The attempts a run of signals calls for when nothing interrupts them. */
  function Expand(signals: seq<Signal>): seq<Cause> {
    if signals == [] then [] else Cost(signals[0]) + Expand(signals[1..])
  }

  /** The pauses the wakes among `signals` go through. */
  function WakePauses(signals: seq<Signal>): nat {
    if signals == [] then 0 else SignalPauses(signals[0]) + WakePauses(signals[1..])
  }

  /** The pauses one signal goes through: ten for a wake, none otherwise. */
  function SignalPauses(sig: Signal): nat {
    if sig == Wake then WakeRetries else 0
  }

  /** The pauses that pass without a cancellation. */
  predicate QuietPauses(pauses: seq<bool>, n: nat) {
    n <= |pauses| && forall k :: 0 <= k < n ==> !pauses[k]
  }

  /** The rounds from `i` are round `i` followed by the rounds from `i + 1`. */
  lemma RoundsCons(i: nat, n: nat)
    requires i < n
    ensures Rounds(i, n) == [AfterWake(i)] + Rounds(i + 1, n)
  {
    var r, r' := Rounds(i, n), [AfterWake(i)] + Rounds(i + 1, n);
    assert |r| == |r'|;
    forall j | 0 <= j < |r| ensures r[j] == r'[j] {
      if j > 0 {
        assert r'[j] == Rounds(i + 1, n)[j - 1];
      }
    }
  }

  lemma {:induction false} BudgetConcat(a: seq<Signal>, b: seq<Signal>)
    ensures AttemptBudget(a + b) == AttemptBudget(a) + AttemptBudget(b)
    decreases |b|
  {
    if b == [] {
      assert a + b == a;
    } else {
      var init := b[..|b| - 1];
      assert (a + b)[..|a + b| - 1] == a + init;
      BudgetConcat(a, init);
    }
  }

  /** The attempts of one signal, uninterrupted: one for an arrival, ten for a wake. */
  lemma CostLength(sig: Signal)
    ensures |Cost(sig)| == AttemptBudget([sig])
  {
    assert [sig][..0] == [];
  }

  /** Uninterrupted, a run of signals calls for exactly its attempt budget. */
  lemma {:induction false} ExpandLength(a: seq<Signal>)
    ensures |Expand(a)| == AttemptBudget(a)
  {
    if a != [] {
      ExpandLength(a[1..]);
      CostLength(a[0]);
      assert [a[0]] + a[1..] == a;
      BudgetConcat([a[0]], a[1..]);
    }
  }

  /** The attempts of two runs of signals follow each other. */
  lemma {:induction false} ExpandConcat(a: seq<Signal>, b: seq<Signal>)
    ensures Expand(a + b) == Expand(a) + Expand(b)
  {
    if a == [] {
      assert a + b == b;
    } else {
      var x, rest := a[0], a[1..];
      assert a + b == [x] + (rest + b);
      assert Expand(a + b) == Cost(x) + Expand(rest + b);
      ExpandConcat(rest, b);
      assert Expand(a) == Cost(x) + Expand(rest);
      assert Cost(x) + (Expand(rest) + Expand(b)) == (Cost(x) + Expand(rest)) + Expand(b);
    }
  }

  /** Causes other than the first are never `Initial`, and retry rounds stay below ten. */
  predicate LaterCauses(cs: seq<Cause>) {
    forall c :: c in cs ==> c != Initial && (c.AfterWake? ==> c.round < WakeRetries)
  }

  lemma {:induction false} PlanFromShape(signals: seq<Signal>, pauses: seq<bool>)
    ensures LaterCauses(PlanFrom(signals, pauses).causes)
    ensures !PlanFrom(signals, pauses).ending.Connected?
    ensures |PlanFrom(signals, pauses).causes| <= AttemptBudget(signals)
    decreases |signals|, 0
  {
    if signals != [] {
      assert [signals[0]] + signals[1..] == signals;
      BudgetConcat([signals[0]], signals[1..]);
      assert [signals[0]][..0] == [];
      match signals[0]
      case Cancel =>
      case Arrival =>
        PlanFromShape(signals[1..], pauses);
      case Wake =>
        WakeRoundsShape(0, signals[1..], pauses);
    }
  }

  lemma {:induction false} WakeRoundsShape(i: nat, signals: seq<Signal>, pauses: seq<bool>)
    requires i <= WakeRetries
    ensures LaterCauses(WakeRounds(i, signals, pauses).causes)
    ensures !WakeRounds(i, signals, pauses).ending.Connected?
    ensures |WakeRounds(i, signals, pauses).causes| <= WakeRetries - i + AttemptBudget(signals)
    decreases |signals|, WakeRetries + 1 - i
  {
    if i == WakeRetries {
      PlanFromShape(signals, pauses);
    } else if pauses != [] && !pauses[0] {
      WakeRoundsShape(i + 1, signals, pauses[1..]);
    }
  }

  /**
   * The wait makes one attempt before anything else, only that one is
   * `Initial`, retry rounds stay below ten, and there are at most one more
   * attempt than the signals' budget.
   */
  lemma PlanShape(signals: seq<Signal>, pauses: seq<bool>)
    ensures Plan(signals, pauses).causes != [] && Plan(signals, pauses).causes[0] == Initial
    ensures LaterCauses(Plan(signals, pauses).causes[1..])
    ensures |Plan(signals, pauses).causes| <= 1 + AttemptBudget(signals)
    ensures !Plan(signals, pauses).ending.Connected?
  {
    PlanFromShape(signals, pauses);
    assert Plan(signals, pauses).causes[1..] == PlanFrom(signals, pauses).causes;
  }

  /** Quiet pauses stay quiet once the first `d` of them are dropped. */
  lemma QuietSuffix(pauses: seq<bool>, n: nat, d: nat)
    requires QuietPauses(pauses, n) && d <= n
    ensures QuietPauses(pauses[d..], n - d)
  {
    forall k | 0 <= k < n - d
      ensures !pauses[d..][k]
    {
      assert pauses[d..][k] == pauses[d + k];
    }
  }

  /** Retry rounds `i` to nine of a wake, with no cancellation in their pauses, then the outer wait. */
  lemma {:induction false} WakeRoundsQuiet(i: nat, signals: seq<Signal>, pauses: seq<bool>)
    requires i <= WakeRetries && QuietPauses(pauses, WakeRetries - i)
    ensures WakeRounds(i, signals, pauses).causes
         == Rounds(i, WakeRetries) + PlanFrom(signals, pauses[WakeRetries - i..]).causes
    ensures WakeRounds(i, signals, pauses).ending == PlanFrom(signals, pauses[WakeRetries - i..]).ending
    decreases WakeRetries - i
  {
    if i == WakeRetries {
      assert pauses[0..] == pauses;
      assert Rounds(i, WakeRetries) == [];
    } else {
      var after := PlanFrom(signals, pauses[WakeRetries - i..]);
      assert pauses != [] && !pauses[0];
      QuietSuffix(pauses, WakeRetries - i, 1);
      assert pauses[1..][WakeRetries - (i + 1)..] == pauses[WakeRetries - i..];
      WakeRoundsQuiet(i + 1, signals, pauses[1..]);
      assert WakeRounds(i, signals, pauses) == Then(AfterWake(i), WakeRounds(i + 1, signals, pauses[1..]));
      RoundsCons(i, WakeRetries);
      assert [AfterWake(i)] + (Rounds(i + 1, WakeRetries) + after.causes)
          == ([AfterWake(i)] + Rounds(i + 1, WakeRetries)) + after.causes;
    }
  }

  /** One signal other than a cancel, with no cancellation in its pauses, makes its attempts and passes on. */
  lemma OneSignalQuiet(x: Signal, more: seq<Signal>, pauses: seq<bool>)
    requires x != Cancel && QuietPauses(pauses, SignalPauses(x))
    ensures PlanFrom([x] + more, pauses).causes == Cost(x) + PlanFrom(more, pauses[SignalPauses(x)..]).causes
    ensures PlanFrom([x] + more, pauses).ending == PlanFrom(more, pauses[SignalPauses(x)..]).ending
  {
    assert ([x] + more)[0] == x && ([x] + more)[1..] == more;
    if x == Arrival {
      assert pauses[0..] == pauses;
    } else {
      WakeRoundsQuiet(0, more, pauses);
    }
  }

  /** Without cancellation, each signal's attempts come in order, and the rest of the wait follows them. */
  lemma {:induction false} PlanFromQuiet(signals: seq<Signal>, tail: seq<Signal>, pauses: seq<bool>)
    requires Cancel !in signals && QuietPauses(pauses, WakePauses(signals))
    ensures PlanFrom(signals + tail, pauses).causes
         == Expand(signals) + PlanFrom(tail, pauses[WakePauses(signals)..]).causes
    ensures PlanFrom(signals + tail, pauses).ending == PlanFrom(tail, pauses[WakePauses(signals)..]).ending
  {
    if signals == [] {
      assert signals + tail == tail;
      assert pauses[0..] == pauses;
    } else {
      var x, rest := signals[0], signals[1..];
      var px := SignalPauses(x);
      assert x in signals;
      assert Cancel !in rest by {
        assert forall y :: y in rest ==> y in signals;
      }
      assert signals + tail == [x] + (rest + tail);
      assert QuietPauses(pauses, px);
      OneSignalQuiet(x, rest + tail, pauses);
      var later := pauses[px..];
      QuietSuffix(pauses, WakePauses(signals), px);
      PlanFromQuiet(rest, tail, later);
      assert later[WakePauses(rest)..] == pauses[WakePauses(signals)..];
      var t := PlanFrom(tail, pauses[WakePauses(signals)..]);
      assert Expand(signals) == Cost(x) + Expand(rest);
      assert Cost(x) + (Expand(rest) + t.causes) == (Cost(x) + Expand(rest)) + t.causes;
    }
  }

  /**
   * With no cancellation anywhere, the wait makes the first attempt, one per
   * arrival and ten per wake, in order, and then goes on waiting.
   */
  lemma UninterruptedPlan(signals: seq<Signal>, pauses: seq<bool>)
    requires Cancel !in signals && QuietPauses(pauses, WakePauses(signals))
    ensures Plan(signals, pauses) == Schedule([Initial] + Expand(signals), StillWaiting)
  {
    PlanFromQuiet(signals, [], pauses);
    assert signals + [] == signals;
  }

  /** A cancel signal after uninterrupted signals ends the wait there, cancelled. */
  lemma CancelSignalStops(signals: seq<Signal>, more: seq<Signal>, pauses: seq<bool>)
    requires Cancel !in signals && QuietPauses(pauses, WakePauses(signals))
    ensures Plan(signals + [Cancel] + more, pauses) == Schedule([Initial] + Expand(signals), Cancelled)
  {
    PlanFromQuiet(signals, [Cancel] + more, pauses);
    assert signals + [Cancel] + more == signals + ([Cancel] + more);
    assert Expand(signals) + [] == Expand(signals);
  }

  lemma {:induction false} WakeRoundsCancelled(i: nat, signals: seq<Signal>, pauses: seq<bool>, k: nat)
    requires i + k < WakeRetries && QuietPauses(pauses, k) && k < |pauses| && pauses[k]
    ensures WakeRounds(i, signals, pauses) == Schedule(Rounds(i, i + k + 1), Cancelled)
    decreases k
  {
    if k > 0 {
      QuietSuffix(pauses, k, 1);
      assert pauses[1..][k - 1] == pauses[k];
      WakeRoundsCancelled(i + 1, signals, pauses[1..], k - 1);
      RoundsCons(i, i + k + 1);
    } else {
      RoundsCons(i, i + 1);
    }
  }

  /** A wake whose pause after round `k` sees a cancellation ends the wait, cancelled, after rounds 0 to `k`. */
  lemma WakeCancelled(more: seq<Signal>, pauses: seq<bool>, k: nat)
    requires k < WakeRetries && QuietPauses(pauses, k) && k < |pauses| && pauses[k]
    ensures PlanFrom([Wake] + more, pauses) == Schedule(Rounds(0, k + 1), Cancelled)
  {
    assert ([Wake] + more)[0] == Wake && ([Wake] + more)[1..] == more;
    WakeRoundsCancelled(0, more, pauses, k);
  }

  /**
   * A cancellation seen in the pause after retry round `k` of a wake ends the
   * wait there, cancelled, after rounds 0 to `k`.
   */
  lemma CancelledPauseStops(signals: seq<Signal>, more: seq<Signal>, pauses: seq<bool>, k: nat)
    requires Cancel !in signals && k < WakeRetries
    requires QuietPauses(pauses, WakePauses(signals) + k) && WakePauses(signals) + k < |pauses|
    requires pauses[WakePauses(signals) + k]
    ensures Plan(signals + [Wake] + more, pauses)
         == Schedule([Initial] + Expand(signals) + Rounds(0, k + 1), Cancelled)
  {
    var w := WakePauses(signals);
    var e, r := Expand(signals), Rounds(0, k + 1);
    assert PlanFrom([Wake] + more, pauses[w..]) == Schedule(r, Cancelled) by {
      QuietSuffix(pauses, w + k, w);
      assert pauses[w..][k] == pauses[w + k];
      WakeCancelled(more, pauses[w..], k);
    }
    assert PlanFrom(signals + [Wake] + more, pauses) == Schedule(e + r, Cancelled) by {
      assert QuietPauses(pauses, w);
      PlanFromQuiet(signals, [Wake] + more, pauses);
      assert signals + [Wake] + more == signals + ([Wake] + more);
    }
    assert [Initial] + (e + r) == [Initial] + e + r;
  }

  /**
   * The attempts made so far, `causes`, are the plan's first ones, none of
   * them returned a device, and `rest` is what the plan still calls for.
   */
  ghost predicate OnPlan(f0: bool, probes: seq<Probe>, plan: Schedule, causes: seq<Cause>, rest: Schedule) {
    |causes| <= |probes| && NoneBefore(f0, probes, |causes|)
    && !plan.ending.Connected?
    && plan == Schedule(causes + rest.causes, rest.ending)
  }

  /**
   * How a wait that made the attempts `causes` ended with `r`: the attempts
   * are the plan's first ones; it connected exactly when the last attempt
   * returned a device, none before it did, and the device is that one;
   * otherwise it made every attempt of the plan and ends as the plan does,
   * or ran out of probes first and is still waiting.
   */
  ghost predicate Settled(f0: bool, probes: seq<Probe>, plan: Schedule, causes: seq<Cause>, r: WaitResult) {
    causes != [] && |causes| <= |probes| && |causes| <= |plan.causes| && causes == plan.causes[..|causes|]
    && NoneBefore(f0, probes, |causes| - 1)
    && (r.Connected? <==> OutcomeAt(f0, probes, |causes| - 1).Some?)
    && (r.Connected? ==> OutcomeAt(f0, probes, |causes| - 1) == Some(r.dev))
    && (!r.Connected? ==>
          (|causes| == |plan.causes| && r == plan.ending)
          || (|causes| == |probes| < |plan.causes| && r == StillWaiting))
  }

  /** Once the plan's attempts are used up, the wait ends as the plan does. */
  lemma SettleAtEnd(f0: bool, probes: seq<Probe>, plan: Schedule, causes: seq<Cause>, rest: Schedule)
    requires OnPlan(f0, probes, plan, causes, rest) && causes != [] && rest.causes == []
    ensures Settled(f0, probes, plan, causes, rest.ending)
  {
    assert plan.causes == causes;
  }

  /** When the probes run out before the plan does, the wait is still waiting. */
  lemma SettleOutOfProbes(f0: bool, probes: seq<Probe>, plan: Schedule, causes: seq<Cause>, rest: Schedule)
    requires OnPlan(f0, probes, plan, causes, rest) && causes != [] && |causes| == |probes| && rest.causes != []
    ensures Settled(f0, probes, plan, causes, StillWaiting)
  {
    assert plan.causes[..|causes|] == causes;
  }

  /**
   * The attempt the plan calls for next, for cause `c`: it connects the wait
   * with the device it returns, or the wait goes on with the rest of the plan.
   */
  lemma AttemptStep(f0: bool, probes: seq<Probe>, plan: Schedule, causes: seq<Cause>, c: Cause, rest: Schedule)
    requires OnPlan(f0, probes, plan, causes, Then(c, rest)) && |causes| < |probes|
    ensures OutcomeAt(f0, probes, |causes|).Some? ==>
              Settled(f0, probes, plan, causes + [c], Connected(OutcomeAt(f0, probes, |causes|).value))
    ensures OutcomeAt(f0, probes, |causes|).None? ==> OnPlan(f0, probes, plan, causes + [c], rest)
  {
    assert plan.causes == (causes + [c]) + rest.causes;
    assert plan.causes[..|causes| + 1] == causes + [c];
  }

  /** A settled wait starts with the attempt before waiting and stays within the signals' budget. */
  lemma SettledWait(f0: bool, probes: seq<Probe>, signals: seq<Signal>, pauses: seq<bool>, causes: seq<Cause>, r: WaitResult)
    requires Settled(f0, probes, Plan(signals, pauses), causes, r)
    ensures causes[0] == Initial && LaterCauses(causes[1..]) && |causes| <= 1 + AttemptBudget(signals)
  {
    var plan := Plan(signals, pauses);
    PlanShape(signals, pauses);
    assert causes[0] == plan.causes[..|causes|][0];
    assert causes[1..] == plan.causes[1..][..|causes| - 1];
  }

  class Acquirer {
    /** `enumInFlight`: an enumeration goroutine has not returned yet. */
    var enumInFlight: bool
    /** Enumerations started. */
    var started: nat
    /** Devices that arrived after their enumeration had timed out, and were closed. */
    var closedLate: seq<DeviceRef>
    /** `wakeCh` holds its one buffered signal. */
    var wakeQueued: bool

    constructor ()
      ensures !enumInFlight && started == 0 && closedLate == [] && !wakeQueued
    {
      enumInFlight, started, closedLate, wakeQueued := false, 0, [], false;
    }

    /**
     * `tryGetDeviceWithTimeout`. While an enumeration is in flight nothing is
     * started and the answer is nil. Otherwise one enumeration starts; errors
     * give nil, a device opened in time is returned, and an enumeration that
     * outlives the timeout gives nil and stays in flight.
     */
    method TryGetDevice(o: Outcome) returns (dev: Option<DeviceRef>)
      modifies this`enumInFlight, this`started
      ensures old(enumInFlight) ==> dev == None && enumInFlight && started == old(started)
      ensures !old(enumInFlight) ==> started == old(started) + 1
      ensures !old(enumInFlight) ==> dev == (if o.Opened? then Some(o.dev) else None)
      ensures !old(enumInFlight) ==> (enumInFlight <==> o.TimedOut?)
    {
      if enumInFlight {
        return None;
      }
      enumInFlight := true;
      started := started + 1;
      match o
      case Opened(d) =>
        enumInFlight := false;
        dev := Some(d);
      case GetDeviceFailed =>
        enumInFlight := false;
        dev := None;
      case OpenFailed =>
        enumInFlight := false;
        dev := None;
      case TimedOut =>
        dev := None;
    }

    /** The stuck enumeration returns: the flag clears, and a device it opened is closed, never handed out. */
    method FinishStuckEnumeration(late: Option<DeviceRef>)
      modifies this`enumInFlight, this`closedLate
      ensures !enumInFlight
      ensures closedLate == old(closedLate) + (if old(enumInFlight) && late.Some? then [late.value] else [])
    {
      if enumInFlight {
        enumInFlight := false;
        if late.Some? {
          closedLate := closedLate + [late.value];
        }
      }
    }

    /**
     * One attempt of the wait loop: the stuck enumeration, if it returns
     * first, is finished off, then `tryGetDeviceWithTimeout` runs.
     */
    method Attempt(p: Probe) returns (dev: Option<DeviceRef>)
      modifies this`enumInFlight, this`started, this`closedLate
      ensures dev == ProbeResult(old(enumInFlight), p)
      ensures enumInFlight == FlagAfter(old(enumInFlight), p)
      ensures started == old(started) + (if Free(old(enumInFlight), p) then 1 else 0)
      ensures closedLate == old(closedLate) + LateClosed(old(enumInFlight), p)
    {
      if p.stuckReturns.Some? {
        FinishStuckEnumeration(p.stuckReturns.value);
      }
      dev := TryGetDevice(p.outcome);
    }

    /** The counters after the first `n` attempts of a run that started from `f0`, `base` and `baseLate`. */
    ghost predicate Counters(f0: bool, base: nat, baseLate: seq<DeviceRef>, probes: seq<Probe>, n: nat)
      reads this
    {
      n <= |probes|
      && enumInFlight == FlagBefore(f0, probes, n)
      && started == base + StartsBefore(f0, probes, n)
      && closedLate == baseLate + LateBefore(f0, probes, n)
    }

    /** Attempt `n` of a run that started from `f0`, with the counters started at `base` and `baseLate`. */
    method AttemptAt(ghost f0: bool, ghost base: nat, ghost baseLate: seq<DeviceRef>, probes: seq<Probe>, n: nat)
      returns (dev: Option<DeviceRef>)
      requires n < |probes| && Counters(f0, base, baseLate, probes, n)
      modifies this`enumInFlight, this`started, this`closedLate
      ensures dev == OutcomeAt(f0, probes, n)
      ensures Counters(f0, base, baseLate, probes, n + 1)
    {
      dev := Attempt(probes[n]);
    }

    /**
     * The retries after a wake (`for i := 0; i < 10; i++`): an attempt, then
     * a 500 ms pause that a cancellation ends. `done` is how the wait ends,
     * if it does here; otherwise the outer wait resumes with the pauses from
     * `q` on.
     */
    method RetryAfterWake(ghost f0: bool, ghost base: nat, ghost baseLate: seq<DeviceRef>, ghost plan: Schedule,
                          signals: seq<Signal>, pauses: seq<bool>, probes: seq<Probe>, causes0: seq<Cause>, q0: nat)
      returns (done: Option<WaitResult>, causes: seq<Cause>, q: nat)
      requires q0 <= |pauses| && causes0 != []
      requires OnPlan(f0, probes, plan, causes0, WakeRounds(0, signals, pauses[q0..]))
      requires Counters(f0, base, baseLate, probes, |causes0|)
      modifies this`enumInFlight, this`started, this`closedLate
      ensures Counters(f0, base, baseLate, probes, |causes|)
      ensures done.Some? ==> Settled(f0, probes, plan, causes, done.value)
      ensures done.None? ==> q <= |pauses| && causes != [] && OnPlan(f0, probes, plan, causes, PlanFrom(signals, pauses[q..]))
    {
      causes, q := causes0, q0;
      for i := 0 to WakeRetries
        invariant q <= |pauses| && causes != []
        invariant OnPlan(f0, probes, plan, causes, WakeRounds(i, signals, pauses[q..]))
        invariant Counters(f0, base, baseLate, probes, |causes|)
      {
        ghost var after := if q == |pauses| then Schedule([], StillWaiting)
                           else if pauses[q] then Schedule([], Cancelled)
                           else WakeRounds(i + 1, signals, pauses[q + 1..]);
        assert q < |pauses| ==> pauses[q..][0] == pauses[q] && pauses[q..][1..] == pauses[q + 1..];
        assert WakeRounds(i, signals, pauses[q..]) == Then(AfterWake(i), after);
        if |causes| == |probes| {
          SettleOutOfProbes(f0, probes, plan, causes, Then(AfterWake(i), after));
          return Some(StillWaiting), causes, q;
        }
        var dev := AttemptAt(f0, base, baseLate, probes, |causes|);
        AttemptStep(f0, probes, plan, causes, AfterWake(i), after);
        causes := causes + [AfterWake(i)];
        if dev.Some? {
          return Some(Connected(dev.value)), causes, q;
        }
        if q == |pauses| {
          SettleAtEnd(f0, probes, plan, causes, after);
          return Some(StillWaiting), causes, q;
        }
        var cancelled := pauses[q];
        if cancelled {
          SettleAtEnd(f0, probes, plan, causes, after);
          return Some(Cancelled), causes, q;
        }
        q := q + 1;
      }
      done := None;
    }

    /**
     * The `for { select ... }` loop of `waitForHardwareDevice`, entered once
     * the attempts `causes0` have found nothing. A cancel signal ends it; an
     * arrival makes one attempt; a wake makes up to ten, each followed by a
     * 500 ms pause that a cancellation ends. It follows the plan attempt by
     * attempt, and `Settled` says how it stops.
     */
    method WaitForSignals(ghost f0: bool, ghost base: nat, ghost baseLate: seq<DeviceRef>, ghost plan: Schedule,
                          signals: seq<Signal>, pauses: seq<bool>, probes: seq<Probe>, causes0: seq<Cause>)
      returns (r: WaitResult, causes: seq<Cause>)
      requires causes0 != [] && OnPlan(f0, probes, plan, causes0, PlanFrom(signals, pauses))
      requires Counters(f0, base, baseLate, probes, |causes0|)
      modifies this`enumInFlight, this`started, this`closedLate
      ensures Settled(f0, probes, plan, causes, r)
      ensures Counters(f0, base, baseLate, probes, |causes|)
    {
      causes := causes0;
      var s: nat, q: nat := 0, 0;
      assert signals[0..] == signals && pauses[0..] == pauses;
      while s < |signals|
        invariant s <= |signals| && q <= |pauses| && causes != []
        invariant OnPlan(f0, probes, plan, causes, PlanFrom(signals[s..], pauses[q..]))
        invariant Counters(f0, base, baseLate, probes, |causes|)
      {
        assert signals[s..][0] == signals[s] && signals[s..][1..] == signals[s + 1..];
        match signals[s]
        case Cancel =>
          SettleAtEnd(f0, probes, plan, causes, PlanFrom(signals[s..], pauses[q..]));
          return Cancelled, causes;
        case Arrival =>
          ghost var rest := PlanFrom(signals[s + 1..], pauses[q..]);
          if |causes| == |probes| {
            SettleOutOfProbes(f0, probes, plan, causes, Then(AfterArrival, rest));
            return StillWaiting, causes;
          }
          var dev := AttemptAt(f0, base, baseLate, probes, |causes|);
          AttemptStep(f0, probes, plan, causes, AfterArrival, rest);
          causes := causes + [AfterArrival];
          if dev.Some? {
            return Connected(dev.value), causes;
          }
          s := s + 1;
        case Wake =>
          var done;
          done, causes, q := RetryAfterWake(f0, base, baseLate, plan, signals[s + 1..], pauses, probes, causes, q);
          if done.Some? {
            return done.value, causes;
          }
          s := s + 1;
      }
      SettleAtEnd(f0, probes, plan, causes, PlanFrom(signals[s..], pauses[q..]));
      r := StillWaiting;
    }

    /**
     * `waitForHardwareDevice`: one attempt before waiting; then each arrival
     * allows one attempt and each wake up to ten, 500 ms apart, before the
     * wait resumes. `signals` are what the outer wait receives, `pauses` what
     * each 500 ms pause sees (true: the context was cancelled), `probes` the
     * attempts in order. With at least one probe the wait is `Settled`:
     * the attempts made are the beginning of `Plan(signals, pauses)`, the
     * wait connects at the first attempt that returns a device, and
     * otherwise ends as the plan does. The result is `StillWaiting` where
     * the daemon would block for ever, which includes running out of probes.
     * The daemon always makes its first attempt; with no probes at all the
     * environment supplies no outcome for it, so no attempt is recorded and
     * the result is `StillWaiting` with no attempt made.
     */
    method WaitForHardwareDevice(signals: seq<Signal>, pauses: seq<bool>, probes: seq<Probe>)
      returns (r: WaitResult, causes: seq<Cause>)
      modifies this`enumInFlight, this`started, this`closedLate
      ensures |probes| == 0 ==> r == StillWaiting && causes == []
      ensures |probes| > 0 ==> Settled(old(enumInFlight), probes, Plan(signals, pauses), causes, r)
      ensures causes != [] ==> causes[0] == Initial && LaterCauses(causes[1..])
      ensures |causes| <= 1 + AttemptBudget(signals)
      ensures enumInFlight == FlagBefore(old(enumInFlight), probes, |causes|)
      ensures started == old(started) + StartsBefore(old(enumInFlight), probes, |causes|)
      ensures closedLate == old(closedLate) + LateBefore(old(enumInFlight), probes, |causes|)
    {
      ghost var f0, base, baseLate := enumInFlight, started, closedLate;
      ghost var plan := Plan(signals, pauses);
      if |probes| == 0 {
        return StillWaiting, [];
      }
      ghost var rest := PlanFrom(signals, pauses);
      assert OnPlan(f0, probes, plan, [], Then(Initial, rest)) by {
        PlanShape(signals, pauses);
        assert [] + Then(Initial, rest).causes == plan.causes;
      }
      var dev := AttemptAt(f0, base, baseLate, probes, 0);
      AttemptStep(f0, probes, plan, [], Initial, rest);
      if dev.Some? {
        r, causes := Connected(dev.value), [Initial];
      } else {
        r, causes := WaitForSignals(f0, base, baseLate, plan, signals, pauses, probes, [Initial]);
      }
      SettledWait(f0, probes, signals, pauses, causes, r);
    }

    /** The sleep notifier's send: a wake is queued unless one already is. */
    method SignalWake()
      modifies this`wakeQueued
      ensures wakeQueued
    {
      wakeQueued := true;
    }

    /** The `drainWake` loop: take buffered wake signals until none is left. */
    method DrainWake() returns (drained: nat)
      modifies this`wakeQueued
      ensures !wakeQueued
      ensures drained == (if old(wakeQueued) then 1 else 0)
    {
      drained := 0;
      while wakeQueued
        invariant drained == (if old(wakeQueued) && !wakeQueued then 1 else 0)
        decreases if wakeQueued then 1 else 0
      {
        wakeQueued := false;
        drained := drained + 1;
      }
    }
  }

  /** A device that is already plugged in is connected by the attempt made before any signal. */
  method ConnectsBeforeWaiting() returns (r: WaitResult, causes: seq<Cause>)
    ensures r == Connected(7) && causes == [Initial]
  {
    var a := new Acquirer();
    r, causes := a.WaitForHardwareDevice([Wake], [], [Probe(None, Opened(7))]);
  }

  /**
   * The first enumeration hangs past its timeout; the attempt an arrival
   * then makes is refused by the guard without starting a second
   * enumeration, and a cancel ends the wait.
   */
  method StuckEnumerationThenCancel() returns (r: WaitResult, causes: seq<Cause>, started: nat)
    ensures r == Cancelled && causes == [Initial, AfterArrival] && started == 1
  {
    var a := new Acquirer();
    var probes := [Probe(None, TimedOut), Probe(None, Opened(3))];
    r, causes := a.WaitForHardwareDevice([Arrival, Cancel], [], probes);
    assert FlagBefore(false, probes, 1);
    assert StartsBefore(false, probes, 2) == 1;
    started := a.started;
  }

  /** Later signals only add to the budget. */
  lemma {:induction false} BudgetMonotone(signals: seq<Signal>, n: nat)
    requires n <= |signals|
    ensures AttemptBudget(signals[..n]) <= AttemptBudget(signals)
    decreases |signals|
  {
    if n < |signals| {
      var init := signals[..|signals| - 1];
      assert init[..n] == signals[..n];
      BudgetMonotone(init, n);
    } else {
      assert signals[..n] == signals;
    }
  }

  /** Each wake signal allows exactly ten attempts, each arrival one. */
  lemma {:induction false} BudgetCounts(signals: seq<Signal>)
    ensures AttemptBudget(signals) == |Arrivals(signals)| + WakeRetries * |Wakes(signals)|
  {
    if signals != [] {
      var init := signals[..|signals| - 1];
      BudgetCounts(init);
    }
  }

  function Arrivals(signals: seq<Signal>): seq<Signal> {
    if signals == [] then []
    else
      var last := signals[|signals| - 1];
      Arrivals(signals[..|signals| - 1]) + (if last == Arrival then [last] else [])
  }

  function Wakes(signals: seq<Signal>): seq<Signal> {
    if signals == [] then []
    else
      var last := signals[|signals| - 1];
      Wakes(signals[..|signals| - 1]) + (if last == Wake then [last] else [])
  }

  // The modules `runWithDevice` registers, in order, and what each is granted.
  const NowPlaying := ModuleRef(0, false)
  const Weather := ModuleRef(1, false)
  const HomeAssistant := ModuleRef(2, false)
  const GitHubPRs := ModuleRef(3, true)

  const NowPlayingGrant := Resources([Key5, Key6], R(0, 0, 400, 100), [Dial1, Dial2])
  const WeatherGrant := Resources([], R(400, 0, 800, 100), [])
  const HomeAssistantGrant := Resources([Key1, Key2], ZeroRect, [Dial4])
  const GitHubGrant := Resources([Key3, Key4], ZeroRect, [])

  const Grants: seq<Resources> := [NowPlayingGrant, WeatherGrant, HomeAssistantGrant, GitHubGrant]

  /** No two grants share a key, a dial or a strip pixel. */
  lemma GrantsDisjoint(i: nat, j: nat)
    requires i < |Grants| && j < |Grants| && i != j
    ensures forall k :: k in Grants[i].keys ==> k !in Grants[j].keys
    ensures forall d :: d in Grants[i].dials ==> d !in Grants[j].dials
    ensures !Grants[i].stripRect.Overlaps(Grants[j].stripRect)
  {
  }

  /**
   * Claiming a two-element grant is two map updates. Stated for any table
   * and ids so that the daemon's literal tables are not unfolded through
   * `Claim` one call at a time.
   */
  lemma ClaimPair(owners: map<Byte, ModuleRef>, a: Byte, b: Byte, m: ModuleRef)
    ensures Claim(owners, [a, b], m) == owners[a := m][b := m]
  {
    assert [a, b][..1] == [a];
    assert [a][..0] == [];
  }

  /** Claiming a one-element grant is one map update. */
  lemma ClaimSingle(owners: map<Byte, ModuleRef>, a: Byte, m: ModuleRef)
    ensures Claim(owners, [a], m) == owners[a := m]
  {
    assert [a][..0] == [];
  }

  /** The daemon's modules in registration order; `Grants[i]` is the grant of `Daemons[i]`. */
  const Daemons: seq<ModuleRef> := [NowPlaying, Weather, HomeAssistant, GitHubPRs]

  /** The keys (or, with `dials`, the dials) of a grant. */
  function Ids(g: Resources, dials: bool): seq<Byte> {
    if dials then g.dials else g.keys
  }

  /** The key (or dial) ownership table after the first `n` registrations. */
  function OwnersAfter(n: nat, dials: bool): map<Byte, ModuleRef>
    requires n <= |Grants|
  {
    if n == 0 then map[] else Claim(OwnersAfter(n - 1, dials), Ids(Grants[n - 1], dials), Daemons[n - 1])
  }

  /** The ownership tables the four grants produce, claimed in registration order. */
  lemma DaemonOwners()
    ensures OwnersAfter(4, false)
            == map[Key5 := NowPlaying, Key6 := NowPlaying, Key1 := HomeAssistant, Key2 := HomeAssistant,
                   Key3 := GitHubPRs, Key4 := GitHubPRs]
    ensures OwnersAfter(4, true) == map[Dial1 := NowPlaying, Dial2 := NowPlaying, Dial4 := HomeAssistant]
  {
    ClaimPair(map[], Key5, Key6, NowPlaying);
    var k1 := map[Key5 := NowPlaying, Key6 := NowPlaying];
    assert OwnersAfter(1, false) == k1;
    assert Claim(k1, [], Weather) == k1;
    assert OwnersAfter(2, false) == k1;
    ClaimPair(k1, Key1, Key2, HomeAssistant);
    var k3 := k1[Key1 := HomeAssistant][Key2 := HomeAssistant];
    assert OwnersAfter(3, false) == k3;
    ClaimPair(k3, Key3, Key4, GitHubPRs);
    ClaimPair(map[], Dial1, Dial2, NowPlaying);
    var d1 := map[Dial1 := NowPlaying, Dial2 := NowPlaying];
    assert OwnersAfter(1, true) == d1;
    assert Claim(d1, [], Weather) == d1;
    assert OwnersAfter(2, true) == d1;
    ClaimSingle(d1, Dial4, HomeAssistant);
    var d3 := d1[Dial4 := HomeAssistant];
    assert OwnersAfter(3, true) == d3;
    assert Claim(d3, [], GitHubPRs) == d3;
  }

  /**
   * The registrations of `runWithDevice` on a fresh coordinator: since the
   * grants are disjoint, every granted key and dial ends up owned by the
   * module it was granted to.
   */
  method RegisterDaemonModules() returns (modules: seq<ModuleRef>, keyOwners: map<Byte, ModuleRef>, dialOwners: map<Byte, ModuleRef>)
    ensures modules == [NowPlaying, Weather, HomeAssistant, GitHubPRs]
    ensures keyOwners == map[Key5 := NowPlaying, Key6 := NowPlaying, Key1 := HomeAssistant, Key2 := HomeAssistant,
                             Key3 := GitHubPRs, Key4 := GitHubPRs]
    ensures dialOwners == map[Dial1 := NowPlaying, Dial2 := NowPlaying, Dial4 := HomeAssistant]
  {
    var t := new Trace();
    var c := new Coordinator(t);
    for i := 0 to |Daemons|
      invariant c.Valid() && c.modules == Daemons[..i]
      invariant c.keyOwners == OwnersAfter(i, false) && c.dialOwners == OwnersAfter(i, true)
    {
      var _ := c.RegisterModule(Daemons[i], Grants[i]);
    }
    modules, keyOwners, dialOwners := c.modules, c.keyOwners, c.dialOwners;
    DaemonOwners();
  }
}
