/**
 * Debounced roster pushes: one timer at a time in devTimer, re-armed by further changes, capped by the age of its
 * window, fired or cancelled at any moment by other goroutines.
 */
module Debounce {
  import opened Common
  import opened Discovery

  const DEVICES_DEBOUNCE := 200 * MILLISECOND
  const DEVICES_MAX_DELAY := 1500 * MILLISECOND
  const LATEST := DEVICES_DEBOUNCE + DEVICES_MAX_DELAY

  /**
   * `armed` says when each armed timer is due; `current` is devTimer and `window` devWindow. A goroutine that is bound
   * to compute and push a snapshot is in one of three places: `fired` has not taken the lock yet, `stopping` has
   * emptied devTimer and is about to cancel the timer it took, `pushing` computes next.
   * `changes` says when each roster change asked for a push, and `shown` how many of them the last snapshot included.
   */
  datatype State = State(
    now: Nanos, armed: map<nat, Nanos>, current: Option<nat>, window: Nanos, made: nat,
    fired: seq<nat>, stopping: seq<Option<nat>>, pushing: nat, changes: seq<Nanos>, shown: nat)

  function Boot(start: Nanos): State { State(start, map[], None, start, 0, [], [], 0, [], 0) }

  datatype Step =
    | Schedule        // a roster change asks for a push
    | Fire(t: nat)    // an armed timer comes due
    | Clear(k: nat)   // a fired flush empties devTimer
    | Broadcast       // BroadcastDevices empties devTimer
    | Cancel(k: nat)  // and stops the timer it took
    | Push            // a snapshot is computed and sent
    | Pass(d: nat)

  /** When the oldest change that no snapshot includes was made. */
  function Asked(s: State): Option<Nanos> { if s.shown < |s.changes| then Some(s.changes[s.shown]) else None }

  function Scheduled(s: State): State {
    var a := s.(changes := s.changes + [s.now]);
    if s.current.None? then
      a.(armed := s.armed[s.made := s.now + DEVICES_DEBOUNCE], current := Some(s.made), made := s.made + 1, window :=
          s.now)
    else if s.now - s.window < DEVICES_MAX_DELAY then
      a.(armed := s.armed[s.current.value := s.now + DEVICES_DEBOUNCE])
    else a
  }

  function Next(s: State, step: Step): State {
    match step
    case Schedule => Scheduled(s)
    case Fire(t) =>
      if t in s.armed && s.armed[t] <= s.now then s.(armed := s.armed - {t}, fired := s.fired + [t]) else s
    case Clear(k) =>
      if k < |s.fired| then s.(fired := s.fired[..k] + s.fired[k + 1..], current := None, pushing := s.pushing + 1)
          else s
    case Broadcast => s.(stopping := s.stopping + [s.current], current := None)
    case Cancel(k) =>
      if k < |s.stopping| then
        s.(stopping := s.stopping[..k] + s.stopping[k + 1..], pushing := s.pushing + 1,
           armed := if s.stopping[k].Some? then s.armed - {s.stopping[k].value} else s.armed)
      else s
    case Push => if s.pushing > 0 then s.(pushing := s.pushing - 1, shown := |s.changes|) else s
    case Pass(d) => s.(now := s.now + d)
  }

  function Run(start: Nanos, steps: seq<Step>): State {
    if steps == [] then Boot(start) else Next(Run(start, steps[..|steps| - 1]), steps[|steps| - 1])
  }

  /** A snapshot is bound to be computed without any timer. */
  predicate UnderWay(s: State) { s.fired != [] || s.stopping != [] || s.pushing > 0 }

  /** An armed timer due by `latest`. */
  ghost predicate DueBy(s: State, latest: Nanos) { exists t :: t in s.armed && s.armed[t] <= latest }

  /** The timer in devTimer is armed and within its window, or its flush has yet to empty devTimer. */
  predicate CurrentOk(s: State) {
    s.current.Some? ==>
      && s.current.value < s.made
      && s.window <= s.now
      && (if s.current.value in s.armed then s.armed[s.current.value] <= s.window + LATEST
          else s.current.value in s.fired)
  }

  /** Some armed timer other than the one in devTimer is due by `latest`. */
  ghost predicate OrphanDueBy(s: State, latest: Nanos) {
    exists t :: t in s.armed && s.armed[t] <= latest && s.current != Some(t)
  }

  /** A push asked for and not computed yet is under way, or a timer sees to it in time. */
  ghost predicate AskedOk(s: State) {
    Asked(s).Some? ==>
      && Asked(s).value <= s.now
      && (UnderWay(s) || OrphanDueBy(s, Asked(s).value + LATEST)
          || (s.current.Some? && s.current.value in s.armed && s.window <= Asked(s).value))
  }

  predicate TimersOk(s: State) {
    && s.shown <= |s.changes|
    && (forall i, j :: 0 <= i <= j < |s.changes| ==> s.changes[i] <= s.changes[j] <= s.now)
    && (forall t :: t in s.armed ==> t < s.made)
    && (forall k :: 0 <= k < |s.stopping| && s.stopping[k].Some? ==>
        s.stopping[k].value < s.made
        && s.current != s.stopping[k])
  }

  ghost predicate Inv(s: State) { CurrentOk(s) && AskedOk(s) && TimersOk(s) }

  lemma ScheduleKeeps(s: State)
    requires Inv(s)
    ensures Inv(Next(s, Schedule))
  {
    var n := Next(s, Schedule);
    if Asked(s).Some? && OrphanDueBy(s, Asked(s).value + LATEST) {
      var t :| t in s.armed && s.armed[t] <= Asked(s).value + LATEST && s.current != Some(t);
      assert t in n.armed && n.armed[t] == s.armed[t] && n.current != Some(t);
    }
  }

  lemma FireKeeps(s: State, t: nat)
    requires Inv(s)
    ensures Inv(Next(s, Fire(t)))
  {
  }

  lemma ClearKeeps(s: State, k: nat)
    requires Inv(s)
    ensures Inv(Next(s, Clear(k)))
  {
  }

  lemma BroadcastKeeps(s: State)
    requires Inv(s)
    ensures Inv(Next(s, Broadcast))
  {
  }

  lemma CancelKeeps(s: State, k: nat)
    requires Inv(s)
    ensures Inv(Next(s, Cancel(k)))
  {
  }

  lemma PassKeeps(s: State, step: Step)
    requires Inv(s) && (step.Pass? || step.Push?)
    ensures Inv(Next(s, step))
  {
    var n := Next(s, step);
    if Asked(s).Some? && OrphanDueBy(s, Asked(s).value + LATEST) {
      var t :| t in s.armed && s.armed[t] <= Asked(s).value + LATEST && s.current != Some(t);
      assert t in n.armed && n.current != Some(t);
    }
  }

  lemma {:induction false} RunKeeps(start: Nanos, steps: seq<Step>)
    ensures Inv(Run(start, steps))
  {
    if steps != [] {
      var s, step := Run(start, steps[..|steps| - 1]), steps[|steps| - 1];
      RunKeeps(start, steps[..|steps| - 1]);
      match step {
        case Schedule => ScheduleKeeps(s);
        case Fire(t) => FireKeeps(s, t);
        case Clear(k) => ClearKeeps(s, k);
        case Broadcast => BroadcastKeeps(s);
        case Cancel(k) => CancelKeeps(s, k);
        case _ => PassKeeps(s, step);
      }
      hide Inv, Next;
    }
  }

  /**
   * After any roster change, however many others follow, whichever timers fire late, are re-armed or cancelled: a push
   * that will include it is under way, or a timer is armed to start one within 1.7 s of the change.
   */
  lemma EveryChangeIsPushedInTime(start: Nanos, steps: seq<Step>, i: nat)
    requires Run(start, steps).shown <= i < |Run(start, steps).changes|
    ensures var s := Run(start, steps); UnderWay(s) || DueBy(s, s.changes[i] + 1_700_000_000)
  {
    RunKeeps(start, steps);
    var s := Run(start, steps);
    if !UnderWay(s) {
      assert Asked(s) == Some(s.changes[s.shown]) && s.changes[s.shown] <= s.changes[i];
      if OrphanDueBy(s, Asked(s).value + LATEST) {
        var t :| t in s.armed && s.armed[t] <= Asked(s).value + LATEST && s.current != Some(t);
      } else {
        assert s.armed[s.current.value] <= Asked(s).value + LATEST;
      }
    }
    hide Run;
  }

  // -- the object ---------------------------------------------------------------------------------

  /**
   * The server's timer fields, and the runtime's own bookkeeping of timers and goroutines. Each method is one
   * critical section.
   */
  class DevicePusher {
    var devTimer: Option<nat>
    var devWindow: Nanos
    var armed: map<nat, Nanos>
    var made: nat
    var fired: seq<nat>
    var stopping: seq<Option<nat>>
    var pushing: nat
    ghost var now: Nanos
    ghost var changes: seq<Nanos>
    ghost var shown: nat

    ghost function Abs(): State
      reads this
    {
      State(now, armed, devTimer, devWindow, made, fired, stopping, pushing, changes, shown)
    }

    constructor (start: Nanos)
      ensures Abs() == Boot(start)
    {
      devTimer, devWindow, armed, made := None, start, map[], 0;
      fired, stopping, pushing, now, changes, shown := [], [], 0, start, [], 0;
    }

    method ScheduleDevicesBroadcast(clock: Nanos)
      requires clock == now
      modifies this`devTimer, this`devWindow, this`armed, this`made, this`changes
      ensures Abs() == Next(old(Abs()), Schedule)
    {
      changes := changes + [clock];
      if devTimer == None {
        devWindow := clock;
        armed := armed[made := clock + DEVICES_DEBOUNCE];
        devTimer := Some(made);
        made := made + 1;
        return;
      }
      if clock - devWindow < DEVICES_MAX_DELAY {
        armed := armed[devTimer.value := clock + DEVICES_DEBOUNCE];
      }
    }

    /** flushDevices, first half: the timer that fired need not be the one it forgets. */
    method FlushDevices(k: nat)
      requires k < |fired|
      modifies this`devTimer, this`fired, this`pushing
      ensures Abs() == Next(old(Abs()), Clear(k))
    {
      fired := fired[..k] + fired[k + 1..];
      devTimer := None;
      pushing := pushing + 1;
    }

    /** stopDeviceTimer, up to the unlock. */
    method TakeDeviceTimer()
      modifies this`devTimer, this`stopping
      ensures Abs() == Next(old(Abs()), Broadcast)
    {
      var t := devTimer;
      devTimer := None;
      stopping := stopping + [t];
    }

    /** And after it. */
    method StopTaken(k: nat)
      requires k < |stopping|
      modifies this`stopping, this`armed, this`pushing
      ensures Abs() == Next(old(Abs()), Cancel(k))
    {
      var t := stopping[k];
      stopping := stopping[..k] + stopping[k + 1..];
      if t != None { armed := armed - {t.value}; }
      pushing := pushing + 1;
    }
  }
}
