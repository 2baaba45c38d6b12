/**
 * From an mDNS answer to what the user is shown: browser, event channel and roster on one clock, in any
 * interleaving of answers, ticks, deliveries and sweeps.
 */
module Freshness {
  import opened Common
  import opened SortedIds
  import opened Discovery
  import opened Roster

  /** `log` holds every event emitted; the first `applied` of them have reached the roster. */
  datatype World = World(self: Id, known: Table, log: seq<Event>, applied: nat, roster: DeviceMap, clock: Nanos)

  function Boot(self: Id, start: Nanos): World { World(self, map[], [], 0, map[], start) }

  /** Everything that can happen; a step never goes back in time. */
  datatype Step =
    | Answer(e: Entry)
    | Tick(tick: Nanos, events: seq<Event>)  // the liveness tick, late or not, and the removals it emits
    | Deliver
    | SweepRoster(paired: set<Id>)
    | Pass(time: nat)

  /** The roster after one event is consumed. */
  function Consume(self: Id, m: DeviceMap, ev: Event, nowMs: int): DeviceMap {
    if ev.Remove? then if ev.device.id == "" then m else m - {ev.device.id}
    else var n := Normalise(self, ev.device, nowMs); if n.None? then m else m[ev.device.id := n.value]
  }

  ghost function Next(w: World, s: Step): World {
    match s
    case Answer(e) =>
      var (n, ev) := Observed(w.self, w.known, e, w.clock);
      w.(known := n, log := w.log + Emitted(ev))
    case Tick(tick, events) =>
      if tick <= w.clock && Retires(w.known, tick, events)
          then w.(known := Swept(w.known, tick), log := w.log + events) else w
    case Deliver =>
      if w.applied < |w.log| then
        w.(applied := w.applied + 1, roster := Consume(w.self, w.roster, w.log[w.applied], Millis(w.clock)))
      else w
    case SweepRoster(paired) => w.(roster := Sweep(w.roster, paired, Millis(w.clock)))
    case Pass(time) => w.(clock := w.clock + time)
  }

  ghost function Run(self: Id, start: Nanos, steps: seq<Step>): World {
    if steps == [] then Boot(self, start) else Next(Run(self, start, steps[..|steps| - 1]), steps[|steps| - 1])
  }

  // -- the roster against a plain replay of what it has been told -------------------------------

  /** What the roster has been told so far. */
  function Told(w: World): Replica
    requires w.applied <= |w.log|
  {
    Replay(w.log[..w.applied])
  }

  /** What a device has announced, as it is shown: with blank fields filled in. */
  predicate SameFields(d: Device, r: Device) {
    && r.address == d.address && r.port == d.port && r.version == d.version
    && r.name == (if d.name == "" then d.id else d.name)
    && r.platform == (if d.platform == "" then "unknown" else d.platform)
  }

  /** A device as the roster keeps it: seen when it was told, never marked paired, offline only if stale. */
  predicate Keeps(d: Device, r: Device, nowMs: int) {
    && r.id == d.id && !r.paired && r.lastSeen == d.lastSeen && d.lastSeen <= nowMs && SameFields(d, r)
    && (r.status.Online? || StaleAt(r.lastSeen, nowMs))
  }

  /** The roster holds what it was told, short of what has gone unseen for twice the lifetime of a device. */
  predicate RosterAt(m: DeviceMap, told: Replica, nowMs: int, id: Id) {
    && (id in m ==> id in told && Keeps(told[id], m[id], nowMs))
    && (id in told && id !in m ==> told[id].lastSeen < nowMs - DEVICE_DROP_AFTER_MS)
  }

  /** Every event is about an acceptable device other than this one, and carries the time it was seen. */
  predicate EventOk(self: Id, ev: Event, clock: Nanos) {
    && ev.device.id != "" && ev.device.id != self && ev.at <= clock
    && (!ev.Remove? ==>
        ev.device.lastSeen == Millis(ev.at) && ev.at >= MILLISECOND && ev.device.status.Online?
        && !ev.device.paired)
  }

  ghost predicate Inv(w: World) {
    && w.applied <= |w.log| && w.clock >= MILLISECOND
    && InStep(w.known, w.log, w.clock)
    && (forall i :: 0 <= i < |w.log| ==> EventOk(w.self, w.log[i], w.clock))
    && (forall id :: RosterAt(w.roster, Told(w), Millis(w.clock), id))
    && (forall id :: id in w.known ==> id != "" && id != w.self)
  }

  // -- each step --------------------------------------------------------------------------------

  lemma MillisMonotone(a: Nanos, b: Nanos)
    requires a <= b
    ensures Millis(a) <= Millis(b)
  {
  }

  lemma ToldStays(w: World, more: seq<Event>)
    requires w.applied <= |w.log|
    ensures (w.log + more)[..w.applied] == w.log[..w.applied]
  {
  }

  lemma AnswerKeeps(w: World, e: Entry)
    requires Inv(w)
    ensures Inv(Next(w, Answer(e)))
  {
    var (n, ev) := Observed(w.self, w.known, e, w.clock);
    ObserveKeepsStep(w.self, w.known, w.log, e, w.clock, w.clock);
    ToldStays(w, Emitted(ev));
    assert Told(Next(w, Answer(e))) == Told(w);
    assert InStep(n, w.log + Emitted(ev), w.clock);
    hide InStep, RosterAt, Replay;
  }

  lemma TickKeeps(w: World, tick: Nanos, events: seq<Event>)
    requires Inv(w)
    ensures Inv(Next(w, Tick(tick, events)))
  {
    if tick <= w.clock && Retires(w.known, tick, events) {
      SweepKeepsStep(w.known, w.log, events, tick, w.clock);
      ToldStays(w, events);
      assert Told(Next(w, Tick(tick, events))) == Told(w);
      assert InStep(Swept(w.known, tick), w.log + events, w.clock);
      forall i | 0 <= i < |events| ensures EventOk(w.self, events[i], w.clock) {
        RetiredEventOk(w, tick, events, i);
      }
    }
    hide InStep, RosterAt, Replay, Retires, EventOk, Expired;
  }

  lemma RetiredEventOk(w: World, tick: Nanos, events: seq<Event>, i: nat)
    requires Inv(w) && tick <= w.clock && Retires(w.known, tick, events) && i < |events|
    ensures EventOk(w.self, events[i], w.clock)
  {
    var id := events[i].device.id;
    assert InStepAt(w.known, w.log, w.clock, id);
    hide RosterAt, Replay, Life, Expired, Lists;
  }

  lemma ConsumeAt(self: Id, m: DeviceMap, told: Replica, ev: Event, now: Nanos, id: Id)
    requires EventOk(self, ev, now) && RosterAt(m, told, Millis(now), id) && now >= MILLISECOND
    ensures RosterAt(Consume(self, m, ev, Millis(now)), Discovery.Apply(told, ev), Millis(now), id)
  {
    if !ev.Remove? { MillisMonotone(ev.at, now); }
  }

  lemma DeliverKeeps(w: World)
    requires Inv(w)
    ensures Inv(Next(w, Deliver))
  {
    if w.applied < |w.log| {
      var ev := w.log[w.applied];
      var v := Next(w, Deliver);
      assert w.log[..w.applied + 1] == w.log[..w.applied] + [ev];
      ReplayAppend(w.log[..w.applied], ev, "");
      forall id ensures RosterAt(v.roster, Told(v), Millis(v.clock), id) {
        ConsumeAt(w.self, w.roster, Told(w), ev, w.clock, id);
      }
    }
    hide InStep, RosterAt, Replay, Consume, Discovery.Apply;
  }

  lemma SweepAt(m: DeviceMap, told: Replica, paired: set<Id>, nowMs: int, id: Id)
    requires RosterAt(m, told, nowMs, id)
    ensures RosterAt(Sweep(m, paired, nowMs), told, nowMs, id)
  {
  }

  lemma PassAt(m: DeviceMap, told: Replica, nowMs: int, later: int, id: Id)
    requires RosterAt(m, told, nowMs, id) && nowMs <= later
    ensures RosterAt(m, told, later, id)
  {
  }

  lemma PassKeeps(w: World, time: nat)
    requires Inv(w)
    ensures Inv(Next(w, Pass(time)))
  {
    var v := Next(w, Pass(time));
    MillisMonotone(w.clock, v.clock);
    forall id ensures RosterAt(v.roster, Told(v), Millis(v.clock), id) {
      PassAt(w.roster, Told(w), Millis(w.clock), Millis(v.clock), id);
    }
    forall id ensures InStepAt(v.known, v.log, v.clock, id) {
      assert InStepAt(w.known, w.log, w.clock, id);
    }
    hide RosterAt, Replay, Life, Tracks, Millis;
  }

  lemma SweepRosterKeeps(w: World, paired: set<Id>)
    requires Inv(w)
    ensures Inv(Next(w, SweepRoster(paired)))
  {
    var v := Next(w, SweepRoster(paired));
    forall id ensures RosterAt(v.roster, Told(v), Millis(v.clock), id) {
      SweepAt(w.roster, Told(w), paired, Millis(w.clock), id);
    }
    hide InStep, RosterAt, Replay, Sweep;
  }

  lemma NextKeeps(w: World, s: Step)
    requires Inv(w)
    ensures Inv(Next(w, s)) && Next(w, s).clock >= w.clock && Next(w, s).self == w.self
  {
    match s
    case Answer(e) => AnswerKeeps(w, e); hide Inv, Observed;
    case Tick(tick, events) => TickKeeps(w, tick, events); hide Inv, Retires, Swept;
    case Deliver => DeliverKeeps(w); hide Inv, Consume;
    case SweepRoster(paired) => SweepRosterKeeps(w, paired); hide Inv, Sweep;
    case Pass(time) => PassKeeps(w, time); hide Inv;
  }

  lemma {:induction false} RunKeeps(self: Id, start: Nanos, steps: seq<Step>)
    requires start >= MILLISECOND
    ensures Inv(Run(self, start, steps))
  {
    if steps != [] {
      RunKeeps(self, start, steps[..|steps| - 1]);
      NextKeeps(Run(self, start, steps[..|steps| - 1]), steps[|steps| - 1]);
      hide Inv, Next;
    }
  }

  // -- a sighting lasts -----------------------------------------------------------------------------

  /** A device seen at time s stays in the table, seen no earlier, as long as its lifetime has not run out. */
  lemma SightingStays(w: World, s: Step, id: Id, seen: Nanos)
    requires Inv(w) && id in w.known && w.known[id].seen >= seen && Next(w, s).clock - seen <= DEVICE_TTL
    ensures id in Next(w, s).known && Next(w, s).known[id].seen >= seen
  {
    assert InStepAt(w.known, w.log, w.clock, id);
    match s
    case Answer(e) => hide RosterAt, Replay, Life, InStep;
    case Tick(tick, events) => hide RosterAt, Replay, Life, InStep, Retires;
    case _ => hide RosterAt, Replay, Life, InStep, Consume, Sweep;
  }

  lemma {:induction false} SightingLasts(self: Id, start: Nanos, steps: seq<Step>, more: seq<Step>, id: Id, seen: Nanos)
    requires start >= MILLISECOND
    requires id in Run(self, start, steps).known && Run(self, start, steps).known[id].seen >= seen
    requires Run(self, start, steps + more).clock - seen <= DEVICE_TTL
    ensures id in Run(self, start, steps + more).known && Run(self, start, steps + more).known[id].seen >= seen
  {
    if more == [] {
      assert steps + more == steps;
    } else {
      var init := more[..|more| - 1];
      var w := Run(self, start, steps + init);
      assert (steps + more)[..|steps + more| - 1] == steps + init;
      RunKeeps(self, start, steps + init);
      NextKeeps(w, more[|more| - 1]);
      SightingLasts(self, start, steps, init, id, seen);
      SightingStays(w, more[|more| - 1], id, seen);
      hide Inv, Next;
    }
  }

  // -- what the user is shown -------------------------------------------------------------------------

  /** No event about the device is still in the channel. */
  predicate Quiet(w: World, id: Id) {
    forall i :: w.applied <= i < |w.log| ==> w.log[i].device.id != id
  }

  lemma {:induction false} QuietReplay(log: seq<Event>, applied: nat, id: Id)
    requires applied <= |log| && forall i :: applied <= i < |log| ==> log[i].device.id != id
    ensures id in Replay(log) <==> id in Replay(log[..applied])
    ensures id in Replay(log) ==> Replay(log)[id] == Replay(log[..applied])[id]
    decreases |log|
  {
    if applied == |log| {
      assert log[..applied] == log;
    } else {
      var front := log[..|log| - 1];
      QuietReplay(front, applied, id);
      assert front[..applied] == log[..applied];
      hide Life;
    }
  }

  lemma KnownIsShown(w: World, id: Id, trust: map<Id, Trusted>)
    requires Inv(w) && id in w.known && Quiet(w, id) && w.clock - w.known[id].seen <= DEVICE_TTL - EMIT_REFRESH_AFTER
    ensures id in View(w.roster, trust, Millis(w.clock))
    ensures var d := View(w.roster, trust, Millis(w.clock))[id];
            d.status.Online? && d.id == id && SameFields(w.known[id].device, d) && (d.paired <==> id in trust)
  {
    assert InStepAt(w.known, w.log, w.clock, id) && RosterAt(w.roster, Told(w), Millis(w.clock), id);
    QuietReplay(w.log, w.applied, id);
    FreshInMillis(w.clock, w.known[id].seen, w.known[id].emitted);
    hide Replay, Life, InStep, Millis;
  }

  /**
   * The slack adds up: at most 20 s since the sighting, less than 10 s from emission to sighting, and rounding down
   * costs nothing.
   */
  lemma FreshInMillis(now: Nanos, seen: Nanos, emitted: Nanos)
    requires now - seen <= DEVICE_TTL - EMIT_REFRESH_AFTER && seen - emitted < EMIT_REFRESH_AFTER
    ensures !StaleAt(Millis(emitted), Millis(now)) && Millis(emitted) >= Millis(now) - DEVICE_DROP_AFTER_MS
  {
    var gap := now - emitted;
    assert now < emitted + 30_000 * MILLISECOND;
    assert Millis(emitted + 30_000 * MILLISECOND) == Millis(emitted) + 30_000;
  }

  /** Answer k is the last acceptable one the device has given. */
  predicate LastAnswer(self: Id, steps: seq<Step>, k: nat, id: Id) {
    && k < |steps| && steps[k].Answer? && steps[k].e.id == id && Acceptable(self, steps[k].e)
    && forall j :: k < j < |steps| && steps[j].Answer? && steps[j].e.id == id ==> !Acceptable(self, steps[j].e)
  }

  /** A consumer of the events has the device as its last answer described it, short of when it was seen. */
  lemma {:induction false} KnownAsAnswered(self: Id, start: Nanos, steps: seq<Step>, id: Id) returns (k: nat)
    requires start >= MILLISECOND && id in Run(self, start, steps).known
    ensures LastAnswer(self, steps, k, id)
    ensures var w := Run(self, start, steps);
            && Announces(steps[k].e, w.known[id].device)
            && id in Replay(w.log) && Announces(steps[k].e, Replay(w.log)[id])
  {
    hide Inv, Replay, Next, Run, Announces, LastAnswer;
    if steps == [] { BootKnowsNobody(self, start); }
    var front, s := steps[..|steps| - 1], steps[|steps| - 1];
    RunKeeps(self, start, steps);
    RunSelf(self, start, front);
    LastStep(self, start, steps);
    TableStep(Run(self, start, front), s, id);
    if s.Answer? && s.e.id == id && Acceptable(self, s.e) {
      k := |steps| - 1;
      AnsweredNow(self, steps, id);
    } else {
      k := KnownAsAnswered(self, start, front, id);
      AnsweredStill(self, steps, k, id);
    }
    ReplicaAgrees(Run(self, start, steps), id, steps[k].e);
  }

  lemma BootKnowsNobody(self: Id, start: Nanos)
    ensures Run(self, start, []).known == map[]
  {
  }

  lemma LastStep(self: Id, start: Nanos, steps: seq<Step>)
    requires steps != []
    ensures Run(self, start, steps) == Next(Run(self, start, steps[..|steps| - 1]), steps[|steps| - 1])
  {
    hide Next;
  }

  lemma AnsweredNow(self: Id, steps: seq<Step>, id: Id)
    requires steps != [] && steps[|steps| - 1].Answer? && steps[|steps| - 1].e.id == id
    requires Acceptable(self, steps[|steps| - 1].e)
    ensures LastAnswer(self, steps, |steps| - 1, id)
    ensures steps[|steps| - 1].e.id == id
  {
  }

  lemma AnsweredStill(self: Id, steps: seq<Step>, k: nat, id: Id)
    requires steps != [] && LastAnswer(self, steps[..|steps| - 1], k, id)
    requires var s := steps[|steps| - 1]; !(s.Answer? && s.e.id == id && Acceptable(self, s.e))
    ensures LastAnswer(self, steps, k, id) && k < |steps| - 1 && steps[k].Answer?
    ensures steps[k] == steps[..|steps| - 1][k]
  {
    var front := steps[..|steps| - 1];
    assert forall j :: 0 <= j < |front| ==> front[j] == steps[j];
    hide Acceptable;
  }

  lemma TableStep(w: World, s: Step, id: Id)
    requires id in Next(w, s).known
    ensures if s.Answer? && s.e.id == id && Acceptable(w.self, s.e) then Announces(s.e, Next(w, s).known[id].device)
            else id in w.known && Next(w, s).known[id].device == w.known[id].device
  {
    if s.Answer? { ObservedIsAnnounced(w.self, w.known, s.e, w.clock); }
    hide Observed, Retires, Expired, Consume, Sweep, Announces;
  }

  lemma ReplicaAgrees(w: World, id: Id, e: Entry)
    requires Inv(w) && id in w.known && Announces(e, w.known[id].device)
    ensures id in Replay(w.log) && Announces(e, Replay(w.log)[id])
  {
    assert InStepAt(w.known, w.log, w.clock, id);
    hide Replay, Life, InStep, RosterAt;
  }

  /** A device as its own answer says, for a user to see: by its name, or its id when it gave none. */
  predicate ShowsAs(e: Entry, d: Device) {
    && d.id == e.id && e.address == Some(d.address) && d.port == e.port && d.version == e.version
    && d.name == (if e.name == "" then e.id else e.name) && PlatformIs(e.platform, d.platform)
  }

  lemma AnnouncedAndShown(e: Entry, d: Device, r: Device)
    requires Announces(e, d) && SameFields(d, r) && r.id == e.id
    ensures ShowsAs(e, r)
  {
  }

  /**
   * End to end: a device that answered at most 20 s ago, with no event about it still in the channel, is shown online,
   * as its last answer described it, and as paired exactly if it is trusted; whatever was suppressed, delayed, swept or
   * marked offline before.
   */
  lemma SightedIsShownOnline(self: Id, start: Nanos, steps: seq<Step>, e: Entry, more: seq<Step>,
      trust: map<Id, Trusted>) returns (k: nat)
    requires start >= MILLISECOND && Acceptable(self, e)
    requires Quiet(Run(self, start, steps + [Answer(e)] + more), e.id)
    requires Run(self, start, steps + [Answer(e)] + more).clock - Run(self, start, steps).clock
        <= 20 * 1_000_000_000
    ensures |steps| <= k && LastAnswer(self, steps + [Answer(e)] + more, k, e.id)
    ensures var w := Run(self, start, steps + [Answer(e)] + more);
            && e.id in View(w.roster, trust, Millis(w.clock))
            && var d := View(w.roster, trust, Millis(w.clock))[e.id];
               d.status.Online? && ShowsAs((steps + [Answer(e)] + more)[k].e, d) && (d.paired <==> e.id in trust)
  {
    var seen := Run(self, start, steps).clock;
    var all := steps + [Answer(e)] + more;
    assert (steps + [Answer(e)])[..|steps|] == steps;
    RunSelf(self, start, steps);
    assert Run(self, start, steps + [Answer(e)]).known[e.id].seen == seen;
    hide Inv, View, Quiet, Run;
    SightingLasts(self, start, steps + [Answer(e)], more, e.id, seen);
    RunKeeps(self, start, all);
    k := KnownAsAnswered(self, start, all, e.id);
    assert all[|steps|] == Answer(e);
    KnownIsShown(Run(self, start, all), e.id, trust);
    var w := Run(self, start, all);
    AnnouncedAndShown(all[k].e, w.known[e.id].device, View(w.roster, trust, Millis(w.clock))[e.id]);
    hide Announces, SameFields, ShowsAs;
  }

  lemma {:induction false} RunSelf(self: Id, start: Nanos, steps: seq<Step>)
    requires start >= MILLISECOND
    ensures Run(self, start, steps).self == self
  {
    if steps != [] {
      RunSelf(self, start, steps[..|steps| - 1]);
      RunKeeps(self, start, steps[..|steps| - 1]);
      NextKeeps(Run(self, start, steps[..|steps| - 1]), steps[|steps| - 1]);
      hide Inv, Next;
    }
  }

  lemma {:induction false} ReplayedFrom(self: Id, evs: seq<Event>, clock: Nanos, id: Id) returns (i: nat)
    requires id in Replay(evs) && forall j :: 0 <= j < |evs| ==> EventOk(self, evs[j], clock)
    ensures i < |evs| && !evs[i].Remove? && evs[i].device.id == id && evs[i].device == Replay(evs)[id]
    ensures evs[i].device.lastSeen == Millis(evs[i].at)
  {
    var front, ev := evs[..|evs| - 1], evs[|evs| - 1];
    if ev.device.id == id {
      i := |evs| - 1;
      assert EventOk(self, evs[i], clock);
    } else {
      i := ReplayedFrom(self, front, clock, id);
    }
    hide Life;
  }

  /**
   * The other way round: a device shown online was seen, by an answer that was passed on, at most 30 s of
   * wall-clock milliseconds ago, and is shown as that answer described it.
   */
  lemma OnlineWasSighted(self: Id, start: Nanos, steps: seq<Step>, id: Id, trust: map<Id, Trusted>) returns (i: nat)
    requires start >= MILLISECOND
    requires var w := Run(self, start, steps);
             id in View(w.roster, trust, Millis(w.clock)) && View(w.roster, trust, Millis(w.clock))[id].status.Online?
    ensures var w := Run(self, start, steps);
            && i < w.applied <= |w.log| && !w.log[i].Remove? && w.log[i].device.id == id
            && w.clock / 1_000_000 - w.log[i].at / 1_000_000 <= 30_000
            && SameFields(w.log[i].device, View(w.roster, trust, Millis(w.clock))[id])
  {
    var w := Run(self, start, steps);
    RunKeeps(self, start, steps);
    assert RosterAt(w.roster, Told(w), Millis(w.clock), id);
    i := ReplayedFrom(self, w.log[..w.applied], w.clock, id) by { RunSelf(self, start, steps); }
    hide Replay, InStep, Run, Millis, Inv;
  }
}
