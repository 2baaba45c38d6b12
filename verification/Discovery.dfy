/**
 * The browser's sighting table and the events it emits: which re-sightings are passed on, which are suppressed,
 * when a device is retired, and what a consumer that only sees the events can know.
 */
module Discovery {
  import opened Common
  import opened PairingCode
  import opened SortedIds

  type Id = string

  /** Nanoseconds on one clock that never runs backwards. */
  type Nanos = int

  const SECOND: Nanos := 1_000_000_000
  const MILLISECOND: Nanos := 1_000_000
  const DEVICE_TTL := 30 * SECOND
  const EMIT_REFRESH_AFTER := DEVICE_TTL / 3

  /** What UnixMilli makes of an instant: rounded down. */
  function Millis(t: Nanos): int { t / MILLISECOND }

  datatype Status = Online | Offline

  datatype Device = Device(
    id: Id, name: string, address: string, port: int, platform: string, version: string,
    status: Status, paired: bool, lastSeen: int)

  const PLATFORM_UNKNOWN := "unknown"

  /** One mDNS answer; `address` is what address selection picked, if anything was usable. */
  datatype Entry = Entry(id: Id, name: string, address: Option<string>, port: int, platform: string, version: string)

  datatype Sighting = Sighting(device: Device, seen: Nanos, emitted: Nanos)

  type Table = map<Id, Sighting>

  datatype Event = Add(device: Device, at: Nanos) | Update(device: Device, at: Nanos)
      | Remove(device: Device, at: Nanos)

  // -- one answer, one sweep ------------------------------------------------------------------

  predicate Acceptable(self: Id, e: Entry) {
    e.id != "" && e.id != self && 0 < e.port <= 65535 && e.address.Some?
  }

  /** A platform nobody has heard of is none. */
  function PlatformOf(platform: string): string {
    if platform == "windows" || platform == "darwin" || platform == "linux" then platform else PLATFORM_UNKNOWN
  }

  function DeviceOf(e: Entry, now: Nanos): Device
    requires e.address.Some?
  {
    Device(e.id, e.name, e.address.value, e.port, PlatformOf(e.platform), e.version, Online, false, Millis(now))
  }

  /** The platform is one of the three there are, as announced, or is unknown. */
  predicate PlatformIs(announced: string, shown: string) {
    shown == if announced in {"windows", "darwin", "linux"} then announced else "unknown"
  }

  /** The device is the one that answered, under the name and on the address, port and version it gave. */
  predicate Announces(e: Entry, d: Device) {
    && d.id == e.id && d.name == e.name && e.address == Some(d.address) && d.port == e.port && d.version == e.version
    && PlatformIs(e.platform, d.platform)
  }

  /** Nothing a user can see differs. */
  predicate SameFace(a: Device, b: Device) {
    && a.address == b.address && a.port == b.port && a.name == b.name && a.version == b.version
    && a.platform == b.platform && a.status == b.status
  }

  function Observed(self: Id, known: Table, e: Entry, now: Nanos): (Table, Option<Event>) {
    if !Acceptable(self, e) then (known, None)
    else
      var dev := DeviceOf(e, now);
      if e.id !in known then (known[e.id := Sighting(dev, now, now)], Some(Add(dev, now)))
      else
        var prev := known[e.id];
        if SameFace(prev.device, dev) && now - prev.emitted < EMIT_REFRESH_AFTER then
          (known[e.id := Sighting(dev, now, prev.emitted)], None)
        else (known[e.id := Sighting(dev, now, now)], Some(Update(dev, now)))
  }

  /** An answer puts its own fields into the table and into what it emits, or was there already; or it is ignored. */
  lemma ObservedIsAnnounced(self: Id, known: Table, e: Entry, now: Nanos)
    ensures var (n, ev) := Observed(self, known, e, now);
            && (forall id :: id != e.id ==> (id in n <==> id in known) && (id in n ==> n[id] == known[id]))
            && (!Acceptable(self, e) ==> n == known && ev.None?)
            && (Acceptable(self, e) ==>
                  && e.id in n && Announces(e, n[e.id].device) && n[e.id].seen == now
                  && n[e.id].device.status.Online? && !n[e.id].device.paired
                  && match ev
                     case Some(v) => !v.Remove? && Announces(e, v.device) && v.device.status.Online?
                     case None => e.id in known && Announces(e, known[e.id].device.(id := e.id)))
  {
  }

  predicate Expired(s: Sighting, now: Nanos) { now - s.seen > DEVICE_TTL }

  function ExpiredIds(known: Table, now: Nanos): set<Id> {
    set id | id in known && Expired(known[id], now)
  }

  function EventIds(evs: seq<Event>): seq<Id> { seq(|evs|, i requires 0 <= i < |evs| => evs[i].device.id) }

  /** What a sweep emits: one removal per expired device, in order of id, each with the device shown offline. */
  ghost predicate Retires(known: Table, now: Nanos, evs: seq<Event>) {
    && Lists(EventIds(evs), ExpiredIds(known, now))
    && forall i :: 0 <= i < |evs| ==>
         evs[i].device.id in known && evs[i] == Event.Remove(known[evs[i].device.id].device.(status := Offline), now)
  }

  function Swept(known: Table, now: Nanos): Table { known - ExpiredIds(known, now) }

  // -- a consumer that only has the events ---------------------------------------------------------

  type Replica = map<Id, Device>

  function Apply(m: Replica, ev: Event): Replica {
    if ev.Remove? then m - {ev.device.id} else m[ev.device.id := ev.device]
  }

  function Replay(evs: seq<Event>): Replica {
    if evs == [] then map[] else Apply(Replay(evs[..|evs| - 1]), evs[|evs| - 1])
  }

  /** Whether a device is on the air after a stream of events, or None if the stream breaks (add update* remove)*. */
  function Life(evs: seq<Event>, id: Id): Option<bool> {
    if evs == [] then Some(false)
    else
      var ev := evs[|evs| - 1];
      var before := Life(evs[..|evs| - 1], id);
      if ev.device.id != id then before
      else match ev
        case Add(_, _) => if before == Some(false) then Some(true) else None
        case Update(_, _) => if before == Some(true) then Some(true) else None
        case Remove(_, _) => if before == Some(true) then Some(false) else None
  }

  /**
   * The table and the replica agree about one device: face and all, and the replica's last-seen is less than a
   * refresh behind.
   */
  predicate Tracks(s: Sighting, d: Device, id: Id) {
    && s.device.id == id && d.id == id && SameFace(s.device, d) && s.device.status.Online? && !d.paired
    && s.device.lastSeen == Millis(s.seen) && d.lastSeen == Millis(s.emitted)
    && s.emitted <= s.seen && s.seen - s.emitted < EMIT_REFRESH_AFTER
  }

  ghost predicate InStep(known: Table, evs: seq<Event>, clock: Nanos) {
    forall id :: InStepAt(known, evs, clock, id)
  }

  /** What every observe and sweep keeps about one id. */
  predicate InStepAt(known: Table, evs: seq<Event>, clock: Nanos, id: Id) {
    && (id in known <==> id in Replay(evs))
    && Life(evs, id) == Some(id in known)
    && (id in known ==> Tracks(known[id], Replay(evs)[id], id) && known[id].seen <= clock)
  }

  lemma ReplayAppend(evs: seq<Event>, ev: Event, id: Id)
    ensures Replay(evs + [ev]) == Apply(Replay(evs), ev)
    ensures ev.device.id != id ==> Life(evs + [ev], id) == Life(evs, id)
    ensures ev.device.id == id && ev.Add? && Life(evs, id) == Some(false) ==> Life(evs + [ev], id) == Some(true)
    ensures ev.device.id == id && ev.Update? && Life(evs, id) == Some(true) ==> Life(evs + [ev], id) == Some(true)
    ensures ev.device.id == id && ev.Remove? && Life(evs, id) == Some(true) ==> Life(evs + [ev], id) == Some(false)
  {
    assert (evs + [ev])[..|evs|] == evs;
    hide Apply;
  }

  function Emitted(ev: Option<Event>): seq<Event> { if ev.Some? then [ev.value] else [] }

  lemma ObserveStep(self: Id, known: Table, evs: seq<Event>, e: Entry, now: Nanos, clock: Nanos, id: Id)
    requires InStepAt(known, evs, clock, id) && (e.id != id ==> InStepAt(known, evs, clock, e.id)) && clock <= now
    ensures var (n, ev) := Observed(self, known, e, now); InStepAt(n, evs + Emitted(ev), now, id)
  {
    var (n, ev) := Observed(self, known, e, now);
    if ev.Some? {
      ReplayAppend(evs, ev.value, id);
    } else {
      assert evs + [] == evs;
    }
    hide Replay, Life;
  }

  /** Observing keeps a consumer of the events in step with the table. */
  lemma ObserveKeepsStep(self: Id, known: Table, evs: seq<Event>, e: Entry, now: Nanos, clock: Nanos)
    requires InStep(known, evs, clock) && clock <= now
    ensures var (n, ev) := Observed(self, known, e, now); InStep(n, evs + Emitted(ev), now)
  {
    var (n, ev) := Observed(self, known, e, now);
    forall id ensures InStepAt(n, evs + Emitted(ev), now, id) {
      assert InStepAt(known, evs, clock, id) && InStepAt(known, evs, clock, e.id);
      ObserveStep(self, known, evs, e, now, clock, id);
    }
    hide InStepAt, Observed;
  }

  /** Removals of distinct devices, one after the other. */
  predicate Removals(evs: seq<Event>) {
    && Ascending(EventIds(evs))
    && forall i :: 0 <= i < |evs| ==> evs[i].Remove?
  }

  lemma {:induction false} RemovalsReplay(log: seq<Event>, evs: seq<Event>, k: nat, id: Id)
    requires Removals(evs) && k <= |evs|
    requires id in EventIds(evs) ==> Life(log, id) == Some(true)
    ensures id in Replay(log + evs[..k]) <==> id in Replay(log) && id !in EventIds(evs)[..k]
    ensures id in Replay(log + evs[..k]) ==> Replay(log + evs[..k])[id] == Replay(log)[id]
    ensures Life(log + evs[..k], id) == if id in EventIds(evs)[..k] then Some(false) else Life(log, id)
  {
    var ids := EventIds(evs);
    if k == 0 {
      assert log + evs[..0] == log;
    } else {
      RemovalsReplay(log, evs, k - 1, id);
      assert log + evs[..k] == (log + evs[..k - 1]) + [evs[k - 1]];
      ReplayAppend(log + evs[..k - 1], evs[k - 1], id);
      assert ids[..k] == ids[..k - 1] + [ids[k - 1]];
      if id == ids[k - 1] && id in ids[..k - 1] {
        var j :| 0 <= j < k - 1 && ids[j] == id;
        assert Precedes(ids[j], ids[k - 1]);
        PrecedesTotal(id, id);
      }
      assert id == ids[k - 1] ==> id in ids;
    }
    hide Replay, Life, Precedes;
  }

  lemma SweepStep(known: Table, log: seq<Event>, evs: seq<Event>, now: Nanos, clock: Nanos, id: Id)
    requires InStepAt(known, log, clock, id) && Retires(known, now, evs)
    ensures InStepAt(Swept(known, now), log + evs, clock, id)
  {
    assert id in EventIds(evs) <==> id in ExpiredIds(known, now);
    RemovalsReplay(log, evs, |evs|, id);
    assert evs[..|evs|] == evs && EventIds(evs)[..|evs|] == EventIds(evs);
    hide Replay, Life, Ascending, Expired;
  }

  /** So does sweeping, even by a tick that comes late. */
  lemma SweepKeepsStep(known: Table, log: seq<Event>, evs: seq<Event>, now: Nanos, clock: Nanos)
    requires InStep(known, log, clock) && Retires(known, now, evs)
    ensures InStep(Swept(known, now), log + evs, clock)
  {
    forall id ensures InStepAt(Swept(known, now), log + evs, clock, id) {
      assert InStepAt(known, log, clock, id);
      SweepStep(known, log, evs, now, clock, id);
    }
    hide InStepAt, Retires, Swept;
  }

  // -- the browser ------------------------------------------------------------------------------------

  class Browser {
    const selfID: Id
    var known: Table
    ghost var log: seq<Event>
    ghost var clock: Nanos

    /** Replaying everything emitted so far gives the table back. */
    ghost predicate Valid()
      reads this
    {
      InStep(known, log, clock)
    }

    constructor (selfID: Id, now: Nanos)
      ensures Valid() && known == map[] && log == [] && clock == now && this.selfID == selfID
    {
      this.selfID, known, log, clock := selfID, map[], [], now;
    }

    method Observe(e: Entry, now: Nanos) returns (ev: Option<Event>)
      requires Valid() && now >= clock
      modifies this
      ensures Valid() && clock == now && log == old(log) + Emitted(ev)
      ensures (known, ev) == Observed(selfID, old(known), e, now)
      ensures Acceptable(selfID, e) ==> e.id in known && Announces(e, known[e.id].device)
      ensures ev.Some? ==> Announces(e, ev.value.device)
    {
      ObservedIsAnnounced(selfID, known, e, now);
      ghost var before, events, earlier := known, log, clock;
      ev := Fold(e, now);
      ObserveKeepsStep(selfID, before, events, e, now, earlier);
      log := log + Emitted(ev);
      clock := now;
      hide InStep, Observed, Announces;
    }

    /** observe, up to the event it returns. */
    method Fold(e: Entry, now: Nanos) returns (ev: Option<Event>)
      modifies this`known
      ensures (known, ev) == Observed(selfID, old(known), e, now)
      ensures Acceptable(selfID, e) ==> e.id in known && Announces(e, known[e.id].device)
      ensures ev.Some? ==> Announces(e, ev.value.device)
    {
      if e.id == selfID || e.id == "" { return None; }
      if e.port <= 0 || e.port > 65535 { return None; }
      if e.address.None? { return None; }
      var dev := DeviceOf(e, now);
      if e.id !in known {
        known := known[e.id := Sighting(dev, now, now)];
        return Some(Event.Add(dev, now));
      }
      var prev := known[e.id];
      var changed := !SameFace(prev.device, dev);
      if !changed && now - prev.emitted < EMIT_REFRESH_AFTER {
        known := known[e.id := Sighting(dev, now, prev.emitted)];
        return None;
      }
      known := known[e.id := Sighting(dev, now, now)];
      return Some(Event.Update(dev, now));
    }

    /** sweep, by a tick no later than now: collect what has expired, sort, retire one by one. */
    method Sweep(tick: Nanos) returns (events: seq<Event>)
      requires Valid()
      modifies this
      ensures Valid() && clock == old(clock) && log == old(log) + events
      ensures known == Swept(old(known), tick) && Retires(old(known), tick, events)
    {
      ghost var before, emitted := known, log;
      assert forall id :: id in known ==> InStepAt(known, log, clock, id);
      events := Retire(tick);
      SweepKeepsStep(before, emitted, events, tick, clock);
      log := log + events;
      hide InStep, Retires, Swept;
    }

    method Retire(tick: Nanos) returns (events: seq<Event>)
      requires forall id :: id in known ==> known[id].device.id == id
      modifies this`known
      ensures known == Swept(old(known), tick) && Retires(old(known), tick, events)
    {
      var expired := SortKeys(ExpiredIds(known, tick));
      forall i | 0 <= i < |expired| ensures expired[i] in known && known[expired[i]].device.id == expired[i] {
        assert expired[i] in expired;
      }
      events := [];
      for i := 0 to |expired|
        invariant known == old(known) - (set j | 0 <= j < i :: expired[j])
        invariant EventIds(events) == expired[..i] && |events| == i
        invariant forall j :: 0 <= j < i ==>
            events[j] == Event.Remove(old(known)[expired[j]].device.(status := Offline), tick)
      {
        var id := expired[i];
        StillKnown(expired, i);
        var dev := known[id].device.(status := Offline);
        known := known - {id};
        events := events + [Event.Remove(dev, tick)];
      }
      assert ExpiredIds(old(known), tick) == set j | 0 <= j < |expired| :: expired[j];
      assert expired[..|expired|] == expired;
    }
  }

  lemma StillKnown(ids: seq<Id>, i: nat)
    requires Ascending(ids) && i < |ids|
    ensures forall j :: 0 <= j < i ==> ids[j] != ids[i]
  {
    PrecedesTotal(ids[i], ids[i]);
    hide Precedes;
  }
}
