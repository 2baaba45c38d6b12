/** The control server's roster: every upsert, removal and sweep, and what Devices() shows of it. */
module Roster {
  import opened Common
  import opened Discovery

  const DEVICE_ONLINE_TTL_MS := DEVICE_TTL / MILLISECOND
  const DEVICE_DROP_AFTER_MS := 2 * DEVICE_TTL / MILLISECOND
  const LAST_SEEN_EPSILON := 10 * SECOND / MILLISECOND

  type DeviceMap = map<Id, Device>

  predicate StaleAt(lastSeen: int, nowMs: int) { nowMs - lastSeen > DEVICE_ONLINE_TTL_MS }

  /** Blank fields filled in; what must never enter the roster becomes a device with no id. */
  function Normalise(self: Id, d: Device, nowMs: int): Option<Device> {
    if d.id == self || d.id == "" then None
    else Some(d.(
      lastSeen := if d.lastSeen <= 0 then nowMs else d.lastSeen,
      platform := if d.platform == "" then PLATFORM_UNKNOWN else d.platform,
      name := if d.name == "" then d.id else d.name,
      paired := false))
  }

  /** Worth telling the clients about. */
  predicate Changed(prev: Device, next: Device) {
    !SameFace(prev, next) || next.lastSeen - prev.lastSeen >= LAST_SEEN_EPSILON
  }

  predicate Dropped(d: Device, paired: set<Id>, id: Id, nowMs: int) {
    id !in paired && d.lastSeen < nowMs - DEVICE_DROP_AFTER_MS
  }

  function Aged(d: Device, nowMs: int): Device {
    if StaleAt(d.lastSeen, nowMs) then d.(status := Offline) else d
  }

  /** A sweep: long unseen strangers go, the rest go offline when stale. */
  function Sweep(m: DeviceMap, paired: set<Id>, nowMs: int): DeviceMap {
    map id | id in m && !Dropped(m[id], paired, id, nowMs) :: Aged(m[id], nowMs)
  }

  /** A device the user has paired, as the trust store remembers it. */
  datatype Trusted = Trusted(name: string, lastSeen: int)

  /** Devices(): the roster with trust and the clock stamped on, and every trusted device that is not on the air. */
  function View(m: DeviceMap, trust: map<Id, Trusted>, nowMs: int): DeviceMap {
    map id | id in m.Keys + trust.Keys ::
      if id in m then Aged(m[id], nowMs).(paired := id in trust)
      else Device(id, trust[id].name, "", 0, PLATFORM_UNKNOWN, "", Offline, true, trust[id].lastSeen)
  }

  /**
   * What is shown: what is on the air, offline once it has not been seen for 30 s, and what is trusted; each marked as
   * paired exactly if it is trusted.
   */
  lemma ShownIs(m: DeviceMap, trust: map<Id, Trusted>, nowMs: int, id: Id)
    ensures id in View(m, trust, nowMs) <==> id in m || id in trust
    ensures id in View(m, trust, nowMs) ==> (View(m, trust, nowMs)[id].paired <==> id in trust)
    ensures id in m ==>
              var d := View(m, trust, nowMs)[id];
              && d.id == m[id].id && SameFace(m[id], d.(status := m[id].status)) && d.lastSeen == m[id].lastSeen
              && d.status == (if nowMs - m[id].lastSeen > 30_000 then Offline else m[id].status)
    ensures id in trust && id !in m ==>
              var d := View(m, trust, nowMs)[id];
              && d.id == id && d.name == trust[id].name && d.lastSeen == trust[id].lastSeen && d.status.Offline?
              && d.address == "" && d.port == 0 && d.version == "" && d.platform == "unknown"
  {
  }

  /** A sighting that is not worth a push would show nobody anything new but a last-seen less than 10 s later. */
  lemma UnchangedIsUnseen(m: DeviceMap, d: Device)
    requires d.id in m && m[d.id].id == d.id && !m[d.id].paired && !d.paired
    ensures !Changed(m[d.id], d)
            <==> d.lastSeen - m[d.id].lastSeen < 10_000
                 && m[d.id := d.(lastSeen := m[d.id].lastSeen)] == m
  {
    assert m[d.id := m[d.id]] == m;
    assert !Changed(m[d.id], d) ==> d.(lastSeen := m[d.id].lastSeen) == m[d.id];
    assert m[d.id := d.(lastSeen := m[d.id].lastSeen)][d.id] == d.(lastSeen := m[d.id].lastSeen);
  }

  /** Every device sits under its own id, and `paired` is never stored. */
  predicate WellFiled(m: DeviceMap) { forall id :: id in m ==> m[id].id == id && !m[id].paired }

  /** A sweep never shows: whoever looks later sees every device it kept exactly as without it. */
  lemma SweepIsUnseen(m: DeviceMap, paired: set<Id>, nowMs: int, trust: map<Id, Trusted>, laterMs: int, id: Id)
    requires nowMs <= laterMs && id in Sweep(m, paired, nowMs)
    ensures View(Sweep(m, paired, nowMs), trust, laterMs)[id] == View(m, trust, laterMs)[id]
  {
    assert id in m && id in View(m, trust, laterMs) && id in View(Sweep(m, paired, nowMs), trust, laterMs);
  }

  /**
   * And it drops exactly the strangers that have not been seen for 60 s: nobody the user has paired, and nobody shown
   * online.
   */
  lemma SweepDropsOnlyTheLongGone(m: DeviceMap, paired: set<Id>, nowMs: int, trust: map<Id, Trusted>, id: Id)
    requires trust.Keys == paired && id in View(m, trust, nowMs)
    ensures id !in View(Sweep(m, paired, nowMs), trust, nowMs) <==> id !in trust && m[id].lastSeen < nowMs - 60_000
    ensures id !in View(Sweep(m, paired, nowMs), trust, nowMs) ==> View(m, trust, nowMs)[id].status.Offline?
  {
    assert id in m.Keys + trust.Keys;
  }

  /**
   * What a device becomes on its way in: this device and one without an id stay out, a device without a name goes by
   * its id, one without a platform is of an unknown one, one without a time is seen now, and nobody comes in paired.
   */
  lemma NormalisedIs(self: Id, d: Device, nowMs: int)
    ensures Normalise(self, d, nowMs).None? <==> d.id in {"", self}
    ensures d.id !in {"", self} ==>
              var n := Normalise(self, d, nowMs).value;
              && n.id == d.id && n.address == d.address && n.port == d.port && n.version == d.version
              && n.status == d.status && !n.paired && n.name != ""
              && (d.name != "" ==> n.name == d.name) && (d.name == "" ==> n.name == d.id)
              && (d.platform != "" ==> n.platform == d.platform) && (d.platform == "" ==> n.platform == "unknown")
              && (d.lastSeen > 0 ==> n.lastSeen == d.lastSeen) && (d.lastSeen <= 0 ==> n.lastSeen == nowMs)
  {
  }

  class Server {
    const deviceID: Id
    var devByID: DeviceMap
    var scheduled: nat

    /** Everything under its own id, and neither this device nor one without an id among it. */
    ghost predicate Valid()
      reads this
    {
      WellFiled(devByID) && deviceID !in devByID && "" !in devByID
    }

    constructor (deviceID: Id)
      ensures Valid() && devByID == map[] && this.deviceID == deviceID
    {
      this.deviceID, devByID, scheduled := deviceID, map[], 0;
    }

    method NormaliseDevice(d: Device, nowMs: int) returns (r: Option<Device>)
      ensures r == Normalise(deviceID, d, nowMs)
    {
      if d.id == deviceID || d.id == "" { return None; }
      var n := d;
      if n.lastSeen <= 0 { n := n.(lastSeen := nowMs); }
      if n.platform == "" { n := n.(platform := PLATFORM_UNKNOWN); }
      if n.name == "" { n := n.(name := n.id); }
      return Some(n.(paired := false));
    }

    /** A sighting taken as unchanged leaves the roster exactly as a plain overwrite would; only the push is saved. */
    method UpsertDevice(d: Device, nowMs: int)
      requires Valid()
      modifies this
      ensures Valid()
      ensures var n := Normalise(deviceID, d, nowMs);
              && devByID == (if n.None? then old(devByID) else old(devByID)[d.id := n.value])
              && (scheduled == old(scheduled) + 1 <==>
                  n.Some?
                  && (d.id !in old(devByID) || Changed(old(devByID)[d.id], n.value)))
              && (scheduled == old(scheduled) || scheduled == old(scheduled) + 1)
    {
      var n := NormaliseDevice(d, nowMs);
      if n.None? { return; }
      var dev := n.value;
      if dev.id in devByID && !Changed(devByID[dev.id], dev) {
        var prev := devByID[dev.id];
        prev := prev.(lastSeen := dev.lastSeen);
        prev := prev.(status := dev.status);
        devByID := devByID[dev.id := prev];
      } else {
        devByID := devByID[dev.id := dev];
        scheduled := scheduled + 1;
      }
    }

    method RemoveDevice(id: Id)
      requires Valid()
      modifies this
      ensures Valid()
      ensures devByID == if id == "" then old(devByID) else old(devByID) - {id}
      ensures scheduled == if id != "" && id in old(devByID) then old(scheduled) + 1 else old(scheduled)
    {
      if id == "" { return; }
      var existed := id in devByID;
      devByID := devByID - {id};
      if existed { scheduled := scheduled + 1; }
    }

    /** SweepDevices: one pass over the map, deleting and updating as it goes; a push only if something moved. */
    method SweepDevices(paired: set<Id>, nowMs: int)
      requires Valid()
      modifies this
      ensures Valid()
      ensures devByID == Sweep(old(devByID), paired, nowMs)
      ensures scheduled == if devByID != old(devByID) then old(scheduled) + 1 else old(scheduled)
    {
      var changed := false;
      var todo := devByID.Keys;
      while todo != {}
        invariant todo <= old(devByID).Keys
        invariant forall id :: id in todo ==> id in devByID && devByID[id] == old(devByID)[id]
        invariant forall id :: id !in todo ==> (id in devByID <==> id in Sweep(old(devByID), paired, nowMs))
        invariant forall id :: id !in todo && id in devByID ==> devByID[id] == Sweep(old(devByID), paired, nowMs)[id]
        invariant scheduled == old(scheduled) && (changed <==> devByID != old(devByID))
        decreases todo
      {
        var id :| id in todo;
        todo := todo - {id};
        var d := devByID[id];
        if id !in paired && d.lastSeen < nowMs - DEVICE_DROP_AFTER_MS {
          devByID := devByID - {id};
          changed := true;
          continue;
        }
        if d.status != Offline && StaleAt(d.lastSeen, nowMs) {
          devByID := devByID[id := d.(status := Offline)];
          changed := true;
        }
      }
      if changed { scheduled := scheduled + 1; }
    }

    /** Devices: reads, and changes nothing. */
    method Devices(trust: map<Id, Trusted>, nowMs: int) returns (out: DeviceMap)
      requires Valid()
      ensures out == View(devByID, trust, nowMs)
    {
      out := map[];
      var todo := devByID.Keys;
      while todo != {}
        invariant todo <= devByID.Keys && out.Keys == devByID.Keys - todo
        invariant forall id :: id in out ==> out[id] == Aged(devByID[id], nowMs).(paired := id in trust)
        decreases todo
      {
        var id :| id in todo;
        todo := todo - {id};
        var d := devByID[id].(paired := id in trust);
        if StaleAt(d.lastSeen, nowMs) { d := d.(status := Offline); }
        out := out[id := d];
      }
      var rest := trust.Keys;
      while rest != {}
        invariant rest <= trust.Keys && out.Keys == devByID.Keys + (trust.Keys - rest)
        invariant forall id :: id in devByID ==> out[id] == Aged(devByID[id], nowMs).(paired := id in trust)
        invariant forall id :: id in out && id !in devByID ==>
                    out[id] == Device(id, trust[id].name, "", 0, PLATFORM_UNKNOWN, "", Offline, true,
                        trust[id].lastSeen)
        decreases rest
      {
        var id :| id in rest;
        rest := rest - {id};
        if id !in devByID {
          out := out[id := Device(id, trust[id].name, "", 0, PLATFORM_UNKNOWN, "", Offline, true, trust[id].lastSeen)];
        }
      }
    }
  }
}
