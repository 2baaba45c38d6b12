/** The peer manager's registry as an object: the live socket of each device, the handshakes and the dials in flight. */
module Registry {
  import opened Common

  type Id = string

  const MAX_PENDING_HANDSHAKES: nat := 64

  // -- the three maps, under the manager's lock ------------------------------------------------

  /** registerConn: the newest socket is the live one. */
  function Registered<C>(conns: map<Id, C>, id: Id, c: C): map<Id, C> {
    if id == "" then conns else conns[id := c]
  }

  /** unregisterConn: only the live socket itself gives up its place. */
  function Unregistered<C(==)>(conns: map<Id, C>, id: Id, c: C): map<Id, C> {
    if id != "" && id in conns && conns[id] == c then conns - {id} else conns
  }

  // -- the object -------------------------------------------------------------------------------------

  class Conn {
    var deviceId: Id
    var paired: bool
    var closed: bool

    constructor ()
      ensures deviceId == "" && !paired && !closed
    {
      deviceId, paired, closed := "", false, false;
    }
  }

  class ConnRegistry {
    var conns: map<Id, Conn>
    var handshakes: nat
    var dialing: map<Id, nat>
    var dials: nat

    ghost predicate Valid()
      reads this, conns.Values
    {
      && handshakes <= MAX_PENDING_HANDSHAKES
      && forall id :: id in conns ==> id != "" && conns[id].deviceId == id && conns[id].paired
    }

    constructor ()
      ensures Valid() && conns == map[] && handshakes == 0 && dialing == map[]
    {
      conns, handshakes, dialing, dials := map[], 0, map[], 0;
    }

    /** registerConn: the evicted socket, and no other, is closed. */
    method RegisterConn(c: Conn)
      requires Valid() && c.paired
      modifies this`conns, conns.Values
      ensures Valid() && conns == Registered(old(conns), c.deviceId, c)
      ensures forall o: Conn :: o in old(conns.Values) ==>
                o.closed == (old(o.closed) || (c.deviceId != "" && c.deviceId in old(conns) && old(conns)[c.deviceId]
                    == o && o != c))
                && o.deviceId == old(o.deviceId) && o.paired == old(o.paired)
    {
      if c.deviceId == "" { return; }
      var evicted: Conn? := if c.deviceId in conns then conns[c.deviceId] else null;
      conns := conns[c.deviceId := c];
      if evicted != null && evicted != c {
        evicted.closed := true;
      }
    }

    method UnregisterConn(c: Conn) returns (wasLive: bool)
      requires Valid()
      modifies this`conns
      ensures Valid() && conns == Unregistered(old(conns), c.deviceId, c)
      ensures wasLive <==> c.deviceId in old(conns) && old(conns)[c.deviceId] == c
    {
      if c.deviceId == "" { return false; }
      if c.deviceId in conns && conns[c.deviceId] == c {
        conns := conns - {c.deviceId};
        return true;
      }
      return false;
    }

    /** teardown: a device is reported offline only when its live socket went down. */
    method Teardown(c: Conn) returns (offline: bool)
      requires Valid()
      modifies this`conns, c`closed
      ensures Valid() && conns == Unregistered(old(conns), c.deviceId, c) && c.closed
      ensures offline <==> c.deviceId in old(conns) && old(conns)[c.deviceId] == c
    {
      offline := UnregisterConn(c);
      c.closed := true;
    }

    method LiveConn(id: Id) returns (c: Conn?)
      requires Valid()
      modifies this`conns
      ensures Valid()
      ensures conns == if id in old(conns) && old(conns)[id].closed then old(conns) - {id} else old(conns)
      ensures c == if id in conns then conns[id] else null
      ensures c != null ==> !c.closed && c.paired && c.deviceId == id
    {
      if id !in conns { return null; }
      if conns[id].closed {
        conns := conns - {id};
        return null;
      }
      return conns[id];
    }

    method AcquireHandshake() returns (ok: bool)
      requires Valid()
      modifies this`handshakes
      ensures Valid() && (ok <==> old(handshakes) < MAX_PENDING_HANDSHAKES)
      ensures handshakes == if ok then old(handshakes) + 1 else old(handshakes)
    {
      if handshakes >= MAX_PENDING_HANDSHAKES { return false; }
      handshakes := handshakes + 1;
      return true;
    }

    method ReleaseHandshake()
      requires Valid()
      modifies this`handshakes
      ensures Valid() && handshakes == if old(handshakes) > 0 then old(handshakes) - 1 else 0
    {
      if handshakes > 0 { handshakes := handshakes - 1; }
    }

    /** The single-flight gate of ensureConn: one caller dials, the others wait for it. */
    method BeginDial(id: Id) returns (dial: bool)
      modifies this`dialing, this`dials
      ensures dial <==> id !in old(dialing)
      ensures dialing == if dial then old(dialing)[id := old(dials)] else old(dialing)
    {
      if id in dialing { return false; }
      dialing := dialing[id := dials];
      dials := dials + 1;
      return true;
    }
  }
}
