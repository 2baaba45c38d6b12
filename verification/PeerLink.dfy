/**
 * PeerLink's negotiation: one RTCPeerConnection as the signalling state machine of section 3.2 of RFC 8829
 * (offers, answers and rollback; no provisional answers), and what connect() and the signal handlers do with it.
 */
module PeerLinkModule {
  import opened Common
  import opened PairingCode

  type Id = string

  /** A session description: the n-th one its author made, and for an answer the offer it answers. */
  datatype Desc = Offer(author: Id, n: nat) | Answer(author: Id, n: nat, offer: Desc)

  datatype SignalingState = Stable | HaveLocalOffer | HaveRemoteOffer

  datatype Connection = Connection(
    state: SignalingState,
    currentLocal: Option<Desc>, currentRemote: Option<Desc>,
    pendingLocal: Option<Desc>, pendingRemote: Option<Desc>)

  const FRESH := Connection(Stable, None, None, None, None)

  // -- the browser -----------------------------------------------------------------------

  /** The browser's InvalidStateError. */
  datatype StateError = InvalidState

  function SetLocalOffer(c: Connection, d: Desc): Result<Connection, StateError> {
    if c.state.HaveRemoteOffer? then Err(InvalidState) else Ok(c.(state := HaveLocalOffer, pendingLocal := Some(d)))
  }

  function SetRemoteOffer(c: Connection, d: Desc): Result<Connection, StateError> {
    if c.state.HaveLocalOffer? then Err(InvalidState) else Ok(c.(state := HaveRemoteOffer, pendingRemote := Some(d)))
  }

  function SetLocalAnswer(c: Connection, d: Desc): Result<Connection, StateError> {
    if !c.state.HaveRemoteOffer? then Err(InvalidState)
    else Ok(Connection(Stable, Some(d), c.pendingRemote, None, None))
  }

  function SetRemoteAnswer(c: Connection, d: Desc): Result<Connection, StateError> {
    if !c.state.HaveLocalOffer? then Err(InvalidState)
    else Ok(Connection(Stable, c.pendingLocal, Some(d), None, None))
  }

  function Rollback(c: Connection): Result<Connection, StateError> {
    if c.state.Stable? then Err(InvalidState) else Ok(c.(state := Stable, pendingLocal := None, pendingRemote := None))
  }

  // -- the link ----------------------------------------------------------------------------

  datatype Role = Initiator | Responder

  /**
   * What negotiation depends on; `made` counts the descriptions this side has created, `broken` says a browser call
   * threw.
   */
  datatype Link = Link(localId: Id, remoteId: Id, role: Option<Role>, pc: Connection, made: nat, broken: bool)

  function NewLink(localId: Id, remoteId: Id): Link { Link(localId, remoteId, None, FRESH, 0, false) }

  /** The side with the larger id yields when both offer at once. */
  predicate Polite(l: Link) { Precedes(l.remoteId, l.localId) }

  function Broken(l: Link): (Link, seq<Desc>) { (l.(broken := true), []) }

  function ConnectLink(l: Link): (Link, seq<Desc>) {
    if l.role == Some(Initiator) then (l, [])
    else
      var offer := Desc.Offer(l.localId, l.made);
      var m := l.(role := Some(Initiator), made := l.made + 1);
      match SetLocalOffer(l.pc, offer)
      case Err(_) => Broken(m)
      case Ok(c) => (m.(pc := c), [offer])
  }

  /** An offer applied in a stable state, and answered. */
  function AnswerOffer(l: Link, d: Desc): (Link, seq<Desc>) {
    var m := if l.role.None? then l.(role := Some(Responder)) else l;
    match SetRemoteOffer(m.pc, d)
    case Err(_) => Broken(m)
    case Ok(c) =>
      var answer := Desc.Answer(l.localId, l.made, d);
      match SetLocalAnswer(c, answer)
      case Err(_) => Broken(m)
      case Ok(c') => (m.(pc := c', made := l.made + 1), [answer])
  }

  function HandleOffer(l: Link, d: Desc): (Link, seq<Desc>) {
    if l.pc.state.Stable? then AnswerOffer(l, d)
    else if !Polite(l) then (l, [])
    else match Rollback(l.pc)
      case Err(_) => Broken(l)
      case Ok(c) => AnswerOffer(l.(pc := c), d)
  }

  function HandleAnswer(l: Link, d: Desc): Link {
    if !l.pc.state.HaveLocalOffer? then l
    else match SetRemoteAnswer(l.pc, d)
      case Err(_) => Broken(l).0
      case Ok(c) => l.(pc := c)
  }

  function HandleSignal(l: Link, d: Desc): (Link, seq<Desc>) {
    if d.Offer? then HandleOffer(l, d) else (HandleAnswer(l, d), [])
  }

  // -- the object ----------------------------------------------------------------------------

  /** RTCPeerConnection, one description slot per field. */
  class RtcPeerConnection {
    var state: SignalingState
    var currentLocal: Option<Desc>
    var currentRemote: Option<Desc>
    var pendingLocal: Option<Desc>
    var pendingRemote: Option<Desc>

    ghost function Abs(): Connection
      reads this
    {
      Connection(state, currentLocal, currentRemote, pendingLocal, pendingRemote)
    }

    constructor ()
      ensures Abs() == FRESH
    {
      state, currentLocal, currentRemote, pendingLocal, pendingRemote := Stable, None, None, None, None;
    }

    method SetLocalDescription(d: Desc) returns (ok: bool)
      modifies this
      ensures var r := if d.Offer? then SetLocalOffer(old(Abs()), d) else SetLocalAnswer(old(Abs()), d);
              ok == r.Ok? && Abs() == if ok then r.value else old(Abs())
    {
      if d.Offer? {
        if state == HaveRemoteOffer { return false; }
        state, pendingLocal := HaveLocalOffer, Some(d);
      } else {
        if state != HaveRemoteOffer { return false; }
        state, currentLocal, currentRemote, pendingLocal, pendingRemote := Stable, Some(d), pendingRemote, None, None;
      }
      return true;
    }

    method SetRemoteDescription(d: Desc) returns (ok: bool)
      modifies this
      ensures var r := if d.Offer? then SetRemoteOffer(old(Abs()), d) else SetRemoteAnswer(old(Abs()), d);
              ok == r.Ok? && Abs() == if ok then r.value else old(Abs())
    {
      if d.Offer? {
        if state == HaveLocalOffer { return false; }
        state, pendingRemote := HaveRemoteOffer, Some(d);
      } else {
        if state != HaveLocalOffer { return false; }
        state, currentLocal, currentRemote, pendingLocal, pendingRemote := Stable, pendingLocal, Some(d), None, None;
      }
      return true;
    }

    method RollbackLocal() returns (ok: bool)
      modifies this
      ensures var r := Rollback(old(Abs()));
              ok == r.Ok? && Abs() == if ok then r.value else old(Abs())
    {
      if state == Stable { return false; }
      state, pendingLocal, pendingRemote := Stable, None, None;
      return true;
    }
  }

  class PeerLink {
    const localId: Id
    const remoteId: Id
    const polite: bool
    const pc: RtcPeerConnection
    var role: Option<Role>
    var makingOffer: bool
    var made: nat
    var broken: bool

    ghost predicate Valid()
      reads this
    {
      polite == Precedes(remoteId, localId) && !makingOffer
    }

    ghost function Abs(): Link
      reads this, pc
    {
      Link(localId, remoteId, role, pc.Abs(), made, broken)
    }

    constructor (localId: Id, remoteId: Id)
      ensures Valid() && fresh(pc) && Abs() == NewLink(localId, remoteId)
    {
      this.localId, this.remoteId, this.polite := localId, remoteId, Precedes(remoteId, localId);
      pc := new RtcPeerConnection();
      role, makingOffer, made, broken := None, false, 0, false;
    }

    method Connect() returns (sent: seq<Desc>)
      requires Valid()
      modifies this, pc
      ensures Valid() && (Abs(), sent) == ConnectLink(old(Abs()))
    {
      if role == Some(Initiator) { return []; }
      role := Some(Initiator);
      makingOffer := true;
      var offer := Desc.Offer(localId, made);
      made := made + 1;
      var ok := pc.SetLocalDescription(offer);
      if ok { sent := [offer]; } else { sent, broken := [], true; }
      makingOffer := false;
    }

    method OnOffer(d: Desc) returns (sent: seq<Desc>)
      requires Valid() && d.Offer?
      modifies this, pc
      ensures Valid() && (Abs(), sent) == HandleSignal(old(Abs()), d)
    {
      sent := [];
      if makingOffer || pc.state != Stable {
        if !polite { return; }
        var undone := pc.RollbackLocal();
        assert undone;
      }
      if role == None { role := Some(Responder); }
      var applied := pc.SetRemoteDescription(d);
      assert applied;
      var answer := Desc.Answer(localId, made, d);
      var ok := pc.SetLocalDescription(answer);
      assert ok;
      made := made + 1;
      sent := [answer];
    }

    method OnAnswer(d: Desc)
      requires Valid() && d.Answer?
      modifies this, pc
      ensures Valid() && Abs() == HandleSignal(old(Abs()), d).0
    {
      if pc.state != HaveLocalOffer { return; }
      var ok := pc.SetRemoteDescription(d);
      assert ok;
    }
  }
}
