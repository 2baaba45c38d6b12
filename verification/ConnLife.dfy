/**
 * The sockets of one peer manager, from the handshake slot to the teardown, under every interleaving of sockets coming,
 * authenticating, pairing, dying and being torn down, with any peer at the far end: which one is the live one of a
 * device, what it has shown for it, who holds a handshake slot, and who is being dialled.
 */
module ConnLife {
  import opened Common
  import PairingCode
  import P = PairingSpec
  import opened Registry

  type Token = string

  /** What a handler has deferred; the last one runs first. */
  datatype Deferred = TearDown | ReleaseSlot

  /** How far a socket has got. */
  datatype Role =
    | Upgrading                  // slot taken, no websocket yet
    | Reading                    // inbound, no hello yet
    | Verified(ready: bool)      // inbound, its token is the stored one; `ready`: answered, and marked paired
    | Pairing(e: P.End)          // in a pairing attempt, dialled for it or offered it
    | Asking                     // dialled with the stored token, not answered
    | Recognised                 // answered with peer:ready, and marked paired
    | Gone                       // closed before it was any of these

  /**
   * `token` is what the hello carried, the peer's or ours; `filed` says that registerConn has been called after it was
   * recognised; `returned` says that its handler is running its defers.
   */
  datatype Sock = Sock(id: Id, token: Token, role: Role, open: bool, slot: bool, filed: bool, returned: bool,
      defers: seq<Deferred>, torn: bool)
  {
    predicate Paired() {
      match role
      case Verified(ready) => ready
      case Pairing(e) => e.paired
      case Recognised => true
      case _ => false
    }

    function Device(): Id { if role.Pairing? then role.e.device else id }

    predicate Alive() { if role.Pairing? then role.e.alive else open }

    /** The device and the token this socket stands on, if it stands on any. */
    function Claim(): Option<(Id, Token)> {
      match role
      case Verified(_) => Some((id, token))
      case Asking => Some((id, token))
      case Recognised => Some((id, token))
      case Pairing(e) => if e.stored.Some? then Some((e.device, e.stored.value)) else None
      case _ => None
    }
  }

  /** One ensureConn that went past the single-flight check, until it gives the device back. */
  datatype Dial = Dial(device: Id, running: bool)

  datatype World = World(
    self: Id, trust: map<Id, Token>, socks: seq<Sock>, conns: map<Id, nat>, handshakes: nat,
    dials: seq<Dial>, dialing: map<Id, nat>)

  function Start(self: Id, trust: map<Id, Token>): World { World(self, trust, [], map[], 0, [], map[]) }

  datatype Step =
    | Acquire                                                          // handlePeer: a slot
    | Upgrade(i: nat, ok: bool)                                        // websocket.Accept
    | ReadHello(i: nat, hello: Option<(Id, Token)>, gate: P.Gate, free: bool)
    | Ready(i: nat, ok: bool)                                          // peer:ready enqueued, paired set
    | StartPairing(device: Id)
    | Pair(i: nat, head: Option<P.Frame>, move: P.Move, free: bool, mine: bool)
    | Confirm(i: nat, d: P.Decision)
    | Register(i: nat)                                                 // registerConn, after a token
    | Release(i: nat)                                                  // the slot, however often it is called
    | Dies(i: nat)
    | Return(i: nat)
    | Unwind(i: nat)                                                   // the handler's last deferred call
    | Lookup(id: Id)                                                   // liveConn
    | Cancel(i: nat)             // Forget, its first part: a pairing in flight is told to stop,
    | Remove(id: Id)             // its second: the device is taken out of the store,
    | Drop(id: Id)               // its third: and its live socket, if there is one, is closed
    | BeginDial(id: Id)          // ensureConn found no live socket, at some earlier moment
    | Ask(k: nat)                // dialled, with the token the store has now
    | Recognise(i: nat)          // answered with peer:ready
    | EndDial(k: nat)

  // -- one step ------------------------------------------------------------------------------------

  function SetSock(w: World, i: nat, s: Sock): World
    requires i < |w.socks|
  {
    w.(socks := w.socks[i := s])
  }

  function Slotless(w: World, i: nat): World
    requires i < |w.socks|
  {
    if !w.socks[i].slot then w
    else SetSock(w, i, w.socks[i].(slot := false)).(handshakes := if w.handshakes > 0 then w.handshakes - 1 else 0)
  }

  /** Closing a socket: its context is done. */
  function Shut(s: Sock): Sock {
    if s.role.Pairing? then s.(role := Pairing(s.role.e.(alive := false)), open := false) else s.(open := false)
  }

  function Torn(w: World, i: nat): World
    requires i < |w.socks|
  {
    SetSock(w, i, Shut(w.socks[i]).(torn := true)).(conns := Unregistered(w.conns, w.socks[i].Device(), i))
  }

  function Looked(w: World, id: Id): World {
    if id in w.conns && w.conns[id] < |w.socks| && !w.socks[w.conns[id]].Alive() then w.(conns := w.conns - {id}) else w
  }

  /** liveConn, then unregisterConn and the close. */
  function Dropped(w: World, id: Id): World {
    var v := Looked(w, id);
    if id in v.conns && v.conns[id] < |v.socks| then
      SetSock(v, v.conns[id], Shut(v.socks[v.conns[id]])).(conns := v.conns - {id})
    else v
  }

  function New(role: Role): Sock { Sock("", "", role, false, false, false, false, [], false) }

  /** The first frame of an inbound socket: verified against the store, or offered pairing like any stranger. */
  function Greeted(h: PairingCode.Hash, w: World, s: Sock, hello: Option<(Id, Token)>, gate: P.Gate, free: bool): Sock {
    if hello.None? || hello.value.0 == "" || gate.Unreadable? || gate.WrongVersion? || hello.value.0 == w.self then
      s.(open := false, returned := true, role := Gone)
    else
      var (id, token) := hello.value;
      if id in w.trust && w.trust[id] == token then s.(id := id, token := token, role := Verified(false))
      else s.(role := Pairing(P.TakeHello(h, P.NewResponder(w.self), P.Hello(id), gate, _ => free).0))
  }

  /** A step of a socket's pairing attempt: what it stores goes into the store, and completing it files the socket. */
  function Paired(h: PairingCode.Hash, w: World, i: nat, head: Option<P.Frame>, move: P.Move, free: bool,
      mine: bool): World
    requires i < |w.socks| && w.socks[i].role.Pairing?
  {
    var s := w.socks[i];
    var e := P.Act(h, s.role.e, head, move, _ => free, mine).e;
    var n := s.(role := Pairing(e), defers := if e.linked && !s.role.e.linked then [TearDown] else s.defers);
    var trust := if e.stored.Some? && e.stored != s.role.e.stored then w.trust[e.device := e.stored.value] else w.trust;
    var conns := if e.paired && !s.role.e.paired then Registered(w.conns, e.device, i) else w.conns;
    SetSock(w, i, n).(trust := trust, conns := conns)
  }

  function Unwound(w: World, i: nat): World
    requires i < |w.socks| && w.socks[i].defers != []
  {
    var s := w.socks[i];
    var last := s.defers[|s.defers| - 1];
    var w1 := SetSock(w, i, s.(defers := s.defers[..|s.defers| - 1]));
    if last.ReleaseSlot? then Slotless(w1, i) else Torn(w1, i)
  }

  predicate Has(w: World, i: nat) { i < |w.socks| }

  /** Marked paired after a token, and on its way into the registry. */
  predicate MayRegister(s: Sock) { !s.returned && !s.filed && (s.role == Verified(true) || s.role.Recognised?) }

  function Next(h: PairingCode.Hash, w: World, step: Step): World {
    match step
    case Acquire =>
      if w.handshakes >= MAX_PENDING_HANDSHAKES then w
      else w.(handshakes := w.handshakes + 1, socks := w.socks + [New(Upgrading).(slot := true)])
    case Upgrade(i, ok) =>
      if !Has(w, i) || !w.socks[i].role.Upgrading? then w
      else if ok then SetSock(w, i, w.socks[i].(role := Reading, open := true, defers := [TearDown, ReleaseSlot]))
      else Slotless(SetSock(w, i, w.socks[i].(role := Gone)), i)
    case ReadHello(i, hello, gate, free) =>
      if Has(w, i) && w.socks[i].role.Reading? && !w.socks[i].returned
      then SetSock(w, i, Greeted(h, w, w.socks[i], hello, gate, free)) else w
    case Ready(i, ok) =>
      if !Has(w, i) || w.socks[i].role != Verified(false) || w.socks[i].returned then w
      else SetSock(w, i, if ok && w.socks[i].open then w.socks[i].(role := Verified(true))
          else w.socks[i].(returned := true))
    case StartPairing(device) =>
      if device == "" || device == w.self then w
      else w.(socks := w.socks + [New(Pairing(P.NewDialer(w.self, device)))])
    case Pair(i, head, move, free, mine) =>
      if Has(w, i) && w.socks[i].role.Pairing? then Paired(h, w, i, head, move, free, mine) else w
    case Confirm(i, d) =>
      if Has(w, i) && w.socks[i].role.Pairing?
      then SetSock(w, i, w.socks[i].(role := Pairing(P.Answer(w.socks[i].role.e, d).0))) else w
    case Register(i) =>
      if Has(w, i) && MayRegister(w.socks[i]) then
        SetSock(w, i, w.socks[i].(filed := true)).(conns := Registered(w.conns, w.socks[i].id, i))
      else w
    case Release(i) => if Has(w, i) && !w.socks[i].role.Upgrading? then Slotless(w, i) else w
    case Dies(i) => if Has(w, i) then SetSock(w, i, Shut(w.socks[i])) else w
    case Return(i) => if Has(w, i) && w.socks[i].defers != [] then SetSock(w, i, w.socks[i].(returned := true)) else w
    case Unwind(i) => if Has(w, i) && w.socks[i].returned && w.socks[i].defers != [] then Unwound(w, i) else w
    case Lookup(id) => Looked(w, id)
    case Cancel(i) =>
      if Has(w, i) && w.socks[i].role.Pairing?
      then SetSock(w, i, w.socks[i].(role := Pairing(P.Push(w.socks[i].role.e, P.EvCancelled(P.DECLINED))))) else w
    case Remove(id) => if id == "" then w else w.(trust := w.trust - {id})
    case Drop(id) => if id == "" then w else Dropped(w, id)
    case BeginDial(id) =>
      if id == "" || id in w.dialing then w
      else w.(dialing := w.dialing[id := |w.dials|], dials := w.dials + [Dial(id, true)])
    case Ask(k) =>
      if k < |w.dials| && w.dials[k].running && w.dials[k].device in w.trust then
        var id := w.dials[k].device;
        w.(socks := w.socks + [New(Asking).(id := id, token := w.trust[id], open := true)])
      else w
    case Recognise(i) =>
      if Has(w, i) && w.socks[i].role.Asking? && w.socks[i].open
      then SetSock(w, i, w.socks[i].(role := Recognised, defers := [TearDown])) else w
    case EndDial(k) =>
      if k < |w.dials| && w.dials[k].running then
        w.(dials := w.dials[k := w.dials[k].(running := false)], dialing := w.dialing - {w.dials[k].device})
      else w
  }

  function Run(h: PairingCode.Hash, w0: World, steps: seq<Step>): World {
    if steps == [] then w0 else Next(h, Run(h, w0, steps[..|steps| - 1]), steps[|steps| - 1])
  }

  // -- handshake slots -------------------------------------------------------------------------------

  /** How many sockets hold a slot. */
  function Slots(socks: seq<Sock>): nat {
    if socks == [] then 0 else Slots(socks[..|socks| - 1]) + if socks[|socks| - 1].slot then 1 else 0
  }

  lemma {:induction false} SlotsSet(socks: seq<Sock>, i: nat, s: Sock)
    requires i < |socks|
    ensures Slots(socks[i := s]) == Slots(socks) - (if socks[i].slot then 1 else 0) + (if s.slot then 1 else 0)
  {
    var front := socks[..|socks| - 1];
    if i == |socks| - 1 {
      assert socks[i := s][..i] == front;
    } else {
      SlotsSet(front, i, s);
      assert socks[i := s][..|socks| - 1] == front[i := s];
    }
  }

  lemma SlotsAppend(socks: seq<Sock>, s: Sock)
    ensures Slots(socks + [s]) == Slots(socks) + if s.slot then 1 else 0
  {
    assert (socks + [s])[..|socks|] == socks;
  }

  /** A slot is held by a handler that has not got past its release, and a teardown is the last thing one does. */
  predicate SlotOk(s: Sock) {
    && (s.slot ==> s.role.Upgrading? || s.defers == [TearDown, ReleaseSlot])
    && (s.defers == [] || s.defers == [TearDown] || s.defers == [TearDown, ReleaseSlot])
    && (s.torn ==> s.defers == [])
    && (s.role.Upgrading? || s.role.Asking? || (s.role.Pairing? && !s.role.e.linked) ==>
        s.defers == [] && !s.torn
        && !s.returned)
    && (s.filed ==> s.role == Verified(true) || s.role.Recognised?)
  }

  /** Past the one action that stores a token, or failed. */
  predicate Decided(s: P.Stage) {
    s.Failing? || s.Closed? || s.Stored? || s.Announced? || s.Reported?
  }

  /** What a pairing attempt has to have gone through to be where it is. */
  predicate EndOk(e: P.End) {
    && (e.stage.Stored? ==> e.stored == Some(e.stage.token))
    && (e.paired ==> e.stored.Some? && (e.stage.Announced? || e.stage.Reported?))
    && (e.stage.Announced? ==> e.stored.Some?)
    && (e.stage.Completing? || e.stored.Some? ==> e.localYes && e.device != "")
    && (e.stage.Waiting? ==> !e.localYes && e.responder)
    && (e.stored.Some? ==> Decided(e.stage))
    && (!e.stage.Waiting? && !e.stage.Refused? ==> e.device != "")
    && (e.responder || e.stage.Dialling? || e.linked || e.stage.Failing? || e.stage.Closed? || e.stage.Reported?)
    && (e.responder ==> e.linked)
    && (e.stage.Dialling? ==> !e.linked)
  }

  predicate SockOk(s: Sock) {
    && SlotOk(s)
    && match s.role
       case Pairing(e) => EndOk(e)
       case Verified(_) => s.id != ""
       case Asking => s.id != ""
       case Recognised => s.id != ""
       case _ => true
  }

  predicate SocksOk(w: World) { forall i :: 0 <= i < |w.socks| ==> SockOk(w.socks[i]) }

  predicate CountOk(w: World) { w.handshakes == Slots(w.socks) <= MAX_PENDING_HANDSHAKES }

  /** Whatever is filed has been marked paired, and is filed under its own device. */
  predicate FiledOk(w: World) {
    forall id :: id in w.conns ==>
      w.conns[id] < |w.socks| && w.socks[w.conns[id]].Paired() && w.socks[w.conns[id]].Device() == id != ""
  }

  /** A device is marked as being dialled exactly while one dial of it runs. */
  predicate DialsOk(w: World) {
    && (forall id :: id in w.dialing ==>
        w.dialing[id] < |w.dials| && w.dials[w.dialing[id]] == Dial(id, true)
        && id != "")
    && (forall k :: 0 <= k < |w.dials| && w.dials[k].running ==>
        w.dials[k].device in w.dialing
        && w.dialing[w.dials[k].device] == k)
  }

  predicate Inv(w: World) { SocksOk(w) && CountOk(w) && FiledOk(w) && DialsOk(w) && "" !in w.conns }

  // -- what a pairing attempt may do -----------------------------------------------------------------

  /** The same attempt on the same socket, nothing stored or promoted since. */
  predicate Onto(e: P.End, n: P.End) {
    EndOk(n) && n.device == e.device && n.linked == e.linked && n.paired == e.paired && n.stored == e.stored
  }

  lemma FailOnto(e: P.End, reason: P.Reason, notify: bool)
    requires EndOk(e) && !e.paired && !e.stage.Waiting? && !e.stage.Refused?
    ensures Onto(e, P.Fail(e, reason, notify))
  {
    hide P.OrDeclined;
  }

  lemma OntoVia(e: P.End, m: P.End, n: P.End)
    requires Onto(e, m) && Onto(m, n)
    ensures Onto(e, n)
  {
    hide EndOk;
  }

  lemma SelectedOnto(e: P.End, mint: Option<Token>)
    requires EndOk(e) && e.stage.Driving?
    ensures Onto(e, P.AfterSelect(e, mint))
  {
    if e.responder && e.localYes && e.remoteYes {
      if mint.None? {
        FailOnto(e, P.INTERNAL, true);
        hide P.Fail, EndOk;
      } else {
        assert P.AfterSelect(e, mint) == e.(stage := P.Completing(mint.value));
      }
    }
  }

  lemma SoftOnto(e: P.End, n: P.End)
    requires EndOk(e) && e.stage.Driving?
    requires n == e.(localYes := n.localYes, remoteYes := n.remoteYes, alive := n.alive, decision := n.decision,
        events := n.events)
    requires e.localYes ==> n.localYes
    ensures Onto(e, n) && n.stage.Driving?
  {
  }

  lemma AnswerOnto(e: P.End, d: P.Decision, ok: bool, mint: Option<Token>)
    requires EndOk(e) && e.stage.Driving?
    ensures Onto(e, P.TakeAnswer(e, d, ok, mint).0)
  {
    hide EndOk, P.Fail, P.AfterSelect;
    if !d.accept {
      FailDriving(e, d.reason, true);
    } else if e.localYes {
      SoftOnto(e, e);
    } else if !(e.alive && ok) {
      var m := e.(localYes := true, alive := false);
      SoftOnto(e, m);
      FailDriving(m, P.UNREACHABLE, false);
      OntoVia(e, m, P.Fail(m, P.UNREACHABLE, false));
    } else {
      var m := e.(localYes := true);
      SoftOnto(e, m);
      SelectedOnto(m, mint);
      OntoVia(e, m, P.AfterSelect(m, mint));
    }
  }

  lemma FailDriving(e: P.End, reason: P.Reason, notify: bool)
    requires EndOk(e) && e.stage.Driving?
    ensures Onto(e, P.Fail(e, reason, notify))
  {
    FailOnto(e, reason, notify);
  }

  lemma RemoteOnto(e: P.End, ev: P.PairEvent, mint: Option<Token>)
    requires EndOk(e) && e.stage.Driving?
    ensures Onto(e, P.TakeRemote(e, ev, mint))
  {
    match ev
    case EvAccept =>
      var m := e.(remoteYes := true);
      SoftOnto(e, m);
      SelectedOnto(m, mint);
      hide EndOk, P.AfterSelect;
      OntoVia(e, m, P.AfterSelect(m, mint));
    case EvReject(r) => FailDriving(e, r, false); hide EndOk, P.Fail;
    case EvCancelled(r) => FailDriving(e, r, true); hide EndOk, P.Fail;
    case EvPaired(t) =>
      FailDriving(e, P.INTERNAL, true);
      if !(e.responder || !e.localYes) { CompletingOnto(e, t); }
      hide EndOk, P.Fail;
  }

  lemma CompletingOnto(e: P.End, t: Token)
    requires EndOk(e) && e.stage.Driving? && e.localYes
    ensures Onto(e, e.(stage := P.Completing(t)))
  {
  }

  lemma StillDriving(e: P.End, m: P.End)
    requires EndOk(e) && e.stage.Driving? && m == e.(decision := None)
    ensures Onto(e, m) && EndOk(m)
  {
    SoftOnto(e, m);
  }

  lemma SelectDecision(e: P.End, ok: bool, mint: Option<Token>)
    ensures P.Select(e, P.TakeDecision(ok, mint)).0
            == if e.decision.None? then e else P.TakeAnswer(e.(decision := None), e.decision.value, ok, mint).0
  {
    hide P.TakeAnswer;
  }

  lemma DecisionOnto(e: P.End, ok: bool, mint: Option<Token>)
    requires EndOk(e) && e.stage.Driving?
    ensures Onto(e, P.Select(e, P.TakeDecision(ok, mint)).0)
  {
    hide EndOk, P.TakeAnswer, P.Select, Onto;
    SelectDecision(e, ok, mint);
    if e.decision.None? {
      SoftOnto(e, e);
    } else {
      var m := e.(decision := None);
      StillDriving(e, m);
      AnswerOnto(m, e.decision.value, ok, mint);
      OntoVia(e, m, P.TakeAnswer(m, e.decision.value, ok, mint).0);
    }
  }

  lemma EventOnto(e: P.End, mint: Option<Token>)
    requires EndOk(e) && e.stage.Driving?
    ensures Onto(e, P.Select(e, P.TakeEvent(mint)).0)
  {
    hide EndOk, P.TakeAnswer, P.TakeRemote, P.Fail;
    SoftOnto(e, e);
    if e.events != [] {
      var m := e.(events := e.events[1..]);
      SoftOnto(e, m);
      RemoteOnto(m, e.events[0], mint);
      OntoVia(e, m, P.TakeRemote(m, e.events[0], mint));
    }
  }

  lemma SelectOnto(e: P.End, c: P.Choice)
    requires EndOk(e) && e.stage.Driving?
    ensures Onto(e, P.Select(e, c).0)
  {
    hide EndOk, P.Fail, Onto;
    match c
    case ContextDone => FailDriving(e, P.INTERNAL, true);
    case SocketDone => SoftOnto(e, e); FailDriving(e, P.UNREACHABLE, false);
    case TimerFired => FailDriving(e, P.TIMEOUT, true);
    case TakeDecision(ok, mint) => DecisionOnto(e, ok, mint); hide P.Select;
    case TakeEvent(mint) => EventOnto(e, mint); hide P.Select;
  }

  /** What the actions after the choice may do: store the agreed token, then promote. */
  predicate Goes(e: P.End, n: P.End) {
    && EndOk(n) && (!e.stage.Waiting? ==> n.device == e.device) && (e.linked ==> n.linked)
    && (n.linked && !e.linked ==> e.stage.Dialling?)
    && (n.stored != e.stored ==> n.stored.Some? && !n.paired)
    && (n.paired ==> n.stored.Some? && n.stored == e.stored)
    && (e.paired ==> n.paired)
  }

  lemma OntoGoes(e: P.End, n: P.End)
    requires EndOk(e) && Onto(e, n)
    ensures Goes(e, n)
  {
  }

  lemma CompletingGoes(e: P.End, ok: bool)
    requires EndOk(e) && e.stage.Completing?
    ensures Goes(e, P.Finish(e, ok).0)
  {
    var t := e.stage.token;
    hide P.Fail, PairingCode.ValidTokenFormat;
    FailedGoes(e, e);
    FailedGoes(e, e.(stored := Some(t), saved := false));
    if ok { assert Goes(e, e.(stored := Some(t), saved := true, stage := P.Stored(t))); }
    hide Goes, EndOk;
  }

  lemma FailedGoes(e: P.End, m: P.End)
    requires EndOk(e) && e.stage.Completing?
    requires m == e || exists t :: m == e.(stored := Some(t), saved := false)
    ensures Goes(e, P.Fail(m, P.INTERNAL, true))
  {
    hide P.OrDeclined;
  }

  lemma StoredGoes(e: P.End, ok: bool)
    requires EndOk(e) && e.stage.Stored?
    ensures Goes(e, P.Finish(e, ok).0)
  {
    var n := e.(paired := true, stage := P.Announced);
    assert Goes(e, n) && Goes(e, n.(alive := false));
    hide Goes, EndOk;
  }

  lemma MovedOn(e: P.End, n: P.End)
    requires EndOk(e) && n == e.(stage := n.stage, alive := n.alive, results := n.results, done := n.done)
    requires || (e.stage.Failing? && n.stage.Closed?)
             || ((e.stage.Closed? || e.stage.Announced? || e.stage.Reported?) && n.stage.Reported?)
    ensures Goes(e, n)
  {
  }

  lemma LastGoes(e: P.End, ok: bool)
    requires EndOk(e) && !e.stage.Completing? && !e.stage.Stored?
    ensures Goes(e, P.Finish(e, ok).0)
  {
    SameGoes(e);
    hide Goes, EndOk;
    match e.stage
    case Failing(reason, _) => MovedOn(e, e.(stage := P.Closed(reason), alive := false));
    case Closed(reason) => MovedOn(e, e.(stage := P.Reported, results := e.results + [P.Failure(reason)]));
    case Announced => MovedOn(e, e.(stage := P.Reported, results := e.results + [P.Success]));
    case Reported => MovedOn(e, e.(done := true));
    case _ =>
  }

  lemma FinishGoes(e: P.End, ok: bool)
    requires EndOk(e)
    ensures Goes(e, P.Finish(e, ok).0)
  {
    hide P.Finish, Goes, EndOk;
    if e.stage.Completing? {
      CompletingGoes(e, ok);
    } else if e.stage.Stored? {
      StoredGoes(e, ok);
    } else {
      LastGoes(e, ok);
    }
  }

  lemma AbortGoes(e: P.End, reason: P.Reason, notify: bool)
    requires EndOk(e) && (e.stage.Dialling? || e.stage.Opening?)
    ensures Goes(e, P.Abort(e, reason, notify))
  {
    hide P.OrDeclined;
  }

  lemma ConnectGoes(e: P.End, ok: bool)
    requires EndOk(e) && e.stage.Dialling?
    ensures Goes(e, P.Connect(e, ok).0)
  {
    AbortGoes(e, P.UNREACHABLE, false);
    hide P.Abort;
  }

  lemma FirstGoes(h: PairingCode.Hash, e: P.End, f: P.Frame)
    requires EndOk(e) && e.stage.Opening?
    ensures Goes(e, P.FirstFrame(h, e, f))
  {
    hide P.Abort, Goes, PairingCode.Code, PairingCode.ValidNonceFormat, PairingCode.ValidCodeFormat, P.OrDeclined;
    AbortGoes(e, P.INTERNAL, true);
    AbortGoes(e, P.CODE_MISMATCH, true);
    match f
    case Required(_, nonce) =>
      var code := PairingCode.Code(h, e.owner, e.device, nonce);
      DrivingGoes(e, e.(nonce := nonce, code := code, shown := Some(code), stage := P.Driving));
    case Reject(r) => AbortGoes(e, P.OrDeclined(r), false);
    case _ =>
  }

  lemma DrivingGoes(e: P.End, n: P.End)
    requires EndOk(e) && (e.stage.Opening? || e.stage.Offered?)
    requires n == e.(nonce := n.nonce, code := n.code, shown := n.shown, stage := n.stage)
    requires n.stage.Driving? || n.stage.Offered?
    ensures Goes(e, n)
  {
  }

  lemma RefusedGoes(e: P.End, answer: seq<P.Frame>)
    requires EndOk(e) && (e.stage.Waiting? || e.stage.Opening?) && e.responder
    ensures Goes(e, P.Refuse(e, answer).0)
  {
  }

  lemma HelloGoes(h: PairingCode.Hash, e: P.End, f: P.Frame, gate: P.Gate, free: Id -> bool)
    requires EndOk(e) && e.stage.Waiting? && e.responder
    ensures Goes(e, P.TakeHello(h, e, f, gate, free).0)
  {
    hide PairingCode.Code, P.Refuse, Goes;
    RefusedGoes(e, []);
    RefusedGoes(e, [P.Reject(P.PROTOCOL_MISMATCH)]);
    RefusedGoes(e, [P.Reject(P.RATE_LIMITED)]);
    RefusedGoes(e, [P.Reject(P.INTERNAL)]);
    RefusedGoes(e, [P.Reject(P.BUSY)]);
    if f.Hello? && f.id != "" && gate.Open? {
      var code := PairingCode.Code(h, e.owner, f.id, gate.nonce);
      OpenedGoes(e, e.(device := f.id, nonce := gate.nonce, code := code, stage := P.Opening));
    }
    hide EndOk;
  }

  lemma OpenedGoes(e: P.End, n: P.End)
    requires EndOk(e) && e.stage.Waiting? && e.responder
    requires n == e.(device := n.device, nonce := n.nonce, code := n.code, stage := P.Opening) && n.device != ""
    ensures Goes(e, n)
  {
  }

  lemma LoopGoes(e: P.End, f: P.Frame, mine: bool)
    requires EndOk(e)
    ensures Goes(e, P.ReadFrame(e, f, mine))
  {
    hide P.EventFor;
  }

  lemma OfferGoes(e: P.End, ok: bool)
    requires EndOk(e) && e.stage.Opening? && e.responder
    ensures Goes(e, P.Offer(e, ok).0)
  {
  }

  lemma ShowGoes(e: P.End)
    requires EndOk(e) && e.stage.Offered?
    ensures Goes(e, P.Show(e))
  {
    DrivingGoes(e, P.Show(e));
  }

  lemma SameGoes(e: P.End)
    requires EndOk(e)
    ensures Goes(e, e)
  {
  }

  /** Any step of an attempt, whatever the far end sends. */
  lemma ActGoes(h: PairingCode.Hash, e: P.End, head: Option<P.Frame>, m: P.Move, free: Id -> bool, mine: bool)
    requires EndOk(e)
    ensures Goes(e, P.Act(h, e, head, m, free, mine).e)
  {
    SameGoes(e);
    hide EndOk, Goes, P.Finish, P.Select, P.FirstFrame, P.TakeHello, P.Connect, P.Abort, P.Offer, P.Show, P.ReadFrame,
        P.Refuse;
    match m
    case Dial(ok) => if e.stage.Dialling? { ConnectGoes(e, ok); }
    case First(gate) =>
      if head.Some? {
        if e.stage.Waiting? { HelloGoes(h, e, head.value, gate, free); }
        if e.stage.Opening? { FirstGoes(h, e, head.value); }
      }
    case NoAnswer =>
      if e.stage.Waiting? { RefusedGoes(e, []); }
      if e.stage.Opening? { AbortGoes(e, P.UNREACHABLE, false); }
    case SendOffer(ok) => if e.stage.Opening? && e.responder { OfferGoes(e, ok); }
    case ShowCode => if e.stage.Offered? { ShowGoes(e); }
    case Turn(c) => if e.stage.Driving? { SelectOnto(e, c); OntoGoes(e, P.Select(e, c).0); }
    case Proceed(ok) => FinishGoes(e, ok);
    case Loop => if e.shown.Some? && head.Some? { LoopGoes(e, head.value, mine); }
  }

  // -- every step ------------------------------------------------------------------------------------

  /** Whatever n files is filed in w already, or is socket i, paired. */
  predicate Files(w: World, n: World, i: nat) {
    forall id :: id in n.conns ==>
      || (id in w.conns && n.conns[id] == w.conns[id])
      || (n.conns[id] == i < |n.socks| && n.socks[i].Paired() && n.socks[i].Device() == id != "")
  }

  /** One socket has become s, and kept what it had; it may have been filed, and others taken out. */
  predicate SetOk(w: World, n: World, i: nat, s: Sock) {
    && i < |w.socks| && n.socks == w.socks[i := s] && SockOk(s)
    && n.dials == w.dials && n.dialing == w.dialing
    && (s.slot ==> w.socks[i].slot)
    && n.handshakes == w.handshakes - (if w.socks[i].slot && !s.slot then 1 else 0)
    && (w.socks[i].Paired() ==> s.Paired() && s.Device() == w.socks[i].Device())
    && Files(w, n, i)
  }

  lemma SetKeeps(w: World, n: World, i: nat, s: Sock)
    requires Inv(w) && SetOk(w, n, i, s)
    ensures Inv(n)
  {
    SlotsSet(w.socks, i, s);
    assert SocksOk(n) by { hide SockOk, Slots; }
    assert FiledOk(n) by { hide SockOk, Slots; }
    assert DialsOk(n) by { hide SockOk, Slots; }
    hide SockOk, Slots, SocksOk, FiledOk, DialsOk;
  }

  lemma SlotCounted(w: World, i: nat)
    requires Inv(w) && i < |w.socks| && w.socks[i].slot
    ensures w.handshakes > 0
  {
    SlotsSet(w.socks, i, w.socks[i].(slot := false));
    hide SocksOk, FiledOk, DialsOk, Slots;
  }

  /** A new socket, unpaired. */
  lemma AddKeeps(w: World, n: World, s: Sock)
    requires Inv(w) && SockOk(s) && !s.Paired() && n.socks == w.socks + [s]
    requires n.handshakes == w.handshakes + (if s.slot then 1 else 0) <= MAX_PENDING_HANDSHAKES
    requires n.conns == w.conns && n.dials == w.dials && n.dialing == w.dialing
    ensures Inv(n)
  {
    SlotsAppend(w.socks, s);
    hide SockOk, Slots;
  }

  lemma FilesSame(w: World, n: World, i: nat)
    requires forall id :: id in n.conns ==> id in w.conns && n.conns[id] == w.conns[id]
    ensures Files(w, n, i)
  {
  }

  lemma SlotlessKeeps(w: World, i: nat)
    requires Inv(w) && i < |w.socks| && !w.socks[i].role.Upgrading?
    ensures Inv(Slotless(w, i))
  {
    if w.socks[i].slot {
      SlotCounted(w, i);
      FilesSame(w, Slotless(w, i), i);
      assert SockOk(w.socks[i]);
      SetKeeps(w, Slotless(w, i), i, w.socks[i].(slot := false));
    }
    hide Inv, Files;
  }

  lemma ShutOk(s: Sock)
    requires SockOk(s)
    ensures var n := Shut(s);
            SockOk(n) && n.slot == s.slot && n.Paired() == s.Paired() && n.Device() == s.Device()
            && n.defers == s.defers && n.torn == s.torn && n.returned == s.returned && n.Claim() == s.Claim()
            && (n.role.Upgrading? <==> s.role.Upgrading?) && (n.role.Asking? <==> s.role.Asking?)
  {
  }

  lemma DiesKeeps(w: World, i: nat)
    requires Inv(w) && i < |w.socks|
    ensures Inv(SetSock(w, i, Shut(w.socks[i])))
  {
    assert SockOk(w.socks[i]);
    ShutOk(w.socks[i]);
    var n := SetSock(w, i, Shut(w.socks[i]));
    FilesSame(w, n, i);
    hide Inv, SockOk, Shut, Files;
    SetKeeps(w, n, i, Shut(w.socks[i]));
  }

  lemma UpgradeKeeps(h: PairingCode.Hash, w: World, i: nat, ok: bool)
    requires Inv(w)
    ensures Inv(Next(h, w, Upgrade(i, ok)))
  {
    if Has(w, i) && w.socks[i].role.Upgrading? {
      assert SockOk(w.socks[i]);
      var n := Next(h, w, Upgrade(i, ok));
      FilesSame(w, n, i);
      if w.socks[i].slot { SlotCounted(w, i); }
      SetKeeps(w, n, i, n.socks[i]);
      hide Inv, Files;
    }
  }

  lemma GreetedOk(h: PairingCode.Hash, w: World, s: Sock, hello: Option<(Id, Token)>, gate: P.Gate, free: bool)
    requires SockOk(s) && s.role.Reading?
    ensures var n := Greeted(h, w, s, hello, gate, free);
            SockOk(n) && n.slot == s.slot && n.defers == s.defers && !n.Paired()
  {
    var e := P.NewResponder(w.self);
    assert EndOk(e) && e.linked && !e.paired;
    if hello.Some? {
      HelloGoes(h, e, P.Hello(hello.value.0), gate, _ => free);
      StillLinked(e, P.TakeHello(h, e, P.Hello(hello.value.0), gate, _ => free).0);
    }
    hide EndOk, P.TakeHello, P.NewResponder, Goes;
  }

  lemma StillLinked(e: P.End, n: P.End)
    requires EndOk(e) && e.linked && Goes(e, n) && e.stored.None?
    ensures EndOk(n) && n.linked && !n.paired
  {
  }

  lemma HelloKeeps(h: PairingCode.Hash, w: World, i: nat, hello: Option<(Id, Token)>, gate: P.Gate, free: bool)
    requires Inv(w)
    ensures Inv(Next(h, w, ReadHello(i, hello, gate, free)))
  {
    if Has(w, i) && w.socks[i].role.Reading? && !w.socks[i].returned {
      assert SockOk(w.socks[i]);
      GreetedOk(h, w, w.socks[i], hello, gate, free);
      var n := Next(h, w, ReadHello(i, hello, gate, free));
      FilesSame(w, n, i);
      hide Inv, SockOk, Greeted, Files;
      SetKeeps(w, n, i, n.socks[i]);
    }
  }

  lemma PairKeeps(h: PairingCode.Hash, w: World, i: nat, head: Option<P.Frame>, move: P.Move, free: bool, mine: bool)
    requires Inv(w) && Has(w, i) && w.socks[i].role.Pairing?
    ensures Inv(Paired(h, w, i, head, move, free, mine))
  {
    var s := w.socks[i];
    assert SockOk(s);
    var e := P.Act(h, s.role.e, head, move, _ => free, mine).e;
    ActGoes(h, s.role.e, head, move, _ => free, mine);
    var n := Paired(h, w, i, head, move, free, mine);
    PairedSock(s, e);
    hide P.Act, SockOk, Goes, EndOk;
    assert n.socks[i] == s.(role := Pairing(e), defers := if e.linked && !s.role.e.linked then [TearDown]
        else s.defers);
    assert Files(w, n, i) by { hide Inv; }
    hide Inv, Files, Paired;
    SetKeeps(w, n, i, n.socks[i]);
  }

  lemma PairedSock(s: Sock, e: P.End)
    requires SockOk(s) && s.role.Pairing? && Goes(s.role.e, e)
    ensures SockOk(s.(role := Pairing(e), defers := if e.linked && !s.role.e.linked then [TearDown] else s.defers))
    ensures e.paired ==> e.device != "" && e.stored.Some?
    ensures s.role.e.paired ==> e.paired && e.device == s.role.e.device
  {
  }

  lemma ConfirmKeeps(h: PairingCode.Hash, w: World, i: nat, d: P.Decision)
    requires Inv(w)
    ensures Inv(Next(h, w, Confirm(i, d)))
  {
    if Has(w, i) && w.socks[i].role.Pairing? {
      assert SockOk(w.socks[i]);
      var n := Next(h, w, Confirm(i, d));
      FilesSame(w, n, i);
      SetKeeps(w, n, i, n.socks[i]);
      hide Inv, Files;
    }
  }

  lemma CancelKeeps(h: PairingCode.Hash, w: World, i: nat)
    requires Inv(w)
    ensures Inv(Next(h, w, Cancel(i)))
  {
    if Has(w, i) && w.socks[i].role.Pairing? {
      assert SockOk(w.socks[i]);
      var n := Next(h, w, Cancel(i));
      FilesSame(w, n, i);
      SetKeeps(w, n, i, n.socks[i]);
      hide Inv, Files, P.DECLINED;
    }
  }

  lemma ReadyKeeps(h: PairingCode.Hash, w: World, i: nat, ok: bool)
    requires Inv(w)
    ensures Inv(Next(h, w, Ready(i, ok)))
  {
    if Has(w, i) && w.socks[i].role == Verified(false) && !w.socks[i].returned {
      assert SockOk(w.socks[i]);
      var n := Next(h, w, Ready(i, ok));
      FilesSame(w, n, i);
      SetKeeps(w, n, i, n.socks[i]);
      hide Inv, Files;
    }
  }

  lemma RecogniseKeeps(h: PairingCode.Hash, w: World, i: nat)
    requires Inv(w)
    ensures Inv(Next(h, w, Recognise(i)))
  {
    if Has(w, i) && w.socks[i].role.Asking? && w.socks[i].open {
      assert SockOk(w.socks[i]);
      var n := Next(h, w, Recognise(i));
      FilesSame(w, n, i);
      SetKeeps(w, n, i, n.socks[i]);
      hide Inv, Files;
    }
  }

  lemma ReturnKeeps(h: PairingCode.Hash, w: World, i: nat)
    requires Inv(w)
    ensures Inv(Next(h, w, Return(i)))
  {
    if Has(w, i) && w.socks[i].defers != [] {
      assert SockOk(w.socks[i]);
      var n := Next(h, w, Return(i));
      FilesSame(w, n, i);
      SetKeeps(w, n, i, n.socks[i]);
      hide Inv, Files;
    }
  }

  lemma RegisterKeeps(h: PairingCode.Hash, w: World, i: nat)
    requires Inv(w)
    ensures Inv(Next(h, w, Register(i)))
  {
    var n := Next(h, w, Register(i));
    if n != w {
      assert SockOk(w.socks[i]);
      SetKeeps(w, n, i, n.socks[i]);
      hide Inv;
    }
  }

  lemma TornKeeps(w: World, i: nat)
    requires Inv(w) && Has(w, i) && w.socks[i].defers == [] && !Upcoming(w.socks[i])
    ensures Inv(Torn(w, i))
  {
    var s := w.socks[i];
    assert SockOk(s);
    ShutOk(s);
    TornSock(s);
    FilesSame(w, Torn(w, i), i);
    hide Inv, SockOk, Shut, Files;
    SetKeeps(w, Torn(w, i), i, Shut(s).(torn := true));
  }

  /** A socket that has no handler yet. */
  predicate Upcoming(s: Sock) { s.role.Upgrading? || s.role.Asking? || (s.role.Pairing? && !s.role.e.linked) }

  lemma TornSock(s: Sock)
    requires SockOk(s) && s.defers == [] && !Upcoming(s)
    ensures SockOk(Shut(s).(torn := true)) && Shut(s).(torn := true).slot == s.slot
  {
  }

  lemma UnwoundKeeps(w: World, i: nat)
    requires Inv(w) && Has(w, i) && w.socks[i].defers != []
    ensures Inv(Unwound(w, i))
  {
    var s := w.socks[i];
    assert SockOk(s);
    var last := s.defers[|s.defers| - 1];
    var popped := s.(defers := s.defers[..|s.defers| - 1]);
    if last.ReleaseSlot? {
      // the slot goes with it, so the two are one change
      var n := Unwound(w, i);
      FilesSame(w, n, i);
      if s.slot { SlotCounted(w, i); }
      assert n.socks == w.socks[i := popped.(slot := false)];
      SetKeeps(w, n, i, popped.(slot := false));
      hide Inv, Files;
    } else {
      var w1 := SetSock(w, i, popped);
      FilesSame(w, w1, i);
      assert popped.defers == [] && !Upcoming(s);
      SetKeeps(w, w1, i, popped);
      hide Inv, Files;
      TornKeeps(w1, i);
    }
  }

  lemma LookedKeeps(w: World, id: Id)
    requires Inv(w)
    ensures Inv(Looked(w, id))
  {
    hide Slots, SockOk;
  }

  lemma DroppedKeeps(w: World, id: Id)
    requires Inv(w)
    ensures Inv(Dropped(w, id))
  {
    LookedKeeps(w, id);
    var v := Looked(w, id);
    if id in v.conns && v.conns[id] < |v.socks| {
      var i := v.conns[id];
      assert SockOk(v.socks[i]);
      ShutOk(v.socks[i]);
      FilesSame(v, Dropped(w, id), i);
      hide Inv, SockOk, Shut, Looked, Files;
      SetKeeps(v, Dropped(w, id), i, Shut(v.socks[i]));
    }
  }

  lemma TrustApart(w: World, trust: map<Id, Token>)
    requires Inv(w)
    ensures Inv(w.(trust := trust))
  {
    hide Slots;
  }

  lemma DialsKeep(h: PairingCode.Hash, w: World, step: Step)
    requires Inv(w) && (step.BeginDial? || step.EndDial?)
    ensures Inv(Next(h, w, step))
  {
    hide Slots, SockOk;
  }

  lemma NewKeeps(h: PairingCode.Hash, w: World, step: Step)
    requires Inv(w) && (step.Acquire? || step.StartPairing? || step.Ask?)
    ensures Inv(Next(h, w, step))
  {
    var n := Next(h, w, step);
    if |n.socks| > |w.socks| {
      AddKeeps(w, n, n.socks[|w.socks|]);
      hide SocksOk, Slots, FiledOk, DialsOk;
    }
  }

  lemma NextKeeps(h: PairingCode.Hash, w: World, step: Step)
    requires Inv(w)
    ensures Inv(Next(h, w, step))
  {
    hide Inv, SetSock, Slotless, Torn, Unwound, Looked, Dropped, Paired, Greeted, P.Answer;
    match step
    case Upgrade(i, ok) => UpgradeKeeps(h, w, i, ok); hide Next;
    case ReadHello(i, hello, gate, free) => HelloKeeps(h, w, i, hello, gate, free); hide Next;
    case Ready(i, ok) => ReadyKeeps(h, w, i, ok); hide Next;
    case Pair(i, head, move, free, mine) =>
      if Has(w, i) && w.socks[i].role.Pairing? { PairKeeps(h, w, i, head, move, free, mine); }
    case Confirm(i, d) => ConfirmKeeps(h, w, i, d); hide Next;
    case Register(i) => RegisterKeeps(h, w, i); hide Next;
    case Release(i) => if Has(w, i) && !w.socks[i].role.Upgrading? { SlotlessKeeps(w, i); }
    case Dies(i) => if Has(w, i) { DiesKeeps(w, i); }
    case Return(i) => ReturnKeeps(h, w, i); hide Next;
    case Unwind(i) => if Has(w, i) && w.socks[i].returned && w.socks[i].defers != [] { UnwoundKeeps(w, i); }
    case Lookup(id) => LookedKeeps(w, id);
    case Cancel(i) => CancelKeeps(h, w, i); hide Next;
    case Remove(id) => TrustApart(w, w.trust - {id});
    case Drop(id) => DroppedKeeps(w, id);
    case BeginDial(_) => DialsKeep(h, w, step); hide Next;
    case EndDial(_) => DialsKeep(h, w, step); hide Next;
    case Recognise(i) => RecogniseKeeps(h, w, i); hide Next;
    case _ => NewKeeps(h, w, step); hide Next;
  }

  lemma {:induction false} RunKeeps(h: PairingCode.Hash, self: Id, trust: map<Id, Token>, steps: seq<Step>)
    ensures Inv(Run(h, Start(self, trust), steps))
  {
    if steps != [] {
      RunKeeps(h, self, trust, steps[..|steps| - 1]);
      NextKeeps(h, Run(h, Start(self, trust), steps[..|steps| - 1]), steps[|steps| - 1]);
      hide Inv, Next;
    }
  }

  // -- what a filed socket stands on -----------------------------------------------------------------

  predicate InTrust(w: World, claim: (Id, Token)) { claim.0 in w.trust && w.trust[claim.0] == claim.1 }

  /** At some moment of the run the store held that token for that device. */
  ghost predicate Held(h: PairingCode.Hash, w0: World, steps: seq<Step>, claim: (Id, Token)) {
    exists j :: 0 <= j <= |steps| && InTrust(Run(h, w0, steps[..j]), claim)
  }

  /** The human at this device accepted the attempt on socket i. */
  predicate SaidYes(steps: seq<Step>, i: nat) {
    exists j :: 0 <= j < |steps| && steps[j].Confirm? && steps[j].i == i && steps[j].d.accept
  }

  lemma HeldStays(h: PairingCode.Hash, w0: World, steps: seq<Step>, claim: (Id, Token))
    requires steps != [] && Held(h, w0, steps[..|steps| - 1], claim)
    ensures Held(h, w0, steps, claim)
  {
    var front := steps[..|steps| - 1];
    var j :| 0 <= j <= |front| && InTrust(Run(h, w0, front[..j]), claim);
    assert front[..j] == steps[..j];
    hide Run, InTrust;
  }

  lemma HeldNow(h: PairingCode.Hash, w0: World, steps: seq<Step>, claim: (Id, Token))
    ensures InTrust(Run(h, w0, steps), claim) ==> Held(h, w0, steps, claim)
  {
    assert steps[..|steps|] == steps;
    hide Run, InTrust;
  }

  /** Accepting, or about to. */
  predicate Willing(e: P.End) { e.localYes || (e.decision.Some? && e.decision.value.accept) }

  predicate WillingSock(s: Sock) { s.role.Pairing? && Willing(s.role.e) }

  /** Socket i stands on what it stood on. */
  predicate SameClaim(w: World, n: World, i: nat) { Has(w, i) && Has(n, i) && n.socks[i].Claim() == w.socks[i].Claim() }

  lemma ShutClaim(s: Sock)
    ensures Shut(s).Claim() == s.Claim() && (WillingSock(Shut(s)) <==> WillingSock(s))
  {
  }

  lemma CloseClaims(h: PairingCode.Hash, w: World, step: Step, i: nat)
    requires Has(w, i) && (step.Unwind? || step.Drop? || step.Dies?)
    ensures SameClaim(w, Next(h, w, step), i) && (WillingSock(Next(h, w, step).socks[i]) <==> WillingSock(w.socks[i]))
  {
    ShutClaim(w.socks[i]);
    match step
    case Unwind(k) =>
      if Has(w, k) && w.socks[k].returned && w.socks[k].defers != [] { UnwoundClaims(w, k, i); }
      hide Unwound, WillingSock, Shut;
    case Drop(id) =>
      hide Shut, WillingSock;
    case Dies(_) => hide Shut, WillingSock;
  }

  lemma PoppedClaim(s: Sock)
    requires s.defers != []
    ensures var p := s.(defers := s.defers[..|s.defers| - 1]);
            && p.Claim() == s.Claim() == p.(slot := false).Claim()
            && (WillingSock(p) <==> WillingSock(s)) && (WillingSock(p.(slot := false)) <==> WillingSock(s))
            && Shut(p).(torn := true).Claim() == s.Claim() && (WillingSock(Shut(p).(torn := true)) <==> WillingSock(s))
  {
  }

  lemma UnwoundSock(w: World, k: nat)
    requires Has(w, k) && w.socks[k].defers != []
    ensures var p := w.socks[k].(defers := w.socks[k].defers[..|w.socks[k].defers| - 1]);
            var socks := Unwound(w, k).socks;
            socks == w.socks[k := p] || socks == w.socks[k := p.(slot := false)]
                || socks == w.socks[k := Shut(p).(torn := true)]
  {
    hide Shut, Unregistered;
  }

  lemma UnwoundClaims(w: World, k: nat, i: nat)
    requires Has(w, i) && Has(w, k) && w.socks[k].defers != []
    ensures SameClaim(w, Unwound(w, k), i) && (WillingSock(Unwound(w, k).socks[i]) <==> WillingSock(w.socks[i]))
  {
    PoppedClaim(w.socks[k]);
    UnwoundSock(w, k);
    hide Shut, Unwound, WillingSock;
  }

  /** The same socket short of its slot, its handler's progress and what has been filed. */
  predicate SameSock(s: Sock, n: Sock) { n == s.(slot := n.slot, filed := n.filed, returned := n.returned) }

  lemma SameSockClaims(s: Sock, n: Sock)
    requires SameSock(s, n)
    ensures n.Claim() == s.Claim() && (WillingSock(n) <==> WillingSock(s))
  {
  }

  lemma RoleClaims(h: PairingCode.Hash, w: World, step: Step, i: nat)
    requires Has(w, i) && (step.Upgrade? || step.Ready? || step.Recognise?)
    ensures SameClaim(w, Next(h, w, step), i) && (WillingSock(Next(h, w, step).socks[i]) <==> WillingSock(w.socks[i]))
  {
  }

  lemma PlainSock(h: PairingCode.Hash, w: World, step: Step, i: nat)
    requires Has(w, i) && !step.Unwind? && !step.Drop? && !step.Dies? && !step.Pair? && !step.ReadHello?
        && !step.Confirm? && !step.Cancel?
    requires !step.Upgrade? && !step.Ready? && !step.Recognise?
    ensures Has(Next(h, w, step), i) && SameSock(w.socks[i], Next(h, w, step).socks[i])
  {
    hide Registered;
  }

  lemma PlainClaims(h: PairingCode.Hash, w: World, step: Step, i: nat)
    requires Has(w, i) && !step.Unwind? && !step.Drop? && !step.Dies? && !step.Pair? && !step.ReadHello?
        && !step.Confirm? && !step.Cancel?
    ensures SameClaim(w, Next(h, w, step), i) && (WillingSock(Next(h, w, step).socks[i]) <==> WillingSock(w.socks[i]))
  {
    if step.Upgrade? || step.Ready? || step.Recognise? {
      RoleClaims(h, w, step, i);
    } else {
      PlainSock(h, w, step, i);
      SameSockClaims(w.socks[i], Next(h, w, step).socks[i]);
    }
    hide Next, SameSock, WillingSock;
  }

  lemma NewClaims(h: PairingCode.Hash, w: World, step: Step, i: nat)
    requires !Has(w, i) && Has(Next(h, w, step), i)
    ensures var s := Next(h, w, step).socks[i];
            (s.Claim().Some? ==> InTrust(w, s.Claim().value)) && !WillingSock(s)
  {
    hide P.Act, P.TakeHello, P.Answer, Shut, Unregistered;
  }

  /** Where a claim can come from in one step: it was there, or it is in the store as the step ends or begins. */
  lemma ClaimStep(h: PairingCode.Hash, w: World, step: Step, i: nat)
    requires Inv(w) && Has(Next(h, w, step), i) && Next(h, w, step).socks[i].Claim().Some?
    ensures var n := Next(h, w, step); var c := n.socks[i].Claim();
            (Has(w, i) && w.socks[i].Claim() == c) || InTrust(n, c.value) || InTrust(w, c.value)
  {
    var n := Next(h, w, step);
    hide Inv, InTrust, WillingSock;
    if !Has(w, i) {
      NewClaims(h, w, step, i);
      hide Next;
    } else if step.Pair? || step.ReadHello? || step.Confirm? || step.Cancel? {
      OwnClaim(h, w, step, i);
      hide Next;
    } else if step.Unwind? || step.Drop? || step.Dies? {
      CloseClaims(h, w, step, i);
      hide Next;
    } else {
      PlainClaims(h, w, step, i);
      hide Next;
    }
  }

  lemma OwnClaim(h: PairingCode.Hash, w: World, step: Step, i: nat)
    requires Inv(w) && Has(w, i) && (step.Pair? || step.ReadHello? || step.Confirm? || step.Cancel?)
    ensures var n := Next(h, w, step);
            Has(n, i) && var c := n.socks[i].Claim();
            c.Some? ==> w.socks[i].Claim() == c || InTrust(n, c.value) || InTrust(w, c.value)
  {
    hide Inv, InTrust, P.Act, P.Answer, P.Push, Greeted;
    match step
    case Pair(k, head, move, free, mine) =>
      if Has(w, k) && w.socks[k].role.Pairing? { PairClaim(h, w, k, head, move, free, mine); }
    case ReadHello(k, hello, gate, free) =>
      if Has(w, k) && w.socks[k].role.Reading? { HelloClaim(h, w, w.socks[k], hello, gate, free); }
    case Confirm(k, d) => AnswerStores(w, k, d);
    case Cancel(k) => PushStores(w, k);
  }

  lemma PushStores(w: World, k: nat)
    ensures Has(w, k) && w.socks[k].role.Pairing? ==>
              P.Push(w.socks[k].role.e, P.EvCancelled(P.DECLINED)).stored == w.socks[k].role.e.stored
              && P.Push(w.socks[k].role.e, P.EvCancelled(P.DECLINED)).device == w.socks[k].role.e.device
  {
  }

  lemma AnswerStores(w: World, k: nat, d: P.Decision)
    ensures Has(w, k) && w.socks[k].role.Pairing? ==>
              P.Answer(w.socks[k].role.e, d).0.stored == w.socks[k].role.e.stored
              && P.Answer(w.socks[k].role.e, d).0.device == w.socks[k].role.e.device
  {
  }

  lemma HelloClaim(h: PairingCode.Hash, w: World, s: Sock, hello: Option<(Id, Token)>, gate: P.Gate, free: bool)
    requires s.role.Reading?
    ensures Greeted(h, w, s, hello, gate, free).Claim().Some? ==>
        InTrust(w, Greeted(h, w, s, hello, gate, free).Claim().value)
  {
    var e := P.NewResponder(w.self);
    assert EndOk(e) && e.stored.None?;
    if hello.Some? {
      HelloWill(h, e, P.Hello(hello.value.0), gate, _ => free);
    }
    hide EndOk, P.TakeHello, P.NewResponder;
  }

  lemma PairClaim(h: PairingCode.Hash, w: World, i: nat, head: Option<P.Frame>, move: P.Move, free: bool, mine: bool)
    requires Inv(w) && Has(w, i) && w.socks[i].role.Pairing?
    ensures var n := Paired(h, w, i, head, move, free, mine);
            var c := n.socks[i].Claim();
            c.Some? ==> w.socks[i].Claim() == c || InTrust(n, c.value)
  {
    var s := w.socks[i];
    assert SockOk(s);
    ActGoes(h, s.role.e, head, move, _ => free, mine);
    hide P.Act, Inv, Slots;
  }

  // -- and who agreed to it ---------------------------------------------------------------------------

  lemma SelectWill(e: P.End, c: P.Choice)
    ensures Willing(P.Select(e, c).0) ==> Willing(e)
  {
    hide P.OrDeclined;
    match c
    case TakeDecision(ok, mint) =>
      if e.decision.Some? { AnswerWill(e, ok, mint); }
      hide P.TakeAnswer;
    case TakeEvent(mint) =>
      if e.events != [] { RemoteWill(e.(events := e.events[1..]), e.events[0], mint); }
      hide P.TakeRemote;
    case _ =>
  }

  lemma AnswerWill(e: P.End, ok: bool, mint: Option<Token>)
    requires e.decision.Some?
    ensures Willing(P.TakeAnswer(e.(decision := None), e.decision.value, ok, mint).0) ==> Willing(e)
  {
    hide P.OrDeclined;
  }

  lemma RemoteWill(e: P.End, ev: P.PairEvent, mint: Option<Token>)
    ensures Willing(P.TakeRemote(e, ev, mint)) ==> Willing(e)
  {
    hide P.OrDeclined;
  }

  /** Nothing has been answered or accepted since. */
  predicate SameWill(e: P.End, n: P.End) { n.localYes == e.localYes && n.decision == e.decision }

  lemma SameWillWilling(e: P.End, n: P.End)
    requires SameWill(e, n)
    ensures Willing(n) <==> Willing(e)
  {
  }

  lemma FailWill(e: P.End, reason: P.Reason, notify: bool)
    ensures SameWill(e, P.Fail(e, reason, notify)) && SameWill(e, P.Abort(e, reason, notify))
  {
    hide P.OrDeclined;
  }

  lemma CompletingWill(e: P.End, ok: bool)
    requires e.stage.Completing?
    ensures SameWill(e, P.Finish(e, ok).0)
  {
    hide PairingCode.ValidTokenFormat, P.Fail;
    FailWill(e, P.INTERNAL, true);
    FailWill(e.(stored := Some(e.stage.token), saved := false), P.INTERNAL, true);
  }

  lemma StoredWill(e: P.End, ok: bool)
    requires e.stage.Stored?
    ensures SameWill(e, P.Finish(e, ok).0)
  {
    var n := e.(paired := true, stage := P.Announced);
    UpdateWill(e, n);
    UpdateWill(e, n.(alive := false));
    hide SameWill;
  }

  lemma LastWill(e: P.End, ok: bool)
    requires e.stage.Failing? || e.stage.Closed? || e.stage.Announced? || e.stage.Reported?
    ensures SameWill(e, P.Finish(e, ok).0)
  {
    hide P.Fail, PairingCode.ValidTokenFormat;
    var n := P.Finish(e, ok).0;
    assert e.stage.Failing? ==> n == e.(stage := P.Closed(e.stage.reason), alive := false);
    assert e.stage.Closed? ==> n == e.(stage := P.Reported, results := e.results + [P.Failure(e.stage.reason)]);
    assert e.stage.Announced? ==> n == e.(stage := P.Reported, results := e.results + [P.Success]);
  }

  lemma IdleWill(e: P.End, ok: bool)
    requires P.Finish(e, ok).0 == e
    ensures SameWill(e, P.Finish(e, ok).0)
  {
    hide P.Finish;
  }

  lemma FinishIdle(e: P.End, ok: bool)
    requires !(e.stage.Failing? || e.stage.Closed? || e.stage.Announced? || e.stage.Reported? || e.stage.Completing?
        || e.stage.Stored?)
    ensures P.Finish(e, ok).0 == e
  {
  }

  lemma FinishWill(e: P.End, ok: bool)
    ensures SameWill(e, P.Finish(e, ok).0)
  {
    hide SameWill, P.Finish;
    if e.stage.Completing? {
      CompletingWill(e, ok);
    } else if e.stage.Stored? {
      StoredWill(e, ok);
    } else if e.stage.Failing? || e.stage.Closed? || e.stage.Announced? || e.stage.Reported? {
      LastWill(e, ok);
    } else {
      FinishIdle(e, ok);
      IdleWill(e, ok);
    }
  }

  lemma UpdateWill(e: P.End, n: P.End)
    requires n.localYes == e.localYes && n.decision == e.decision
    ensures SameWill(e, n)
  {
  }

  lemma HelloWill(h: PairingCode.Hash, e: P.End, f: P.Frame, gate: P.Gate, free: Id -> bool)
    ensures SameWill(e, P.TakeHello(h, e, f, gate, free).0) && P.TakeHello(h, e, f, gate, free).0.stored == e.stored
  {
    hide PairingCode.Code, P.Refuse;
    RefuseWill(e, []);
    RefuseWill(e, [P.Reject(P.PROTOCOL_MISMATCH)]);
    RefuseWill(e, [P.Reject(P.RATE_LIMITED)]);
    RefuseWill(e, [P.Reject(P.INTERNAL)]);
    RefuseWill(e, [P.Reject(P.BUSY)]);
  }

  lemma RefuseWill(e: P.End, answer: seq<P.Frame>)
    ensures SameWill(e, P.Refuse(e, answer).0) && P.Refuse(e, answer).0.stored == e.stored
  {
  }

  lemma FirstWill(h: PairingCode.Hash, e: P.End, f: P.Frame)
    ensures SameWill(e, P.FirstFrame(h, e, f))
  {
    hide P.Abort, P.OrDeclined, PairingCode.Code, PairingCode.ValidNonceFormat, PairingCode.ValidCodeFormat;
    FailWill(e, P.INTERNAL, true);
    FailWill(e, P.CODE_MISMATCH, true);
    if f.Reject? { FailWill(e, P.OrDeclined(f.reason), false); }
  }

  lemma ReadWill(e: P.End, f: P.Frame, mine: bool)
    ensures SameWill(e, P.ReadFrame(e, f, mine))
  {
    hide P.EventFor;
  }

  lemma EarlyWill(e: P.End, ok: bool)
    ensures SameWill(e, P.Connect(e, ok).0) && SameWill(e, P.Refuse(e, []).0) && SameWill(e, P.Offer(e, ok).0)
    ensures SameWill(e, P.Show(e)) && SameWill(e, P.Abort(e, P.UNREACHABLE, false))
  {
    hide P.Abort;
    FailWill(e, P.UNREACHABLE, false);
  }

  lemma ActWill(h: PairingCode.Hash, e: P.End, head: Option<P.Frame>, m: P.Move, free: Id -> bool, mine: bool)
    ensures Willing(P.Act(h, e, head, m, free, mine).e) ==> Willing(e)
  {
    hide Willing, P.Finish, P.Select, P.FirstFrame, P.TakeHello, P.Connect, P.ReadFrame, P.Refuse, P.Offer, P.Show,
        P.Abort;
    var n := P.Act(h, e, head, m, free, mine).e;
    match m
    case Dial(ok) => EarlyWill(e, ok); SameWillWilling(e, n);
    case First(gate) =>
      if head.Some? {
        HelloWill(h, e, head.value, gate, free);
        FirstWill(h, e, head.value);
      }
      SameWillWilling(e, n);
    case NoAnswer => EarlyWill(e, true); SameWillWilling(e, n);
    case SendOffer(ok) => EarlyWill(e, ok); SameWillWilling(e, n);
    case ShowCode => EarlyWill(e, true); SameWillWilling(e, n);
    case Turn(c) => SelectWill(e, c);
    case Proceed(ok) => FinishWill(e, ok); SameWillWilling(e, n);
    case Loop => if head.Some? { ReadWill(e, head.value, mine); } SameWillWilling(e, n);
  }

  lemma WillStep(h: PairingCode.Hash, w: World, step: Step, i: nat)
    requires Has(Next(h, w, step), i) && WillingSock(Next(h, w, step).socks[i])
    ensures (Has(w, i) && WillingSock(w.socks[i])) || (step.Confirm? && step.i == i && step.d.accept)
  {
    hide Willing;
    if !Has(w, i) {
      NewClaims(h, w, step, i);
      hide Next;
    } else if step.Pair? || step.ReadHello? || step.Confirm? || step.Cancel? {
      OwnWill(h, w, step, i);
      hide Next;
    } else if step.Unwind? || step.Drop? || step.Dies? {
      CloseClaims(h, w, step, i);
      hide Next;
    } else {
      PlainClaims(h, w, step, i);
      hide Next;
    }
  }

  lemma OwnWill(h: PairingCode.Hash, w: World, step: Step, i: nat)
    requires Has(w, i) && (step.Pair? || step.ReadHello? || step.Confirm? || step.Cancel?)
    ensures var n := Next(h, w, step);
            Has(n, i)
            && (WillingSock(n.socks[i]) ==> WillingSock(w.socks[i]) || (step.Confirm? && step.i == i && step.d.accept))
  {
    hide P.Act, P.TakeHello;
    match step
    case Pair(k, head, move, free, mine) =>
      if Has(w, k) && w.socks[k].role.Pairing? { ActWill(h, w.socks[k].role.e, head, move, _ => free, mine); }
      hide Willing;
    case ReadHello(k, hello, gate, free) =>
      if hello.Some? { HelloWill(h, P.NewResponder(w.self), P.Hello(hello.value.0), gate, _ => free); }
    case Confirm(k, d) =>
    case Cancel(k) => hide P.DECLINED;
  }

  lemma SaidStays(steps: seq<Step>, i: nat)
    requires steps != [] && SaidYes(steps[..|steps| - 1], i)
    ensures SaidYes(steps, i)
  {
    var front := steps[..|steps| - 1];
    var j :| 0 <= j < |front| && front[j].Confirm? && front[j].i == i && front[j].d.accept;
    assert steps[j] == front[j];
  }

  /** What a socket claims was so at some moment, and an attempt that is willing was made so by its human. */
  lemma {:induction false} Grounds(h: PairingCode.Hash, self: Id, trust: map<Id, Token>, steps: seq<Step>, i: nat)
    requires Has(Run(h, Start(self, trust), steps), i)
    ensures var s := Run(h, Start(self, trust), steps).socks[i];
            && (s.Claim().Some? ==> Held(h, Start(self, trust), steps, s.Claim().value))
            && (WillingSock(s) ==> SaidYes(steps, i))
  {
    var w0 := Start(self, trust);
    if steps != [] {
      var front, step := steps[..|steps| - 1], steps[|steps| - 1];
      var w, n := Run(h, w0, front), Run(h, w0, steps);
      RunKeeps(h, self, trust, front);
      hide Inv, Held, SaidYes, InTrust, WillingSock, Next;
      if Has(w, i) { Grounds(h, self, trust, front, i); }
      if n.socks[i].Claim().Some? {
        var c := n.socks[i].Claim().value;
        ClaimStep(h, w, step, i);
        HeldNow(h, w0, front, c);
        HeldNow(h, w0, steps, c);
        if Held(h, w0, front, c) { HeldStays(h, w0, steps, c); }
      }
      if WillingSock(n.socks[i]) {
        WillStep(h, w, step, i);
        if step.Confirm? && step.i == i && step.d.accept { SaidNow(steps, i); } else { SaidStays(steps, i); }
      }
    }
  }

  lemma SaidNow(steps: seq<Step>, i: nat)
    requires steps != [] && steps[|steps| - 1].Confirm? && steps[|steps| - 1].i == i && steps[|steps| - 1].d.accept
    ensures SaidYes(steps, i)
  {
  }

  // -- what that says -----------------------------------------------------------------------------------

  /**
   * Only authenticated sockets are live. In every run, whoever is at the far ends: a socket in the registry is filed
   * under its own device, and either the token its hello carried was the stored one of that device at some moment, or
   * it was dialled with that token and answered with peer:ready, or its own pairing attempt stored that token for that
   * device, after this side's human had accepted this attempt.
   */
  lemma FiledSocketsHaveShownIt(h: PairingCode.Hash, self: Id, trust: map<Id, Token>, steps: seq<Step>, id: Id)
    requires id in Run(h, Start(self, trust), steps).conns
    ensures var w := Run(h, Start(self, trust), steps);
            && Has(w, w.conns[id])
            && var s := w.socks[w.conns[id]];
               && (s.role == Verified(true) || s.role.Recognised? || (s.role.Pairing? && s.role.e.paired))
               && s.Claim().Some? && s.Claim().value.0 == id && Held(h, Start(self, trust), steps, s.Claim().value)
               && (s.role.Pairing? ==> s.role.e.stored.Some? && SaidYes(steps, w.conns[id]))
  {
    RunKeeps(h, self, trust, steps);
    var w := Run(h, Start(self, trust), steps);
    var i := w.conns[id];
    Grounds(h, self, trust, steps, i);
    assert SockOk(w.socks[i]);
    hide Run, Held, SaidYes, Slots;
  }

  /**
   * A socket that has been torn down holds no handshake slot: the release deferred after the teardown runs before
   * it.
   */
  lemma TornDownHoldsNoSlot(h: PairingCode.Hash, self: Id, trust: map<Id, Token>, steps: seq<Step>, i: nat)
    requires Has(Run(h, Start(self, trust), steps), i) && Run(h, Start(self, trust), steps).socks[i].torn
    ensures !Run(h, Start(self, trust), steps).socks[i].slot
  {
    RunKeeps(h, self, trust, steps);
    assert SockOk(Run(h, Start(self, trust), steps).socks[i]);
    hide Run, Slots;
  }

  /**
   * The counter is exact: as many handshakes as sockets holding a slot, never more than the limit, and never clamped at
   * zero; and a slot is held only while a handler is still on its way to its deferred release.
   */
  lemma HandshakesAreCounted(h: PairingCode.Hash, self: Id, trust: map<Id, Token>, steps: seq<Step>)
    ensures var w := Run(h, Start(self, trust), steps);
            && w.handshakes == Slots(w.socks) <= MAX_PENDING_HANDSHAKES
            && forall i :: 0 <= i < |w.socks| && w.socks[i].slot ==>
                 w.handshakes > 0 && (w.socks[i].role.Upgrading? || w.socks[i].defers == [TearDown, ReleaseSlot])
  {
    RunKeeps(h, self, trust, steps);
    var w := Run(h, Start(self, trust), steps);
    forall i | 0 <= i < |w.socks| && w.socks[i].slot
      ensures w.handshakes > 0 && (w.socks[i].role.Upgrading? || w.socks[i].defers == [TearDown, ReleaseSlot])
    {
      SlotCounted(w, i);
      assert SockOk(w.socks[i]);
    }
    hide Run, Slots;
  }

  /** At most one dial of a device is in flight. */
  lemma OneDialPerDevice(h: PairingCode.Hash, self: Id, trust: map<Id, Token>, steps: seq<Step>, j: nat, k: nat)
    requires var w := Run(h, Start(self, trust), steps);
             && j < |w.dials| && k < |w.dials| && w.dials[j].running && w.dials[k].running
                 && w.dials[j].device == w.dials[k].device
    ensures j == k
  {
    RunKeeps(h, self, trust, steps);
    hide Run, Slots;
  }

  // -- the newest socket is the live one ------------------------------------------------------------------

  /** The socket this step files under `id`, if it files one. */
  function FiledBy(h: PairingCode.Hash, w: World, step: Step, id: Id): Option<nat> {
    match step
    case Register(k) =>
      if Has(w, k) && MayRegister(w.socks[k]) && w.socks[k].id == id then Some(k) else None
    case Pair(k, head, move, free, mine) =>
      if Has(w, k) && w.socks[k].role.Pairing? && !w.socks[k].role.e.paired then
        var e := P.Act(h, w.socks[k].role.e, head, move, _ => free, mine).e;
        if e.paired && e.device == id then Some(k) else None
      else None
    case _ => None
  }

  /** What takes the live socket of `id` out of its place. */
  predicate Displaces(h: PairingCode.Hash, w: World, step: Step, id: Id)
    requires id in w.conns
  {
    var i := w.conns[id];
    match step
    case Unwind(k) =>
      k == i && Has(w, k) && w.socks[k].returned && w.socks[k].defers != []
          && w.socks[k].defers[|w.socks[k].defers| - 1].TearDown?
    case Drop(d) => d == id
    case Lookup(d) => d == id && Has(w, i) && !w.socks[i].Alive()
    case _ => FiledBy(h, w, step, id).Some? && FiledBy(h, w, step, id) != Some(i)
  }

  lemma UnwindDisplaces(h: PairingCode.Hash, w: World, k: nat, id: Id)
    requires Inv(w) && id in w.conns
    ensures var n := Next(h, w, Unwind(k));
            (id in n.conns && n.conns[id] == w.conns[id]) <==> !Displaces(h, w, Unwind(k), id)
  {
    if Has(w, k) { assert SockOk(w.socks[k]); }
    hide Slots, SockOk, Shut;
  }

  lemma PairDisplaces(h: PairingCode.Hash, w: World, step: Step, id: Id)
    requires Inv(w) && id in w.conns && step.Pair?
    ensures var n := Next(h, w, step);
            (id in n.conns && n.conns[id] == w.conns[id]) <==> !Displaces(h, w, step, id)
  {
    hide Slots, SockOk, P.Act, DialsOk;
  }

  lemma MapDisplaces(h: PairingCode.Hash, w: World, step: Step, id: Id)
    requires Inv(w) && id in w.conns && (step.Drop? || step.Lookup? || step.Register?)
    ensures var n := Next(h, w, step);
            (id in n.conns && n.conns[id] == w.conns[id]) <==> !Displaces(h, w, step, id)
  {
    hide Slots, SockOk, DialsOk, Shut;
  }

  lemma OtherDisplaces(h: PairingCode.Hash, w: World, step: Step, id: Id)
    requires id in w.conns && !step.Unwind? && !step.Pair? && !step.Drop? && !step.Lookup? && !step.Register?
    ensures Next(h, w, step).conns == w.conns && !Displaces(h, w, step, id)
  {
    hide Shut, Greeted, P.Answer;
  }

  /**
   * Exactly what ends the place of a device's live socket, in every reachable state: its own teardown, a newer socket
   * registered for the device, which then has the place, the last part of a Forget, or a lookup that finds it dead. No
   * teardown of any other socket does, an evicted one's least of all.
   */
  lemma ReplacedOnlyByNewer(h: PairingCode.Hash, self: Id, trust: map<Id, Token>, steps: seq<Step>, step: Step, id: Id)
    requires id in Run(h, Start(self, trust), steps).conns
    ensures var w := Run(h, Start(self, trust), steps);
            var n := Next(h, w, step);
            && ((id in n.conns && n.conns[id] == w.conns[id]) <==> !Displaces(h, w, step, id))
            && (FiledBy(h, w, step, id).Some? ==> id in n.conns && Some(n.conns[id]) == FiledBy(h, w, step, id))
  {
    RunKeeps(h, self, trust, steps);
    var w := Run(h, Start(self, trust), steps);
    FiledByFiles(h, w, step, id);
    hide Inv, Run, Next, FiledBy;
    if step.Unwind? {
      UnwindDisplaces(h, w, step.i, id);
    } else if step.Pair? {
      PairDisplaces(h, w, step, id);
    } else if step.Drop? || step.Lookup? || step.Register? {
      MapDisplaces(h, w, step, id);
    } else {
      OtherDisplaces(h, w, step, id);
    }
  }

  lemma FiledByFiles(h: PairingCode.Hash, w: World, step: Step, id: Id)
    requires Inv(w) && id in w.conns
    ensures var n := Next(h, w, step);
            FiledBy(h, w, step, id).Some? ==> id in n.conns && Some(n.conns[id]) == FiledBy(h, w, step, id)
  {
    hide Slots, SockOk, P.Act, DialsOk, Unwound, Dropped, Greeted;
  }

  /** No step of `after` displaces the live socket of `id`. */
  predicate Undisturbed(h: PairingCode.Hash, w0: World, before: seq<Step>, after: seq<Step>, id: Id)
    decreases |after|
  {
    after == []
    || (var front, w := after[..|after| - 1], Run(h, w0, before + after[..|after| - 1]);
        Undisturbed(h, w0, before, front, id) && (id in w.conns ==> !Displaces(h, w, after[|after| - 1], id)))
  }

  lemma RunLast(h: PairingCode.Hash, w0: World, before: seq<Step>, after: seq<Step>)
    requires after != []
    ensures Run(h, w0, before + after) == Next(h, Run(h, w0, before + after[..|after| - 1]), after[|after| - 1])
  {
    var steps := before + after;
    assert steps[..|steps| - 1] == before + after[..|after| - 1] && steps[|steps| - 1] == after[|after| - 1];
    hide Next;
  }

  /** And over runs: the live socket of a device stays the live one until one of those happens. */
  lemma {:induction false} NewestStaysLive(h: PairingCode.Hash, self: Id, trust: map<Id, Token>, before: seq<Step>,
                                           after: seq<Step>, id: Id)
    requires id in Run(h, Start(self, trust), before).conns && Undisturbed(h, Start(self, trust), before, after, id)
    ensures var w, n := Run(h, Start(self, trust), before), Run(h, Start(self, trust), before + after);
            id in n.conns && n.conns[id] == w.conns[id]
    decreases |after|
  {
    hide Next, Displaces, Run, FiledBy;
    if after == [] {
      assert before + after == before;
    } else {
      NewestStaysLive(h, self, trust, before, after[..|after| - 1], id);
      RunLast(h, Start(self, trust), before, after);
      ReplacedOnlyByNewer(h, self, trust, before + after[..|after| - 1], after[|after| - 1], id);
    }
  }
}
