/**
 * One end of one pairing attempt: what the dial or the hello does to it, what its driver goroutine does with a
 * human's answer, a remote frame, a timer or a dead socket, and what the frame loop feeds it.
 * Every function is one atomic step of one goroutine; the choices Go's select and the network make are parameters.
 */
module PairingSpec {
  import opened Common
  import opened PairingCode

  type Id = string
  type Token = string
  type Reason = string

  const DECLINED: Reason := "declined"
  const TIMEOUT: Reason := "timeout"
  const BUSY: Reason := "busy"
  const RATE_LIMITED: Reason := "rate_limited"
  const CODE_MISMATCH: Reason := "code_mismatch"
  const UNREACHABLE: Reason := "unreachable"
  const PROTOCOL_MISMATCH: Reason := "protocol_mismatch"
  const INTERNAL: Reason := "internal"

  /** Capacity of the channel the frame loop feeds. */
  const EVENT_CAPACITY: nat := 4

  datatype Decision = Decision(accept: bool, reason: Reason)

  datatype PairEvent = EvAccept | EvReject(reason: Reason) | EvPaired(token: Token) | EvCancelled(reason: Reason)

  datatype Frame =
    | Hello(id: Id)
    | Required(code: string, nonce: string)
    | Accept(id: Id)
    | Paired(token: Token)
    | Reject(reason: Reason)

  /** What OnPairResult reports. */
  datatype Verdict = Success | Failure(reason: Reason)

  /** Where the goroutine that owns this end stands. */
  datatype Stage =
    | Waiting                                // responder: no hello read yet
    | Refused                                // no pairing came of it, and no code was shown
    | Dialling                               // dialer: registered, not connected
    | Opening                                // dialer: hello sent; responder: registered, nothing sent
    | Offered                                // responder: peer:pair:required sent
    | Driving                                // code on screen, driver in its select
    | Failing(reason: Reason, notify: bool)  // failed, socket still to be closed
    | Closed(reason: Reason)                 // failed and closed, result still to be reported
    | Completing(token: Token)               // token agreed, not stored
    | Stored(token: Token)                   // token stored, socket not yet promoted
    | Announced                              // promoted, result still to be reported
    | Reported                               // OnPairResult called

  datatype End = End(
    owner: Id, device: Id, responder: bool, asked: bool,
    nonce: string, code: string, shown: Option<string>,
    decision: Option<Decision>, events: seq<PairEvent>,
    localYes: bool, remoteYes: bool, stage: Stage, results: seq<Verdict>,
    stored: Option<Token>, saved: bool,
    linked: bool, alive: bool, paired: bool, done: bool)

  function NewDialer(owner: Id, device: Id): End {
    End(owner, device, false, true, "", "", None, None, [], false, false, Dialling, [], None, false, false, false,
        false, false)
  }

  /** The dialling end of a socket that presents a stored token and walks away when asked to pair. */
  function TokenDialer(owner: Id, device: Id): End {
    NewDialer(owner, device).(asked := false, stage := Refused, linked := true, done := true)
  }

  function NewResponder(owner: Id): End {
    End(owner, "", true, false, "", "", None, None, [], false, false, Waiting, [], None, false, true, true, false,
        false)
  }

  function OrDeclined(r: Reason): Reason { if r == "" then DECLINED else r }

  // -- the human, the timer, the far side ------------------------------------------

  /** Which arm of the driver's select fires, with what the world answers while it runs. */
  datatype Choice =
    | ContextDone
    | SocketDone
    | TimerFired
    | TakeDecision(enqueueOk: bool, mint: Option<Token>)
    | TakeEvent(mint: Option<Token>)

  function Fail(e: End, reason: Reason, notify: bool): End {
    e.(stage := Failing(OrDeclined(reason), notify))
  }

  /** After the select: the responder mints the token once both humans have accepted. */
  function AfterSelect(e: End, mint: Option<Token>): End {
    if e.responder && e.localYes && e.remoteYes then
      if mint.None? then Fail(e, INTERNAL, true) else e.(stage := Completing(mint.value))
    else e
  }

  function TakeAnswer(e: End, d: Decision, ok: bool, mint: Option<Token>): (End, seq<Frame>) {
    if !d.accept then (Fail(e, d.reason, true), [])
    else if e.localYes then (e, [])
    else if !(e.alive && ok) then (Fail(e.(localYes := true, alive := false), UNREACHABLE, false), [])
    else (AfterSelect(e.(localYes := true), mint), [Accept(e.owner)])
  }

  function TakeRemote(e: End, ev: PairEvent, mint: Option<Token>): End {
    match ev
    case EvAccept => AfterSelect(e.(remoteYes := true), mint)
    case EvReject(r) => Fail(e, r, false)
    case EvCancelled(r) => Fail(e, r, true)
    case EvPaired(t) =>
      if e.responder || !e.localYes then Fail(e, INTERNAL, true) else e.(stage := Completing(t))
  }

  /** One turn of the driver's select loop; an arm that is not ready leaves everything as it was. */
  function Select(e: End, c: Choice): (End, seq<Frame>) {
    match c
    case ContextDone => (Fail(e, INTERNAL, true), [])
    case SocketDone => if e.alive then (e, []) else (Fail(e, UNREACHABLE, false), [])
    case TimerFired => (Fail(e, TIMEOUT, true), [])
    case TakeDecision(ok, mint) =>
      if e.decision.None? then (e, []) else TakeAnswer(e.(decision := None), e.decision.value, ok, mint)
    case TakeEvent(mint) =>
      if e.events == [] then (e, []) else (TakeRemote(e.(events := e.events[1..]), e.events[0], mint), [])
  }

  // -- after the outcome is chosen ----------------------------------------------------

  /**
   * The next action of completePairing, failPairing or endPairing; `ok` says whether the write or send it makes
   * succeeds.
   */
  function Finish(e: End, ok: bool): (End, seq<Frame>) {
    match e.stage
    case Failing(reason, notify) =>
      (e.(stage := Closed(reason), alive := false), if notify && e.linked && e.alive && ok then [Reject(reason)]
          else [])
    case Closed(reason) => (e.(stage := Reported, results := e.results + [Failure(reason)]), [])
    case Completing(t) =>
      if !ValidTokenFormat(t) then (Fail(e, INTERNAL, true), [])
      else if !ok then (Fail(e.(stored := Some(t), saved := false), INTERNAL, true), [])
      else (e.(stored := Some(t), saved := true, stage := Stored(t)), [])
    case Stored(t) =>
      if !e.responder then (e.(paired := true, stage := Announced), [])
      else if e.alive && ok then (e.(paired := true, stage := Announced), [Paired(t)])
      else (e.(paired := true, stage := Announced, alive := false), [])
    case Announced => (e.(stage := Reported, results := e.results + [Success]), [])
    case Reported => (e.(done := true), [])
    case _ => (e, [])
  }

  // -- before the driver starts -------------------------------------------------------

  /** abortPairing: the attempt leaves the pending set before it fails. */
  function Abort(e: End, reason: Reason, notify: bool): End {
    Fail(e.(done := true), reason, notify)
  }

  function Connect(e: End, ok: bool): (End, seq<Frame>) {
    if ok then (e.(linked := true, alive := true, stage := Opening), [Hello(e.owner)])
    else (Abort(e, UNREACHABLE, false), [])
  }

  /** The dialer's first frame: the code is derived here and compared with the one that came along. */
  function FirstFrame(h: Hash, e: End, f: Frame): End {
    match f
    case Required(code, nonce) =>
      var derived := Code(h, e.owner, e.device, nonce);
      if !ValidNonceFormat(nonce) || (code != "" && !ValidCodeFormat(code)) then Abort(e, INTERNAL, true)
      else if code != "" && code != derived then Abort(e, CODE_MISMATCH, true)
      else e.(nonce := nonce, code := derived, shown := Some(derived), stage := Driving)
    case Reject(r) => Abort(e, OrDeclined(r), false)
    case _ => Abort(e, INTERNAL, true)
  }

  /** How the responder's limiter and randomness answer a hello. */
  datatype Gate = Unreadable | WrongVersion | Limited | NonceError | Open(nonce: string)

  function Refuse(e: End, answer: seq<Frame>): (r: (End, seq<Frame>))
    ensures r.0.stage.Refused? && r.0.done
  {
    (e.(stage := Refused, done := true, alive := false), if e.alive then answer else [])
  }

  /** The responder's first frame; `free` says that no pairing with that device is pending. */
  function TakeHello(h: Hash, e: End, f: Frame, gate: Gate, free: Id -> bool): (End, seq<Frame>) {
    if !f.Hello? || gate.Unreadable? then Refuse(e, [])
    else if gate.WrongVersion? then Refuse(e, [Reject(PROTOCOL_MISMATCH)])
    else if f.id == "" || f.id == e.owner then Refuse(e, [])
    else if gate.Limited? then Refuse(e, [Reject(RATE_LIMITED)])
    else if gate.NonceError? then Refuse(e, [Reject(INTERNAL)])
    else if !free(f.id) then Refuse(e, [Reject(BUSY)])
    else (e.(device := f.id, nonce := gate.nonce, code := Code(h, e.owner, f.id, gate.nonce), stage := Opening), [])
  }

  function Offer(e: End, ok: bool): (End, seq<Frame>) {
    if e.alive && ok then (e.(stage := Offered), [Required(e.code, e.nonce)])
    else (e.(stage := Refused, done := true, alive := false), [])
  }

  function Show(e: End): End { e.(shown := Some(e.code), stage := Driving) }

  // -- the frame loop --------------------------------------------------------------------

  /** pushEvent: never blocks, drops when the driver is behind. */
  function Push(e: End, ev: PairEvent): End {
    if |e.events| < EVENT_CAPACITY then e.(events := e.events + [ev]) else e
  }

  /**
   * What a frame of the pairing surface means to the driver; nothing, when it is malformed or does not belong
   * there.
   */
  function EventFor(device: Id, f: Frame): Option<PairEvent> {
    match f
    case Accept(id) => if id == "" || id != device then None else Some(EvAccept)
    case Paired(t) => if !ValidTokenFormat(t) then None else Some(EvPaired(t))
    case Reject(r) => Some(EvReject(OrDeclined(r)))
    case _ => None
  }

  /** One frame of the loop; `mine` says that the pending pairing with this device runs over this socket. */
  function ReadFrame(e: End, f: Frame, mine: bool): End {
    var ev := EventFor(e.device, f);
    if e.paired || !mine || ev.None? then e.(alive := false) else Push(e, ev.value)
  }

  // -- all of it ---------------------------------------------------------------------------

  datatype Move =
    | Dial(ok: bool)
    | First(gate: Gate)
    | NoAnswer
    | SendOffer(ok: bool)
    | ShowCode
    | Turn(choice: Choice)
    | Proceed(ok: bool)
    | Loop

  /** The new end, the frames it sent, and whether it took the frame at the head of its inbox. */
  datatype Effect = Effect(e: End, sent: seq<Frame>, took: bool)

  function Took(p: (End, seq<Frame>)): Effect { Effect(p.0, p.1, true) }

  function Kept(p: (End, seq<Frame>)): Effect { Effect(p.0, p.1, false) }

  /** One step of one end; a move its stage does not allow changes nothing. */
  function Act(h: Hash, e: End, head: Option<Frame>, m: Move, free: Id -> bool, mine: bool): (x: Effect)
    ensures x.took ==> head.Some?
  {
    match m
    case Dial(ok) => if e.stage.Dialling? then Kept(Connect(e, ok)) else Kept((e, []))
    case First(gate) =>
      if head.None? then Kept((e, []))
      else if e.stage.Waiting? then Took(TakeHello(h, e, head.value, gate, free))
      else if e.stage.Opening? && !e.responder then Took((FirstFrame(h, e, head.value), []))
      else Kept((e, []))
    case NoAnswer =>
      if e.stage.Waiting? then Kept(Refuse(e, []))
      else if e.stage.Opening? && !e.responder then Kept((Abort(e, UNREACHABLE, false), []))
      else Kept((e, []))
    case SendOffer(ok) => if e.stage.Opening? && e.responder then Kept(Offer(e, ok)) else Kept((e, []))
    case ShowCode => if e.stage.Offered? then Kept((Show(e), [])) else Kept((e, []))
    case Turn(choice) => if e.stage.Driving? then Kept(Select(e, choice)) else Kept((e, []))
    case Proceed(ok) => Kept(Finish(e, ok))
    case Loop => if e.shown.Some? && head.Some? then Took((ReadFrame(e, head.value, mine), [])) else Kept((e, []))
  }

  /** Confirm: one answer fits the buffer, and none once the attempt has left the pending set. */
  function Answer(e: End, d: Decision): (End, bool) {
    if e.done || e.decision.Some? then (e, false) else (e.(decision := Some(d)), true)
  }
}
