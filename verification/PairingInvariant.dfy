/** What every step keeps about one pairing attempt: its two ends and the frames between them. */
module PairingInvariant {
  import opened Common
  import opened PairingCode
  import opened PairingSpec

  // -- one end on its own -------------------------------------------------------------

  predicate Early(s: Stage) { s.Waiting? || s.Refused? || s.Dialling? || s.Opening? || s.Offered? }

  predicate Failed(s: Stage) { s.Failing? || s.Closed? }

  /** The token this end agreed to, if it got that far. */
  function Agreed(e: End): Option<Token> {
    if e.stage.Completing? then Some(e.stage.token) else e.stored
  }

  /** Exactly one result, and it says what became of the trust. */
  predicate ResultOk(e: End) {
    && (e.stage.Reported? <==> |e.results| == 1)
    && (!e.stage.Reported? <==> e.results == [])
    && (e.stage.Reported? ==> (e.results[0].Success? <==> e.stored.Some? && e.saved))
  }

  predicate StoreOk(e: End) {
    && (e.stage.Stored? ==> e.stored == Some(e.stage.token))
    && (e.stage.Stored? || e.stage.Announced? ==> e.stored.Some? && e.saved)
    && (Failed(e.stage) && e.stored.Some? ==> !e.saved)
    && (Early(e.stage) || e.stage.Driving? || e.stage.Completing? ==> e.stored.None?)
    && (e.stored.Some? ==> ValidTokenFormat(e.stored.value))
  }

  /** No token without this side's human, and on the responder not without the other side's either. */
  predicate ConsentOk(e: End) {
    && (Agreed(e).Some? ==> e.localYes && (e.responder ==> e.remoteYes))
    && (e.localYes || e.stage.Driving? ==> e.shown.Some?)
  }

  /** Which stages an end of either kind can be in, and when it has left the pending set. */
  predicate StageOk(e: End) {
    && (e.stage.Waiting? || e.stage.Offered? ==> e.responder)
    && (e.stage.Dialling? ==> !e.responder)
    && (e.done ==> e.stage.Refused? || Failed(e.stage) || e.stage.Reported?)
    && (e.stage.Refused? ==> e.done && !e.asked)
    && (!e.responder && !e.asked ==> e.stage.Refused?)
    && (e.responder ==> !e.asked)
  }

  predicate ScreenOk(e: End) {
    && (e.shown.Some? ==> e.shown.value == e.code && !Early(e.stage))
    && (e.responder && !Early(e.stage) ==> e.shown.Some?)
    && (e.responder && !Blank(e) ==> ValidCodeFormat(e.code))
  }

  predicate EndInv(e: End) { ResultOk(e) && StoreOk(e) && ConsentOk(e) && StageOk(e) && ScreenOk(e) }

  // -- what the far side may rely on ----------------------------------------------------

  /** A responder that has no pairing, or not yet. */
  predicate Blank(e: End) { e.responder && (e.stage.Waiting? || e.stage.Refused?) }

  /** A responder whose code is on its way to the dialer. */
  predicate Public(e: End) { e.responder && !Blank(e) && !e.stage.Opening? }

  /** Facts about an end that no later step takes back. */
  predicate Grows(e: End, n: End) {
    && n.owner == e.owner && n.responder == e.responder && n.asked == e.asked
    && (e.localYes ==> n.localYes)
    && (e.shown.Some? ==> n.shown == e.shown)
    && (Public(e) ==> Public(n) && n.code == e.code)
    && (e.stored.Some? ==> n.stored == e.stored)
    && (!e.stage.Waiting? ==> n.device == e.device && !n.stage.Waiting? && (e.done ==> n.done))
  }

  predicate FrameOk(f: Frame, from: End) {
    match f
    case Hello(id) => id == from.owner
    case Required(code, nonce) => Public(from) && code == from.code && ValidCodeFormat(code)
    case Accept(id) => from.localYes
    case Paired(t) => from.responder && from.stored == Some(t)
    case Reject(_) => true
  }

  predicate EventOk(ev: PairEvent, from: End) {
    match ev
    case EvAccept => from.localYes
    case EvPaired(t) => from.responder && from.stored == Some(t)
    case _ => true
  }

  predicate InboxOk(inbox: seq<Frame>, other: End) { forall i :: 0 <= i < |inbox| ==> FrameOk(inbox[i], other) }

  predicate EventsOk(evs: seq<PairEvent>, other: End) { forall i :: 0 <= i < |evs| ==> EventOk(evs[i], other) }

  predicate BeliefOk(me: End, other: End) {
    && (me.remoteYes ==> other.localYes)
    && (!me.responder && Agreed(me).Some? ==> other.stored == Agreed(me))
    && (!me.responder && me.shown.Some? ==> Public(other) && other.code == me.shown.value)
    && (me.responder && !Blank(me) ==> me.device == other.owner)
  }

  /** What `me` holds, in its inbox, its event buffer and its own fields, agrees with what `other` did. */
  predicate Agrees(me: End, inbox: seq<Frame>, other: End) {
    InboxOk(inbox, other) && EventsOk(me.events, other) && BeliefOk(me, other)
  }

  // -- what the far side does only adds to what is known of it ----------------------------

  lemma AgreesGrows(me: End, inbox: seq<Frame>, other: End, n: End)
    requires Agrees(me, inbox, other) && Grows(other, n)
    ensures Agrees(me, inbox, n)
  {
    hide Agreed, ValidCodeFormat;
  }

  // -- the steps, one stage at a time -------------------------------------------------------

  /** An accept waits for the driver. */
  predicate Willing(e: End) { e.decision.Some? && e.decision.value.accept }

  /** Only a waiting accept makes the driver accept, and no step of the end itself puts one there. */
  predicate Wills(e: End, n: End) {
    (n.localYes ==> e.localYes || Willing(e)) && (Willing(n) ==> Willing(e))
  }

  /**
   * A step of `me`: it keeps its own invariant, takes nothing back, sends only what is so, and still agrees with
   * `other`.
   */
  predicate Keeps(me: End, x: Effect, other: End) {
    && EndInv(x.e) && Grows(me, x.e) && Wills(me, x.e)
    && (forall i :: 0 <= i < |x.sent| ==> FrameOk(x.sent[i], x.e))
    && EventsOk(x.e.events, other) && BeliefOk(x.e, other)
  }

  predicate Ready(me: End, other: End) {
    EndInv(me) && EventsOk(me.events, other) && BeliefOk(me, other) && me.responder != other.responder
  }

  lemma ConnectKeeps(me: End, ok: bool, other: End)
    requires Ready(me, other) && me.stage.Dialling?
    ensures Keeps(me, Kept(Connect(me, ok)), other)
  {
    hide ValidCodeFormat, ValidTokenFormat, EventsOk;
  }

  lemma AbortKeeps(me: End, reason: Reason, notify: bool, other: End)
    requires Ready(me, other) && me.stage.Opening? && !me.responder
    ensures Keeps(me, Kept((Abort(me, reason, notify), [])), other)
  {
    hide ValidCodeFormat, ValidTokenFormat, EventsOk;
  }

  lemma FirstFrameKeeps(h: Hash, me: End, f: Frame, other: End)
    requires Ready(me, other) && me.stage.Opening? && !me.responder && FrameOk(f, other)
    ensures Keeps(me, Took((FirstFrame(h, me, f), [])), other)
  {
    if f.Required? && ValidNonceFormat(f.nonce) && f.code == Code(h, me.owner, me.device, f.nonce) {
      hide ValidNonceFormat, Code, ValidTokenFormat, EventsOk;
    } else {
      AbortKeeps(me, INTERNAL, true, other);
      AbortKeeps(me, CODE_MISMATCH, true, other);
      if f.Reject? { AbortKeeps(me, OrDeclined(f.reason), false, other); }
      hide *;
    }
  }

  lemma RefuseKeeps(me: End, reason: Option<Reason>, other: End)
    requires Ready(me, other) && me.stage.Waiting?
    ensures Keeps(me, Kept(Refuse(me, if reason.Some? then [Reject(reason.value)] else [])), other)
  {
    hide ValidCodeFormat, ValidTokenFormat, EventsOk;
  }

  lemma HelloKeeps(h: Hash, me: End, f: Frame, gate: Gate, free: Id -> bool, other: End)
    requires Ready(me, other) && me.stage.Waiting? && FrameOk(f, other)
    ensures Keeps(me, Took(TakeHello(h, me, f, gate, free)), other)
  {
    if f.Hello? && gate.Open? && f.id != "" && f.id != me.owner && free(f.id) {
      CodeIsSixDigits(h, me.owner, f.id, gate.nonce);
      hide ValidCodeFormat, ValidTokenFormat, EventsOk, Code;
    } else {
      RefuseKeeps(me, None, other);
      RefuseKeeps(me, Some(PROTOCOL_MISMATCH), other);
      RefuseKeeps(me, Some(RATE_LIMITED), other);
      RefuseKeeps(me, Some(INTERNAL), other);
      RefuseKeeps(me, Some(BUSY), other);
      hide Keeps, Refuse, ValidCodeFormat, ValidTokenFormat, EventsOk, Code;
    }
  }

  lemma OfferKeeps(me: End, ok: bool, other: End)
    requires Ready(me, other) && me.stage.Opening? && me.responder
    ensures Keeps(me, Kept(Offer(me, ok)), other)
  {
    hide ValidCodeFormat, ValidTokenFormat, EventsOk;
  }

  lemma ShowKeeps(me: End, other: End)
    requires Ready(me, other) && me.stage.Offered?
    ensures Keeps(me, Kept((Show(me), [])), other)
  {
    hide ValidCodeFormat, ValidTokenFormat, EventsOk;
  }

  /** Failing from the select, whatever else the arm changed on the way. */
  lemma FailKeeps(me: End, n: End, reason: Reason, notify: bool, other: End)
    requires Ready(me, other) && me.stage.Driving? && EventsOk(n.events, other)
    requires n == me.(decision := n.decision, events := n.events, localYes := n.localYes, alive := n.alive)
    requires (me.localYes ==> n.localYes) && Wills(me, n)
    ensures Keeps(me, Kept((Fail(n, reason, notify), [])), other)
  {
    hide ValidCodeFormat, ValidTokenFormat, EventsOk;
  }

  /** Staying in the select, or minting, after an accept from either side. */
  lemma AcceptKeeps(me: End, n: End, mint: Option<Token>, sent: seq<Frame>, other: End)
    requires Ready(me, other) && me.stage.Driving? && EventsOk(n.events, other)
    requires n == me.(decision := n.decision, events := n.events, localYes := n.localYes, remoteYes := n.remoteYes)
    requires (me.localYes ==> n.localYes) && Wills(me, n) && (n.remoteYes ==> other.localYes)
    requires sent == [] || (sent == [Accept(me.owner)] && n.localYes)
    ensures Keeps(me, Kept((AfterSelect(n, mint), sent)), other)
  {
    hide ValidCodeFormat, ValidTokenFormat, EventsOk;
  }

  lemma TokenKeeps(me: End, n: End, t: Token, other: End)
    requires Ready(me, other) && me.stage.Driving? && !me.responder && me.localYes && EventsOk(n.events, other)
    requires n == me.(events := n.events) && other.stored == Some(t)
    ensures Keeps(me, Kept((n.(stage := Completing(t)), [])), other)
  {
    hide ValidCodeFormat, ValidTokenFormat, EventsOk;
  }

  lemma YesKeeps(me: End, n: End, ok: bool, mint: Option<Token>, other: End)
    requires Ready(me, other) && me.stage.Driving? && n == me.(decision := None, localYes := true) && Willing(me)
    ensures n.alive && ok ==> Keeps(me, Kept((AfterSelect(n, mint), [Accept(me.owner)])), other)
    ensures !(n.alive && ok) ==> Keeps(me, Kept((Fail(n.(alive := false), UNREACHABLE, false), [])), other)
  {
    assert EventsOk(me.events, other) && (me.remoteYes ==> other.localYes);
    hide Keeps, Ready, AfterSelect, Fail, EventsOk;
    if n.alive && ok {
      AcceptKeeps(me, n, mint, [Accept(me.owner)], other);
    } else {
      FailKeeps(me, n.(alive := false), UNREACHABLE, false, other);
    }
  }

  lemma AnswerKeeps(me: End, n: End, d: Decision, ok: bool, mint: Option<Token>, other: End)
    requires Ready(me, other) && me.stage.Driving? && n == me.(decision := None) && me.decision == Some(d)
    ensures Keeps(me, Kept(TakeAnswer(n, d, ok, mint)), other)
  {
    assert EventsOk(n.events, other);
    if !d.accept {
      FailKeeps(me, n, d.reason, true, other);
    } else if n.localYes {
      IdleKeeps(me, n, other);
    } else {
      YesKeeps(me, n.(localYes := true), ok, mint, other);
    }
    hide Keeps, Ready, AfterSelect, Fail, EventsOk;
  }

  lemma DecisionKeeps(me: End, ok: bool, mint: Option<Token>, other: End)
    requires Ready(me, other) && me.stage.Driving? && me.decision.Some?
    ensures Keeps(me, Kept(Select(me, TakeDecision(ok, mint))), other)
  {
    AnswerKeeps(me, me.(decision := None), me.decision.value, ok, mint, other);
    hide Keeps, Ready, TakeAnswer;
  }

  /** Nothing but the buffers and the socket's life changes. */
  lemma IdleKeeps(me: End, n: End, other: End)
    requires Ready(me, other) && EventsOk(n.events, other)
    requires n == me.(decision := n.decision, events := n.events, alive := n.alive) && (Willing(n) ==> Willing(me))
    ensures Keeps(me, Kept((n, [])), other)
  {
    BuffersKeep(me, n, other);
    hide EndInv, Grows, BeliefOk, EventsOk;
  }

  lemma BuffersKeep(me: End, n: End, other: End)
    requires Ready(me, other) && EventsOk(n.events, other)
    requires n == me.(decision := n.decision, events := n.events, alive := n.alive)
    ensures EndInv(n) && Grows(me, n) && BeliefOk(n, other)
  {
    hide ValidCodeFormat, ValidTokenFormat, EventsOk;
  }

  lemma EventKeeps(me: End, mint: Option<Token>, other: End)
    requires Ready(me, other) && me.stage.Driving? && me.events != []
    ensures Keeps(me, Kept(Select(me, TakeEvent(mint))), other)
  {
    var n := me.(events := me.events[1..]);
    var ev := me.events[0];
    assert EventsOk(n.events, other) && EventOk(ev, other);
    match ev
    case EvAccept =>
      AcceptKeeps(me, n.(remoteYes := true), mint, [], other); hide Keeps, Ready, AfterSelect, Fail, EventsOk;
    case EvReject(r) => FailKeeps(me, n, r, false, other); hide Keeps, Ready, AfterSelect, Fail, EventsOk;
    case EvCancelled(r) => FailKeeps(me, n, r, true, other); hide Keeps, Ready, AfterSelect, Fail, EventsOk;
    case EvPaired(t) =>
      if me.responder || !me.localYes {
        FailKeeps(me, n, INTERNAL, true, other);
      } else {
        TokenKeeps(me, n, t, other);
      }
      hide Keeps, Ready, AfterSelect, Fail, EventsOk;
  }

  lemma SelectKeeps(me: End, c: Choice, other: End)
    requires Ready(me, other) && me.stage.Driving?
    ensures Keeps(me, Kept(Select(me, c)), other)
  {
    IdleKeeps(me, me, other);
    assert EventsOk(me.events, other);
    FailKeeps(me, me, INTERNAL, true, other);
    FailKeeps(me, me, UNREACHABLE, false, other);
    FailKeeps(me, me, TIMEOUT, true, other);
    if c.TakeDecision? && me.decision.Some? { DecisionKeeps(me, c.enqueueOk, c.mint, other); }
    if c.TakeEvent? && me.events != [] { EventKeeps(me, c.mint, other); }
    hide Keeps, Ready, Fail, TakeAnswer, TakeRemote, EventsOk;
  }

  // -- finishing ------------------------------------------------------------------------------

  lemma CloseKeeps(me: End, ok: bool, other: End)
    requires Ready(me, other) && me.stage.Failing?
    ensures Keeps(me, Kept(Finish(me, ok)), other)
  {
    hide ValidCodeFormat, ValidTokenFormat, EventsOk;
  }

  lemma ReportKeeps(me: End, ok: bool, other: End)
    requires Ready(me, other) && me.stage.Closed?
    ensures Keeps(me, Kept(Finish(me, ok)), other)
  {
    assert Finish(me, ok) == (me.(stage := Reported, results := me.results + [Failure(me.stage.reason)]), []);
    hide ValidCodeFormat, ValidTokenFormat, EventsOk, Finish;
  }

  /** The store may keep the token in memory and still report an error. */
  lemma StoreKeeps(me: End, ok: bool, other: End)
    requires Ready(me, other) && me.stage.Completing?
    ensures Keeps(me, Kept(Finish(me, ok)), other)
  {
    var t := me.stage.token;
    if !ValidTokenFormat(t) {
      MalformedKeeps(me, other);
    } else if ok {
      AddKeeps(me, t, other);
    } else {
      AddFailsKeeps(me, t, other);
    }
    hide Keeps, Ready, ValidTokenFormat, Fail;
  }

  lemma MalformedKeeps(me: End, other: End)
    requires Ready(me, other) && me.stage.Completing?
    ensures Keeps(me, Kept((Fail(me, INTERNAL, true), [])), other)
  {
    hide ValidCodeFormat, ValidTokenFormat, EventsOk;
  }

  lemma AddKeeps(me: End, t: Token, other: End)
    requires Ready(me, other) && me.stage == Completing(t) && ValidTokenFormat(t)
    ensures Keeps(me, Kept((me.(stored := Some(t), saved := true, stage := Stored(t)), [])), other)
  {
    hide ValidCodeFormat, ValidTokenFormat, EventsOk;
  }

  lemma AddFailsKeeps(me: End, t: Token, other: End)
    requires Ready(me, other) && me.stage == Completing(t) && ValidTokenFormat(t)
    ensures Keeps(me, Kept((Fail(me.(stored := Some(t), saved := false), INTERNAL, true), [])), other)
  {
    hide ValidCodeFormat, ValidTokenFormat, EventsOk;
  }

  lemma SuccessKeeps(me: End, ok: bool, other: End)
    requires Ready(me, other) && (me.stage.Stored? || me.stage.Announced? || me.stage.Reported?)
    ensures Keeps(me, Kept(Finish(me, ok)), other)
  {
    hide ValidCodeFormat, ValidTokenFormat, EventsOk;
  }

  lemma FinishKeeps(me: End, ok: bool, other: End)
    requires Ready(me, other)
    ensures Keeps(me, Kept(Finish(me, ok)), other)
  {
    if me.stage.Failing? { CloseKeeps(me, ok, other); }
    else if me.stage.Closed? { ReportKeeps(me, ok, other); }
    else if me.stage.Completing? { StoreKeeps(me, ok, other); }
    else if me.stage.Stored? || me.stage.Announced? || me.stage.Reported? { SuccessKeeps(me, ok, other); }
    else { IdleKeeps(me, me, other); }
    hide Keeps, Ready, ValidTokenFormat;
  }

  // -- the frame loop ----------------------------------------------------------------------------

  lemma PushedOk(evs: seq<PairEvent>, ev: PairEvent, other: End)
    requires EventsOk(evs, other) && EventOk(ev, other)
    ensures EventsOk(evs + [ev], other)
  {
    hide EventOk;
  }

  lemma PushKeeps(me: End, ev: PairEvent, other: End)
    requires Ready(me, other) && EventOk(ev, other)
    ensures Keeps(me, Kept((Push(me, ev), [])), other)
  {
    PushedOk(me.events, ev, other);
    IdleKeeps(me, Push(me, ev), other);
    hide Keeps, Ready;
  }

  lemma ReadKeeps(me: End, f: Frame, mine: bool, other: End)
    requires Ready(me, other) && FrameOk(f, other)
    ensures Keeps(me, Took((ReadFrame(me, f, mine), [])), other)
  {
    IdleKeeps(me, me.(alive := false), other);
    var ev := EventFor(me.device, f);
    if ev.Some? {
      assert EventOk(ev.value, other);
      PushKeeps(me, ev.value, other);
    }
    hide Keeps, Ready, Push, EventFor;
  }

  /** Every step of an end keeps its invariant, whatever the world answers. */
  lemma ActKeeps(h: Hash, me: End, inbox: seq<Frame>, m: Move, free: Id -> bool, mine: bool, other: End)
    requires Ready(me, other) && InboxOk(inbox, other)
    ensures Keeps(me, Act(h, me, if inbox == [] then None else Some(inbox[0]), m, free, mine), other)
  {
    IdleKeeps(me, me, other);
    if inbox != [] { assert FrameOk(inbox[0], other); }
    hide Keeps, Ready, FrameOk, InboxOk, Connect, TakeHello, FirstFrame, Refuse, Abort, Offer, Show, Select, Finish,
        ReadFrame;
    match m
    case Dial(ok) => if me.stage.Dialling? { ConnectKeeps(me, ok, other); }
    case First(gate) =>
      if inbox != [] {
        if me.stage.Waiting? { HelloKeeps(h, me, inbox[0], gate, free, other); }
        else if me.stage.Opening? && !me.responder { FirstFrameKeeps(h, me, inbox[0], other); }
      }
    case NoAnswer =>
      if me.stage.Waiting? { RefuseKeeps(me, None, other); }
      if me.stage.Opening? && !me.responder { AbortKeeps(me, UNREACHABLE, false, other); }
    case SendOffer(ok) => if me.stage.Opening? && me.responder { OfferKeeps(me, ok, other); }
    case ShowCode => if me.stage.Offered? { ShowKeeps(me, other); }
    case Turn(choice) => if me.stage.Driving? { SelectKeeps(me, choice, other); }
    case Proceed(ok) => FinishKeeps(me, ok, other);
    case Loop => if inbox != [] { ReadKeeps(me, inbox[0], mine, other); }
  }
}
