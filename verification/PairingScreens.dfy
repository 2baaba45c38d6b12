/** Whose digits a dialer shows, when another daemon may have answered on the address it dialled. */
module PairingScreens {
  import opened Common
  import opened PairingCode
  import opened PairingSpec
  import opened PairingInvariant
  import opened PairingWorld
  import opened PairingTheorems

  predicate Derived(h: Hash, e: End) { e.code == Code(h, e.owner, e.device, e.nonce) }

  predicate NoncesOk(q: seq<Frame>, from: End) {
    forall i :: 0 <= i < |q| && q[i].Required? ==> Public(from) && q[i].nonce == from.nonce
  }

  /** Every code was derived on the spot, the dialer's from the nonce of the responder that answered. */
  predicate CodesOk(h: Hash, a: Attempt) {
    && a.r.responder && !a.d.responder
    && (!Blank(a.r) ==> Derived(h, a.r))
    && (a.d.shown.Some? ==> Derived(h, a.d) && Public(a.r) && a.d.nonce == a.r.nonce)
    && NoncesOk(a.toD, a.r)
  }

  // -- one step of one end ---------------------------------------------------------------------------------

  /** What the code is derived from, and what has been shown or sent of it, stays. */
  predicate SameCode(e: End, n: End) {
    && n.owner == e.owner && n.device == e.device && n.nonce == e.nonce && n.code == e.code
    && n.responder == e.responder && (!e.responder ==> n.shown == e.shown)
    && (!Blank(n) ==> !Blank(e)) && (Public(e) ==> Public(n))
  }

  /** A responder that has read its hello. */
  predicate Met(h: Hash, e: End, n: End) {
    && e.stage.Waiting? && n.stage.Opening? && Derived(h, n) && n.responder == e.responder && n.shown == e.shown
  }

  /** A dialer that has read the nonce. */
  predicate Learnt(h: Hash, e: End, n: End, head: Option<Frame>) {
    && !e.responder && !n.responder && head.Some? && head.value.Required? && n.nonce == head.value.nonce
    && Derived(h, n)
  }

  predicate CodeStep(h: Hash, e: End, x: Effect, head: Option<Frame>) {
    && (SameCode(e, x.e) || Met(h, e, x.e) || Learnt(h, e, x.e, head))
    && NoncesOk(x.sent, x.e)
  }

  lemma FailCode(e: End, reason: Reason, notify: bool)
    requires !e.stage.Waiting? && !e.stage.Refused? && !(e.responder && e.stage.Opening?)
    ensures SameCode(e, Fail(e, reason, notify)) && SameCode(e, Abort(e, reason, notify))
  {
    hide OrDeclined;
  }

  lemma FirstCode(h: Hash, e: End, f: Frame)
    requires e.stage.Opening? && !e.responder
    ensures SameCode(e, FirstFrame(h, e, f)) || Learnt(h, e, FirstFrame(h, e, f), Some(f))
  {
    hide Code, Abort, OrDeclined, ValidNonceFormat, ValidCodeFormat, SameCode, INTERNAL, CODE_MISMATCH;
    FailCode(e, INTERNAL, true);
    FailCode(e, CODE_MISMATCH, true);
    if f.Reject? { FailCode(e, OrDeclined(f.reason), false); }
  }

  lemma RefuseCode(e: End, answer: seq<Frame>)
    requires e.stage.Waiting? && e.responder && forall i :: 0 <= i < |answer| ==> answer[i].Reject?
    ensures SameCode(e, Refuse(e, answer).0) && NoncesOk(Refuse(e, answer).1, Refuse(e, answer).0)
  {
  }

  lemma MeetCode(h: Hash, e: End, device: Id, nonce: string)
    requires e.stage.Waiting?
    ensures Met(h, e, e.(device := device, nonce := nonce, code := Code(h, e.owner, device, nonce), stage := Opening))
  {
    hide Code;
  }

  lemma HelloCode(h: Hash, e: End, f: Frame, gate: Gate, free: Id -> bool)
    requires e.stage.Waiting? && e.responder
    ensures var x := TakeHello(h, e, f, gate, free);
            (SameCode(e, x.0) || Met(h, e, x.0)) && NoncesOk(x.1, x.0)
  {
    hide Code, Refuse, SameCode, Met, INTERNAL, RATE_LIMITED, PROTOCOL_MISMATCH, BUSY;
    RefuseCode(e, []);
    RefuseCode(e, [Reject(PROTOCOL_MISMATCH)]);
    RefuseCode(e, [Reject(RATE_LIMITED)]);
    RefuseCode(e, [Reject(INTERNAL)]);
    RefuseCode(e, [Reject(BUSY)]);
    if f.Hello? && gate.Open? { MeetCode(h, e, f.id, gate.nonce); }
  }

  lemma ConnectCode(e: End, ok: bool)
    requires e.stage.Dialling? && !e.responder
    ensures SameCode(e, Connect(e, ok).0) && NoncesOk(Connect(e, ok).1, Connect(e, ok).0)
  {
    FailCode(e, UNREACHABLE, false);
    hide Abort, UNREACHABLE;
  }

  lemma OfferCode(e: End, ok: bool)
    requires e.stage.Opening? && e.responder
    ensures SameCode(e, Offer(e, ok).0) && NoncesOk(Offer(e, ok).1, Offer(e, ok).0)
  {
  }

  lemma ShowCodes(e: End)
    requires e.stage.Offered? && e.responder
    ensures SameCode(e, Show(e))
  {
  }

  lemma AfterCode(e: End, n: End, mint: Option<Token>)
    requires e.stage.Driving? && n.stage.Driving? && SameCode(e, n)
    ensures SameCode(e, AfterSelect(n, mint))
  {
    FailCode(n, INTERNAL, true);
    hide Fail, INTERNAL;
  }

  lemma AnswerCode(e: End, d: Decision, ok: bool, mint: Option<Token>)
    requires e.stage.Driving?
    ensures var x := TakeAnswer(e, d, ok, mint); SameCode(e, x.0) && NoncesOk(x.1, x.0)
  {
    hide Fail, AfterSelect, UNREACHABLE, SameCode;
    var yes := e.(localYes := true);
    SameIsSame(e);
    assert SameCode(e, yes) && SameCode(e, yes.(alive := false)) by { SaysSame(e); }
    FailCode(e, d.reason, true);
    FailCode(yes.(alive := false), UNREACHABLE, false);
    SameVia(e, yes.(alive := false), Fail(yes.(alive := false), UNREACHABLE, false));
    AfterCode(e, yes, mint);
  }

  lemma SaysSame(e: End)
    ensures SameCode(e, e.(localYes := true)) && SameCode(e, e.(localYes := true).(alive := false))
  {
  }

  lemma SameVia(e: End, m: End, n: End)
    requires SameCode(e, m) && SameCode(m, n)
    ensures SameCode(e, n)
  {
  }

  lemma RemoteCode(e: End, ev: PairEvent, mint: Option<Token>)
    requires e.stage.Driving?
    ensures SameCode(e, TakeRemote(e, ev, mint))
  {
    hide Fail, AfterSelect, INTERNAL;
    match ev
    case EvAccept => AfterCode(e, e.(remoteYes := true), mint);
    case EvReject(r) => FailCode(e, r, false);
    case EvCancelled(r) => FailCode(e, r, true);
    case EvPaired(t) => FailCode(e, INTERNAL, true);
  }

  lemma SelectCode(e: End, c: Choice)
    requires e.stage.Driving?
    ensures var x := Select(e, c); SameCode(e, x.0) && NoncesOk(x.1, x.0)
  {
    hide Fail, TakeAnswer, TakeRemote, INTERNAL, UNREACHABLE, TIMEOUT;
    match c
    case TakeDecision(ok, mint) =>
      if e.decision.Some? { AnswerCode(e.(decision := None), e.decision.value, ok, mint); }
    case TakeEvent(mint) =>
      if e.events != [] { RemoteCode(e.(events := e.events[1..]), e.events[0], mint); }
    case _ =>
      FailCode(e, INTERNAL, true);
      FailCode(e, UNREACHABLE, false);
      FailCode(e, TIMEOUT, true);
  }

  /** The actions after the outcome: the same screen, at another stage. */
  lemma FinishCode(e: End, ok: bool)
    ensures var x := Finish(e, ok); SameCode(e, x.0) && NoncesOk(x.1, x.0)
  {
    if Chosen(e) {
      FinishScreen(e, ok);
      LateFinish(e, ok, None);
      ChosenCode(e, Finish(e, ok).0);
      hide Finish, Late, Rank;
    } else {
      EarlyStays(e, ok);
      hide OrDeclined, ValidTokenFormat;
    }
  }

  lemma ChosenCode(e: End, n: End)
    requires Chosen(e) && Chosen(n) && SameDigits(e, n)
    ensures SameCode(e, n)
  {
  }

  predicate SameDigits(e: End, n: End) {
    && n.owner == e.owner && n.device == e.device && n.nonce == e.nonce && n.code == e.code
    && n.responder == e.responder && n.shown == e.shown
  }

  lemma FailScreen(e: End)
    ensures SameDigits(e, Fail(e, INTERNAL, true))
  {
    hide OrDeclined;
  }

  lemma SuccessScreen(e: End, ok: bool)
    requires e.stage.Stored? || e.stage.Announced?
    ensures SameDigits(e, Finish(e, ok).0)
  {
    hide ValidTokenFormat, Fail;
    var n := e.(paired := true, stage := Announced);
    assert e.stage.Stored? ==> Finish(e, ok).0 == n || Finish(e, ok).0 == n.(alive := false);
    assert e.stage.Announced? ==> Finish(e, ok).0 == e.(stage := Reported, results := e.results + [Success]);
  }

  lemma FailureScreen(e: End, ok: bool)
    requires e.stage.Failing? || e.stage.Closed? || e.stage.Reported?
    ensures SameDigits(e, Finish(e, ok).0)
  {
    hide ValidTokenFormat, Fail;
    match e.stage
    case Failing(r, _) => assert Finish(e, ok).0 == e.(stage := Closed(r), alive := false);
    case Closed(r) => assert Finish(e, ok).0 == e.(stage := Reported, results := e.results + [Failure(r)]);
    case Reported => assert Finish(e, ok).0 == e.(done := true);
  }

  lemma CompletingScreen(e: End, ok: bool)
    requires e.stage.Completing?
    ensures SameDigits(e, Finish(e, ok).0)
  {
    FailScreen(e);
    FailScreen(e.(stored := Some(e.stage.token), saved := false));
    hide Fail, ValidTokenFormat, INTERNAL;
  }

  lemma FinishScreen(e: End, ok: bool)
    requires Chosen(e)
    ensures SameDigits(e, Finish(e, ok).0) && NoncesOk(Finish(e, ok).1, Finish(e, ok).0)
  {
    FinishFrames(e, ok);
    if e.stage.Completing? { CompletingScreen(e, ok); }
    else if e.stage.Stored? || e.stage.Announced? { SuccessScreen(e, ok); }
    else { FailureScreen(e, ok); }
    hide Finish, SameDigits;
  }

  lemma FinishFrames(e: End, ok: bool)
    ensures forall i :: 0 <= i < |Finish(e, ok).1| ==> !Finish(e, ok).1[i].Required?
  {
    hide Fail, ValidTokenFormat;
  }

  lemma ReadCode(e: End, f: Frame, mine: bool)
    ensures SameCode(e, ReadFrame(e, f, mine))
  {
    hide EventFor;
  }

  lemma ActCode(h: Hash, e: End, head: Option<Frame>, m: Move, free: Id -> bool, mine: bool)
    requires StageOk(e)
    ensures CodeStep(h, e, Act(h, e, head, m, free, mine), head)
  {
    hide FirstFrame, TakeHello, Select, Finish, ReadFrame, Abort, Connect, Offer, Refuse, Show, SameCode, Met, Learnt;
    hide UNREACHABLE;
    SameIsSame(e);
    match m
    case First(gate) =>
      if head.Some? && e.stage.Waiting? { HelloCode(h, e, head.value, gate, free); }
      else if head.Some? && e.stage.Opening? && !e.responder { FirstCode(h, e, head.value); }
    case NoAnswer =>
      if e.stage.Waiting? { RefuseCode(e, []); }
      else if e.stage.Opening? && !e.responder { FailCode(e, UNREACHABLE, false); }
    case Dial(ok) => if e.stage.Dialling? { ConnectCode(e, ok); }
    case SendOffer(ok) => if e.stage.Opening? && e.responder { OfferCode(e, ok); }
    case ShowCode => if e.stage.Offered? { ShowCodes(e); }
    case Turn(c) => if e.stage.Driving? { SelectCode(e, c); }
    case Proceed(ok) => FinishCode(e, ok);
    case Loop => if head.Some? { ReadCode(e, head.value, mine); }
  }

  lemma SameIsSame(e: End)
    ensures SameCode(e, e)
  {
  }

  // -- one attempt, and the world ---------------------------------------------------------------------------

  lemma NoncesGrow(q: seq<Frame>, more: seq<Frame>, e: End, n: End)
    requires NoncesOk(q, e) && NoncesOk(more, n) && (Public(e) ==> Public(n) && n.nonce == e.nonce)
    ensures NoncesOk(q + more, n)
  {
    hide Public;
  }

  lemma DialerCodes(h: Hash, a: Attempt, x: Effect)
    requires CodesOk(h, a) && (x.took ==> a.toD != [])
    requires CodeStep(h, a.d, x, if a.toD == [] then None else Some(a.toD[0]))
    requires !a.d.stage.Waiting?
    ensures CodesOk(h, Apply(a, false, x))
  {
    hide Code, Public, Blank;
  }

  lemma ResponderCodes(h: Hash, a: Attempt, x: Effect, head: Option<Frame>)
    requires CodesOk(h, a) && CodeStep(h, a.r, x, head) && (x.took ==> a.toR != [])
    ensures CodesOk(h, Apply(a, true, x))
  {
    assert Public(a.r) ==> Public(x.e) && x.e.nonce == a.r.nonce;
    NoncesGrow(a.toD, x.sent, a.r, x.e);
    hide Code, NoncesOk;
  }

  lemma SwapCodes(h: Hash, a: Attempt, side: bool, n: End)
    requires CodesOk(h, a)
    requires n == EndAt(a, side).(decision := n.decision, events := n.events, alive := n.alive)
    ensures CodesOk(h, SetEnd(a, side, n))
  {
    hide Code;
  }

  lemma DiedCodes(h: Hash, a: Attempt, side: bool, keep: nat)
    requires CodesOk(h, a)
    ensures CodesOk(h, Died(a, side, keep))
  {
    hide Code;
  }

  lemma BornCodes(h: Hash, owner: Id, device: Id, answering: Id)
    ensures CodesOk(h, Attempt(NewDialer(owner, device), NewResponder(answering), [], []))
    ensures CodesOk(h, Attempt(TokenDialer(owner, device), NewResponder(answering), [Hello(owner)], []))
  {
    hide Code;
  }

  lemma MovedCodes(h: Hash, w: World, i: nat, side: bool, m: Move)
    requires WorldInv(w) && i < |w.attempts| && CodesOk(h, w.attempts[i])
    ensures CodesOk(h, Moved(h, w, i, side, m).attempts[i])
  {
    var a := w.attempts[i];
    var e, inbox := EndAt(a, side), InboxAt(a, side);
    var head := if inbox == [] then None else Some(inbox[0]);
    var x := StepEffect(h, w, i, side, m);
    assert StageOk(e) && !a.d.stage.Waiting? by { StagesOk(w, i, side); }
    ActCode(h, e, head, m, x => (e.owner, x) !in w.pending, PendingAt(w, KeyOf(e)) == Some((i, side)));
    hide Act, WorldInv, CodesOk, CodeStep, StageOk;
    if side { ResponderCodes(h, a, x, head); } else { DialerCodes(h, a, x); }
    hide PendingAfter, TrustAfter, Apply;
  }

  lemma StagesOk(w: World, i: nat, side: bool)
    requires WorldInv(w) && i < |w.attempts|
    ensures StageOk(EndAt(w.attempts[i], side)) && !w.attempts[i].d.stage.Waiting?
  {
    ReadyAt(w.attempts[i], side);
    ReadyAt(w.attempts[i], false);
    hide InboxOk, EventsOk, ResultOk, StoreOk, ConsentOk, ScreenOk, BeliefOk, PendingInv, TrustInv;
  }

  ghost predicate AllCodesOk(h: Hash, w: World) { forall i :: 0 <= i < |w.attempts| ==> CodesOk(h, w.attempts[i]) }

  lemma NextCodes(h: Hash, w: World, ev: Event)
    requires WorldInv(w) && AllCodesOk(h, w)
    ensures AllCodesOk(h, Next(h, w, ev))
  {
    hide CodesOk, WorldInv, Moved, Died, Answer, Push, DECLINED;
    match ev
    case StartPairing(o, x, answering) => BornCodes(h, o, x, answering);
    case TokenDial(o, x, answering) => BornCodes(h, o, x, answering);
    case Step(i, side, m) =>
      if i < |w.attempts| {
        MovedCodes(h, w, i, side, m);
        OthersStay(h, w, i, side, m);
      }
    case Confirm(o, x, d) => BuffersCodes(h, w, (o, x), d);
    case Cancel(o, x) => BuffersCodes(h, w, (o, x), Decision(true, ""));
    case Remove(o, x) =>
    case Die(i, side, keep) => if i < |w.attempts| { DiedCodes(h, w.attempts[i], side, keep); }
  }

  lemma BuffersCodes(h: Hash, w: World, k: Key, d: Decision)
    requires AllCodesOk(h, w)
    ensures AllCodesOk(h, Confirmed(w, k, d)) && AllCodesOk(h, Cancelled(w, k))
  {
    if k in w.pending && w.pending[k].0 < |w.attempts| {
      var p := w.pending[k];
      var e := EndAt(w.attempts[p.0], p.1);
      SwapCodes(h, w.attempts[p.0], p.1, Answer(e, d).0);
      SwapCodes(h, w.attempts[p.0], p.1, Push(e, EvCancelled(DECLINED)));
    }
    hide CodesOk, DECLINED;
  }

  lemma OthersStay(h: Hash, w: World, i: nat, side: bool, m: Move)
    requires i < |w.attempts|
    ensures var v := Moved(h, w, i, side, m);
            |v.attempts| == |w.attempts|
            && forall j :: 0 <= j < |w.attempts| && j != i ==> v.attempts[j] == w.attempts[j]
  {
    hide Act, PendingAfter, TrustAfter;
  }

  lemma {:induction false} RunCodes(h: Hash, evs: seq<Event>)
    ensures AllCodesOk(h, Run(h, evs))
  {
    if evs != [] {
      RunCodes(h, evs[..|evs| - 1]);
      RunKeeps(h, evs[..|evs| - 1]);
      NextCodes(h, Run(h, evs[..|evs| - 1]), evs[|evs| - 1]);
      hide WorldInv, Next, AllCodesOk;
    }
  }

  /** The digits of two devices, on one nonce, happen to be the same. */
  predicate Collide(h: Hash, id: Id, one: Id, other: Id, nonce: string) {
    one != other && Code(h, id, one, nonce) == Code(h, id, other, nonce)
  }

  /**
   * Whenever a dialer shows a code, the daemon that answered is the device that was dialled, or the digits derived for
   * the two on the very nonce in use are the same.
   */
  lemma ShownIsDialled(h: Hash, evs: seq<Event>, i: nat)
    requires i < |Run(h, evs).attempts|
    ensures var a := AttemptOf(h, evs, i);
            a.d.shown.Some? ==>
              a.r.device == a.d.owner && a.r.nonce == a.d.nonce
              && (a.d.device == a.r.owner || Collide(h, a.d.owner, a.d.device, a.r.owner, a.d.nonce))
  {
    InvOf(h, evs, i);
    RunCodes(h, evs);
    hide Run, Agrees;
    if AttemptOf(h, evs, i).d.shown.Some? { ScreenOfDialler(h, AttemptOf(h, evs, i)); }
    hide AttemptInv, CodesOk, Code;
  }

  lemma ScreenOfDialler(h: Hash, a: Attempt)
    requires AttemptInv(a) && CodesOk(h, a) && a.d.shown.Some?
    ensures a.r.device == a.d.owner && a.r.nonce == a.d.nonce
    ensures a.d.device == a.r.owner || Collide(h, a.d.owner, a.d.device, a.r.owner, a.d.nonce)
  {
    CodeSymmetric(h, a.r.owner, a.r.device, a.r.nonce);
    hide Code, InboxOk, EventsOk, NoncesOk, ResultOk, StoreOk, ConsentOk, StageOk, ValidCodeFormat, ValidTokenFormat;
  }

  /**
   * So a token the dialer stored is filed by both daemons under each other's id, the dialer's under the very device its
   * human picked, but for a collision.
   */
  lemma TokensAreMutual(h: Hash, evs: seq<Event>, i: nat)
    requires i < |Run(h, evs).attempts|
    ensures var a := AttemptOf(h, evs, i);
            a.d.stored.Some? ==>
              a.r.stored == a.d.stored
              && (KeyOf(a.r) == (a.d.device, a.d.owner)
                  || Collide(h, a.d.owner, a.d.device, a.r.owner, a.d.nonce))
  {
    TokenAgreement(h, evs, i);
    NoTrustNoScreen(h, evs, i);
    ShownIsDialled(h, evs, i);
    hide AttemptOf, Run, Collide, ValidTokenFormat;
  }

  lemma NoTrustNoScreen(h: Hash, evs: seq<Event>, i: nat)
    requires i < |Run(h, evs).attempts|
    ensures AttemptOf(h, evs, i).d.stored.Some? ==> AttemptOf(h, evs, i).d.shown.Some?
  {
    InvOf(h, evs, i);
    hide AttemptOf, Run, Agrees, ValidTokenFormat, ValidCodeFormat;
  }
}
