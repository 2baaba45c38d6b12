/**
 * Forgetting a device whose pairing is in flight. The order to stop waits its turn, or finds no room, or comes when
 * nobody listens any more: exactly when a token can still go into the store after it, for every pairing there is.
 */
module PairingForget {
  import opened Common
  import opened PairingCode
  import opened PairingSpec
  import opened PairingInvariant
  import opened PairingWorld
  import opened PairingTheorems
  import opened PairingAnswers

  // -- all that can happen to an end ---------------------------------------------------------------------

  /** A step of its own, whoever is at the far end; an answer; an order to stop; or its socket dies. */
  datatype Happening = Moves(x: Input) | Human(d: Decision) | Told | Dies

  function After(h: Hash, e: End, t: Happening): End {
    match t
    case Moves(x) => Act(h, e, x.head, x.m, x.free, x.mine).e
    case Human(d) => Answer(e, d).0
    case Told => Stopped(e)
    case Dies => e.(alive := false)
  }

  function AfterAll(h: Hash, e: End, ts: seq<Happening>): End
    decreases |ts|
  {
    if ts == [] then e else AfterAll(h, After(h, e, ts[0]), ts[1..])
  }

  lemma AfterFirst(h: Hash, e: End, t: Happening, rest: seq<Happening>)
    ensures AfterAll(h, e, [t] + rest) == AfterAll(h, After(h, e, t), rest)
  {
    assert ([t] + rest)[0] == t && ([t] + rest)[1..] == rest;
    hide After;
  }

  /** A token can still go into the store, in some order of all that can happen. */
  ghost predicate MayStore(h: Hash, e: End) {
    exists ts :: AfterAll(h, e, ts).stored != e.stored
  }

  /** What Forget does to the driver before it takes the device out of the store. */
  function Stopped(e: End): End { Push(e, EvCancelled(DECLINED)) }

  predicate AllAccepts(evs: seq<PairEvent>) { evs == [] || (evs[0].EvAccept? && AllAccepts(evs[1..])) }

  /** A usable token comes before anything that ends the pairing. */
  predicate TokenAhead(evs: seq<PairEvent>) {
    evs != []
    && match evs[0]
       case EvAccept => TokenAhead(evs[1..])
       case EvPaired(t) => ValidTokenFormat(t)
       case _ => false
  }

  /** Something that ends the pairing without a token comes first. */
  predicate EndAhead(evs: seq<PairEvent>) {
    evs != []
    && match evs[0]
       case EvAccept => EndAhead(evs[1..])
       case EvPaired(t) => !ValidTokenFormat(t)
       case _ => true
  }

  /** This side has accepted, or its human still can. */
  predicate CanSayYes(e: End) { e.localYes || (e.alive && (e.decision.None? || e.decision.value.accept)) }

  /** The far side's accept is the next thing the driver reads. */
  predicate AcceptFirst(evs: seq<PairEvent>) { evs != [] && evs[0].EvAccept? }

  /**
   * What an end in its select must have in hand for a token to be stored although it is told to stop. A responder needs
   * its own human and, unless it has it, the far side's accept next in the buffer; a dialer its human and the token
   * before anything that ends it, or a buffer so full of accepts that the order to stop is dropped.
   */
  predicate InHand(e: End) {
    if e.responder then
      if e.localYes then AcceptFirst(e.events) else CanSayYes(e) && (e.remoteYes || AcceptFirst(e.events))
    else CanSayYes(e) && (TokenAhead(e.events) || (|e.events| >= EVENT_CAPACITY && AllAccepts(e.events)))
  }

  /** And at every other stage: a token agreed and not yet stored is enough, and nothing else is. */
  predicate StillStores(e: End) {
    match e.stage
    case Driving => InHand(e)
    case Completing(t) => ValidTokenFormat(t)
    case _ => false
  }

  // -- what reachable ends look like ---------------------------------------------------------------------

  predicate OnlyCancels(evs: seq<PairEvent>) { forall k :: 0 <= k < |evs| ==> evs[k].EvCancelled? }

  /** The buffer keeps its capacity; before the driver starts nobody but Forget has written to it. */
  predicate BufferOk(e: End) {
    && |e.events| <= EVENT_CAPACITY
    && (Early(e.stage) ==> OnlyCancels(e.events) && !e.remoteYes)
    && (Early(e.stage) || e.stage.Driving? ==> !e.paired)
  }

  lemma CancelsOnly(evs: seq<PairEvent>, r: Reason)
    requires OnlyCancels(evs)
    ensures OnlyCancels(evs + [EvCancelled(r)])
  {
  }

  lemma StoppedBuffer(e: End)
    requires BufferOk(e)
    ensures BufferOk(Stopped(e))
  {
    if |e.events| < EVENT_CAPACITY && Early(e.stage) { CancelsOnly(e.events, DECLINED); }
    hide OnlyCancels, DECLINED;
  }

  /** What the stages before the driver starts leave alone. */
  predicate SameBuffers(e: End, n: End) {
    n.events == e.events && n.remoteYes == e.remoteYes && n.paired == e.paired && n.stored == e.stored
  }

  lemma FailSame(e: End, reason: Reason, notify: bool)
    ensures SameBuffers(e, Fail(e, reason, notify)) && Fail(e, reason, notify).stage.Failing?
    ensures SameBuffers(e, Abort(e, reason, notify)) && Abort(e, reason, notify).stage.Failing?
  {
    hide OrDeclined;
  }

  lemma ShownSame(e: End, nonce: string, code: string)
    ensures SameBuffers(e, e.(nonce := nonce, code := code, shown := Some(code), stage := Driving))
    ensures SameBuffers(e, Show(e))
  {
  }

  lemma FirstSame(h: Hash, e: End, f: Frame)
    ensures var n := FirstFrame(h, e, f);
            SameBuffers(e, n) && (n.stage.Failing? || (n.stage.Driving? && n.responder == e.responder))
  {
    hide Code, ValidNonceFormat, ValidCodeFormat, Abort, OrDeclined, SameBuffers, INTERNAL, CODE_MISMATCH;
    FailSame(e, INTERNAL, true);
    FailSame(e, CODE_MISMATCH, true);
    if f.Reject? {
      FailSame(e, OrDeclined(f.reason), false);
    } else if f.Required? {
      ShownSame(e, f.nonce, Code(h, e.owner, e.device, f.nonce));
    }
  }

  lemma RefuseSame(e: End, answer: seq<Frame>)
    ensures SameBuffers(e, Refuse(e, answer).0) && Refuse(e, answer).0.shown == e.shown
  {
  }

  lemma BornSame(e: End, device: Id, nonce: string, code: string)
    ensures var n := e.(device := device, nonce := nonce, code := code, stage := Opening);
            SameBuffers(e, n) && n.shown == e.shown
  {
  }

  lemma HelloSame(h: Hash, e: End, f: Frame, gate: Gate, free: Id -> bool)
    ensures var n := TakeHello(h, e, f, gate, free).0;
            SameBuffers(e, n) && n.shown == e.shown && (n.stage.Refused? || n.stage.Opening?)
  {
    hide Code, Refuse, SameBuffers, INTERNAL, RATE_LIMITED, PROTOCOL_MISMATCH, BUSY;
    RefuseSame(e, []);
    RefuseSame(e, [Reject(PROTOCOL_MISMATCH)]);
    RefuseSame(e, [Reject(RATE_LIMITED)]);
    RefuseSame(e, [Reject(INTERNAL)]);
    RefuseSame(e, [Reject(BUSY)]);
    if f.Hello? && gate.Open? { BornSame(e, f.id, gate.nonce, Code(h, e.owner, f.id, gate.nonce)); }
  }

  lemma OfferSame(e: End, ok: bool)
    ensures var n := Offer(e, ok).0;
            SameBuffers(e, n) && n.shown == e.shown && (n.stage.Refused? || n.stage.Offered?)
  {
  }

  lemma ConnectSame(e: End, ok: bool)
    ensures var n := Connect(e, ok).0;
            SameBuffers(e, n) && n.shown == e.shown && (n.stage.Failing? || n.stage.Opening?)
  {
    FailSame(e, UNREACHABLE, false);
    AbortShown(e);
    hide Abort, UNREACHABLE;
  }

  lemma AbortShown(e: End)
    ensures Abort(e, UNREACHABLE, false).shown == e.shown
  {
    hide OrDeclined;
  }

  /** A step before the driver starts: on to a later such stage, to a failure, or into the select. */
  lemma EarlyMoves(h: Hash, e: End, x: Input)
    requires Early(e.stage) && e.shown.None?
    ensures var n := Act(h, e, x.head, x.m, x.free, x.mine).e;
            && SameBuffers(e, n)
            && ((Early(n.stage) && n.shown.None?) || n.stage.Failing?
                || (n.stage.Driving? && n.responder == e.responder))
  {
    hide FirstFrame, TakeHello, Select, Finish, ReadFrame, Abort, Connect, Offer, Refuse, Show, SameBuffers;
    hide UNREACHABLE;
    EarlySame(e);
    match x.m
    case First(gate) =>
      if x.head.Some? {
        FirstSame(h, e, x.head.value);
        HelloSame(h, e, x.head.value, gate, x.free);
      }
    case NoAnswer =>
      FailSame(e, UNREACHABLE, false);
      RefuseSame(e, []);
    case Dial(ok) => ConnectSame(e, ok);
    case SendOffer(ok) => OfferSame(e, ok);
    case Proceed(ok) => EarlyStays(e, ok);
    case _ =>
  }

  lemma EarlySame(e: End)
    ensures SameBuffers(e, e) && SameBuffers(e, Show(e))
    ensures Show(e).stage.Driving? && Show(e).responder == e.responder
  {
  }

  /** What every arm of the select leaves alone. */
  predicate SameRest(e: End, n: End) { |n.events| <= |e.events| && n.paired == e.paired && !Early(n.stage) }

  lemma FailRest(e: End, reason: Reason, notify: bool)
    ensures SameRest(e, Fail(e, reason, notify))
  {
    hide OrDeclined;
  }

  lemma AfterRest(e: End, mint: Option<Token>)
    requires e.stage.Driving?
    ensures SameRest(e, AfterSelect(e, mint))
  {
    FailRest(e, INTERNAL, true);
    hide Fail, INTERNAL;
  }

  lemma AnswerRest(e: End, d: Decision, ok: bool, mint: Option<Token>)
    requires e.stage.Driving?
    ensures SameRest(e, TakeAnswer(e, d, ok, mint).0)
  {
    var yes := e.(localYes := true);
    FailRest(e, d.reason, true);
    FailRest(yes.(alive := false), UNREACHABLE, false);
    AfterRest(yes, mint);
    hide Fail, AfterSelect, UNREACHABLE;
  }

  lemma RemoteRest(e: End, ev: PairEvent, mint: Option<Token>)
    requires e.stage.Driving?
    ensures SameRest(e, TakeRemote(e, ev, mint))
  {
    hide Fail, AfterSelect, INTERNAL;
    match ev
    case EvAccept => AfterRest(e.(remoteYes := true), mint);
    case EvReject(r) => FailRest(e, r, false);
    case EvCancelled(r) => FailRest(e, r, true);
    case EvPaired(t) => FailRest(e, INTERNAL, true);
  }

  lemma SelectRest(e: End, c: Choice)
    requires e.stage.Driving?
    ensures SameRest(e, Select(e, c).0)
  {
    hide Fail, TakeAnswer, TakeRemote, INTERNAL, UNREACHABLE, TIMEOUT;
    match c
    case TakeDecision(ok, mint) =>
      if e.decision.Some? { AnswerRest(e.(decision := None), e.decision.value, ok, mint); }
    case TakeEvent(mint) =>
      if e.events != [] { RemoteRest(e.(events := e.events[1..]), e.events[0], mint); }
    case _ =>
      FailRest(e, INTERNAL, true);
      FailRest(e, UNREACHABLE, false);
      FailRest(e, TIMEOUT, true);
  }

  lemma ReadBuffer(e: End, f: Frame, mine: bool)
    requires |e.events| <= EVENT_CAPACITY
    ensures var n := ReadFrame(e, f, mine);
            |n.events| <= EVENT_CAPACITY && n.paired == e.paired && n.stage == e.stage
  {
    hide EventFor;
  }

  /** The actions after the outcome leave the buffer alone, and only the first of a success writes to the store. */
  predicate ActionOk(e: End, n: End) {
    n.events == e.events && (!e.stage.Completing? ==> n.stored == e.stored && !n.stage.Completing?)
  }

  lemma CompletingAction(e: End, ok: bool)
    requires e.stage.Completing?
    ensures ActionOk(e, Finish(e, ok).0)
  {
    FailSame(e, INTERNAL, true);
    FailSame(e.(stored := Some(e.stage.token), saved := false), INTERNAL, true);
    hide Fail, ValidTokenFormat, INTERNAL;
  }

  lemma SuccessAction(e: End, ok: bool)
    requires e.stage.Stored? || e.stage.Announced?
    ensures ActionOk(e, Finish(e, ok).0)
  {
    hide ValidTokenFormat, Fail;
    var n := e.(paired := true, stage := Announced);
    assert e.stage.Stored? ==> Finish(e, ok).0 == n || Finish(e, ok).0 == n.(alive := false);
    assert e.stage.Announced? ==> Finish(e, ok).0 == e.(stage := Reported, results := e.results + [Success]);
  }

  lemma FailureAction(e: End, ok: bool)
    requires e.stage.Failing? || e.stage.Closed? || e.stage.Reported?
    ensures var n := Finish(e, ok).0; ActionOk(e, n) && (n.stage.Closed? || n.stage.Reported?)
  {
    hide ValidTokenFormat, Fail;
    match e.stage
    case Failing(r, _) => assert Finish(e, ok).0 == e.(stage := Closed(r), alive := false);
    case Closed(r) => assert Finish(e, ok).0 == e.(stage := Reported, results := e.results + [Failure(r)]);
    case Reported => assert Finish(e, ok).0 == e.(done := true);
  }

  lemma Actions(e: End, ok: bool)
    requires Chosen(e)
    ensures ActionOk(e, Finish(e, ok).0)
  {
    if e.stage.Completing? { CompletingAction(e, ok); }
    else if e.stage.Stored? || e.stage.Announced? { SuccessAction(e, ok); }
    else { FailureAction(e, ok); }
    hide Finish, ActionOk;
  }

  lemma MovesBuffer(h: Hash, e: End, x: Input)
    requires ScreenOk(e) && BufferOk(e)
    ensures BufferOk(Act(h, e, x.head, x.m, x.free, x.mine).e)
  {
    if Early(e.stage) {
      EarlyMoves(h, e, x);
      hide Act, OnlyCancels;
    } else {
      if e.stage.Driving? { DrivingMoves(h, e, x); } else { OnlyTheRest(h, e, x); }
      hide Act, Select, Finish, ReadFrame, OnlyCancels, ScreenOk;
      match x.m
      case Turn(c) => if e.stage.Driving? { SelectRest(e, c); }
      case Loop => if x.head.Some? { ReadBuffer(e, x.head.value, x.mine); }
      case Proceed(ok) => if Chosen(e) { LateFinish(e, ok, None); Actions(e, ok); }
      case _ =>
    }
  }

  lemma BufferKept(h: Hash, e: End, t: Happening)
    requires EndInv(e) && BufferOk(e)
    ensures BufferOk(After(h, e, t))
  {
    match t
    case Moves(x) => MovesBuffer(h, e, x); hide Act, BufferOk;
    case Told => StoppedBuffer(e); hide Stopped, BufferOk;
    case _ => hide OnlyCancels;
  }

  // -- why nothing else stores ---------------------------------------------------------------------------

  /** In its select, with nothing left that could agree on a token. */
  predicate Blocked(e: End) {
    || (!e.localYes && (!e.alive || (e.decision.Some? && !e.decision.value.accept)))
    || (e.responder && (e.localYes || !e.remoteYes) && e.events != [] && !e.events[0].EvAccept?)
    || (!e.responder && EndAhead(e.events))
  }

  /** Not yet in its select, with the order to stop waiting there. */
  predicate Halted(e: End) {
    Early(e.stage) && e.shown.None? && !e.remoteYes && e.events != [] && OnlyCancels(e.events)
  }

  /** On the way to a failure. */
  predicate Lost(e: End) {
    e.stored.None? && (e.stage.Failing? || e.stage.Closed? || e.stage.Reported?
        || (e.stage.Completing? && !ValidTokenFormat(e.stage.token)))
  }

  predicate Hopeless(e: End) {
    e.stored.None? && (Lost(e) || Halted(e) || (e.stage.Driving? && Blocked(e)))
  }

  lemma {:induction false} EndStaysAhead(evs: seq<PairEvent>, ev: PairEvent)
    requires EndAhead(evs)
    ensures EndAhead(evs + [ev])
  {
    assert (evs + [ev])[0] == evs[0] && (evs + [ev])[1..] == evs[1..] + [ev];
    if evs[0].EvAccept? { EndStaysAhead(evs[1..], ev); }
    hide ValidTokenFormat;
  }

  lemma {:induction false} StopComesLast(evs: seq<PairEvent>, r: Reason)
    requires AllAccepts(evs)
    ensures EndAhead(evs + [EvCancelled(r)])
  {
    if evs != [] {
      assert (evs + [EvCancelled(r)])[1..] == evs[1..] + [EvCancelled(r)];
      StopComesLast(evs[1..], r);
    }
    hide ValidTokenFormat;
  }

  lemma {:induction false} OneOfThree(evs: seq<PairEvent>)
    ensures TokenAhead(evs) || EndAhead(evs) || AllAccepts(evs)
  {
    if evs != [] && evs[0].EvAccept? { OneOfThree(evs[1..]); }
    hide ValidTokenFormat;
  }

  lemma StoppedIsBlocked(e: End)
    requires e.stage.Driving? && e.stored.None? && !InHand(e)
    ensures Blocked(Stopped(e))
  {
    hide ValidTokenFormat, EndAhead, TokenAhead, AllAccepts, DECLINED;
    var n := Stopped(e);
    var stop := EvCancelled(DECLINED);
    assert n == e.(events := if |e.events| < EVENT_CAPACITY then e.events + [stop] else e.events);
    hide Push, Stopped;
    if e.responder {
      assert n.events != [] && (e.events != [] ==> n.events[0] == e.events[0]);
    } else if !TokenAhead(e.events) {
      StopInside(e.events);
    }
  }

  lemma StopInside(evs: seq<PairEvent>)
    requires !TokenAhead(evs)
    ensures EndAhead(evs + [EvCancelled(DECLINED)])
    ensures EndAhead(evs) || AllAccepts(evs)
  {
    hide EndAhead, TokenAhead, AllAccepts;
    OneOfThree(evs);
    if EndAhead(evs) { EndStaysAhead(evs, EvCancelled(DECLINED)); } else { StopComesLast(evs, DECLINED); }
  }

  lemma FailLost(e: End, reason: Reason, notify: bool)
    requires e.stored.None?
    ensures Hopeless(Fail(e, reason, notify))
  {
    hide OrDeclined, ValidTokenFormat;
  }

  lemma BlockedDecision(e: End, ok: bool, mint: Option<Token>)
    requires e.stage.Driving? && e.stored.None? && Blocked(e)
    ensures Hopeless(Select(e, TakeDecision(ok, mint)).0)
  {
    hide ValidTokenFormat, Fail, TakeRemote, EndAhead;
    if e.decision.Some? {
      var m, d := e.(decision := None), e.decision.value;
      FailLost(m, d.reason, true);
      FailLost(m.(localYes := true, alive := false), UNREACHABLE, false);
      if d.accept && !e.localYes && e.alive && ok { YesBlocked(m, mint); }
      assert d.accept && e.localYes ==> Blocked(m);
    }
  }

  lemma YesBlocked(e: End, mint: Option<Token>)
    requires e.stage.Driving? && e.stored.None? && !e.localYes && e.alive && e.decision.None? && Blocked(e)
    ensures Hopeless(AfterSelect(e.(localYes := true), mint))
  {
    hide ValidTokenFormat, Fail, EndAhead;
    FailLost(e.(localYes := true), INTERNAL, true);
  }

  lemma BlockedEvent(e: End, mint: Option<Token>)
    requires e.stage.Driving? && e.stored.None? && Blocked(e)
    ensures Hopeless(Select(e, TakeEvent(mint)).0)
  {
    hide Fail, TakeAnswer;
    if e.events != [] {
      var m, ev := e.(events := e.events[1..]), e.events[0];
      match ev
      case EvAccept => AcceptBlocked(e, mint); hide AfterSelect, ValidTokenFormat, Blocked;
      case EvReject(r) => FailLost(m, r, false); hide ValidTokenFormat, Hopeless;
      case EvCancelled(r) => FailLost(m, r, true); hide ValidTokenFormat, Hopeless;
      case EvPaired(t) => FailLost(m, INTERNAL, true); hide ValidTokenFormat;
    }
  }

  lemma AcceptBlocked(e: End, mint: Option<Token>)
    requires e.stage.Driving? && e.stored.None? && Blocked(e) && e.events != [] && e.events[0].EvAccept?
    ensures Hopeless(AfterSelect(e.(events := e.events[1..], remoteYes := true), mint))
  {
    hide ValidTokenFormat, Fail;
    FailLost(e.(events := e.events[1..], remoteYes := true), INTERNAL, true);
  }

  lemma BlockedArm(e: End, c: Choice)
    requires e.stage.Driving? && e.stored.None? && Blocked(e)
    ensures Hopeless(Select(e, c).0)
  {
    hide Fail, TakeAnswer, TakeRemote, Blocked, ValidTokenFormat;
    match c
    case TakeDecision(ok, mint) => BlockedDecision(e, ok, mint); hide Select, Hopeless;
    case TakeEvent(mint) => BlockedEvent(e, mint); hide Select, Hopeless;
    case ContextDone => FailLost(e, INTERNAL, true); hide Hopeless;
    case SocketDone => FailLost(e, UNREACHABLE, false);
    case TimerFired => FailLost(e, TIMEOUT, true); hide Hopeless;
  }

  lemma LostFinish(e: End, ok: bool)
    requires Lost(e)
    ensures Lost(Finish(e, ok).0)
  {
    hide ValidTokenFormat, Fail;
    if e.stage.Completing? {
      FailLost(e, INTERNAL, true);
      assert Finish(e, ok).0 == Fail(e, INTERNAL, true);
      FailStage(e);
    } else {
      LostMovesOn(e, ok);
    }
    hide Finish;
  }

  lemma FailStage(e: End)
    ensures Fail(e, INTERNAL, true).stage.Failing? && Fail(e, INTERNAL, true).stored == e.stored
  {
    hide OrDeclined;
  }

  lemma LostMovesOn(e: End, ok: bool)
    requires Lost(e) && !e.stage.Completing?
    ensures Lost(Finish(e, ok).0)
  {
    FailureAction(e, ok);
    hide ValidTokenFormat, Finish;
  }

  lemma DeadStaysHopeless(e: End)
    requires Hopeless(e)
    ensures Hopeless(e.(alive := false))
  {
    hide EndAhead, ValidTokenFormat, OnlyCancels;
  }

  lemma PushStaysBlocked(e: End, ev: PairEvent)
    requires Blocked(e)
    ensures Blocked(Push(e, ev))
  {
    hide EndAhead;
    if EndAhead(e.events) { EndStaysAhead(e.events, ev); }
  }

  lemma PushKeeps(e: End, ev: PairEvent)
    ensures Push(e, ev).stage == e.stage && Push(e, ev).stored == e.stored
  {
  }

  lemma ReadStaysBlocked(e: End, f: Frame, mine: bool)
    requires e.stage.Driving? && e.stored.None? && Blocked(e)
    ensures Hopeless(ReadFrame(e, f, mine))
  {
    hide Blocked, EventFor, Push, Lost, Halted;
    var ev := EventFor(e.device, f);
    if e.paired || !mine || ev.None? {
      DeadStaysHopeless(e);
      assert ReadFrame(e, f, mine) == e.(alive := false);
    } else {
      PushStaysBlocked(e, ev.value);
      PushKeeps(e, ev.value);
      assert ReadFrame(e, f, mine) == Push(e, ev.value);
    }
  }

  lemma BlockedMoves(h: Hash, e: End, x: Input)
    requires e.stage.Driving? && e.stored.None? && Blocked(e)
    ensures Hopeless(Act(h, e, x.head, x.m, x.free, x.mine).e)
  {
    DrivingMoves(h, e, x);
    assert Hopeless(e);
    hide Act, Select, ReadFrame, Blocked, Hopeless;
    match x.m
    case Turn(c) => BlockedArm(e, c);
    case Loop => if x.head.Some? { ReadStaysBlocked(e, x.head.value, x.mine); }
    case _ =>
  }

  lemma CancelsEnd(evs: seq<PairEvent>)
    requires OnlyCancels(evs) && evs != []
    ensures EndAhead(evs) && !evs[0].EvAccept?
  {
  }

  /** When the driver starts, the order to stop is the first thing it reads. */
  lemma HaltedMoves(h: Hash, e: End, x: Input)
    requires Halted(e) && e.stored.None?
    ensures Hopeless(Act(h, e, x.head, x.m, x.free, x.mine).e)
  {
    EarlyMoves(h, e, x);
    CancelsEnd(e.events);
    hide Act, OnlyCancels, EndAhead, ValidTokenFormat;
  }

  lemma LostMoves(h: Hash, e: End, x: Input)
    requires Lost(e)
    ensures Lost(Act(h, e, x.head, x.m, x.free, x.mine).e)
  {
    LostIsChosen(e);
    OnlyTheRest(h, e, x);
    hide Act, Finish, ReadFrame, Lost;
    match x.m
    case Proceed(ok) => LostFinish(e, ok);
    case Loop =>
      if x.head.Some? {
        ReadSame(e, x.head.value, x.mine);
        ReadKeepsStored(e, x.head.value, x.mine);
        SameStageLost(e, ReadFrame(e, x.head.value, x.mine));
      }
    case _ =>
  }

  lemma LostIsChosen(e: End)
    requires Lost(e)
    ensures Chosen(e)
  {
  }

  lemma ReadKeepsStored(e: End, f: Frame, mine: bool)
    ensures ReadFrame(e, f, mine).stored == e.stored
  {
    hide EventFor;
  }

  lemma SameStageLost(e: End, n: End)
    requires Lost(e) && n.stage == e.stage && n.stored == e.stored
    ensures Lost(n)
  {
    hide ValidTokenFormat;
  }

  lemma StoppedStaysHopeless(e: End)
    requires Hopeless(e)
    ensures Hopeless(Stopped(e))
  {
    var n := Stopped(e);
    assert n.stage == e.stage && n.stored == e.stored && n.shown == e.shown && n.remoteYes == e.remoteYes;
    assert n.events == e.events || n.events == e.events + [EvCancelled(DECLINED)];
    if Halted(e) {
      CancelsOnly(e.events, DECLINED);
    } else if Lost(e) {
      SameStageLost(e, n);
    } else {
      PushStaysBlocked(e, EvCancelled(DECLINED));
    }
    hide Stopped, Push, OnlyCancels, Blocked, Lost, DECLINED;
  }

  lemma AnsweredStaysHopeless(e: End, d: Decision)
    requires Hopeless(e)
    ensures Hopeless(Answer(e, d).0)
  {
    HumanOrNot(e, d);
    hide ValidTokenFormat, OnlyCancels, Answer, EndAhead;
  }

  lemma HumanOrNot(e: End, d: Decision)
    ensures Answer(e, d).0 == e || Answer(e, d).0 == e.(decision := Some(d))
    ensures Blocked(e) ==> Blocked(Answer(e, d).0)
  {
    hide EndAhead;
  }

  lemma HopelessAfter(h: Hash, e: End, t: Happening)
    requires Hopeless(e)
    ensures Hopeless(After(h, e, t))
  {
    match t
    case Moves(x) =>
      if Lost(e) { LostMoves(h, e, x); } else if Halted(e) { HaltedMoves(h, e, x); } else { BlockedMoves(h, e, x); }
      hide Act, Lost, Halted, Blocked;
    case Human(d) => AnsweredStaysHopeless(e, d); hide Hopeless, Answer;
    case Told => StoppedStaysHopeless(e); hide Hopeless, Stopped;
    case Dies => DeadStaysHopeless(e); hide Hopeless;
  }

  /** Told to stop before it has what it takes, an end cannot store a token any more. */
  lemma StoppedIsHopeless(e: End)
    requires EndInv(e) && BufferOk(e) && !e.done && e.stored.None? && !StillStores(e)
    ensures Hopeless(Stopped(e))
  {
    var n := Stopped(e);
    assert n.stage == e.stage && n.stored == e.stored && n.shown == e.shown && n.remoteYes == e.remoteYes;
    if e.stage.Driving? {
      StoppedIsBlocked(e);
      hide Stopped, Blocked, InHand, EndInv;
    } else if Early(e.stage) {
      StoppedBuffer(e);
      StoppedHasMore(e);
      hide Stopped, OnlyCancels, ConsentOk, ResultOk, StoreOk, StageOk;
    } else {
      hide Stopped, OnlyCancels, ConsentOk, ScreenOk, StageOk, ValidTokenFormat;
    }
  }

  lemma StoppedHasMore(e: End)
    ensures Stopped(e).events != []
  {
  }

  // -- nor does what is stored already -------------------------------------------------------------------

  /** Past the one action that writes to the store. */
  predicate Past(e: End) { Chosen(e) && !e.stage.Completing? }

  lemma PastMoves(h: Hash, e: End, x: Input)
    requires Past(e)
    ensures var n := Act(h, e, x.head, x.m, x.free, x.mine).e; Past(n) && n.stored == e.stored
  {
    OnlyTheRest(h, e, x);
    hide Act, Finish, ReadFrame;
    match x.m
    case Proceed(ok) => LateFinish(e, ok, None); Actions(e, ok);
    case Loop =>
      if x.head.Some? {
        ReadSame(e, x.head.value, x.mine);
        ReadKeepsStored(e, x.head.value, x.mine);
      }
    case _ =>
  }

  lemma PastAfter(h: Hash, e: End, t: Happening)
    requires Past(e)
    ensures var n := After(h, e, t); Past(n) && n.stored == e.stored
  {
    if t.Moves? {
      PastMoves(h, e, t.x);
      assert After(h, e, t) == Act(h, e, t.x.head, t.x.m, t.x.free, t.x.mine).e;
    } else {
      OthersKeep(h, e, t);
    }
    hide After, Act;
  }

  lemma OthersKeep(h: Hash, e: End, t: Happening)
    requires !t.Moves?
    ensures After(h, e, t).stage == e.stage && After(h, e, t).stored == e.stored
  {
    hide Act, Stopped, Answer;
    match t
    case Human(d) => AnswerKeeps(e, d);
    case Told => StoppedKeeps(e);
    case Dies =>
  }

  lemma AnswerKeeps(e: End, d: Decision)
    ensures Answer(e, d).0.stage == e.stage && Answer(e, d).0.stored == e.stored
  {
  }

  lemma StoppedKeeps(e: End)
    ensures Stopped(e).stage == e.stage && Stopped(e).stored == e.stored
  {
    hide DECLINED;
  }

  /** What an order to stop leaves with no way to change the store. */
  predicate Over(e: End) { Hopeless(e) || Past(e) }

  lemma OverAfter(h: Hash, e: End, t: Happening)
    requires Over(e)
    ensures Over(After(h, e, t)) && After(h, e, t).stored == e.stored
  {
    if Past(e) {
      PastAfter(h, e, t);
    } else {
      HopelessAfter(h, e, t);
      HopelessStoresNothing(e);
      HopelessStoresNothing(After(h, e, t));
    }
    hide Past, Hopeless, After;
  }

  lemma HopelessStoresNothing(e: End)
    requires Hopeless(e)
    ensures e.stored.None?
  {
  }

  lemma {:induction false} OverAfterAll(h: Hash, e: End, ts: seq<Happening>)
    requires Over(e)
    ensures AfterAll(h, e, ts).stored == e.stored
    decreases |ts|
  {
    hide Over, After;
    if ts != [] {
      OverAfter(h, e, ts[0]);
      OverAfterAll(h, After(h, e, ts[0]), ts[1..]);
    }
  }

  lemma StoppedIsOver(e: End)
    requires EndInv(e) && BufferOk(e) && !e.done && !StillStores(e)
    ensures Over(Stopped(e))
  {
    if e.stored.None? {
      StoppedIsHopeless(e);
    } else {
      assert Past(Stopped(e)) by { hide ValidTokenFormat, BufferOk; }
    }
    hide EndInv, BufferOk, Stopped, Hopeless, Past;
  }

  // -- and why these still do ----------------------------------------------------------------------------

  /** An arm of the select fires. */
  function Fire(c: Choice): Happening { Moves(Input(None, Turn(c), _ => true, true)) }

  lemma Fires(h: Hash, e: End, c: Choice)
    requires e.stage.Driving?
    ensures After(h, e, Fire(c)) == Select(e, c).0
  {
    DrivingMoves(h, e, Input(None, Turn(c), _ => true, true));
    hide Act, Select;
  }

  /** Any well-formed token. */
  function SomeToken(): Token { seq(TOKEN_HEX_LEN, _ => '0') }

  lemma SomeTokenIsValid()
    ensures ValidTokenFormat(SomeToken())
  {
  }

  const YES: Decision := Decision(true, "")

  /** A usable token is agreed, and is stored by the next action, whatever the write answers. */
  predicate AtToken(e: End) { e.stage.Completing? && ValidTokenFormat(e.stage.token) }

  lemma AgreedIsStored(h: Hash, e: End, ok: bool)
    requires AtToken(e)
    ensures After(h, e, Moves(Input(None, Proceed(ok), _ => true, true))).stored == Some(e.stage.token)
  {
    OnlyTheRest(h, e, Input(None, Proceed(ok), _ => true, true));
    hide Act, ValidTokenFormat, OrDeclined;
  }

  /** The select turns by which a dialer that has accepted reads on to the token. */
  function ReadOn(evs: seq<PairEvent>): seq<Happening> {
    if evs == [] || !evs[0].EvAccept? then [Fire(TakeEvent(None))] else [Fire(TakeEvent(None))] + ReadOn(evs[1..])
  }

  lemma {:induction false} TokenIsReached(h: Hash, e: End)
    requires e.stage.Driving? && !e.responder && e.localYes && TokenAhead(e.events)
    ensures AtToken(AfterAll(h, e, ReadOn(e.events)))
    decreases |e.events|
  {
    hide ValidTokenFormat;
    var rest := ReadOn(e.events[1..]);
    var n := After(h, e, Fire(TakeEvent(None)));
    Fires(h, e, TakeEvent(None));
    if e.events[0].EvAccept? {
      assert n == e.(events := e.events[1..], remoteYes := true) by { hide Fail, TakeAnswer, After; }
      AfterFirst(h, e, Fire(TakeEvent(None)), rest);
      hide After, Select, Fire;
      TokenIsReached(h, n);
    } else {
      assert n == e.(events := e.events[1..], stage := Completing(e.events[0].token)) by {
        hide Fail, TakeAnswer, After;
      }
      AfterFirst(h, e, Fire(TakeEvent(None)), []);
      assert ReadOn(e.events) == [Fire(TakeEvent(None))] + [];
      hide After, Select, Fire;
    }
  }

  lemma {:induction false} TokenAfterAccepts(evs: seq<PairEvent>, t: Token)
    requires AllAccepts(evs) && ValidTokenFormat(t)
    ensures TokenAhead(evs + [EvPaired(t)])
  {
    hide ValidTokenFormat;
    if evs != [] {
      assert (evs + [EvPaired(t)])[1..] == evs[1..] + [EvPaired(t)];
      TokenAfterAccepts(evs[1..], t);
    }
  }

  lemma {:induction false} StopAfterToken(evs: seq<PairEvent>, ev: PairEvent)
    requires TokenAhead(evs)
    ensures TokenAhead(evs + [ev])
  {
    hide ValidTokenFormat;
    assert (evs + [ev])[0] == evs[0] && (evs + [ev])[1..] == evs[1..] + [ev];
    if evs[0].EvAccept? { StopAfterToken(evs[1..], ev); }
  }

  /** How this side's human accepts, if that has still to happen. */
  function SayYes(e: End, mint: Option<Token>): seq<Happening> {
    if e.localYes then []
    else if e.decision.None? then [Human(YES)] + [Fire(TakeDecision(true, mint))]
    else [Fire(TakeDecision(true, mint))]
  }

  lemma Accepts(h: Hash, e: End, mint: Option<Token>)
    requires e.stage.Driving? && !e.localYes && e.alive && e.decision.Some? && e.decision.value.accept
    ensures After(h, e, Fire(TakeDecision(true, mint)))
         == AfterSelect(e.(decision := None, localYes := true), mint)
  {
    Fires(h, e, TakeDecision(true, mint));
    hide Fail, AfterSelect, TakeRemote, After, Fire;
  }

  lemma Answers(h: Hash, e: End)
    requires !e.done && e.decision.None?
    ensures After(h, e, Human(YES)) == e.(decision := Some(YES))
  {
    hide Act;
  }

  lemma SaysYes(h: Hash, e: End, mint: Option<Token>, rest: seq<Happening>)
    requires e.stage.Driving? && CanSayYes(e) && !e.done && !e.localYes
    ensures AfterAll(h, e, SayYes(e, mint) + rest)
         == AfterAll(h, AfterSelect(e.(decision := None, localYes := true), mint), rest)
  {
    hide AfterSelect, After, AfterAll, Fire;
    var take := Fire(TakeDecision(true, mint));
    if e.decision.None? {
      var n := e.(decision := Some(YES));
      Answers(h, e);
      assert SayYes(e, mint) + rest == [Human(YES)] + ([take] + rest);
      AfterFirst(h, e, Human(YES), [take] + rest);
      AfterFirst(h, n, take, rest);
      Accepts(h, n, mint);
    } else {
      AfterFirst(h, e, take, rest);
      Accepts(h, e, mint);
    }
  }

  /** A dialer's way to the token, told to stop or not. */
  lemma DialerStores(h: Hash, e: End) returns (ts: seq<Happening>)
    requires e.stage.Driving? && !e.done && !e.responder && CanSayYes(e) && TokenAhead(e.events)
    ensures AtToken(AfterAll(h, e, ts))
  {
    hide ValidTokenFormat, TokenAhead, AfterAll, AllAccepts, AtToken;
    var m := if e.localYes then e else e.(decision := None, localYes := true);
    ts := SayYes(e, None) + ReadOn(e.events);
    if e.localYes {
      assert ts == ReadOn(e.events);
    } else {
      SaysYes(h, e, None, ReadOn(e.events));
      assert AfterSelect(m, None) == m;
    }
    TokenIsReached(h, m);
    hide SayYes, ReadOn;
  }

  lemma HearsToken(h: Hash, e: End, t: Token)
    requires e.stage.Driving? && e.shown.Some? && !e.paired && |e.events| < EVENT_CAPACITY && ValidTokenFormat(t)
    ensures After(h, e, Moves(Input(Some(Paired(t)), Loop, _ => true, true)))
         == e.(events := e.events + [EvPaired(t)])
  {
    DrivingMoves(h, e, Input(Some(Paired(t)), Loop, _ => true, true));
    hide Act, Select, ValidTokenFormat;
  }

  /** A driver so far behind that the order to stop is dropped still has room for the token once it reads on. */
  lemma FullDialerStores(h: Hash, e: End) returns (ts: seq<Happening>)
    requires e.stage.Driving? && !e.done && !e.responder && CanSayYes(e) && e.shown.Some? && !e.paired
    requires |e.events| == EVENT_CAPACITY && AllAccepts(e.events)
    ensures AtToken(AfterAll(h, e, ts))
  {
    hide ValidTokenFormat, TokenAhead, AfterAll, AtToken;
    var first := Fire(TakeEvent(None));
    var token := Moves(Input(Some(Paired(SomeToken())), Loop, _ => true, true));
    var m := e.(events := e.events[1..], remoteYes := true);
    var n := m.(events := m.events + [EvPaired(SomeToken())]);
    SomeTokenIsValid();
    TokenAfterAccepts(m.events, SomeToken());
    Fires(h, e, TakeEvent(None));
    assert After(h, e, first) == m by { hide Fail, TakeAnswer, After; }
    HearsToken(h, m, SomeToken());
    hide SomeToken, After, CanSayYes, AllAccepts, Fire;
    KeepsYes(e, n);
    var rest := DialerStores(h, n);
    ts := [first] + ([token] + rest);
    AfterFirst(h, e, first, [token] + rest);
    AfterFirst(h, m, token, rest);
  }

  lemma KeepsYes(e: End, n: End)
    requires n.localYes == e.localYes && n.alive == e.alive && n.decision == e.decision
    ensures CanSayYes(e) ==> CanSayYes(n)
  {
  }

  lemma NothingHappens(h: Hash, e: End)
    ensures AfterAll(h, e, []) == e
  {
  }

  lemma ReadsAccept(h: Hash, e: End, mint: Option<Token>)
    requires e.stage.Driving? && AcceptFirst(e.events)
    ensures After(h, e, Fire(TakeEvent(mint))) == AfterSelect(e.(events := e.events[1..], remoteYes := true), mint)
  {
    Fires(h, e, TakeEvent(mint));
    hide Fail, AfterSelect, TakeAnswer, After, Fire;
  }

  lemma Agree(e: End, t: Token)
    requires e.stage.Driving? && e.responder && e.localYes && e.remoteYes && ValidTokenFormat(t)
    ensures AtToken(AfterSelect(e, Some(t)))
  {
    hide ValidTokenFormat;
  }

  /** A responder's way to its minted token. */
  lemma ResponderStores(h: Hash, e: End) returns (ts: seq<Happening>)
    requires e.stage.Driving? && !e.done && e.responder
    requires if e.localYes then AcceptFirst(e.events) else CanSayYes(e) && (e.remoteYes || AcceptFirst(e.events))
    ensures AtToken(AfterAll(h, e, ts))
  {
    SomeTokenIsValid();
    var mint := Some(SomeToken());
    hide ValidTokenFormat, AfterAll, SomeToken, After, Fire, AfterSelect, AtToken;
    var take := Fire(TakeEvent(mint));
    if e.localYes {
      var m := e.(events := e.events[1..], remoteYes := true);
      ts := [take] + [];
      AfterFirst(h, e, take, []);
      ReadsAccept(h, e, mint);
      NothingHappens(h, AfterSelect(m, mint));
      Agree(m, SomeToken());
    } else if e.remoteYes {
      ts := SayYes(e, mint) + [];
      SaysYes(h, e, mint, []);
      NothingHappens(h, AfterSelect(e.(decision := None, localYes := true), mint));
      Agree(e.(decision := None, localYes := true), SomeToken());
    } else {
      var m := e.(events := e.events[1..], remoteYes := true);
      var rest := SayYes(m, mint) + [];
      ts := [take] + rest;
      AfterFirst(h, e, take, rest);
      ReadsAccept(h, e, mint);
      NotYet(m, mint);
      KeepsYes(e, m);
      SaysYes(h, m, mint, []);
      NothingHappens(h, AfterSelect(m.(decision := None, localYes := true), mint));
      Agree(m.(decision := None, localYes := true), SomeToken());
    }
    hide SayYes;
  }

  lemma NotYet(e: End, mint: Option<Token>)
    requires !e.localYes
    ensures AfterSelect(e, mint) == e
  {
  }

  lemma Stores(h: Hash, e: End) returns (ts: seq<Happening>)
    requires EndInv(e) && BufferOk(e) && !e.done && StillStores(e)
    ensures AtToken(AfterAll(h, Stopped(e), ts))
  {
    hide ValidTokenFormat, AfterAll, TokenAhead, AllAccepts, CanSayYes, DECLINED, AtToken;
    var n := Stopped(e);
    var stop := EvCancelled(DECLINED);
    assert n == e.(events := if |e.events| < EVENT_CAPACITY then e.events + [stop] else e.events);
    hide Stopped, Push;
    if e.stage.Completing? {
      ts := [];
      NothingHappens(h, n);
      assert AtToken(n) by { SameToken(e, n); }
    } else {
      KeepsYes(e, n);
      hide EndInv;
      if e.responder {
        assert AcceptFirst(e.events) ==> AcceptFirst(n.events);
        ts := ResponderStores(h, n);
      } else if TokenAhead(e.events) {
        StopAfterToken(e.events, stop);
        ts := DialerStores(h, n);
      } else {
        assert ConsentOk(e);
        ts := FullDialerStores(h, n);
      }
    }
  }

  lemma SameToken(e: End, n: End)
    requires e.stage.Completing? && ValidTokenFormat(e.stage.token) && n.stage == e.stage
    ensures AtToken(n)
  {
    hide ValidTokenFormat;
  }

  // -- exactly -------------------------------------------------------------------------------------------

  lemma {:induction false} AfterMore(h: Hash, e: End, s: seq<Happening>, t: seq<Happening>)
    ensures AfterAll(h, e, s + t) == AfterAll(h, AfterAll(h, e, s), t)
    decreases |s|
  {
    hide After;
    if s == [] {
      assert s + t == t;
    } else {
      assert (s + t)[0] == s[0] && (s + t)[1..] == s[1..] + t;
      AfterMore(h, After(h, e, s[0]), s[1..], t);
    }
  }

  /**
   * Exactly when forgetting a device does not stop its pairing. Of every end that is pending, wherever its goroutines
   * stand: once it has been told to stop, a token can still go into the store if and only if it had already agreed on a
   * usable one, or was in its select with the right things in hand; whoever is at the far end, and whatever happens in
   * which order.
   */
  lemma ForgetMayComeTooLate(h: Hash, e: End)
    requires EndInv(e) && BufferOk(e) && !e.done
    ensures MayStore(h, Stopped(e)) <==> StillStores(e)
  {
    hide AfterAll, StillStores, ValidTokenFormat, EndInv, BufferOk;
    StoppedStored(e);
    if StillStores(e) {
      var ts := Stores(h, e);
      var store := Moves(Input(None, Proceed(true), _ => true, true));
      var n := AfterAll(h, Stopped(e), ts);
      AgreedIsStored(h, n, true);
      AfterMore(h, Stopped(e), ts, [store] + []);
      AfterFirst(h, n, store, []);
      NothingHappens(h, After(h, n, store));
      NotStoredYet(e);
      assert AfterAll(h, Stopped(e), ts + ([store] + [])).stored != Stopped(e).stored;
    } else {
      StoppedIsOver(e);
      forall ts ensures AfterAll(h, Stopped(e), ts).stored == Stopped(e).stored { OverAfterAll(h, Stopped(e), ts); }
    }
    hide After, Stopped, AtToken, Over;
  }

  lemma StoppedStored(e: End)
    ensures Stopped(e).stored == e.stored
  {
  }

  lemma NotStoredYet(e: End)
    requires EndInv(e) && StillStores(e)
    ensures e.stored.None?
  {
    hide ValidTokenFormat, InHand;
  }

  // -- in the world --------------------------------------------------------------------------------------

  /** Whatever happens in the world, to one end it is one of these, or nothing. */
  lemma WorldHappens(h: Hash, w: World, ev: Event, i: nat, side: bool) returns (ts: seq<Happening>)
    requires i < |w.attempts|
    ensures |ts| <= 1 && i < |Next(h, w, ev).attempts|
    ensures EndAt(Next(h, w, ev).attempts[i], side)
         == if ts == [] then EndAt(w.attempts[i], side) else After(h, EndAt(w.attempts[i], side), ts[0])
  {
    hide Act;
    ts := [];
    match ev
    case Step(j, s, m) =>
      if j == i && s == side {
        var e, inbox := EndAt(w.attempts[i], side), InboxAt(w.attempts[i], side);
        ts := [Moves(Input(if inbox == [] then None else Some(inbox[0]), m, x => (e.owner, x) !in w.pending,
                           PendingAt(w, KeyOf(e)) == Some((i, side))))];
      }
    case Confirm(o, x, d) => if x != "" && PendingAt(w, (o, x)) == Some((i, side)) { ts := [Human(d)]; }
    case Cancel(o, x) => if x != "" && PendingAt(w, (o, x)) == Some((i, side)) { ts := [Told]; }
    case Die(j, s, keep) => if j == i && s == side { ts := [Dies]; }
    case _ =>
  }

  ghost predicate BuffersOk(w: World) {
    forall i, side :: 0 <= i < |w.attempts| ==> BufferOk(EndAt(w.attempts[i], side))
  }

  lemma BornBuffer(h: Hash, w: World, ev: Event, i: nat, side: bool)
    requires |w.attempts| <= i < |Next(h, w, ev).attempts|
    ensures BufferOk(EndAt(Next(h, w, ev).attempts[i], side))
  {
    hide Moved, Confirmed, Cancelled, Died;
    if ev.Step? { hide Started, Knocked; LengthStays(h, w, ev); }
    if ev.Confirm? || ev.Cancel? || ev.Remove? || ev.Die? { LengthStays(h, w, ev); }
  }

  lemma {:induction false} RunBuffers(h: Hash, evs: seq<Event>)
    ensures BuffersOk(Run(h, evs))
  {
    if evs != [] {
      var before, ev := evs[..|evs| - 1], evs[|evs| - 1];
      var w := Run(h, before);
      RunBuffers(h, before);
      RunKeeps(h, before);
      forall i, side | 0 <= i < |Next(h, w, ev).attempts| ensures BufferOk(EndAt(Next(h, w, ev).attempts[i], side)) {
        if i < |w.attempts| {
          EndOfWorld(w, i, side);
          var ts := WorldHappens(h, w, ev, i, side);
          if ts != [] { BufferKept(h, EndAt(w.attempts[i], side), ts[0]); }
        } else {
          BornBuffer(h, w, ev, i, side);
        }
        hide Next, BufferOk, After;
      }
      hide Next, BufferOk, After, WorldInv;
    }
  }

  lemma EndOfWorld(w: World, i: nat, side: bool)
    requires WorldInv(w) && i < |w.attempts|
    ensures EndInv(EndAt(w.attempts[i], side))
  {
    ReadyAt(w.attempts[i], side);
    hide EndInv, PendingInv, TrustInv;
  }

  /** The end a Forget of that device finds, in any run: one the condition speaks of. */
  lemma ForgetFinds(h: Hash, evs: seq<Event>, k: Key) returns (p: Place)
    requires k in Run(h, evs).pending
    ensures var w := Run(h, evs);
            && p == w.pending[k] && p.0 < |w.attempts|
            && var e := EndAt(w.attempts[p.0], p.1);
               Live(e) && KeyOf(e) == k && EndInv(e) && BufferOk(e)
  {
    var w := Run(h, evs);
    RunKeeps(h, evs);
    RunBuffers(h, evs);
    p := w.pending[k];
    assert PendingOk(w, k, p);
    EndOfWorld(w, p.0, p.1);
    hide Run, EndInv, BufferOk, AttemptInv, TrustInv;
  }

  lemma {:induction false} OverRuns(h: Hash, evs: seq<Event>, more: seq<Event>, i: nat, side: bool)
    requires i < |Run(h, evs).attempts| && Over(EndAt(Run(h, evs).attempts[i], side))
    ensures i < |Run(h, evs + more).attempts|
    ensures EndAt(Run(h, evs + more).attempts[i], side).stored == EndAt(Run(h, evs).attempts[i], side).stored
    decreases |more|
  {
    hide Next, Over, After;
    if more == [] {
      assert evs + more == evs;
    } else {
      var w, ev := Run(h, evs), more[0];
      assert evs + more == (evs + [ev]) + more[1..];
      assert (evs + [ev])[..|evs|] == evs;
      assert Run(h, evs + [ev]) == Next(h, w, ev);
      var ts := WorldHappens(h, w, ev, i, side);
      if ts != [] { OverAfter(h, EndAt(w.attempts[i], side), ts[0]); }
      OverRuns(h, evs + [ev], more[1..], i, side);
      hide Run;
    }
  }

  /**
   * So in the world: a pairing that is pending when its device is forgotten, and does not meet the condition, stores no
   * token in any run from there.
   */
  lemma ForgottenInTime(h: Hash, evs: seq<Event>, k: Key, more: seq<Event>)
    requires k.1 != "" && k in Run(h, evs).pending
    ensures var w, p := Run(h, evs), Run(h, evs).pending[k];
            && p.0 < |w.attempts| && p.0 < |Run(h, evs + [Cancel(k.0, k.1)] + more).attempts|
            && var e := EndAt(w.attempts[p.0], p.1);
               !StillStores(e) ==> EndAt(Run(h, evs + [Cancel(k.0, k.1)] + more).attempts[p.0], p.1).stored == e.stored
  {
    var p := ForgetFinds(h, evs, k);
    var w, ev := Run(h, evs), Cancel(k.0, k.1);
    var e := EndAt(w.attempts[p.0], p.1);
    assert (evs + [ev])[..|evs|] == evs;
    assert Run(h, evs + [ev]) == Next(h, w, ev);
    hide Run, EndInv, BufferOk, StillStores, Over;
    CancelTells(h, w, k);
    StoppedStored(e);
    LongRun(h, evs + [ev], more, p.0);
    if !StillStores(e) {
      StoppedIsOver(e);
      OverRuns(h, evs + [ev], more, p.0, p.1);
    }
    hide Next, Stopped;
  }

  lemma CancelTells(h: Hash, w: World, k: Key)
    requires k.1 != "" && k in w.pending && w.pending[k].0 < |w.attempts|
    ensures var p, v := w.pending[k], Next(h, w, Cancel(k.0, k.1));
            |v.attempts| == |w.attempts| && EndAt(v.attempts[p.0], p.1) == Stopped(EndAt(w.attempts[p.0], p.1))
  {
    hide Push;
  }

  lemma {:induction false} LongRun(h: Hash, evs: seq<Event>, more: seq<Event>, i: nat)
    requires i < |Run(h, evs).attempts|
    ensures i < |Run(h, evs + more).attempts|
    decreases |more|
  {
    hide Next;
    if more == [] {
      assert evs + more == evs;
    } else {
      assert evs + more == (evs + [more[0]]) + more[1..];
      assert (evs + [more[0]])[..|evs|] == evs;
      var ts := WorldHappens(h, Run(h, evs), more[0], i, true);
      LongRun(h, evs + [more[0]], more[1..], i);
    }
  }
}
