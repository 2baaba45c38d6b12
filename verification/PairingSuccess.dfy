/**
 * Two humans who have both accepted: if nothing fails, nobody changes their mind and time does not run out, both ends
 * store the same token and both report success, in whatever order their own steps come.
 */
module PairingSuccess {
  import opened Common
  import opened PairingCode
  import opened PairingSpec
  import opened PairingInvariant
  import opened PairingWorld
  import opened PairingTheorems
  import opened PairingAnswers
  import opened PairingForget
  import opened PairingPost
  import opened PairingDelivery

  // -- an attempt on its way to success --------------------------------------------------------------------

  /** What the frames of a queue will be to the driver. */
  function Made(device: Id, q: seq<Frame>): seq<PairEvent> {
    if q == [] then []
    else (if EventFor(device, q[0]).Some? then [EventFor(device, q[0]).value] else []) + Made(device, q[1..])
  }

  /** Everything a driver has still to read. */
  function Mail(e: End, q: seq<Frame>): seq<PairEvent> { e.events + Made(e.device, q) }

  predicate Readable(device: Id, q: seq<Frame>) { forall i :: 0 <= i < |q| ==> EventFor(device, q[i]).Some? }

  /** Somewhere between its select and its last action, with nothing gone wrong. */
  predicate GoodStage(e: End) {
    match e.stage
    case Driving => e.stored.None? && e.results == [] && !e.paired && !e.done
    case Completing(t) => ValidTokenFormat(t) && e.stored.None? && e.results == [] && !e.paired && !e.done
    case Stored(t) => ValidTokenFormat(t) && e.stored == Some(t) && e.saved && e.results == [] && !e.paired && !e.done
    case Announced => e.stored.Some? && e.saved && e.results == [] && e.paired && !e.done
    case Reported => e.stored.Some? && e.saved && e.results == [Success] && e.paired
    case _ => false
  }

  /** Accepted, or about to be, and connected. */
  predicate Eager(e: End) {
    && e.alive && e.linked && e.shown.Some? && GoodStage(e)
    && (e.decision.Some? ==> e.decision.value.accept) && (e.localYes || e.decision.Some?)
    && (!e.stage.Driving? ==> e.localYes)
  }

  predicate Gone(r: End) { r.stage.Announced? || r.stage.Reported? }

  function AcceptIf(b: bool): seq<PairEvent> { if b then [EvAccept] else [] }

  function TokenIf(b: bool, t: Option<Token>): seq<PairEvent> { if b && t.Some? then [EvPaired(t.value)] else [] }

  predicate OnTrack(a: Attempt) {
    && !a.d.responder && a.r.responder && a.d.device == a.r.owner && a.r.device == a.d.owner
    && a.d.owner != "" && a.r.owner != ""
    && Eager(a.d) && Eager(a.r)
    && (a.r.remoteYes ==> a.d.localYes) && (a.d.remoteYes ==> a.r.localYes)
    && (a.r.stage.Driving? <==> !(a.r.localYes && a.r.remoteYes))
    && (!a.d.stage.Driving? ==> Gone(a.r) && a.d.remoteYes && Agreed(a.d) == a.r.stored)
    && Readable(a.d.device, a.toD) && Readable(a.r.device, a.toR)
    && Mail(a.d, a.toD) == AcceptIf(a.r.localYes && !a.d.remoteYes)
                           + TokenIf(Gone(a.r) && a.d.stage.Driving?, a.r.stored)
    && Mail(a.r, a.toR) == AcceptIf(a.d.localYes && !a.r.remoteYes)
  }

  /** Steps in which nothing fails: writes and sends are taken, tokens are well formed, time does not run out. */
  predicate Benign(m: Move) {
    match m
    case Turn(c) =>
      (match c
       case ContextDone => false
       case TimerFired => false
       case SocketDone => true
       case TakeDecision(ok, mint) => ok && mint.Some? && ValidTokenFormat(mint.value)
       case TakeEvent(mint) => mint.Some? && ValidTokenFormat(mint.value))
    case Proceed(ok) => ok
    case _ => true
  }

  /** How much is left to do. */
  function Work(e: End): nat {
    4 * Rank(e) + One(e.decision.Some?) + (if e.localYes then 0 else 4) + |e.events|
  }

  function Left(a: Attempt): nat { Work(a.d) + Work(a.r) + 2 * |a.toD| + 2 * |a.toR| }

  // -- mail -----------------------------------------------------------------------------------------------------

  lemma {:induction false} MadeAppend(device: Id, q: seq<Frame>, f: Frame)
    ensures Made(device, q + [f])
         == Made(device, q) + if EventFor(device, f).Some? then [EventFor(device, f).value] else []
  {
    hide EventFor;
    if q == [] {
      assert q + [f] == [f] && [f][1..] == [];
    } else {
      assert (q + [f])[0] == q[0] && (q + [f])[1..] == q[1..] + [f];
      MadeAppend(device, q[1..], f);
    }
  }

  /** Reading a frame moves it from the socket to the buffer. */
  lemma MailRead(e: End, q: seq<Frame>)
    requires q != [] && EventFor(e.device, q[0]).Some?
    ensures Mail(e.(events := e.events + [EventFor(e.device, q[0]).value]), q[1..]) == Mail(e, q)
  {
    hide EventFor;
    assert Made(e.device, q) == [EventFor(e.device, q[0]).value] + Made(e.device, q[1..]);
  }

  lemma MailSent(e: End, q: seq<Frame>, f: Frame)
    requires EventFor(e.device, f).Some?
    ensures Mail(e, q + [f]) == Mail(e, q) + [EventFor(e.device, f).value]
    ensures Readable(e.device, q) ==> Readable(e.device, q + [f])
  {
    hide EventFor;
    MadeAppend(e.device, q, f);
  }

  lemma MailTaken(e: End, q: seq<Frame>)
    requires e.events != []
    ensures Mail(e, q) == [e.events[0]] + Mail(e.(events := e.events[1..]), q)
  {
    hide EventFor;
  }

  lemma {:induction false} ReadableCounts(device: Id, q: seq<Frame>)
    requires Readable(device, q)
    ensures |Made(device, q)| == |q|
  {
    hide EventFor;
    if q != [] {
      forall i | 0 <= i < |q[1..]| ensures EventFor(device, q[1..][i]).Some? { assert q[1..][i] == q[i + 1]; }
      ReadableCounts(device, q[1..]);
    }
  }

  lemma ReadableRest(device: Id, q: seq<Frame>)
    requires Readable(device, q) && q != []
    ensures Readable(device, q[1..])
  {
    forall i | 0 <= i < |q[1..]| ensures EventFor(device, q[1..][i]).Some? { assert q[1..][i] == q[i + 1]; }
  }

  lemma AcceptIsRead(device: Id)
    requires device != ""
    ensures EventFor(device, Accept(device)) == Some(EvAccept)
  {
  }

  lemma TokenIsRead(device: Id, t: Token)
    requires ValidTokenFormat(t)
    ensures EventFor(device, Paired(t)) == Some(EvPaired(t))
  {
  }

  // -- a frame read ---------------------------------------------------------------------------------------------

  lemma ReadsMail(e: End, f: Frame)
    requires !e.paired && EventFor(e.device, f).Some? && |e.events| < EVENT_CAPACITY
    ensures ReadFrame(e, f, true) == e.(events := e.events + [EventFor(e.device, f).value])
  {
    hide EventFor;
  }

  lemma EagerMail(e: End, events: seq<PairEvent>)
    requires Eager(e)
    ensures Eager(e.(events := events)) && Work(e.(events := events)) + |e.events| == Work(e) + |events|
    ensures Agreed(e.(events := events)) == Agreed(e) && Gone(e.(events := events)) == Gone(e)
  {
    hide ValidTokenFormat;
  }

  lemma DiallerReads(a: Attempt)
    requires OnTrack(a) && a.toD != []
    ensures !a.d.paired && |a.d.events| < EVENT_CAPACITY && !a.d.done && EventFor(a.d.device, a.toD[0]).Some?
    ensures var n := Attempt(ReadFrame(a.d, a.toD[0], true), a.r, a.toR, a.toD[1..]);
            OnTrack(n) && Left(n) < Left(a)
  {
    ReadableCounts(a.d.device, a.toD);
    assert |Mail(a.d, a.toD)| <= 2;
    assert a.d.stage.Driving? by { hide EventFor, Eager, ValidTokenFormat; }
    assert !a.d.paired && !a.d.done by { hide EventFor, ValidTokenFormat; }
    ReadsMail(a.d, a.toD[0]);
    MailRead(a.d, a.toD);
    ReadableRest(a.d.device, a.toD);
    EagerMail(a.d, a.d.events + [EventFor(a.d.device, a.toD[0]).value]);
    hide EventFor, Eager, ReadFrame, Work, Agreed, Gone, Mail, Readable;
  }

  lemma AnswererReads(a: Attempt)
    requires OnTrack(a) && a.toR != []
    ensures !a.r.paired && |a.r.events| < EVENT_CAPACITY && !a.r.done && EventFor(a.r.device, a.toR[0]).Some?
    ensures var n := Attempt(a.d, ReadFrame(a.r, a.toR[0], true), a.toR[1..], a.toD);
            OnTrack(n) && Left(n) < Left(a)
  {
    ReadableCounts(a.r.device, a.toR);
    assert |Mail(a.r, a.toR)| <= 1;
    assert a.r.stage.Driving? by { hide EventFor, Eager, ValidTokenFormat; }
    assert !a.r.paired && !a.r.done by { hide EventFor, ValidTokenFormat; }
    ReadsMail(a.r, a.toR[0]);
    MailRead(a.r, a.toR);
    ReadableRest(a.r.device, a.toR);
    EagerMail(a.r, a.r.events + [EventFor(a.r.device, a.toR[0]).value]);
    hide EventFor, Eager, ReadFrame, Work, Agreed, Gone, Mail, Readable;
  }

  // -- an event taken -------------------------------------------------------------------------------------------

  lemma SelectTakes(e: End, mint: Option<Token>)
    requires e.stage.Driving? && e.events != []
    ensures Select(e, TakeEvent(mint)).0 == TakeRemote(e.(events := e.events[1..]), e.events[0], mint)
    ensures Select(e, TakeEvent(mint)).1 == []
  {
    hide TakeRemote;
  }

  /** The dialling end hears that the other human has accepted. */
  lemma DiallerHears(a: Attempt, mint: Option<Token>)
    requires OnTrack(a) && a.d.stage.Driving? && a.d.events != [] && a.d.events[0].EvAccept?
    ensures var d := a.d.(events := a.d.events[1..], remoteYes := true);
            && Select(a.d, TakeEvent(mint)) == (d, []) && OnTrack(a.(d := d)) && Left(a.(d := d)) < Left(a)
  {
    var d := a.d.(events := a.d.events[1..], remoteYes := true);
    SelectTakes(a.d, mint);
    MailTaken(a.d, a.toD);
    assert Mail(d, a.toD) == Mail(a.d.(events := a.d.events[1..]), a.toD);
    assert a.d.events[0] == Mail(a.d, a.toD)[0];
    assert a.r.localYes && !a.d.remoteYes;
    assert Mail(d, a.toD) == Mail(a.d, a.toD)[1..];
    assert Mail(a.d, a.toD)[1..] == TokenIf(Gone(a.r) && a.d.stage.Driving?, a.r.stored);
    assert TakeRemote(a.d.(events := a.d.events[1..]), EvAccept, mint) == d by { hide Fail; }
    hide Select, EventFor, Made, ValidTokenFormat, TakeRemote;
  }

  /** What comes after the accept is the token, and nothing comes after it. */
  lemma TokenIsNext(a: Attempt)
    requires OnTrack(a) && a.d.stage.Driving? && a.d.events != [] && !a.d.events[0].EvAccept?
    ensures Gone(a.r) && a.r.stored.Some? && a.d.events[0] == EvPaired(a.r.stored.value)
    ensures Mail(a.d, a.toD) == [a.d.events[0]] && a.d.remoteYes
  {
    hide EventFor, Made, ValidTokenFormat, Readable;
    var accept := a.r.localYes && !a.d.remoteYes;
    var token := Gone(a.r) && a.d.stage.Driving?;
    assert a.d.events[0] == Mail(a.d, a.toD)[0];
    assert !accept && |TokenIf(token, a.r.stored)| > 0;
  }

  /** And that is when the dialling end has the token: it is agreed. */
  lemma DiallerAgrees(a: Attempt, mint: Option<Token>)
    requires OnTrack(a) && AttemptInv(a) && a.d.stage.Driving? && a.d.events != [] && !a.d.events[0].EvAccept?
    ensures Gone(a.r) && a.r.stored.Some? && a.d.events[0] == EvPaired(a.r.stored.value)
    ensures var d := a.d.(events := a.d.events[1..], stage := Completing(a.r.stored.value));
            && Select(a.d, TakeEvent(mint)) == (d, []) && OnTrack(a.(d := d)) && Left(a.(d := d)) < Left(a)
  {
    SelectTakes(a.d, mint);
    MailTaken(a.d, a.toD);
    TokenIsNext(a);
    StoredIsHeard(a);
    hide AttemptInv, EventFor, Made, ValidTokenFormat;
    var d := a.d.(events := a.d.events[1..], stage := Completing(a.r.stored.value));
    assert Mail(d, a.toD) == Mail(a.d.(events := a.d.events[1..]), a.toD) == [];
    assert TakeRemote(a.d.(events := a.d.events[1..]), a.d.events[0], mint) == d by { hide Fail; }
    hide Select, TakeRemote, Mail;
  }

  /** The answering end hears it, and with its own human's accept agrees on a fresh token. */
  lemma AnswererHears(a: Attempt, t: Token)
    requires OnTrack(a) && a.r.stage.Driving? && a.r.events != [] && ValidTokenFormat(t)
    ensures var m := a.r.(events := a.r.events[1..], remoteYes := true);
            var r := if m.localYes then m.(stage := Completing(t)) else m;
            && Select(a.r, TakeEvent(Some(t))) == (r, []) && OnTrack(a.(r := r)) && Left(a.(r := r)) < Left(a)
  {
    SelectTakes(a.r, Some(t));
    MailTaken(a.r, a.toR);
    assert a.r.events[0] == Mail(a.r, a.toR)[0];
    var m := a.r.(events := a.r.events[1..], remoteYes := true);
    var r := if m.localYes then m.(stage := Completing(t)) else m;
    assert Mail(r, a.toR) == Mail(a.r.(events := a.r.events[1..]), a.toR);
    assert TakeRemote(a.r.(events := a.r.events[1..]), EvAccept, Some(t)) == r by { hide Fail; }
    hide Select, EventFor, Made, ValidTokenFormat, TakeRemote;
  }

  // -- an answer taken --------------------------------------------------------------------------------------------

  lemma SelectAnswers(e: End, ok: bool, mint: Option<Token>)
    requires e.stage.Driving? && e.decision.Some?
    ensures Select(e, TakeDecision(ok, mint)) == TakeAnswer(e.(decision := None), e.decision.value, ok, mint)
  {
    hide TakeAnswer;
  }

  /** An accept in the buffer of an end that has accepted has nothing left to do. */
  lemma AnsweredTwice(e: End, ok: bool, mint: Option<Token>)
    requires Eager(e) && e.stage.Driving? && e.decision.Some? && e.localYes
    ensures Select(e, TakeDecision(ok, mint)) == (e.(decision := None), [])
    ensures Eager(e.(decision := None)) && Work(e.(decision := None)) < Work(e)
  {
    SelectAnswers(e, ok, mint);
    hide Fail, AfterSelect, Select, ValidTokenFormat;
  }

  lemma AnswersOnTrack(a: Attempt, side: bool)
    requires OnTrack(a) && EndAt(a, side).stage.Driving? && EndAt(a, side).decision.Some? && EndAt(a, side).localYes
    ensures var n := SetEnd(a, side, EndAt(a, side).(decision := None)); OnTrack(n) && Left(n) < Left(a)
  {
    AnsweredTwice(EndAt(a, side), true, None);
    var e := EndAt(a, side);
    assert Mail(e.(decision := None), InboxAt(a, side)) == Mail(e, InboxAt(a, side));
    hide EventFor, Made, ValidTokenFormat;
  }

  lemma DiallerAccepts(a: Attempt, mint: Option<Token>)
    requires OnTrack(a) && a.d.stage.Driving? && a.d.decision.Some? && !a.d.localYes
    ensures var d, f := a.d.(decision := None, localYes := true), Accept(a.d.owner);
            var n := Attempt(d, a.r, a.toR + [f], a.toD);
            && Select(a.d, TakeDecision(true, mint)) == (d, [f]) && OnTrack(n) && Left(n) < Left(a)
  {
    SelectAnswers(a.d, true, mint);
    var d, f := a.d.(decision := None, localYes := true), Accept(a.d.owner);
    assert TakeAnswer(a.d.(decision := None), a.d.decision.value, true, mint) == (d, [f]) by { hide Fail; }
    AcceptIsRead(a.r.device);
    MailSent(a.r, a.toR, f);
    assert Mail(d, a.toD) == Mail(a.d, a.toD);
    assert [] + [EvAccept] == [EvAccept];
    hide Select, EventFor, Made, ValidTokenFormat, TakeAnswer, Readable;
  }

  lemma AnswererAccepts(a: Attempt, t: Token)
    requires OnTrack(a) && a.r.stage.Driving? && a.r.decision.Some? && !a.r.localYes && ValidTokenFormat(t)
    ensures var m, f := a.r.(decision := None, localYes := true), Accept(a.r.owner);
            var r := if m.remoteYes then m.(stage := Completing(t)) else m;
            var n := Attempt(a.d, r, a.toR, a.toD + [f]);
            && Select(a.r, TakeDecision(true, Some(t))) == (r, [f]) && OnTrack(n) && Left(n) < Left(a)
  {
    SelectAnswers(a.r, true, Some(t));
    var m, f := a.r.(decision := None, localYes := true), Accept(a.r.owner);
    var r := if m.remoteYes then m.(stage := Completing(t)) else m;
    assert TakeAnswer(a.r.(decision := None), a.r.decision.value, true, Some(t)) == (r, [f]) by { hide Fail; }
    AcceptIsRead(a.d.device);
    MailSent(a.d, a.toD, f);
    assert Mail(r, a.toR) == Mail(a.r, a.toR);
    assert [] + [EvAccept] == [EvAccept] + [];
    hide Select, EventFor, Made, ValidTokenFormat, TakeAnswer, Readable;
  }

  // -- the actions after the outcome --------------------------------------------------------------------------------

  /** The next action of an end that succeeds. */
  function Succeeds(e: End): End {
    match e.stage
    case Completing(t) => e.(stored := Some(t), saved := true, stage := Stored(t))
    case Stored(t) => e.(paired := true, stage := Announced)
    case Announced => e.(stage := Reported, results := e.results + [Success])
    case Reported => e.(done := true)
    case _ => e
  }

  lemma FinishSucceeds(e: End)
    requires Eager(e) && !e.stage.Driving?
    ensures Finish(e, true)
         == (Succeeds(e), if e.stage.Stored? && e.responder then [Paired(e.stage.token)] else [])
  {
    hide Fail, ValidTokenFormat;
  }

  lemma SucceedsEagerly(e: End)
    requires Eager(e) && !e.stage.Driving?
    ensures Eager(Succeeds(e)) && !Succeeds(e).stage.Driving? && Agreed(Succeeds(e)) == Agreed(e)
    ensures Succeeds(e).events == e.events && Succeeds(e).device == e.device && Succeeds(e).owner == e.owner
    ensures Succeeds(e).localYes == e.localYes && Succeeds(e).remoteYes == e.remoteYes
    ensures Succeeds(e).responder == e.responder && (e.stored.Some? ==> Succeeds(e).stored == e.stored)
    ensures Gone(Succeeds(e)) <==> Gone(e) || e.stage.Stored?
    ensures if e.done then Succeeds(e) == e else Work(Succeeds(e)) + 4 <= Work(e)
  {
    hide ValidTokenFormat;
  }

  lemma DiallerProceeds(a: Attempt)
    requires OnTrack(a) && !a.d.stage.Driving?
    ensures var n := a.(d := Succeeds(a.d));
            && Finish(a.d, true) == (n.d, []) && OnTrack(n) && (if a.d.done then n == a else Left(n) < Left(a))
  {
    FinishSucceeds(a.d);
    SucceedsEagerly(a.d);
    assert Mail(Succeeds(a.d), a.toD) == Mail(a.d, a.toD);
    hide Finish, Succeeds, Eager, Work, EventFor, Made, Agreed;
  }

  lemma AnswererProceeds(a: Attempt)
    requires OnTrack(a) && !a.r.stage.Driving?
    ensures var sent := if a.r.stage.Stored? then [Paired(a.r.stage.token)] else [];
            var n := Attempt(a.d, Succeeds(a.r), a.toR, a.toD + sent);
            && Finish(a.r, true) == (n.r, sent) && OnTrack(n) && (if a.r.done then n == a else Left(n) < Left(a))
  {
    FinishSucceeds(a.r);
    SucceedsEagerly(a.r);
    assert Mail(Succeeds(a.r), a.toR) == Mail(a.r, a.toR);
    if a.r.stage.Stored? {
      StoredToken(a.r);
      TokenIsRead(a.d.device, a.r.stage.token);
      MailSent(a.d, a.toD, Paired(a.r.stage.token));
    } else {
      assert a.toD + [] == a.toD;
    }
    hide Finish, Succeeds, Eager, Work, EventFor, Made, Agreed, ValidTokenFormat, Readable, Mail;
  }

  lemma StoredToken(e: End)
    requires Eager(e) && e.stage.Stored?
    ensures e.stored == Some(e.stage.token) && !Gone(e) && ValidTokenFormat(e.stage.token)
  {
    hide ValidTokenFormat;
  }

  // -- any step ---------------------------------------------------------------------------------------------------

  function HeadAt(a: Attempt, side: bool): Option<Frame> {
    if InboxAt(a, side) == [] then None else Some(InboxAt(a, side)[0])
  }

  /** The attempt after a step of one of its ends. */
  function Stepped(h: Hash, a: Attempt, side: bool, m: Move, free: Id -> bool, mine: bool): Attempt {
    Apply(a, side, Act(h, EndAt(a, side), HeadAt(a, side), m, free, mine))
  }

  /** There is something for this move to do. */
  predicate HasWork(e: End, inbox: seq<Frame>, m: Move) {
    match m
    case Turn(c) =>
      e.stage.Driving? && ((c.TakeDecision? && e.decision.Some?) || (c.TakeEvent? && e.events != []))
    case Proceed(_) => !e.stage.Driving? && !e.done
    case Loop => inbox != []
    case _ => false
  }

  /** Still on its way; and nothing has happened, or there is less left to do, as there is if there was work. */
  predicate Nearer(a: Attempt, n: Attempt, work: bool) {
    OnTrack(n) && (n == a || Left(n) < Left(a)) && (work ==> Left(n) < Left(a))
  }

  lemma DiallerTurns(a: Attempt, c: Choice)
    requires OnTrack(a) && AttemptInv(a) && a.d.stage.Driving? && Benign(Turn(c))
    ensures Nearer(a, Apply(a, false, Kept(Select(a.d, c))), HasWork(a.d, a.toD, Turn(c)))
  {
    assert a.toR + [] == a.toR;
    match c
    case SocketDone => assert a.d.alive; hide OnTrack;
    case TakeDecision(ok, mint) =>
      if a.d.decision.Some? {
        if a.d.localYes {
          AnsweredTwice(a.d, ok, mint) by { hide Eager; }
          AnswersOnTrack(a, false);
        } else {
          DiallerAccepts(a, mint);
        }
      }
      hide OnTrack, Left, TakeAnswer, ValidTokenFormat;
    case TakeEvent(mint) =>
      if a.d.events != [] {
        if a.d.events[0].EvAccept? { DiallerHears(a, mint); } else { DiallerAgrees(a, mint); }
      }
      hide OnTrack, Left, TakeRemote, ValidTokenFormat, AttemptInv;
  }

  lemma AnswererTurns(a: Attempt, c: Choice)
    requires OnTrack(a) && a.r.stage.Driving? && Benign(Turn(c))
    ensures Nearer(a, Apply(a, true, Kept(Select(a.r, c))), HasWork(a.r, a.toR, Turn(c)))
  {
    assert a.toD + [] == a.toD;
    match c
    case SocketDone => assert a.r.alive; hide OnTrack;
    case TakeDecision(ok, mint) =>
      if a.r.decision.Some? {
        if a.r.localYes {
          AnsweredTwice(a.r, ok, mint) by { hide Eager; }
          AnswersOnTrack(a, true);
        } else {
          AnswererAccepts(a, mint.value);
        }
      }
      hide OnTrack, Left, TakeAnswer, ValidTokenFormat;
    case TakeEvent(mint) =>
      if a.r.events != [] { AnswererHears(a, mint.value); }
      hide OnTrack, Left, TakeRemote, ValidTokenFormat;
  }

  lemma SameAttempt(a: Attempt, side: bool)
    ensures Apply(a, side, Kept((EndAt(a, side), []))) == a
  {
    assert a.toR + [] == a.toR && a.toD + [] == a.toD;
  }

  /** An end that has left its select reads nothing more: nothing comes. */
  lemma NothingComes(a: Attempt, side: bool)
    requires OnTrack(a) && !EndAt(a, side).stage.Driving?
    ensures InboxAt(a, side) == []
  {
    if !side && a.toD != [] { DiallerReads(a); }
    if side && a.toR != [] { AnswererReads(a); }
    ReadableCounts(a.d.device, a.toD);
    ReadableCounts(a.r.device, a.toR);
    hide Eager, EventFor, ReadFrame, Left;
  }

  lemma DiallerNearer(h: Hash, a: Attempt, m: Move, free: Id -> bool, mine: bool)
    requires OnTrack(a) && AttemptInv(a) && Benign(m) && (!a.d.done ==> mine)
    ensures Nearer(a, Stepped(h, a, false, m, free, mine), HasWork(a.d, a.toD, m))
  {
    var x := Input(HeadAt(a, false), m, free, mine);
    SameAttempt(a, false);
    assert a.toR + [] == a.toR;
    if a.d.stage.Driving? {
      DrivingMoves(h, a.d, x);
      match m
      case Turn(c) => DiallerTurns(a, c); hide OnTrack, AttemptInv, Act, Select, Left;
      case Loop => if a.toD != [] { DiallerReads(a); } hide OnTrack, AttemptInv, Act, ReadFrame, Left;
      case _ => hide OnTrack, AttemptInv, Act, Left;
    } else {
      NothingComes(a, false);
      assert Chosen(a.d) by { hide ValidTokenFormat, AttemptInv; }
      OnlyTheRest(h, a.d, x);
      if m.Proceed? { DiallerProceeds(a); }
      hide OnTrack, AttemptInv, Act, Finish, Left, Succeeds;
    }
  }

  lemma AnswererNearer(h: Hash, a: Attempt, m: Move, free: Id -> bool, mine: bool)
    requires OnTrack(a) && Benign(m) && (!a.r.done ==> mine)
    ensures Nearer(a, Stepped(h, a, true, m, free, mine), HasWork(a.r, a.toR, m))
  {
    var x := Input(HeadAt(a, true), m, free, mine);
    SameAttempt(a, true);
    assert a.toD + [] == a.toD;
    if a.r.stage.Driving? {
      DrivingMoves(h, a.r, x);
      match m
      case Turn(c) => AnswererTurns(a, c); hide OnTrack, Act, Select, Left;
      case Loop => if a.toR != [] { AnswererReads(a); } hide OnTrack, Act, ReadFrame, Left;
      case _ => hide OnTrack, Act, Left;
    } else {
      NothingComes(a, true);
      assert Chosen(a.r) by { hide ValidTokenFormat; }
      OnlyTheRest(h, a.r, x);
      if m.Proceed? { AnswererProceeds(a); }
      hide OnTrack, Act, Finish, Left, Succeeds;
    }
  }
}
