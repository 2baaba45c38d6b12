/**
 * That an accept and a token arrive: what is under way between the two ends of an attempt, and that once both humans
 * have accepted and nothing goes wrong both ends store the same token and both say so.
 */
module PairingDelivery {
  import opened Common
  import opened PairingCode
  import opened PairingSpec
  import opened PairingInvariant
  import opened PairingWorld
  import opened PairingTheorems
  import opened PairingAnswers
  import opened PairingForget
  import opened PairingPost

  // -- what is under way -----------------------------------------------------------------------------------

  /** At most one accept of the other side is under way, waiting or taken. */
  predicate Counted(me: End, inbox: seq<Frame>, other: End) {
    AcceptsIn(inbox) + Yeses(me.events) + One(me.remoteYes) <= One(other.localYes)
  }

  /** And one there is, while the other side is in its select, unless all is over here. */
  predicate Heard(me: End, inbox: seq<Frame>, other: End) {
    other.stage.Driving? && other.localYes ==>
      me.remoteYes || EvAccept in me.events || Accept(other.owner) in inbox || Deaf(me)
  }

  /** What may be under way to the dialling end, and when. */
  predicate ToDialler(a: Attempt) {
    && (forall i :: 0 <= i < |a.toD| ==> !a.toD[i].Hello? && (a.toD[i].Accept? ==> a.toD[i].id == a.r.owner))
    && Offers(a.toD) <= One(Public(a.r)) && (a.d.shown.Some? ==> Offers(a.toD) == 0)
  }

  /** And to the answering one. */
  predicate ToAnswerer(a: Attempt) {
    && (forall i :: 0 <= i < |a.toR| ==>
          !a.toR[i].Required? && !a.toR[i].Paired? && (a.toR[i].Accept? ==> a.toR[i].id == a.d.owner))
    && Hellos(a.toR) <= 1 && (!a.r.stage.Waiting? && !a.r.stage.Refused? ==> Hellos(a.toR) == 0)
    && (a.d.stage.Dialling? ==> Hellos(a.toR) == 0 && (a.r.stage.Waiting? || a.r.stage.Refused?))
  }

  predicate Undecided(r: End) { r.stage.Driving? ==> !(r.localYes && r.remoteYes) }

  predicate MailOk(a: Attempt) {
    && Counted(a.d, a.toD, a.r) && Counted(a.r, a.toR, a.d)
    && Heard(a.d, a.toD, a.r) && Heard(a.r, a.toR, a.d)
    && ToDialler(a) && ToAnswerer(a) && Undecided(a.r) && LinkOk(a.d) && LinkOk(a.r)
  }

  /** All that is known of both ends of an attempt of the world. */
  predicate Known(a: Attempt) { AttemptInv(a) && BufferOk(a.d) && BufferOk(a.r) && MailOk(a) }

  lemma KnownPosts(a: Attempt, side: bool)
    requires Known(a)
    ensures PostInv(EndAt(a, side))
  {
    ReadyAt(a, side);
    hide Agrees, InboxOk, EventsOk, BeliefOk, OnlyCancels, Counted, Heard, ToDialler, ToAnswerer, ValidTokenFormat;
    hide ValidCodeFormat;
  }

  // -- one step of one end, for what is under way to either ---------------------------------------------------

  lemma HeadOf(q: seq<Frame>)
    requires q != []
    ensures AcceptsIn(q) == One(q[0].Accept?) + AcceptsIn(q[1..])
    ensures Hellos(q) == One(q[0].Hello?) + Hellos(q[1..]) && Offers(q) == One(q[0].Required?) + Offers(q[1..])
  {
  }

  function RestOf(q: seq<Frame>, took: bool): seq<Frame>
    requires took ==> q != []
  {
    if took then q[1..] else q
  }

  lemma CountedTaker(e: End, x: Effect, inbox: seq<Frame>, other: End)
    requires Counted(e, inbox, other) && (x.took ==> inbox != [])
    requires Takes(e, x.e, if x.took then Some(inbox[0]) else None)
    ensures Counted(x.e, RestOf(inbox, x.took), other)
  {
    if x.took { HeadOf(inbox); }
    hide Doomed, Yeses, AcceptsIn, Deaf;
  }

  lemma CountedSender(e: End, x: Effect, other: End, inbox: seq<Frame>)
    requires Counted(other, inbox, e) && Sends(e, x.e, x.sent)
    ensures Counted(other, inbox + x.sent, x.e)
  {
    CountAppend(inbox, x.sent);
    if x.sent != [] { assert x.sent == [x.sent[0]]; CountOne(x.sent[0]); } else { CountOne(Hello("")); }
    hide Yeses, AcceptsIn;
  }

  /** The buffer has room for an accept, or holds one, or something that ends it all. */
  lemma RoomForOne(e: End, other: End)
    requires |e.events| <= EVENT_CAPACITY && EventsOk(e.events, other)
    requires other.stage.Driving? && EndInv(other) && EvAccept !in e.events
    ensures |e.events| < EVENT_CAPACITY || Doomed(e.events)
  {
    assert other.stored.None?;
    if |e.events| > 0 {
      assert EventOk(e.events[0], other);
      assert e.events[0] != EvAccept;
    }
    hide EndInv;
  }

  lemma HeardTaker(e: End, x: Effect, inbox: seq<Frame>, other: End)
    requires Heard(e, inbox, other) && (x.took ==> inbox != [])
    requires Takes(e, x.e, if x.took then Some(inbox[0]) else None)
    requires |e.events| <= EVENT_CAPACITY && EventsOk(e.events, other) && EndInv(other)
    ensures Heard(x.e, RestOf(inbox, x.took), other)
  {
    if other.stage.Driving? && other.localYes {
      if EvAccept !in e.events { RoomForOne(e, other); }
      if Accept(other.owner) in inbox && x.took && inbox[0] != Accept(other.owner) {
        assert Accept(other.owner) in inbox[1..];
      }
    }
    hide EndInv, Yeses, Doomed, Deaf, EventsOk;
  }

  lemma HeardSender(e: End, x: Effect, other: End, inbox: seq<Frame>)
    requires Heard(other, inbox, e) && Sends(e, x.e, x.sent)
    ensures Heard(other, inbox + x.sent, x.e)
  {
    if x.e.stage.Driving? && x.e.localYes && !e.localYes { assert (inbox + x.sent)[|inbox|] == Accept(e.owner); }
    hide Deaf;
  }

  lemma DiallerSteps(a: Attempt, x: Effect)
    requires Known(a) && (x.took ==> a.toD != []) && Grows(a.d, x.e)
    requires Sends(a.d, x.e, x.sent) && Marks(a.d, x.e, if x.took then Some(a.toD[0]) else None)
    ensures ToDialler(Apply(a, false, x)) && ToAnswerer(Apply(a, false, x))
  {
    if x.took { HeadOf(a.toD); }
    CountAppend(a.toR, x.sent);
    if x.sent != [] { assert x.sent == [x.sent[0]]; CountOne(x.sent[0]); } else { CountOne(Hello("")); }
    hide AttemptInv, BufferOk, Counted, Heard, Public, Hellos, Offers, Undecided, LinkOk, Grows;
    assert a.r.responder && !a.d.responder by { SidesOf(a); }
  }

  lemma SidesOf(a: Attempt)
    requires AttemptInv(a)
    ensures a.r.responder && !a.d.responder
    ensures a.d.shown.Some? ==> Public(a.r)
  {
    hide EndInv, InboxOk, EventsOk;
  }

  lemma AnswererSteps(a: Attempt, x: Effect)
    requires Known(a) && (x.took ==> a.toR != []) && Grows(a.r, x.e)
    requires Sends(a.r, x.e, x.sent) && Marks(a.r, x.e, if x.took then Some(a.toR[0]) else None)
    ensures ToDialler(Apply(a, true, x)) && ToAnswerer(Apply(a, true, x))
  {
    if x.took { HeadOf(a.toR); }
    CountAppend(a.toD, x.sent);
    if x.sent != [] { assert x.sent == [x.sent[0]]; CountOne(x.sent[0]); } else { CountOne(Hello("")); }
    SidesOf(a);
    hide AttemptInv, BufferOk, Counted, Heard, Hellos, Offers, Undecided, LinkOk;
  }

  lemma StepsKeep(a: Attempt, side: bool, x: Effect)
    requires Known(a) && (x.took ==> InboxAt(a, side) != []) && Grows(EndAt(a, side), x.e)
    requires Posts(EndAt(a, side), x, if InboxAt(a, side) == [] then None else Some(InboxAt(a, side)[0]))
    requires Marks(EndAt(a, side), x.e, if x.took then Some(InboxAt(a, side)[0]) else None)
    ensures MailOk(Apply(a, side, x))
  {
    var e, o := EndAt(a, side), EndAt(a, !side);
    ReadyAt(a, side);
    ReadyAt(a, !side);
    hide AttemptInv, EndInv, EventsOk, InboxOk, BeliefOk, Takes, Sends, Marks, Grows, Counted, Heard, ToDialler;
    hide ToAnswerer, OnlyCancels;
    CountedTaker(e, x, InboxAt(a, side), o);
    CountedSender(e, x, o, InboxAt(a, !side));
    HeardTaker(e, x, InboxAt(a, side), o);
    HeardSender(e, x, o, InboxAt(a, !side));
    if side { AnswererSteps(a, x); } else { DiallerSteps(a, x); }
    StillUndecided(a, side, x);
  }

  lemma StillUndecided(a: Attempt, side: bool, x: Effect)
    requires MailOk(a) && Posts(EndAt(a, side), x, if InboxAt(a, side) == [] then None else Some(InboxAt(a, side)[0]))
    requires x.took ==> InboxAt(a, side) != []
    requires a.r.responder
    ensures var n := Apply(a, side, x); Undecided(n.r) && LinkOk(n.d) && LinkOk(n.r)
  {
    hide Counted, Heard, ToDialler, ToAnswerer, Doomed, Yeses, Deaf;
  }

  // -- every event of the world ---------------------------------------------------------------------------------

  lemma MovedMail(h: Hash, w: World, i: nat, side: bool, m: Move)
    requires WorldInv(w) && BuffersOk(w) && i < |w.attempts| && MailOk(w.attempts[i])
    ensures MailOk(Moved(h, w, i, side, m).attempts[i])
  {
    var a := w.attempts[i];
    var e, inbox := EndAt(a, side), InboxAt(a, side);
    var head := if inbox == [] then None else Some(inbox[0]);
    var x := StepEffect(h, w, i, side, m);
    var input := Input(head, m, x => (e.owner, x) !in w.pending, PendingAt(w, KeyOf(e)) == Some((i, side)));
    assert Known(a) by { assert BufferOk(EndAt(a, false)) && BufferOk(EndAt(a, true)); hide BufferOk, MailOk; }
    EffectKeeps(h, w, i, side, m);
    assert Grows(e, x.e) by { hide Grows, Act; }
    KnownPosts(a, side);
    ActPosts(h, e, input);
    ActMarks(h, e, input);
    hide Act, WorldInv, BuffersOk, Known, MailOk, Posts, Marks, Grows, Keeps, PostInv;
    StepsKeep(a, side, x);
    hide PendingAfter, TrustAfter, Apply;
  }

  lemma PushMail(me: End, inbox: seq<Frame>, other: End, r: Reason)
    requires Counted(me, inbox, other) && Heard(me, inbox, other)
    ensures Counted(Push(me, EvCancelled(r)), inbox, other) && Heard(Push(me, EvCancelled(r)), inbox, other)
  {
    PairingPost.YesAppend(me.events, EvCancelled(r));
    DoomedPush(me.events, EvCancelled(r));
    hide Doomed, Yeses, AcceptsIn;
  }

  /** Telling an end to stop, or answering it: nothing that is under way changes. */
  lemma ToldMail(a: Attempt, side: bool, d: Decision)
    requires MailOk(a)
    ensures MailOk(SetEnd(a, side, Push(EndAt(a, side), EvCancelled(DECLINED))))
    ensures MailOk(SetEnd(a, side, Answer(EndAt(a, side), d).0))
  {
    PushMail(EndAt(a, side), InboxAt(a, side), EndAt(a, !side), DECLINED);
    ToldSame(EndAt(a, side), d);
    hide Yeses, AcceptsIn, Hellos, Offers, DECLINED, Push, Answer, Doomed;
  }

  lemma ToldSame(e: End, d: Decision)
    ensures var n := Push(e, EvCancelled(DECLINED)); n == e.(events := n.events)
    ensures var n := Answer(e, d).0; n == e.(decision := n.decision)
  {
    PushedSame(e, EvCancelled(DECLINED));
    hide DECLINED, Push;
    if e.done || e.decision.Some? {
      assert Answer(e, d).0 == e;
    } else {
      assert Answer(e, d).0 == e.(decision := Some(d));
    }
  }

  lemma PushedSame(e: End, ev: PairEvent)
    ensures Push(e, ev) == e.(events := Push(e, ev).events)
  {
    if |e.events| < EVENT_CAPACITY {
      assert Push(e, ev) == e.(events := e.events + [ev]);
    } else {
      assert Push(e, ev) == e;
    }
  }

  lemma {:induction false} CutMail(q: seq<Frame>, keep: nat)
    ensures var left := if keep < |q| then q[..keep] else q;
            AcceptsIn(left) <= AcceptsIn(q) && Hellos(left) <= Hellos(q) && Offers(left) <= Offers(q)
    ensures forall f :: f in (if keep < |q| then q[..keep] else q) ==> f in q
  {
    if keep < |q| { CountPrefix(q, keep); }
  }

  lemma UnlinkedIsDialling(a: Attempt)
    requires AttemptInv(a) && LinkOk(a.d) && LinkOk(a.r)
    ensures a.r.linked && (a.d.linked || a.d.stage.Dialling? || Chosen(a.d) || a.d.stage.Refused?)
  {
    hide Agrees, ValidTokenFormat, ValidCodeFormat;
  }

  lemma DeadHears(e: End, inbox: seq<Frame>, left: seq<Frame>, other: End)
    requires Heard(e, inbox, other) && (e.linked || Chosen(e) || e.stage.Refused? || !other.stage.Driving?)
    ensures Heard(e.(alive := false), left, other)
  {
    hide Doomed;
  }

  lemma DiedMail(a: Attempt, side: bool, keep: nat)
    requires MailOk(a) && AttemptInv(a)
    ensures MailOk(Died(a, side, keep))
  {
    CutMail(InboxAt(a, side), keep);
    UnlinkedIsDialling(a);
    DeadHears(EndAt(a, side), InboxAt(a, side), InboxAt(Died(a, side, keep), side), EndAt(a, !side));
    hide Yeses, AcceptsIn, Hellos, Offers, Doomed, Public, Deaf, AttemptInv;
  }

  lemma BornMail(owner: Id, device: Id, answering: Id)
    ensures MailOk(Attempt(NewDialer(owner, device), NewResponder(answering), [], []))
    ensures MailOk(Attempt(TokenDialer(owner, device), NewResponder(answering), [Hello(owner)], []))
  {
    CountOne(Hello(owner));
  }

  ghost predicate MailsOk(w: World) { forall i :: 0 <= i < |w.attempts| ==> MailOk(w.attempts[i]) }

  lemma BuffersMail(w: World, k: Key, d: Decision)
    requires MailsOk(w)
    ensures MailsOk(Confirmed(w, k, d)) && MailsOk(Cancelled(w, k))
  {
    if k in w.pending && w.pending[k].0 < |w.attempts| {
      ToldMail(w.attempts[w.pending[k].0], w.pending[k].1, d);
    }
    hide MailOk, Push, Answer, DECLINED;
  }

  lemma NextMail(h: Hash, w: World, ev: Event)
    requires WorldInv(w) && BuffersOk(w) && MailsOk(w)
    ensures MailsOk(Next(h, w, ev))
  {
    hide MailOk, WorldInv, BuffersOk, Moved, Died, Confirmed, Cancelled;
    match ev
    case StartPairing(o, x, answering) => BornMail(o, x, answering);
    case TokenDial(o, x, answering) => BornMail(o, x, answering);
    case Step(i, side, m) =>
      if i < |w.attempts| {
        MovedMail(h, w, i, side, m);
        Elsewhere(h, w, i, side, m);
      }
    case Confirm(o, x, d) => BuffersMail(w, (o, x), d);
    case Cancel(o, x) => BuffersMail(w, (o, x), Decision(true, ""));
    case Remove(o, x) =>
    case Die(i, side, keep) => if i < |w.attempts| { DiedInWorld(w, i, side, keep); }
  }

  lemma DiedInWorld(w: World, i: nat, side: bool, keep: nat)
    requires WorldInv(w) && i < |w.attempts| && MailOk(w.attempts[i])
    ensures MailOk(Died(w.attempts[i], side, keep))
  {
    DiedMail(w.attempts[i], side, keep);
    hide AttemptInv, MailOk, PendingInv, TrustInv, Died;
  }

  lemma Elsewhere(h: Hash, w: World, i: nat, side: bool, m: Move)
    requires i < |w.attempts|
    ensures var v := Moved(h, w, i, side, m);
            |v.attempts| == |w.attempts|
            && forall j :: 0 <= j < |w.attempts| && j != i ==> v.attempts[j] == w.attempts[j]
  {
    hide Act, PendingAfter, TrustAfter;
  }

  lemma {:induction false} RunMail(h: Hash, evs: seq<Event>)
    ensures MailsOk(Run(h, evs))
  {
    if evs != [] {
      RunMail(h, evs[..|evs| - 1]);
      RunKeeps(h, evs[..|evs| - 1]);
      RunBuffers(h, evs[..|evs| - 1]);
      NextMail(h, Run(h, evs[..|evs| - 1]), evs[|evs| - 1]);
      hide WorldInv, Next, BuffersOk, MailsOk;
    }
  }

  lemma RunKnown(h: Hash, evs: seq<Event>, i: nat)
    requires i < |Run(h, evs).attempts|
    ensures Known(Run(h, evs).attempts[i])
  {
    RunMail(h, evs);
    RunKeeps(h, evs);
    RunBuffers(h, evs);
    var w := Run(h, evs);
    assert BufferOk(EndAt(w.attempts[i], false)) && BufferOk(EndAt(w.attempts[i], true));
    hide Run, AttemptInv, BufferOk, MailOk, PendingInv, TrustInv;
  }

  // -- the token ----------------------------------------------------------------------------------------------------

  /**
   * The token the answering end has sent is on its way to the dialling one, waiting there, in its hands or stored; or
   * that end has decided, lost its socket, or holds something that ends its pairing.
   */
  predicate TokenHere(a: Attempt, t: Token) {
    || Paired(t) in a.toD || EvPaired(t) in a.d.events || Agreed(a.d) == Some(t)
    || Chosen(a.d) || !a.d.alive || Doomed(a.d.events)
  }

  predicate Holds(a: Attempt, t: Token) { a.r.stored == Some(t) && TokenHere(a, t) }

  /** A dialling end in its select, whatever it does: the token is taken, or stays where it is. */
  lemma SelectKeepsToken(e: End, c: Choice, t: Token)
    requires e.stage.Driving? && (EvPaired(t) in e.events || Doomed(e.events))
    ensures var n := Select(e, c).0; Chosen(n) || EvPaired(t) in n.events || Doomed(n.events)
  {
    hide Fail, TakeAnswer, AfterSelect, INTERNAL, UNREACHABLE, TIMEOUT, Doomed;
    match c
    case TakeDecision(ok, mint) =>
      if e.decision.Some? {
        AnswerRest(e.(decision := None), e.decision.value, ok, mint);
        AnswerKeepsMail(e, ok, mint);
      }
    case TakeEvent(mint) =>
      if e.events != [] {
        if !e.events[0].EvReject? && !e.events[0].EvCancelled? { DoomedRest(e.events); }
        RemoteKeepsMail(e, mint);
        if EvPaired(t) in e.events && e.events[0] != EvPaired(t) { assert EvPaired(t) in e.events[1..]; }
      }
      hide TakeRemote;
    case _ =>
      FailPosts(e, INTERNAL, true);
      FailPosts(e, UNREACHABLE, false);
      FailPosts(e, TIMEOUT, true);
  }

  lemma AnswerKeepsMail(e: End, ok: bool, mint: Option<Token>)
    requires e.stage.Driving? && e.decision.Some?
    ensures TakeAnswer(e.(decision := None), e.decision.value, ok, mint).0.events == e.events
  {
    hide Fail, AfterSelect, UNREACHABLE;
    FailPosts(e.(decision := None), e.decision.value.reason, true);
    FailPosts(e.(decision := None, localYes := true, alive := false), UNREACHABLE, false);
    AfterPosts(e.(decision := None, localYes := true), mint);
  }

  lemma TokenDecides(m: End, t: Token)
    ensures Chosen(TakeRemote(m, EvPaired(t), None))
  {
    FailPosts(m, INTERNAL, true);
    hide Fail, AfterSelect, INTERNAL;
  }

  lemma RemoteKeepsMail(e: End, mint: Option<Token>)
    requires e.stage.Driving? && e.events != []
    ensures var n := TakeRemote(e.(events := e.events[1..]), e.events[0], mint);
            Chosen(n) || (e.events[0].EvAccept? && n.events == e.events[1..])
  {
    hide Fail, AfterSelect, TakeRemote, Chosen;
    var m := e.(events := e.events[1..]);
    RemoteIs(m, e.events[0], mint);
    match e.events[0]
    case EvAccept => AfterPosts(m.(remoteYes := true), mint);
    case EvReject(r) => FailPosts(m, r, false);
    case EvCancelled(r) => FailPosts(m, r, true);
    case EvPaired(t) => TokenDecides(m, t);
  }

  lemma FullOfYeses(evs: seq<PairEvent>)
    requires forall i :: 0 <= i < |evs| ==> evs[i].EvAccept?
    ensures Yeses(evs) == |evs|
  {
    if evs != [] { FullOfYeses(evs[1..]); }
  }

  /** A token read from the socket finds room, or the buffer holds what makes it needless. */
  lemma RoomForToken(a: Attempt, t: Token)
    requires Known(a) && a.r.stored == Some(t)
    ensures |a.d.events| < EVENT_CAPACITY || EvPaired(t) in a.d.events || Doomed(a.d.events)
  {
    var e := a.d;
    if |e.events| >= EVENT_CAPACITY && !Doomed(e.events) {
      if i: nat :| i < |e.events| && e.events[i].EvPaired? {
        assert EventOk(e.events[i], a.r);
        assert e.events[i] == EvPaired(t);
      } else {
        FullOfYeses(e.events);
      }
    }
    hide EndInv, Heard, ToDialler, ToAnswerer, Yeses, AcceptsIn, OnlyCancels;
  }

  lemma StoredIsHeard(a: Attempt)
    requires AttemptInv(a) && a.r.stored.Some?
    ensures a.d.localYes && !Early(a.d.stage) && a.d.shown.Some? && ValidTokenFormat(a.r.stored.value)
  {
    hide InboxOk, EventsOk, ResultOk, StageOk, ValidTokenFormat, ValidCodeFormat;
  }

  lemma ReadKeepsToken(a: Attempt, f: Frame, mine: bool, t: Token)
    requires Known(a) && a.r.stored == Some(t) && TokenHere(a, t) && !Chosen(a.d)
    requires a.toD != [] && a.toD[0] == f
    ensures TokenHere(a.(d := ReadFrame(a.d, f, mine), toD := a.toD[1..]), t)
  {
    var e := a.d;
    var n := ReadFrame(e, f, mine);
    StoredIsHeard(a);
    RoomForToken(a, t);
    hide Known, ValidTokenFormat, OrDeclined, Doomed;
    if Paired(t) in a.toD && f != Paired(t) { assert Paired(t) in a.toD[1..]; }
    var ev := EventFor(e.device, f);
    if ev.Some? && |e.events| < EVENT_CAPACITY {
      DoomedPush(e.events, ev.value);
      assert (e.events + [ev.value])[|e.events|] == ev.value;
    }
  }

  /** A step of the dialling end. */
  lemma TokenAtDialler(h: Hash, a: Attempt, x: Input, t: Token)
    requires Known(a) && Holds(a, t) && x.head == (if a.toD == [] then None else Some(a.toD[0]))
    ensures TokenHere(Apply(a, false, Act(h, a.d, x.head, x.m, x.free, x.mine)), t)
  {
    StoredIsHeard(a);
    var y := Act(h, a.d, x.head, x.m, x.free, x.mine);
    if Chosen(a.d) {
      LateStep(h, a.d, x, None);
      hide Act, Known;
    } else {
      DrivingMoves(h, a.d, x);
      hide Act, Select, ReadFrame, Known, Doomed, Agreed;
      match x.m
      case Turn(c) => TurnKeepsToken(a, c, t);
      case Loop => if x.head.Some? { ReadKeepsToken(a, x.head.value, x.mine, t); }
      case _ =>
    }
  }

  lemma TurnKeepsToken(a: Attempt, c: Choice, t: Token)
    requires a.d.stage.Driving? && TokenHere(a, t) && AttemptInv(a)
    ensures TokenHere(a.(d := Select(a.d, c).0), t)
  {
    assert a.d.stored.None? by { hide Agrees, ValidTokenFormat, ValidCodeFormat; }
    hide AttemptInv, Select, Doomed;
    if EvPaired(t) in a.d.events || Doomed(a.d.events) { SelectKeepsToken(a.d, c, t); }
    SelectPosts(a.d, c);
    hide Takes;
  }

  lemma HoldsMoved(h: Hash, w: World, i: nat, side: bool, m: Move, t: Token)
    requires WorldInv(w) && i < |w.attempts| && Known(w.attempts[i]) && Holds(w.attempts[i], t)
    ensures Holds(Moved(h, w, i, side, m).attempts[i], t)
  {
    var a := w.attempts[i];
    var e, inbox := EndAt(a, side), InboxAt(a, side);
    var input := Input(if inbox == [] then None else Some(inbox[0]), m, x => (e.owner, x) !in w.pending,
                       PendingAt(w, KeyOf(e)) == Some((i, side)));
    EffectKeeps(h, w, i, side, m);
    assert Grows(e, StepEffect(h, w, i, side, m).e) by { hide Grows, Act; }
    if !side { TokenAtDialler(h, a, input, t); }
    hide Act, WorldInv, Known, Agreed, Doomed, Keeps, PendingAfter, TrustAfter;
  }

  lemma HoldsTold(a: Attempt, side: bool, d: Decision, t: Token)
    requires Holds(a, t)
    ensures Holds(SetEnd(a, side, Push(EndAt(a, side), EvCancelled(DECLINED))), t)
    ensures Holds(SetEnd(a, side, Answer(EndAt(a, side), d).0), t)
  {
    DoomedPush(EndAt(a, side).events, EvCancelled(DECLINED));
    hide Doomed, DECLINED;
  }

  lemma HoldsNext(h: Hash, w: World, ev: Event, i: nat, t: Token)
    requires WorldInv(w) && i < |w.attempts| && Known(w.attempts[i]) && Holds(w.attempts[i], t)
    ensures i < |Next(h, w, ev).attempts| && Holds(Next(h, w, ev).attempts[i], t)
  {
    hide WorldInv, Known, Moved, Push, Answer, DECLINED, TokenHere;
    match ev
    case Step(j, side, m) =>
      if j < |w.attempts| {
        Elsewhere(h, w, j, side, m);
        if j == i { HoldsMoved(h, w, i, side, m, t); }
      }
      hide Holds;
    case Confirm(o, x, d) =>
      var p := PendingAt(w, (o, x));
      if p.Some? && p.value.0 == i { HoldsTold(w.attempts[i], p.value.1, d, t); }
      hide Holds;
    case Cancel(o, x) =>
      var p := PendingAt(w, (o, x));
      if p.Some? && p.value.0 == i { HoldsTold(w.attempts[i], p.value.1, Decision(true, ""), t); }
      hide Holds;
    case Die(j, side, keep) => if j == i { HoldsDied(w.attempts[i], side, keep, t); } hide Holds, Died;
    case _ => hide Holds;
  }

  lemma HoldsDied(a: Attempt, side: bool, keep: nat, t: Token)
    requires Holds(a, t)
    ensures Holds(Died(a, side, keep), t)
  {
    hide Doomed, Agreed;
  }

  lemma {:induction false} HoldsRun(h: Hash, evs: seq<Event>, more: seq<Event>, i: nat, t: Token)
    requires i < |Run(h, evs).attempts| && Holds(Run(h, evs).attempts[i], t)
    ensures i < |Run(h, evs + more).attempts| && Holds(Run(h, evs + more).attempts[i], t)
    decreases |more|
  {
    hide Next, Holds;
    if more == [] {
      assert evs + more == evs;
    } else {
      assert evs + more == (evs + [more[0]]) + more[1..];
      assert (evs + [more[0]])[..|evs|] == evs;
      assert Run(h, evs + [more[0]]) == Next(h, Run(h, evs), more[0]);
      RunKnown(h, evs, i);
      RunKeeps(h, evs);
      HoldsNext(h, Run(h, evs), more[0], i, t);
      HoldsRun(h, evs + [more[0]], more[1..], i, t);
      hide Run, Known, WorldInv;
    }
  }

  /** The answering end's next action after storing: on a live socket that takes the frame, the token goes out. */
  lemma TokenIsSent(h: Hash, e: End, head: Option<Frame>, free: Id -> bool, mine: bool)
    requires e.stage.Stored? && e.responder && e.alive
    ensures var x := Act(h, e, head, Proceed(true), free, mine);
            x.sent == [Paired(e.stage.token)] && x.e.stage.Announced? && x.e.alive && x.e.stored == e.stored && !x.took
  {
    assert Finish(e, true) == (e.(paired := true, stage := Announced), [Paired(e.stage.token)]);
    hide Finish;
  }

  /**
   * A token is never lost. Once the answering end has stored it and its socket has taken the frame, then in every run
   * from there it is on its way to the dialling end, waiting in its buffer, in its hands or stored; or that end has
   * decided otherwise, lost its socket, or holds what will end its pairing.
   */
  lemma TokenIsOnItsWay(h: Hash, evs: seq<Event>, more: seq<Event>, i: nat, t: Token)
    requires i < |Run(h, evs).attempts|
    requires Run(h, evs).attempts[i].r.stage == Stored(t) && Run(h, evs).attempts[i].r.alive
    ensures var all := evs + [Step(i, true, Proceed(true))] + more;
            && i < |Run(h, all).attempts| && Run(h, all).attempts[i].r.stored == Some(t)
            && TokenHere(Run(h, all).attempts[i], t)
  {
    var w, ev := Run(h, evs), Step(i, true, Proceed(true));
    var a := w.attempts[i];
    RunKeeps(h, evs);
    assert a.r.responder && a.r.stored == Some(t) by {
      ReadyAt(a, true);
      hide InboxOk, EventsOk, BeliefOk, ValidTokenFormat, ValidCodeFormat, Run;
    }
    var head := if a.toR == [] then None else Some(a.toR[0]);
    TokenIsSent(h, a.r, head, x => (a.r.owner, x) !in w.pending, PendingAt(w, KeyOf(a.r)) == Some((i, true)));
    assert (evs + [ev])[..|evs|] == evs;
    assert Run(h, evs + [ev]) == Next(h, w, ev);
    hide Act, Run, WorldInv;
    var b := Run(h, evs + [ev]).attempts[i];
    assert b.toD == a.toD + [Paired(t)] && b.toD[|a.toD|] == Paired(t);
    HoldsRun(h, evs + [ev], more, i, t);
    hide Agreed, Doomed;
  }
}
