/**
 * Why a pairing failed: nobody reports a reason that nothing at either end gave, and a refusal that was sent is not
 * lost on the other side.
 */
module PairingReasons {
  import opened Common
  import opened PairingCode
  import opened PairingSpec
  import opened PairingInvariant
  import opened PairingWorld
  import opened PairingTheorems
  import opened PairingAnswers
  import opened PairingForget
  import opened PairingPost
  import opened PairingDelivery

  // -- the words ----------------------------------------------------------------------------------------------

  function Why(r: Reason): Reason { if r == "" then "declined" else r }

  function Told(ev: PairEvent): Option<Reason> {
    match ev
    case EvReject(r) => Some(Why(r))
    case EvCancelled(r) => Some(Why(r))
    case _ => None
  }

  predicate InEvents(evs: seq<PairEvent>, r: Reason) { exists k :: 0 <= k < |evs| && Told(evs[k]) == Some(r) }

  predicate Refuses(f: Frame, r: Reason) { f.Reject? && Why(f.reason) == r }

  predicate InFrames(q: seq<Frame>, r: Reason) { exists k :: 0 <= k < |q| && Refuses(q[k], r) }

  predicate InResults(vs: seq<Verdict>, r: Reason) {
    exists k :: 0 <= k < |vs| && vs[k].Failure? && Why(vs[k].reason) == r
  }

  /** This end has failed for that reason, or holds what will make it. */
  predicate Carries(e: End, r: Reason) {
    || ((e.stage.Failing? || e.stage.Closed?) && Why(e.stage.reason) == r)
    || InResults(e.results, r)
    || (e.decision.Some? && !e.decision.value.accept && Why(e.decision.value.reason) == r)
    || InEvents(e.events, r)
  }

  // -- what gives a reason ------------------------------------------------------------------------------------

  /** What one firing of the select gives of itself, apart from what it was told. */
  predicate ArmGives(e: End, c: Choice, r: Reason) {
    match c
    case ContextDone => r == "internal"
    case SocketDone => r == "unreachable" && !e.alive
    case TimerFired => r == "timeout"
    case TakeDecision(ok, mint) => (r == "unreachable" && !(e.alive && ok)) || (r == "internal" && mint.None?)
    case TakeEvent(mint) => r == "internal"
  }

  /** What the first frame gives: the answering end by what its limiter says, the dialling one by what it was sent. */
  predicate FirstGives(h: Hash, e: End, f: Frame, gate: Gate, free: Id -> bool, r: Reason) {
    if e.stage.Waiting? then
      f.Hello?
      && match gate
         case WrongVersion => r == "protocol_mismatch"
         case Limited => r == "rate_limited"
         case NonceError => r == "internal"
         case Open(_) => r == "busy" && !free(f.id)
         case Unreadable => false
    else
      || (r == "internal" && !f.Reject?)
      || (r == "code_mismatch" && f.Required? && f.code != Code(h, e.owner, e.device, f.nonce))
  }

  predicate Gives(h: Hash, e: End, x: Input, r: Reason) {
    match x.m
    case Dial(ok) => r == "unreachable" && !ok
    case First(gate) => x.head.Some? && FirstGives(h, e, x.head.value, gate, x.free, r)
    case NoAnswer => r == "unreachable" && !e.responder
    case Turn(c) => ArmGives(e, c, r)
    case Proceed(_) => r == "internal" && e.stage.Completing?
    case _ => false
  }

  /** Every reason after a step was there before, was read from the socket, or is one the step gives. */
  predicate Sourced(e: End, n: End, sent: seq<Frame>, f: Option<Frame>, gives: bool, r: Reason) {
    Carries(n, r) || InFrames(sent, r) ==> Carries(e, r) || (f.Some? && Refuses(f.value, r)) || gives
  }

  // -- one step -----------------------------------------------------------------------------------------------

  lemma FailCarries(e: End, reason: Reason, notify: bool, r: Reason)
    ensures Carries(Fail(e, reason, notify), r) ==> Carries(e, r) || Why(reason) == r
    ensures Carries(Abort(e, reason, notify), r) ==> Carries(e, r) || Why(reason) == r
  {
    hide InEvents, InResults;
  }

  lemma AfterCarries(e: End, mint: Option<Token>, r: Reason)
    ensures Carries(AfterSelect(e, mint), r) ==> Carries(e, r) || (r == "internal" && mint.None?)
  {
    FailCarries(e, INTERNAL, true, r);
    hide InEvents, InResults, Fail;
  }

  /** Nothing about reasons but the stage, which gives none. */
  lemma SameCarries(e: End, n: End, r: Reason)
    requires n.results == e.results && n.decision == e.decision && n.events == e.events
    requires !n.stage.Failing? && !n.stage.Closed?
    ensures Carries(n, r) ==> Carries(e, r)
  {
    hide InEvents, InResults;
  }

  lemma NoFrames(r: Reason)
    ensures !InFrames([], r)
  {
  }

  lemma AnswerCarries(e: End, ok: bool, mint: Option<Token>, r: Reason)
    requires e.stage.Driving? && e.decision.Some?
    ensures var x := TakeAnswer(e.(decision := None), e.decision.value, ok, mint);
            Sourced(e, x.0, x.1, None, ArmGives(e, TakeDecision(ok, mint), r), r)
  {
    var m := e.(decision := None);
    FailCarries(m, e.decision.value.reason, true, r);
    FailCarries(m.(localYes := true, alive := false), UNREACHABLE, false, r);
    AfterCarries(m.(localYes := true), mint, r);
    hide InEvents, InResults, Fail, AfterSelect;
  }

  lemma EventsRest(evs: seq<PairEvent>, r: Reason)
    requires evs != []
    ensures InEvents(evs, r) <==> Told(evs[0]) == Some(r) || InEvents(evs[1..], r)
  {
    if InEvents(evs, r) {
      var k :| 0 <= k < |evs| && Told(evs[k]) == Some(r);
      if k > 0 { assert evs[1..][k - 1] == evs[k]; }
    }
    if InEvents(evs[1..], r) {
      var k :| 0 <= k < |evs[1..]| && Told(evs[1..][k]) == Some(r);
      assert evs[k + 1] == evs[1..][k];
    }
  }

  lemma TakenCarries(e: End, r: Reason)
    requires e.events != []
    ensures Carries(e.(events := e.events[1..]), r) || Told(e.events[0]) == Some(r) ==> Carries(e, r)
  {
    EventsRest(e.events, r);
    hide InEvents, InResults;
  }

  lemma RemoteCarries(m: End, ev: PairEvent, mint: Option<Token>, r: Reason)
    requires m.stage.Driving?
    ensures Carries(TakeRemote(m, ev, mint), r) ==> Carries(m, r) || Told(ev) == Some(r) || r == "internal"
  {
    hide InEvents, InResults, Fail, AfterSelect, Carries, TakeRemote;
    RemoteIs(m, ev, mint);
    match ev
    case EvAccept => AfterCarries(m.(remoteYes := true), mint, r); SameCarries(m, m.(remoteYes := true), r);
    case EvReject(x) => FailCarries(m, x, false, r);
    case EvCancelled(x) => FailCarries(m, x, true, r);
    case EvPaired(t) => TokenCarries(m, t, r);
  }

  lemma TokenCarries(m: End, t: Token, r: Reason)
    requires m.stage.Driving?
    ensures Carries(TakeRemote(m, EvPaired(t), None), r) ==> Carries(m, r) || r == "internal"
  {
    FailCarries(m, INTERNAL, true, r);
    SameCarries(m, m.(stage := Completing(t)), r);
    hide InEvents, InResults, Fail, AfterSelect, Carries;
  }

  lemma EventCarries(e: End, mint: Option<Token>, r: Reason)
    requires e.stage.Driving? && e.events != []
    ensures var n := TakeRemote(e.(events := e.events[1..]), e.events[0], mint);
            Sourced(e, n, [], None, ArmGives(e, TakeEvent(mint), r), r)
  {
    TakenCarries(e, r);
    RemoteCarries(e.(events := e.events[1..]), e.events[0], mint, r);
    NoFrames(r);
    hide Carries, TakeRemote, InFrames, Told;
  }

  lemma SelectCarries(e: End, c: Choice, r: Reason)
    requires e.stage.Driving?
    ensures var x := Select(e, c); Sourced(e, x.0, x.1, None, ArmGives(e, c, r), r)
  {
    hide Carries, Fail, TakeAnswer, TakeRemote, InFrames;
    NoFrames(r);
    match c
    case ContextDone => FailCarries(e, INTERNAL, true, r);
    case SocketDone => FailCarries(e, UNREACHABLE, false, r);
    case TimerFired => FailCarries(e, TIMEOUT, true, r);
    case TakeDecision(ok, mint) => if e.decision.Some? { AnswerCarries(e, ok, mint, r); }
    case TakeEvent(mint) => if e.events != [] { EventCarries(e, mint, r); }
  }

  // -- before the select and after it ---------------------------------------------------------------------------

  lemma FirstCarries(h: Hash, e: End, f: Frame, gate: Gate, free: Id -> bool, r: Reason)
    requires e.stage.Opening?
    ensures Sourced(e, FirstFrame(h, e, f), [], Some(f), FirstGives(h, e, f, gate, free, r), r)
  {
    hide Carries, Abort, InFrames, Code, ValidNonceFormat, ValidCodeFormat;
    NoFrames(r);
    FailCarries(e, INTERNAL, true, r);
    FailCarries(e, CODE_MISMATCH, true, r);
    match f
    case Reject(x) => FailCarries(e, OrDeclined(x), false, r);
    case Required(code, nonce) => ShownCarries(e, nonce, Code(h, e.owner, e.device, nonce), r);
    case _ =>
  }

  lemma ShownCarries(e: End, nonce: string, code: string, r: Reason)
    ensures Carries(e.(nonce := nonce, code := code, shown := Some(code), stage := Driving), r) ==> Carries(e, r)
    ensures Carries(e.(stage := Offered), r) ==> Carries(e, r)
    ensures Carries(e.(linked := true, alive := true, stage := Opening), r) ==> Carries(e, r)
    ensures Carries(Show(e), r) ==> Carries(e, r)
  {
    hide InEvents, InResults;
  }

  lemma RefuseCarries(e: End, answer: seq<Frame>, r: Reason)
    ensures Carries(Refuse(e, answer).0, r) ==> Carries(e, r)
    ensures InFrames(Refuse(e, answer).1, r) ==> InFrames(answer, r)
  {
    hide InEvents, InResults;
  }

  lemma OneRefusal(x: Reason, r: Reason)
    ensures InFrames([Reject(x)], r) <==> Why(x) == r
  {
    assert [Reject(x)][0] == Reject(x);
  }

  lemma BornCarries(e: End, device: Id, nonce: string, code: string, r: Reason)
    ensures Carries(e.(device := device, nonce := nonce, code := code, stage := Opening), r) ==> Carries(e, r)
  {
    hide InEvents, InResults;
  }

  lemma HelloCarries(h: Hash, e: End, f: Frame, gate: Gate, free: Id -> bool, r: Reason)
    requires e.stage.Waiting?
    ensures var x := TakeHello(h, e, f, gate, free);
            Sourced(e, x.0, x.1, Some(f), FirstGives(h, e, f, gate, free, r), r)
  {
    hide Carries, Refuse, InFrames, Code;
    NoFrames(r);
    RefuseCarries(e, [], r);
    RefuseCarries(e, [Reject(PROTOCOL_MISMATCH)], r);
    RefuseCarries(e, [Reject(RATE_LIMITED)], r);
    RefuseCarries(e, [Reject(INTERNAL)], r);
    RefuseCarries(e, [Reject(BUSY)], r);
    OneRefusal(PROTOCOL_MISMATCH, r);
    OneRefusal(RATE_LIMITED, r);
    OneRefusal(INTERNAL, r);
    OneRefusal(BUSY, r);
    if f.Hello? && gate.Open? { BornCarries(e, f.id, gate.nonce, Code(h, e.owner, f.id, gate.nonce), r); }
  }

  lemma ConnectCarries(e: End, ok: bool, r: Reason)
    ensures var x := Connect(e, ok); Sourced(e, x.0, x.1, None, r == "unreachable" && !ok, r)
  {
    hide Carries, Abort;
    FailCarries(e, UNREACHABLE, false, r);
    ShownCarries(e, "", "", r);
  }

  lemma OfferCarries(e: End, ok: bool, r: Reason)
    ensures var x := Offer(e, ok); Sourced(e, x.0, x.1, None, false, r)
  {
    hide Carries;
    ShownCarries(e, "", "", r);
    RefuseCarries(e, [], r);
    NoFrames(r);
  }

  lemma ResultsGrow(vs: seq<Verdict>, v: Verdict, r: Reason)
    ensures InResults(vs + [v], r) ==> InResults(vs, r) || (v.Failure? && Why(v.reason) == r)
  {
    if InResults(vs + [v], r) {
      var k :| 0 <= k < |vs + [v]| && (vs + [v])[k].Failure? && Why((vs + [v])[k].reason) == r;
      if k < |vs| { assert vs[k] == (vs + [v])[k]; }
    }
  }

  lemma FailingCarries(e: End, ok: bool, r: Reason)
    requires e.stage.Failing?
    ensures var x := Finish(e, ok); Sourced(e, x.0, x.1, None, false, r)
  {
    NoFrames(r);
    OneRefusal(e.stage.reason, r);
    hide InEvents, InResults, InFrames;
  }

  lemma CompletingCarries(e: End, ok: bool, r: Reason)
    requires e.stage.Completing?
    ensures var x := Finish(e, ok); Sourced(e, x.0, x.1, None, r == "internal", r)
  {
    var t := e.stage.token;
    NoFrames(r);
    FailCarries(e, INTERNAL, true, r);
    FailCarries(e.(stored := Some(t), saved := false), INTERNAL, true, r);
    SameCarries(e, e.(stored := Some(t), saved := false), r);
    SameCarries(e, e.(stored := Some(t), saved := true, stage := Stored(t)), r);
    hide Carries, InFrames, Fail, ValidTokenFormat;
  }

  lemma StoredCarries(e: End, ok: bool, r: Reason)
    requires e.stage.Stored?
    ensures var x := Finish(e, ok); Sourced(e, x.0, x.1, None, false, r)
  {
    NoFrames(r);
    SameCarries(e, e.(paired := true, stage := Announced), r);
    SameCarries(e, e.(paired := true, stage := Announced, alive := false), r);
    hide Carries;
  }

  lemma FinishCarries(e: End, ok: bool, r: Reason)
    ensures var x := Finish(e, ok); Sourced(e, x.0, x.1, None, r == "internal" && e.stage.Completing?, r)
  {
    match e.stage
    case Failing(_, _) => FailingCarries(e, ok, r); hide Carries, InFrames, Finish;
    case Completing(_) => CompletingCarries(e, ok, r); hide Carries, InFrames, Finish;
    case Stored(_) => StoredCarries(e, ok, r); hide Carries, InFrames, Finish;
    case _ => LastCarries(e, ok, r); hide Carries, InFrames, Finish;
  }

  lemma ReportedCarries(e: End, v: Verdict, r: Reason)
    ensures Carries(e.(stage := Reported, results := e.results + [v]), r) ==>
              Carries(e, r) || (v.Failure? && Why(v.reason) == r)
  {
    ResultsGrow(e.results, v, r);
    hide InEvents, InResults;
  }

  lemma LastCarries(e: End, ok: bool, r: Reason)
    requires !e.stage.Failing? && !e.stage.Completing? && !e.stage.Stored?
    ensures var x := Finish(e, ok); Sourced(e, x.0, x.1, None, false, r)
  {
    NoFrames(r);
    match e.stage
    case Closed(reason) => ReportedCarries(e, Failure(reason), r); ClosedCarries(e); hide Carries;
    case Announced => ReportedCarries(e, Success, r); hide Carries;
    case Reported => DoneCarries(e, r); hide Carries;
    case _ => hide Carries;
  }

  lemma DoneCarries(e: End, r: Reason)
    ensures Carries(e.(done := true), r) ==> Carries(e, r)
  {
    hide InEvents, InResults;
  }

  lemma ClosedCarries(e: End)
    requires e.stage.Closed?
    ensures Carries(e, Why(e.stage.reason))
  {
  }

  lemma EventsGrow(evs: seq<PairEvent>, ev: PairEvent, r: Reason)
    ensures InEvents(evs + [ev], r) ==> InEvents(evs, r) || Told(ev) == Some(r)
  {
    if InEvents(evs + [ev], r) {
      var k :| 0 <= k < |evs + [ev]| && Told((evs + [ev])[k]) == Some(r);
      if k < |evs| { assert evs[k] == (evs + [ev])[k]; }
    }
  }

  lemma PushCarries(e: End, ev: PairEvent, r: Reason)
    ensures Carries(Push(e, ev), r) ==> Carries(e, r) || Told(ev) == Some(r)
  {
    EventsGrow(e.events, ev, r);
    hide InEvents, InResults;
  }

  lemma DeadCarries(e: End, r: Reason)
    ensures Carries(e.(alive := false), r) <==> Carries(e, r)
  {
    hide InEvents, InResults;
  }

  lemma ReadCarries(e: End, f: Frame, mine: bool, r: Reason)
    ensures Sourced(e, ReadFrame(e, f, mine), [], Some(f), false, r)
  {
    NoFrames(r);
    DeadCarries(e, r);
    var ev := EventFor(e.device, f);
    if ev.Some? { PushCarries(e, ev.value, r); }
    hide Carries, Push, InFrames, ValidTokenFormat;
  }

  lemma EarlyCarries(h: Hash, e: End, x: Input, r: Reason)
    requires Early(e.stage)
    ensures var n := Act(h, e, x.head, x.m, x.free, x.mine);
            Sourced(e, n.e, n.sent, if n.took then x.head else None, Gives(h, e, x, r), r)
  {
    hide Carries, FirstFrame, TakeHello, Select, Finish, ReadFrame, Abort, Connect, Offer, Refuse, Show, InFrames;
    hide FirstGives;
    NoFrames(r);
    match x.m
    case First(gate) =>
      if x.head.Some? && e.stage.Waiting? {
        HelloCarries(h, e, x.head.value, gate, x.free, r);
      } else if x.head.Some? && e.stage.Opening? && !e.responder {
        FirstCarries(h, e, x.head.value, gate, x.free, r);
      }
    case NoAnswer => FailCarries(e, UNREACHABLE, false, r); RefuseCarries(e, [], r);
    case Dial(ok) => ConnectCarries(e, ok, r);
    case SendOffer(ok) => OfferCarries(e, ok, r);
    case ShowCode => ShownCarries(e, "", "", r);
    case Proceed(ok) => EarlyStays(e, ok);
    case Loop => if x.head.Some? { ReadCarries(e, x.head.value, x.mine, r); }
    case _ =>
  }

  /** Nobody makes a reason up. */
  lemma ActCarries(h: Hash, e: End, x: Input, r: Reason)
    ensures var n := Act(h, e, x.head, x.m, x.free, x.mine);
            Sourced(e, n.e, n.sent, if n.took then x.head else None, Gives(h, e, x, r), r)
  {
    if Early(e.stage) {
      EarlyCarries(h, e, x, r);
      hide Act, Sourced, Gives;
    } else {
      if e.stage.Driving? { DrivingMoves(h, e, x); } else { OnlyTheRest(h, e, x); }
      hide Act, Select, Finish, ReadFrame, Carries, InFrames, ArmGives;
      NoFrames(r);
      match x.m
      case Turn(c) => if e.stage.Driving? { SelectCarries(e, c, r); }
      case Loop => if x.head.Some? { ReadCarries(e, x.head.value, x.mine, r); }
      case Proceed(ok) => FinishCarries(e, ok, r);
      case _ =>
    }
  }

  // -- in the world ---------------------------------------------------------------------------------------------

  /** Somewhere in this attempt: with one of its ends, or on its way to one. */
  predicate Somewhere(a: Attempt, r: Reason) {
    Carries(a.d, r) || Carries(a.r, r) || InFrames(a.toR, r) || InFrames(a.toD, r)
  }

  predicate ToldBy(w: World, k: Key, i: nat) { k.1 != "" && PendingAt(w, k).Some? && PendingAt(w, k).value.0 == i }

  /**
   * The event is a cause of that reason: a step of one of the attempt's ends that gives it, a human who says no with
   * it, or an order to stop.
   */
  predicate Causes(h: Hash, w: World, ev: Event, i: nat, r: Reason)
    requires i < |w.attempts|
  {
    match ev
    case Step(j, side, m) =>
      var e, inbox := EndAt(w.attempts[i], side), InboxAt(w.attempts[i], side);
      j == i && Gives(h, e, Input(if inbox == [] then None else Some(inbox[0]), m, x => (e.owner, x) !in w.pending,
                                  PendingAt(w, KeyOf(e)) == Some((i, side))), r)
    case Confirm(o, x, d) => ToldBy(w, (o, x), i) && !d.accept && Why(d.reason) == r
    case Cancel(o, x) => ToldBy(w, (o, x), i) && r == "declined"
    case _ => false
  }

  lemma FramesJoin(p: seq<Frame>, q: seq<Frame>, r: Reason)
    ensures InFrames(p + q, r) ==> InFrames(p, r) || InFrames(q, r)
  {
    if InFrames(p + q, r) {
      var k :| 0 <= k < |p + q| && Refuses((p + q)[k], r);
      if k < |p| { assert p[k] == (p + q)[k]; } else { assert q[k - |p|] == (p + q)[k]; }
    }
    hide Refuses;
  }

  lemma FramesPart(q: seq<Frame>, i: nat, j: nat, r: Reason)
    requires i <= j <= |q|
    ensures InFrames(q[i..j], r) ==> InFrames(q, r)
  {
    if InFrames(q[i..j], r) {
      var k :| 0 <= k < |q[i..j]| && Refuses(q[i..j][k], r);
      assert q[i + k] == q[i..j][k];
    }
    hide Refuses;
  }

  lemma HeadRefuses(q: seq<Frame>, r: Reason)
    requires q != []
    ensures Refuses(q[0], r) ==> InFrames(q, r)
  {
  }

  lemma MovedCarries(h: Hash, w: World, i: nat, side: bool, m: Move, r: Reason)
    requires i < |w.attempts|
    ensures Somewhere(Moved(h, w, i, side, m).attempts[i], r) ==>
              Somewhere(w.attempts[i], r) || Causes(h, w, Step(i, side, m), i, r)
  {
    var a := w.attempts[i];
    var e, inbox := EndAt(a, side), InboxAt(a, side);
    var x := Input(if inbox == [] then None else Some(inbox[0]), m, x => (e.owner, x) !in w.pending,
                   PendingAt(w, KeyOf(e)) == Some((i, side)));
    ActCarries(h, e, x, r);
    var y := StepEffect(h, w, i, side, m);
    FramesJoin(InboxAt(a, !side), y.sent, r);
    if inbox != [] {
      HeadRefuses(inbox, r);
      FramesPart(inbox, 1, |inbox|, r);
    }
    hide Act, Carries, InFrames, Gives, PendingAfter, TrustAfter, Refuses;
  }

  lemma CutFrames(q: seq<Frame>, keep: nat, r: Reason)
    ensures InFrames(if keep < |q| then q[..keep] else q, r) ==> InFrames(q, r)
  {
    if keep < |q| {
      FramesPart(q, 0, keep, r);
      assert q[0..keep] == q[..keep];
    }
    hide InFrames;
  }

  lemma DiedCarries(a: Attempt, side: bool, keep: nat, r: Reason)
    ensures Somewhere(Died(a, side, keep), r) ==> Somewhere(a, r)
  {
    CutFrames(InboxAt(a, side), keep, r);
    DeadCarries(EndAt(a, side), r);
    hide Carries, InFrames;
  }

  lemma AnsweredCarries(e: End, d: Decision, r: Reason)
    ensures Carries(Answer(e, d).0, r) ==> Carries(e, r) || (!d.accept && Why(d.reason) == r)
  {
    hide InEvents, InResults;
  }

  lemma BornSilent(owner: Id, device: Id, answering: Id, r: Reason)
    ensures !Somewhere(Attempt(NewDialer(owner, device), NewResponder(answering), [], []), r)
    ensures !Somewhere(Attempt(TokenDialer(owner, device), NewResponder(answering), [Hello(owner)], []), r)
  {
  }

  lemma NextCarries(h: Hash, w: World, ev: Event, i: nat, r: Reason)
    requires i < |Next(h, w, ev).attempts| && Somewhere(Next(h, w, ev).attempts[i], r)
    ensures i < |w.attempts| && (Somewhere(w.attempts[i], r) || Causes(h, w, ev, i, r))
  {
    hide Moved, Died, Push, Answer, Carries, InFrames, Gives;
    match ev
    case StartPairing(o, x, answering) => BornSilent(o, x, answering, r); hide Somewhere;
    case TokenDial(o, x, answering) => BornSilent(o, x, answering, r); hide Somewhere;
    case Step(j, side, m) =>
      if j < |w.attempts| {
        Elsewhere(h, w, j, side, m);
        if j == i { MovedCarries(h, w, i, side, m, r); }
      }
      hide Somewhere;
    case Confirm(o, x, d) =>
      var p := PendingAt(w, (o, x));
      if p.Some? && p.value.0 < |w.attempts| { AnsweredCarries(EndAt(w.attempts[p.value.0], p.value.1), d, r); }
    case Cancel(o, x) =>
      var p := PendingAt(w, (o, x));
      if p.Some? && p.value.0 < |w.attempts| {
        PushCarries(EndAt(w.attempts[p.value.0], p.value.1), EvCancelled(DECLINED), r);
      }
    case Die(j, side, keep) => if j == i { DiedCarries(w.attempts[i], side, keep, r); } hide Somewhere;
    case _ =>
  }

  /** Some event of the run caused it, at this very attempt. */
  predicate CausedAt(h: Hash, evs: seq<Event>, j: nat, i: nat, r: Reason) {
    j < |evs| && i < |Run(h, evs[..j]).attempts| && Causes(h, Run(h, evs[..j]), evs[j], i, r)
  }

  lemma {:induction false} ReasonsHaveCauses(h: Hash, evs: seq<Event>, i: nat, r: Reason) returns (j: nat)
    requires i < |Run(h, evs).attempts| && Somewhere(Run(h, evs).attempts[i], r)
    ensures CausedAt(h, evs, j, i, r)
  {
    hide Next, Somewhere, Causes;
    var before, ev := evs[..|evs| - 1], evs[|evs| - 1];
    NextCarries(h, Run(h, before), ev, i, r);
    if Somewhere(Run(h, before).attempts[i], r) {
      j := ReasonsHaveCauses(h, before, i, r);
      assert evs[..j] == before[..j];
    } else {
      j := |evs| - 1;
    }
  }

  /**
   * Every failure that is reported has a cause with that reason: some event of the run, at this end or at the other end
   * of the same attempt.
   */
  lemma FailureHasACause(h: Hash, evs: seq<Event>, i: nat, side: bool, r: Reason) returns (j: nat)
    requires i < |Run(h, evs).attempts| && Failure(r) in EndAt(Run(h, evs).attempts[i], side).results
    ensures CausedAt(h, evs, j, i, if r == "" then "declined" else r)
  {
    var vs := EndAt(Run(h, evs).attempts[i], side).results;
    var k :| 0 <= k < |vs| && vs[k] == Failure(r);
    assert InResults(vs, Why(r));
    hide Run, InEvents, InResults, InFrames, CausedAt;
    j := ReasonsHaveCauses(h, evs, i, Why(r));
  }

  /** A pairing is only ever reported as declined where a human said no to it, or its device was forgotten. */
  lemma DeclinedMeansNo(h: Hash, evs: seq<Event>, i: nat, side: bool) returns (j: nat)
    requires i < |Run(h, evs).attempts| && Failure("declined") in EndAt(Run(h, evs).attempts[i], side).results
    ensures j < |evs| && (evs[j].Cancel? || (evs[j].Confirm? && !evs[j].decision.accept))
    ensures ToldBy(Run(h, evs[..j]), (evs[j].owner, evs[j].device), i)
  {
    j := FailureHasACause(h, evs, i, side, "declined");
    hide Run;
  }

  /** And as timed out only where the timer of one of its two drivers fired. */
  lemma TimeoutMeansTimer(h: Hash, evs: seq<Event>, i: nat, side: bool) returns (j: nat)
    requires i < |Run(h, evs).attempts| && Failure("timeout") in EndAt(Run(h, evs).attempts[i], side).results
    ensures j < |evs| && (evs[j].Step? ==> evs[j].i == i && evs[j].m == Turn(TimerFired))
    ensures !evs[j].Step? ==> evs[j].Confirm? && evs[j].decision == Decision(false, "timeout")
  {
    j := FailureHasACause(h, evs, i, side, "timeout");
    hide Run;
  }
}
