/** A second answer to a code already answered: when it still makes a difference, and when it no longer does. */
module PairingAnswers {
  import opened Common
  import opened PairingCode
  import opened PairingSpec
  import opened PairingInvariant
  import opened PairingTheorems
  import opened PairingDriver

  // -- a second accept ------------------------------------------------------------------------------

  /** The same end but for an accept in the buffer, which has nothing left to add. */
  predicate Twin(a: End, b: End) {
    && b.decision.None? && a == b.(decision := a.decision)
    && (Chosen(b) || (b.stage.Driving? && b.localYes && (a.decision.Some? ==> a.decision.value.accept)))
  }

  lemma FailTwin(a: End, b: End, reason: Reason, notify: bool)
    requires b.decision.None? && a == b.(decision := a.decision)
    ensures Twin(Fail(a, reason, notify), Fail(b, reason, notify))
  {
    hide OrDeclined;
  }

  lemma SelectedTwin(a: End, b: End, mint: Option<Token>)
    requires Twin(a, b) && b.stage.Driving?
    ensures Twin(AfterSelect(a, mint), AfterSelect(b, mint))
  {
    if a.responder && a.localYes && a.remoteYes {
      if mint.None? {
        FailTwin(a, b, INTERNAL, true);
        hide Fail, Twin;
      } else {
        assert AfterSelect(a, mint) == a.(stage := Completing(mint.value));
        assert AfterSelect(b, mint) == b.(stage := Completing(mint.value));
      }
    }
  }

  lemma RemoteTwin(a: End, b: End, ev: PairEvent, mint: Option<Token>)
    requires Twin(a, b) && b.stage.Driving?
    ensures Twin(TakeRemote(a, ev, mint), TakeRemote(b, ev, mint))
  {
    match ev
    case EvAccept =>
      YesTwin(a, b);
      SelectedTwin(a.(remoteYes := true), b.(remoteYes := true), mint);
      hide AfterSelect, Twin;
    case EvReject(r) => FailTwin(a, b, r, false); hide Fail, Twin;
    case EvCancelled(r) => FailTwin(a, b, r, true); hide Fail, Twin;
    case EvPaired(t) =>
      FailTwin(a, b, INTERNAL, true);
      TokenTwin(a, b, t);
      hide Fail;
  }

  lemma YesTwin(a: End, b: End)
    requires Twin(a, b) && b.stage.Driving?
    ensures Twin(a.(remoteYes := true), b.(remoteYes := true))
  {
  }

  lemma TokenTwin(a: End, b: End, t: Token)
    requires Twin(a, b) && b.stage.Driving?
    ensures Twin(a.(stage := Completing(t)), b.(stage := Completing(t)))
  {
  }

  lemma EventsTwin(a: End, b: End, events: seq<PairEvent>)
    requires Twin(a, b) && b.stage.Driving?
    ensures Twin(a.(events := events), b.(events := events))
  {
  }

  lemma SelectTwin(a: End, b: End, c: Choice)
    requires Twin(a, b) && b.stage.Driving?
    ensures Twin(Select(a, c).0, Select(b, c).0) && Select(a, c).1 == Select(b, c).1
  {
    match c
    case ContextDone => FailTwin(a, b, INTERNAL, true); hide Fail, TakeAnswer, TakeRemote;
    case SocketDone => FailTwin(a, b, UNREACHABLE, false); hide Fail, TakeAnswer, TakeRemote;
    case TimerFired => FailTwin(a, b, TIMEOUT, true); hide Fail, TakeAnswer, TakeRemote;
    case TakeDecision(ok, mint) => DecisionTwin(a, b, ok, mint); hide Select, Twin;
    case TakeEvent(mint) =>
      if b.events != [] {
        EventsTwin(a, b, b.events[1..]);
        RemoteTwin(a.(events := b.events[1..]), b.(events := b.events[1..]), b.events[0], mint);
      }
      hide TakeRemote, Twin, TakeAnswer, Fail;
  }

  lemma DecisionTwin(a: End, b: End, ok: bool, mint: Option<Token>)
    requires Twin(a, b) && b.stage.Driving?
    ensures var c := TakeDecision(ok, mint);
            Twin(Select(a, c).0, Select(b, c).0) && Select(a, c).1 == Select(b, c).1
  {
    hide Fail, AfterSelect, TakeRemote;
    if a.decision.Some? {
      assert a.(decision := None) == b;
      assert Select(a, TakeDecision(ok, mint)) == (b, []);
    }
  }

  /** What can move an end in its select: an arm, or a frame. */
  lemma DrivingMoves(h: Hash, e: End, x: Input)
    requires e.stage.Driving?
    ensures Act(h, e, x.head, x.m, x.free, x.mine)
            == match x.m
               case Turn(c) => Kept(Select(e, c))
               case Loop =>
                 if e.shown.Some? && x.head.Some? then Took((ReadFrame(e, x.head.value, x.mine), [])) else Kept((e, []))
               case _ => Kept((e, []))
  {
    hide ReadFrame, Connect, TakeHello, FirstFrame, Refuse, Abort, Offer, Show, Select;
  }

  lemma ReadTwin(a: End, b: End, f: Frame, mine: bool)
    requires Twin(a, b) && b.stage.Driving?
    ensures Twin(ReadFrame(a, f, mine), ReadFrame(b, f, mine))
  {
    LateFrame(b, f, mine, a.decision);
    ReadBuffers(b, f, mine);
    hide ReadFrame;
  }

  lemma ReadBuffers(e: End, f: Frame, mine: bool)
    ensures ReadFrame(e, f, mine).decision == e.decision && ReadFrame(e, f, mine).localYes == e.localYes
  {
    hide EventFor;
  }

  lemma TwinStep(h: Hash, a: End, b: End, x: Input)
    requires Twin(a, b)
    ensures var m, n := Act(h, a, x.head, x.m, x.free, x.mine), Act(h, b, x.head, x.m, x.free, x.mine);
            Twin(m.e, n.e) && m.sent == n.sent
  {
    if Chosen(b) {
      LateStep(h, b, x, a.decision);
      LateStep(h, b, x, None);
      ChosenTwin(h, a, b, x);
      hide Act, Twin;
    } else {
      DrivingMoves(h, a, x);
      DrivingMoves(h, b, x);
      hide Act, Select, ReadFrame;
      match x.m
      case Turn(c) => SelectTwin(a, b, c);
      case Loop => if x.head.Some? { ReadTwin(a, b, x.head.value, x.mine); }
      case _ =>
    }
  }

  lemma ChosenTwin(h: Hash, a: End, b: End, x: Input)
    requires Twin(a, b) && Chosen(b)
    ensures Twin(Act(h, a, x.head, x.m, x.free, x.mine).e, Act(h, b, x.head, x.m, x.free, x.mine).e)
  {
    assert b.(decision := None) == b;
    LateStep(h, b, x, None);
    LateStep(h, b, x, a.decision);
    hide Act;
  }

  lemma {:induction false} TwinSteps(h: Hash, a: End, b: End, ins: seq<Input>)
    requires Twin(a, b)
    ensures Twin(Steps(h, a, ins).0, Steps(h, b, ins).0) && Steps(h, a, ins).1 == Steps(h, b, ins).1
    decreases |ins|
  {
    hide Act, Twin;
    if ins != [] {
      TwinStep(h, a, b, ins[0]);
      TwinSteps(h, Act(h, a, ins[0].head, ins[0].m, ins[0].free, ins[0].mine).e,
                Act(h, b, ins[0].head, ins[0].m, ins[0].free, ins[0].mine).e, ins[1..]);
    }
  }

  // -- a second answer, exactly ------------------------------------------------------------------------

  /** What takes a reject out of the buffer and brings the pairing to its report. */
  function Rejecting(): seq<Input> {
    [Input(None, Turn(TakeDecision(true, None)), _ => true, true), Input(None, Proceed(true), _ => true, true),
     Input(None, Proceed(true), _ => true, true)]
  }

  lemma ThreeSteps(h: Hash, e: End, x: Input, y: Input, z: Input)
    ensures var e1 := Act(h, e, x.head, x.m, x.free, x.mine).e;
            var e2 := Act(h, e1, y.head, y.m, y.free, y.mine).e;
            Steps(h, e, [x, y, z]).0 == Act(h, e2, z.head, z.m, z.free, z.mine).e
  {
    var ins := [x, y, z];
    assert ins[1..] == [y, z] && [y, z][1..] == [z] && [z][1..] == [];
    var e1 := Act(h, e, x.head, x.m, x.free, x.mine).e;
    var e2 := Act(h, e1, y.head, y.m, y.free, y.mine).e;
    var e3 := Act(h, e2, z.head, z.m, z.free, z.mine).e;
    assert Steps(h, e3, []).0 == e3;
    assert Steps(h, e2, [z]).0 == e3;
    assert Steps(h, e1, [y, z]).0 == e3;
    hide Act;
  }

  /** With a reject in the buffer they report a failure; with nothing there they do nothing. */
  lemma RejectReports(h: Hash, e: End, d: Decision)
    requires e.stage.Driving? && !d.accept
    ensures Steps(h, e.(decision := Some(d)), Rejecting()).0.results == e.results + [Failure(OrDeclined(d.reason))]
  {
    hide OrDeclined;
    var r := OrDeclined(d.reason);
    var e1 := e.(decision := None, stage := Failing(r, true));
    var e2 := e1.(stage := Closed(r), alive := false);
    var ins := Rejecting();
    ThreeSteps(h, e.(decision := Some(d)), ins[0], ins[1], ins[2]);
    DrivingMoves(h, e.(decision := Some(d)), ins[0]);
    OnlyTheRest(h, e1, ins[1]);
    OnlyTheRest(h, e2, ins[2]);
    hide Act;
    assert Select(e.(decision := Some(d)), TakeDecision(true, None)).0 == e1;
    assert Finish(e1, true).0 == e2;
  }

  lemma NothingReports(h: Hash, e: End)
    requires e.stage.Driving? && e.decision.None?
    ensures Steps(h, e, Rejecting()).0.results == e.results
  {
    var ins := Rejecting();
    ThreeSteps(h, e, ins[0], ins[1], ins[2]);
    DrivingMoves(h, e, ins[0]);
    DrivingMoves(h, e, ins[1]);
    hide Act;
    assert Select(e, TakeDecision(true, None)).0 == e by { hide TakeAnswer; }
    hide Select;
  }

  /** An answer that changes nothing, however the end goes on. */
  ghost predicate Idle(h: Hash, e: End, d: Decision) {
    forall ins :: Steps(h, Answer(e, d).0, ins).0.results == Steps(h, e, ins).0.results
  }

  lemma AcceptAgainIsIdle(h: Hash, e: End, d: Decision)
    requires e.stage.Driving? && e.localYes && e.decision.None? && d.accept
    ensures Idle(h, e, d)
  {
    forall ins ensures Steps(h, Answer(e, d).0, ins).0.results == Steps(h, e, ins).0.results {
      TwinSteps(h, Answer(e, d).0, e, ins);
      SameResults(Steps(h, Answer(e, d).0, ins).0, Steps(h, e, ins).0);
      hide Steps, Twin;
    }
  }

  lemma SameResults(a: End, b: End)
    requires Twin(a, b)
    ensures a.results == b.results
  {
  }

  lemma LateAnswerIsIdle(h: Hash, e: End, d: Decision)
    requires Chosen(e)
    ensures Idle(h, e, d)
  {
    forall ins ensures Steps(h, Answer(e, d).0, ins).0.results == Steps(h, e, ins).0.results {
      LateAnswerChangesNothing(h, e, d, ins);
      hide Steps, Chosen, Answer;
    }
  }

  /**
   * Exactly when a second answer can still change the result of a pairing this side has accepted: it is a reject, the
   * driver is still in its select, and the buffer is empty, which it is as soon as the driver has taken the first one.
   */
  lemma SecondAnswerMatters(h: Hash, e: End, d: Decision)
    requires EndInv(e) && e.localYes
    ensures !Idle(h, e, d) <==> e.stage.Driving? && e.decision.None? && !d.accept
  {
    assert !Early(e.stage) && (e.stage.Driving? ==> !e.done);
    if e.decision.Some? || e.done {
      assert Answer(e, d).0 == e;
      hide Steps, EndInv;
    } else if !e.stage.Driving? {
      LateAnswerIsIdle(h, e, d);
      hide Idle, EndInv;
    } else if d.accept {
      AcceptAgainIsIdle(h, e, d);
      hide Idle, EndInv;
    } else {
      RejectReports(h, e, d);
      NothingReports(h, e);
      hide EndInv, Steps, Rejecting, OrDeclined;
      assert Answer(e, d).0 == e.(decision := Some(d));
      assert |Steps(h, Answer(e, d).0, Rejecting()).0.results| != |Steps(h, e, Rejecting()).0.results|;
    }
  }
}
