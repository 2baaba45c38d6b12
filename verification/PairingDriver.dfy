/** A pairing driver from its first select to its last action, whoever is at the far end of its socket. */
module PairingDriver {
  import opened Common
  import opened PairingCode
  import opened PairingSpec
  import opened PairingInvariant
  import opened PairingTheorems

  /**
   * What can happen around a driver in its select: an arm fires, the frame loop or Forget pushes an event, a human
   * answers.
   */
  datatype Turn = Fire(choice: Choice) | Incoming(ev: PairEvent) | Human(d: Decision)

  function TakeTurn(e: End, t: Turn): (End, seq<Frame>) {
    match t
    case Fire(c) => Select(e, c)
    case Incoming(ev) => (Push(e, ev), [])
    case Human(d) => (PairingSpec.Answer(e, d).0, [])
  }

  /** The select loop: it stops taking turns as soon as an arm has chosen the outcome. */
  function Drive(e: End, turns: seq<Turn>): (End, seq<Frame>)
    decreases |turns|
  {
    if turns == [] || !e.stage.Driving? then (e, [])
    else
      var (n, sent) := TakeTurn(e, turns[0]);
      var (m, more) := Drive(n, turns[1..]);
      (m, sent + more)
  }

  /** Everything after the choice, whatever the writes and sends answer. */
  function Conclude(e: End, answers: Stage -> bool): (End, seq<Frame>)
    decreases Rank(e)
  {
    if !Chosen(e) || Finished(e) then (e, [])
    else
      var (n, sent) := Finish(e, answers(e.stage));
      LateFinish(e, answers(e.stage), None);
      var (m, more) := Conclude(n, answers);
      (m, sent + more)
  }

  // -- what holds of a driver whoever is at the far end ------------------------------------------

  /** One result or none yet, true to the trust; and no token agreed without this side's human. */
  predicate Honest(e: End) {
    && ResultOk(e) && StoreOk(e)
    && (Agreed(e).Some? ==> e.localYes)
    && !e.stage.Refused?
  }

  /** A turn of the select leaves results and trust alone, and agrees on a token only where the human has. */
  predicate Shape(e: End, n: End) {
    && n.results == e.results && n.stored == e.stored
    && (n.stage.Driving? || n.stage.Failing? || (n.stage.Completing? && n.localYes))
  }

  lemma AfterShape(e: End, mint: Option<Token>)
    requires e.stage.Driving?
    ensures Shape(e, AfterSelect(e, mint))
  {
    hide OrDeclined;
  }

  lemma FailShape(e: End, n: End, reason: Reason, notify: bool)
    requires n.results == e.results && n.stored == e.stored
    ensures Shape(e, Fail(n, reason, notify))
  {
    hide OrDeclined;
  }

  lemma DecisionShape(e: End, d: Decision, ok: bool, mint: Option<Token>)
    requires e.stage.Driving?
    ensures Shape(e, TakeAnswer(e, d, ok, mint).0)
  {
    var yes := e.(localYes := true);
    FailShape(e, e, d.reason, true);
    FailShape(e, yes.(alive := false), UNREACHABLE, false);
    AfterShape(yes, mint);
    hide AfterSelect, Fail;
  }

  lemma EventShape(e: End, ev: PairEvent, mint: Option<Token>)
    requires e.stage.Driving?
    ensures Shape(e, TakeRemote(e, ev, mint))
  {
    match ev
    case EvAccept => AfterShape(e.(remoteYes := true), mint); hide AfterSelect, Fail;
    case EvReject(r) => FailShape(e, e, r, false); hide AfterSelect, Fail;
    case EvCancelled(r) => FailShape(e, e, r, true); hide AfterSelect, Fail;
    case EvPaired(t) => FailShape(e, e, INTERNAL, true); hide AfterSelect, Fail;
  }

  lemma ShapeVia(e: End, m: End, n: End)
    requires m.results == e.results && m.stored == e.stored && Shape(m, n)
    ensures Shape(e, n)
  {
  }

  lemma SelectShape(e: End, c: Choice)
    requires e.stage.Driving?
    ensures Shape(e, Select(e, c).0)
  {
    assert Shape(e, e);
    hide Shape, Fail, TakeAnswer, TakeRemote;
    match c
    case ContextDone => FailShape(e, e, INTERNAL, true);
    case SocketDone => FailShape(e, e, UNREACHABLE, false);
    case TimerFired => FailShape(e, e, TIMEOUT, true);
    case TakeDecision(ok, mint) =>
      if e.decision.Some? {
        var m := e.(decision := None);
        DecisionShape(m, e.decision.value, ok, mint);
        ShapeVia(e, m, TakeAnswer(m, e.decision.value, ok, mint).0);
      }
    case TakeEvent(mint) =>
      if e.events != [] {
        var m := e.(events := e.events[1..]);
        EventShape(m, e.events[0], mint);
        ShapeVia(e, m, TakeRemote(m, e.events[0], mint));
      }
  }

  lemma BufferShape(e: End, ev: PairEvent, d: Decision)
    requires e.stage.Driving?
    ensures Shape(e, Push(e, ev)) && Shape(e, PairingSpec.Answer(e, d).0)
  {
  }

  lemma TurnShape(e: End, t: Turn)
    requires e.stage.Driving?
    ensures Shape(e, TakeTurn(e, t).0)
  {
    match t
    case Fire(c) => SelectShape(e, c); hide Select, Shape;
    case Incoming(ev) => BufferShape(e, ev, Decision(true, "")); hide Select, Shape, Push;
    case Human(d) => BufferShape(e, EvAccept, d); hide Select, Shape, PairingSpec.Answer;
  }

  lemma TurnHonest(e: End, t: Turn)
    requires Honest(e) && e.stage.Driving?
    ensures Honest(TakeTurn(e, t).0) && !Early(TakeTurn(e, t).0.stage)
  {
    TurnShape(e, t);
    hide ValidTokenFormat, TakeTurn;
  }

  lemma FailingHonest(e: End, ok: bool)
    requires Honest(e) && Failed(e.stage)
    ensures Honest(Finish(e, ok).0)
  {
    hide ValidTokenFormat;
    if e.stage.Failing? {
      assert Finish(e, ok).0 == e.(stage := Closed(e.stage.reason), alive := false);
    } else {
      assert Finish(e, ok).0 == e.(stage := Reported, results := e.results + [Failure(e.stage.reason)]);
    }
  }

  lemma MalformedHonest(e: End)
    requires Honest(e) && e.stage.Completing?
    ensures Honest(Fail(e, INTERNAL, true))
  {
    hide ValidTokenFormat, OrDeclined;
  }

  lemma UnsavedHonest(e: End, t: Token)
    requires Honest(e) && e.stage == Completing(t) && ValidTokenFormat(t)
    ensures Honest(Fail(e.(stored := Some(t), saved := false), INTERNAL, true))
  {
    hide ValidTokenFormat, OrDeclined;
  }

  lemma CompletingHonest(e: End, ok: bool)
    requires Honest(e) && e.stage.Completing?
    ensures Honest(Finish(e, ok).0)
  {
    var t := e.stage.token;
    if ValidTokenFormat(t) && ok {
      assert Finish(e, ok).0 == e.(stored := Some(t), saved := true, stage := Stored(t));
      hide ValidTokenFormat;
    } else if ValidTokenFormat(t) {
      UnsavedHonest(e, t);
      hide ValidTokenFormat, Fail, Honest;
    } else {
      MalformedHonest(e);
      hide ValidTokenFormat, Fail, Honest;
    }
  }

  lemma SucceedingHonest(e: End, ok: bool)
    requires Honest(e) && (e.stage.Stored? || e.stage.Announced? || e.stage.Reported?)
    ensures Honest(Finish(e, ok).0)
  {
    hide ValidTokenFormat;
  }

  lemma {:induction false} DriveHonest(e: End, turns: seq<Turn>)
    requires Honest(e) && !Early(e.stage)
    ensures Honest(Drive(e, turns).0) && !Early(Drive(e, turns).0.stage)
    decreases |turns|
  {
    if turns != [] && e.stage.Driving? {
      TurnHonest(e, turns[0]);
      DriveHonest(TakeTurn(e, turns[0]).0, turns[1..]);
      hide Honest, TakeTurn;
    }
  }

  lemma {:induction false} ConcludeHonest(e: End, answers: Stage -> bool)
    requires Honest(e) && Chosen(e)
    ensures Honest(Conclude(e, answers).0) && Finished(Conclude(e, answers).0)
    decreases Rank(e)
  {
    if !Finished(e) {
      var ok := answers(e.stage);
      if Failed(e.stage) { FailingHonest(e, ok); }
      else if e.stage.Completing? { CompletingHonest(e, ok); }
      else { SucceedingHonest(e, ok); }
      LateFinish(e, ok, None);
      ConcludeHonest(Finish(e, ok).0, answers);
      hide Honest, Finish, Rank, Finished;
    }
  }

  /**
   * Against any peer, honest or not: a driver whose select has chosen ends after one report, a success exactly when
   * a token was stored and saved, and never without this side's human; one whose select has not chosen has reported
   * nothing.
   */
  lemma DriverReportsOnce(e: End, turns: seq<Turn>, answers: Stage -> bool)
    requires e.stage.Driving? && e.results == [] && e.stored.None?
    ensures var n := Conclude(Drive(e, turns).0, answers).0;
            if Drive(e, turns).0.stage.Driving? then n.results == [] && n.stored.None?
            else && |n.results| == 1 && n.done
                 && (n.results[0].Success? <==> n.stored.Some? && n.saved)
                 && (n.stored.Some? ==> n.localYes && ValidTokenFormat(n.stored.value))
  {
    var m := Drive(e, turns).0;
    assert Honest(e);
    DriveHonest(e, turns);
    if !m.stage.Driving? { ConcludeHonest(m, answers); }
    hide Drive, ValidTokenFormat;
  }
}
