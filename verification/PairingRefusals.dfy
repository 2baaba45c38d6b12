/** What ends a pairing without a token, and that the other side gets to know of it. */
module PairingRefusals {
  import opened Common
  import opened PairingCode
  import opened PairingSpec
  import opened PairingInvariant
  import opened PairingWorld
  import opened PairingTheorems
  import opened PairingAnswers
  import opened PairingForget
  import opened PairingPost
  import opened PairingDelivery
  import opened PairingReasons

  // -- what each arm comes to ---------------------------------------------------------------------------------

  lemma FailsWith(e: End, reason: Reason, notify: bool)
    ensures Fail(e, reason, notify).stage == Failing(Why(reason), notify)
  {
  }

  /**
   * What fails a pairing at its select, for what reason, and whether the other side is told: the time is up, the daemon
   * stops, the socket is dead, a human says no, the other side refuses, the device is forgotten, a token comes where
   * none is due.
   */
  lemma ArmsFail(e: End, ok: bool, mint: Option<Token>)
    requires e.stage.Driving?
    ensures Select(e, TimerFired).0.stage == Failing("timeout", true)
    ensures Select(e, ContextDone).0.stage == Failing("internal", true)
    ensures Select(e, SocketDone).0 == e <==> e.alive
    ensures !e.alive ==> Select(e, SocketDone).0.stage == Failing("unreachable", false)
    ensures e.decision.Some? ==>
              var d, n := e.decision.value, Select(e, TakeDecision(ok, mint));
              && (!d.accept ==> n.0.stage == Failing(Why(d.reason), true) && n.1 == [])
              && (d.accept && !e.localYes && !(e.alive && ok) ==>
                    n.0.stage == Failing("unreachable", false) && n.1 == [])
    ensures e.events != [] ==>
              var n := Select(e, TakeEvent(mint));
              && n.1 == []
              && (e.events[0].EvReject? ==> n.0.stage == Failing(Why(e.events[0].reason), false))
              && (e.events[0].EvCancelled? ==> n.0.stage == Failing(Why(e.events[0].reason), true))
              && (e.events[0].EvPaired? && (e.responder || !e.localYes) ==> n.0.stage == Failing("internal", true))
  {
    FailsWith(e, TIMEOUT, true);
    FailsWith(e, INTERNAL, true);
    FailsWith(e, UNREACHABLE, false);
    if e.decision.Some? { DecisionFails(e, ok, mint); }
    if e.events != [] { EventFails(e, mint); }
    hide Fail, TakeAnswer, TakeRemote;
  }

  lemma DecisionFails(e: End, ok: bool, mint: Option<Token>)
    requires e.stage.Driving? && e.decision.Some?
    ensures var d, n := e.decision.value, Select(e, TakeDecision(ok, mint));
            && (!d.accept ==> n.0.stage == Failing(Why(d.reason), true) && n.1 == [])
            && (d.accept && !e.localYes && !(e.alive && ok) ==>
                  n.0.stage == Failing("unreachable", false) && n.1 == [])
  {
    var m := e.(decision := None);
    FailsWith(m, e.decision.value.reason, true);
    FailsWith(m.(localYes := true, alive := false), UNREACHABLE, false);
    hide Fail, AfterSelect;
  }

  lemma EventFails(e: End, mint: Option<Token>)
    requires e.stage.Driving? && e.events != []
    ensures var n := Select(e, TakeEvent(mint));
            && n.1 == []
            && (e.events[0].EvReject? ==> n.0.stage == Failing(Why(e.events[0].reason), false))
            && (e.events[0].EvCancelled? ==> n.0.stage == Failing(Why(e.events[0].reason), true))
            && (e.events[0].EvPaired? && (e.responder || !e.localYes) ==> n.0.stage == Failing("internal", true))
  {
    var m := e.(events := e.events[1..]);
    RemoteIs(m, e.events[0], mint);
    FailsWith(m, INTERNAL, true);
    match e.events[0]
    case EvReject(r) => FailsWith(m, r, false); hide Fail, AfterSelect;
    case EvCancelled(r) => FailsWith(m, r, true); hide Fail, AfterSelect;
    case _ => hide Fail, AfterSelect;
  }

  /** A failed pairing closes its socket, with a last word if it is to have one, and then reports its reason. */
  lemma FailureIsReported(e: End, ok: bool, later: bool)
    requires e.stage.Failing?
    ensures var n := Finish(e, ok);
            && n.1 == (if e.stage.notify && e.linked && e.alive && ok then [Reject(e.stage.reason)] else [])
            && !n.0.alive && n.0.results == e.results
            && Finish(n.0, later).0.results == e.results + [Failure(e.stage.reason)] && Finish(n.0, later).1 == []
            && Finish(n.0, later).0.stage.Reported?
  {
    assert Finish(e, ok).0 == e.(stage := Closed(e.stage.reason), alive := false);
  }

  /** The frames a driver is told of: an accept of this very device, a well-formed token, a refusal. */
  predicate Fits(device: Id, f: Frame) {
    || (f.Accept? && f.id == device && device != "")
    || (f.Paired? && ValidTokenFormat(f.token))
    || f.Reject?
  }

  function Means(f: Frame): PairEvent {
    match f
    case Paired(t) => EvPaired(t)
    case Reject(r) => EvReject(Why(r))
    case _ => EvAccept
  }

  lemma FitsIsRead(device: Id, f: Frame)
    ensures EventFor(device, f) == if Fits(device, f) then Some(Means(f)) else None
  {
    hide ValidTokenFormat;
  }

  /** Any other frame closes the socket, as does one that comes when this pairing is not the one pending. */
  lemma StrayFramesClose(e: End, f: Frame, mine: bool)
    ensures ReadFrame(e, f, mine)
         == if e.paired || !mine || !Fits(e.device, f) then e.(alive := false)
            else if |e.events| < 4 then e.(events := e.events + [Means(f)])
            else e
  {
    FitsIsRead(e.device, f);
    hide EventFor, Fits, Means;
  }

  // -- a refusal on its way -------------------------------------------------------------------------------------

  predicate TokenIn(evs: seq<PairEvent>) { exists k :: 0 <= k < |evs| && evs[k].EvPaired? }

  /**
   * The refusal is on its way to this end, or needless: the end has decided, was refused, has lost its socket, or holds
   * an event that decides.
   */
  predicate NoIsHere(e: End, inbox: seq<Frame>, r: Reason) {
    && (Reject(r) in inbox || Deaf(e) || TokenIn(e.events))
    && (e.linked || Deaf(e))
  }

  /** A buffer with no room holds what will decide. */
  lemma RoomForNo(a: Attempt, side: bool)
    requires Known(a)
    ensures var e := EndAt(a, side); |e.events| < EVENT_CAPACITY || Doomed(e.events) || TokenIn(e.events)
  {
    var e := EndAt(a, side);
    assert Counted(e, InboxAt(a, side), EndAt(a, !side));
    if |e.events| >= EVENT_CAPACITY && !Doomed(e.events) && !TokenIn(e.events) { FullOfYeses(e.events); }
    hide AttemptInv, Heard, ToDialler, ToAnswerer, Yeses, AcceptsIn, OnlyCancels, Undecided, LinkOk;
  }

  lemma NoIsRead(a: Attempt, side: bool, r: Reason, mine: bool)
    requires Known(a) && EndAt(a, side).linked
    ensures var n := ReadFrame(EndAt(a, side), Reject(r), mine); Deaf(n) || TokenIn(n.events)
  {
    var e := EndAt(a, side);
    RoomForNo(a, side);
    StrayFramesClose(e, Reject(r), mine);
    hide Known, ReadFrame;
    assert (e.events + [EvReject(Why(r))])[|e.events|].EvReject?;
  }

  lemma ReadKeepsNo(e: End, f: Frame, mine: bool)
    requires e.linked && TokenIn(e.events)
    ensures var n := ReadFrame(e, f, mine); Deaf(n) || TokenIn(n.events)
  {
    StrayFramesClose(e, f, mine);
    hide ReadFrame, Fits, Means;
    var k :| 0 <= k < |e.events| && e.events[k].EvPaired?;
    assert (e.events + [Means(f)])[k] == e.events[k];
  }

  lemma SelectKeepsNo(e: End, c: Choice)
    requires e.stage.Driving? && TokenIn(e.events)
    ensures var n := Select(e, c).0; Deaf(n) || TokenIn(n.events)
  {
    var k :| 0 <= k < |e.events| && e.events[k].EvPaired?;
    var t := e.events[k].token;
    assert e.events[k] == EvPaired(t);
    SelectKeepsToken(e, c, t);
    var n := Select(e, c).0;
    hide Select, Doomed;
    if EvPaired(t) in n.events { var j :| 0 <= j < |n.events| && n.events[j] == EvPaired(t); }
  }

  /** A step of the end that is to hear it, with nothing to hear yet or something in hand. */
  lemma HearingEnd(h: Hash, a: Attempt, side: bool, x: Input, r: Reason)
    requires Known(a) && NoIsHere(EndAt(a, side), InboxAt(a, side), r)
    requires x.head == if InboxAt(a, side) == [] then None else Some(InboxAt(a, side)[0])
    ensures var y := Act(h, EndAt(a, side), x.head, x.m, x.free, x.mine);
            NoIsHere(y.e, RestOf(InboxAt(a, side), y.took), r)
  {
    var e, inbox := EndAt(a, side), InboxAt(a, side);
    var y := Act(h, e, x.head, x.m, x.free, x.mine);
    KnownPosts(a, side);
    ActPosts(h, e, x);
    if !Deaf(e) {
      if Reject(r) in inbox && !(y.took && inbox[0] == Reject(r)) {
        assert Reject(r) in RestOf(inbox, y.took);
      } else {
        HearsNo(h, a, side, x, r);
      }
    }
    hide Act, Known, PostInv, Deaf, TokenIn;
  }

  lemma HearsNo(h: Hash, a: Attempt, side: bool, x: Input, r: Reason)
    requires Known(a) && EndAt(a, side).linked && !Deaf(EndAt(a, side))
    requires x.head == if InboxAt(a, side) == [] then None else Some(InboxAt(a, side)[0])
    requires var y := Act(h, EndAt(a, side), x.head, x.m, x.free, x.mine);
             TokenIn(EndAt(a, side).events) || (y.took && InboxAt(a, side)[0] == Reject(r))
    ensures var y := Act(h, EndAt(a, side), x.head, x.m, x.free, x.mine); Deaf(y.e) || TokenIn(y.e.events)
  {
    var e := EndAt(a, side);
    KnownPosts(a, side);
    if Early(e.stage) {
      assert OnlyCancels(e.events) by { hide AttemptInv, MailOk, OnlyCancels; }
      assert !TokenIn(e.events);
      EarlyPosts(h, e, x);
      hide Act, Known, Deaf, TokenIn, Quietly, Sends, Fresh;
    } else {
      DrivingMoves(h, e, x);
      hide Act, Known, Deaf, TokenIn, Select, ReadFrame, PostInv;
      match x.m
      case Turn(c) => SelectKeepsNo(e, c);
      case Loop =>
        if x.head.Some? {
          if x.head.value == Reject(r) { NoIsRead(a, side, r, x.mine); } else { ReadKeepsNo(e, x.head.value, x.mine); }
        }
      case _ =>
    }
  }

  /** A refusal at one end, for the other. */
  predicate NoFor(a: Attempt, side: bool, r: Reason) { NoIsHere(EndAt(a, side), InboxAt(a, side), r) }

  lemma NoMoved(h: Hash, w: World, i: nat, side: bool, m: Move, hears: bool, r: Reason)
    requires i < |w.attempts| && Known(w.attempts[i]) && NoFor(w.attempts[i], hears, r)
    ensures NoFor(Moved(h, w, i, side, m).attempts[i], hears, r)
  {
    var a := w.attempts[i];
    var e, inbox := EndAt(a, side), InboxAt(a, side);
    var input := Input(if inbox == [] then None else Some(inbox[0]), m, x => (e.owner, x) !in w.pending,
                       PendingAt(w, KeyOf(e)) == Some((i, side)));
    if side == hears { HearingEnd(h, a, side, input, r); }
    hide Act, Known, Deaf, TokenIn, PendingAfter, TrustAfter;
  }

  lemma NoTold(e: End, inbox: seq<Frame>, d: Decision, r: Reason)
    requires NoIsHere(e, inbox, r)
    ensures NoIsHere(Push(e, EvCancelled(DECLINED)), inbox, r) && NoIsHere(Answer(e, d).0, inbox, r)
  {
    DoomedPush(e.events, EvCancelled(DECLINED));
    if TokenIn(e.events) {
      var k :| 0 <= k < |e.events| && e.events[k].EvPaired?;
      assert (e.events + [EvCancelled(DECLINED)])[k] == e.events[k];
    }
    ToldSame(e, d);
    hide Doomed, DECLINED, Answer;
  }

  lemma NoDied(a: Attempt, side: bool, keep: nat, hears: bool, r: Reason)
    requires NoFor(a, hears, r)
    ensures NoFor(Died(a, side, keep), hears, r)
  {
    hide Doomed, TokenIn;
  }

  lemma NoNext(h: Hash, w: World, ev: Event, i: nat, hears: bool, r: Reason)
    requires i < |w.attempts| && Known(w.attempts[i]) && NoFor(w.attempts[i], hears, r)
    ensures i < |Next(h, w, ev).attempts| && NoFor(Next(h, w, ev).attempts[i], hears, r)
  {
    hide Known, Moved, Push, Answer, DECLINED, NoIsHere;
    match ev
    case Step(j, side, m) =>
      if j < |w.attempts| {
        Elsewhere(h, w, j, side, m);
        if j == i { NoMoved(h, w, i, side, m, hears, r); }
      }
    case Confirm(o, x, d) => NoTold(EndAt(w.attempts[i], hears), InboxAt(w.attempts[i], hears), d, r);
    case Cancel(o, x) =>
      NoTold(EndAt(w.attempts[i], hears), InboxAt(w.attempts[i], hears), Decision(true, ""), r);
    case Die(j, side, keep) => if j == i { NoDied(w.attempts[i], side, keep, hears, r); } hide Died;
    case _ =>
  }

  lemma {:induction false} NoRuns(h: Hash, evs: seq<Event>, more: seq<Event>, i: nat, hears: bool, r: Reason)
    requires i < |Run(h, evs).attempts| && NoFor(Run(h, evs).attempts[i], hears, r)
    ensures i < |Run(h, evs + more).attempts| && NoFor(Run(h, evs + more).attempts[i], hears, r)
    decreases |more|
  {
    hide Next, NoFor;
    if more == [] {
      assert evs + more == evs;
    } else {
      assert evs + more == (evs + [more[0]]) + more[1..];
      assert (evs + [more[0]])[..|evs|] == evs;
      assert Run(h, evs + [more[0]]) == Next(h, Run(h, evs), more[0]);
      RunKnown(h, evs, i);
      NoNext(h, Run(h, evs), more[0], i, hears, r);
      NoRuns(h, evs + [more[0]], more[1..], i, hears, r);
      hide Run, Known;
    }
  }

  lemma RefusalIsSent(h: Hash, e: End, head: Option<Frame>, free: Id -> bool, mine: bool)
    requires e.stage.Failing? && e.stage.notify && e.linked && e.alive
    ensures Act(h, e, head, Proceed(true), free, mine).sent == [Reject(e.stage.reason)]
    ensures !Act(h, e, head, Proceed(true), free, mine).took
  {
    FailureIsReported(e, true, true);
    hide Finish;
  }

  lemma PastDialling(a: Attempt, side: bool)
    requires Known(a) && EndAt(a, side).stage.Failing? && EndAt(a, side).linked
    ensures EndAt(a, !side).linked || Deaf(EndAt(a, !side))
  {
    UnlinkedIsDialling(a);
    hide AttemptInv, BufferOk, Counted, Heard, ToDialler, Undecided, Doomed, LinkOk;
  }

  /**
   * A refusal is never lost. Once an end has failed for a reason the other is to be told of, and its socket has taken
   * the frame, then in every run from there the other end has that refusal on the way, or holds an event that decides,
   * or has decided, or has lost its socket.
   */
  lemma RefusalIsOnItsWay(h: Hash, evs: seq<Event>, more: seq<Event>, i: nat, side: bool, r: Reason)
    requires i < |Run(h, evs).attempts|
    requires var e := EndAt(Run(h, evs).attempts[i], side); e.stage == Failing(r, true) && e.linked && e.alive
    ensures var all := evs + [Step(i, side, Proceed(true))] + more;
            i < |Run(h, all).attempts| && NoFor(Run(h, all).attempts[i], !side, r)
  {
    var w, ev := Run(h, evs), Step(i, side, Proceed(true));
    var a := w.attempts[i];
    var e, inbox := EndAt(a, side), InboxAt(a, side);
    RunKnown(h, evs, i);
    PastDialling(a, side);
    RefusalIsSent(h, e, if inbox == [] then None else Some(inbox[0]), x => (e.owner, x) !in w.pending,
                  PendingAt(w, KeyOf(e)) == Some((i, side)));
    assert (evs + [ev])[..|evs|] == evs;
    assert Run(h, evs + [ev]) == Next(h, w, ev);
    hide Act, Run, Known, Deaf, TokenIn;
    var b := Run(h, evs + [ev]).attempts[i];
    assert InboxAt(b, !side) == InboxAt(a, !side) + [Reject(r)];
    assert InboxAt(b, !side)[|InboxAt(a, !side)|] == Reject(r);
    NoRuns(h, evs + [ev], more, i, !side, r);
  }
}
