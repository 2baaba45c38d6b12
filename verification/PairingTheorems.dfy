/** What every run of every set of daemons says about pairing. */
module PairingTheorems {
  import opened Common
  import opened PairingCode
  import opened PairingSpec
  import opened PairingInvariant
  import opened PairingWorld

  // -- who said yes ------------------------------------------------------------------------

  /** Event j is a human accepting the device while the attempt at that place was the one pending. */
  predicate SaysYes(h: Hash, evs: seq<Event>, j: nat, p: Place) {
    && j < |evs| && evs[j].Confirm? && evs[j].decision.accept
    && PendingAt(Run(h, evs[..j]), (evs[j].owner, evs[j].device)) == Some(p)
  }

  /** The human at that end accepted this very attempt. */
  ghost predicate Consented(h: Hash, evs: seq<Event>, p: Place) {
    exists j: nat :: SaysYes(h, evs, j, p)
  }

  lemma ConsentStays(h: Hash, evs: seq<Event>, ev: Event, p: Place)
    requires Consented(h, evs, p)
    ensures Consented(h, evs + [ev], p)
  {
    var j: nat :| SaysYes(h, evs, j, p);
    assert (evs + [ev])[..j] == evs[..j];
    assert SaysYes(h, evs + [ev], j, p);
  }

  /** An end accepts, or is about to. */
  predicate Yes(e: End) { e.localYes || Willing(e) }

  predicate AcceptsAt(w: World, ev: Event, p: Place) {
    ev.Confirm? && ev.decision.accept && PendingAt(w, (ev.owner, ev.device)) == Some(p)
  }

  lemma StepWill(h: Hash, w: World, j: nat, s: bool, m: Move, i: nat, side: bool)
    requires WorldInv(w) && i < |w.attempts| && j < |w.attempts|
    ensures Yes(EndAt(Moved(h, w, j, s, m).attempts[i], side)) ==> Yes(EndAt(w.attempts[i], side))
  {
    EffectKeeps(h, w, j, s, m);
    hide WorldInv, Act, EndInv, Grows, EventsOk, BeliefOk, FrameOk, PendingAfter, TrustAfter;
  }

  /** Only a Confirm of the pending attempt puts an accept in an end's hands. */
  lemma NewWill(h: Hash, w: World, ev: Event, i: nat, side: bool)
    requires WorldInv(w) && i < |w.attempts| && i < |Next(h, w, ev).attempts|
    requires Yes(EndAt(Next(h, w, ev).attempts[i], side)) && !Yes(EndAt(w.attempts[i], side))
    ensures AcceptsAt(w, ev, (i, side))
  {
    if ev.Step? && ev.i < |w.attempts| {
      StepWill(h, w, ev.i, ev.side, ev.m, i, side);
      hide Moved, WorldInv, Yes;
    }
    hide WorldInv, Moved;
  }

  lemma BornUnwilling(h: Hash, w: World, ev: Event, i: nat, side: bool)
    requires |w.attempts| <= i < |Next(h, w, ev).attempts|
    ensures !Yes(EndAt(Next(h, w, ev).attempts[i], side))
  {
    hide Moved, Confirmed, Cancelled, Died;
    if ev.Step? { hide Started, Knocked; LengthStays(h, w, ev); }
    if ev.Confirm? || ev.Cancel? || ev.Remove? || ev.Die? { LengthStays(h, w, ev); }
  }

  lemma LengthStays(h: Hash, w: World, ev: Event)
    requires ev.Step? || ev.Confirm? || ev.Cancel? || ev.Remove? || ev.Die?
    ensures |Next(h, w, ev).attempts| == |w.attempts|
  {
    hide Act, Died, Answer, Push;
  }

  lemma {:induction false} YesIsConsent(h: Hash, evs: seq<Event>, i: nat, side: bool)
    requires i < |Run(h, evs).attempts| && Yes(EndAt(Run(h, evs).attempts[i], side))
    ensures Consented(h, evs, (i, side))
  {
    if evs != [] {
      var before, ev := evs[..|evs| - 1], evs[|evs| - 1];
      var w := Run(h, before);
      assert evs == before + [ev];
      RunKeeps(h, before);
      if i >= |w.attempts| {
        BornUnwilling(h, w, ev, i, side);
      } else if Yes(EndAt(w.attempts[i], side)) {
        YesIsConsent(h, before, i, side);
        ConsentStays(h, before, ev, (i, side));
      } else {
        NewWill(h, w, ev, i, side);
        assert SaysYes(h, evs, |evs| - 1, (i, side));
      }
      hide WorldInv, Next, Yes;
    }
  }

  // -- agreement ---------------------------------------------------------------------------

  /** Attempt i of a run. */
  function AttemptOf(h: Hash, evs: seq<Event>, i: nat): Attempt
    requires i < |Run(h, evs).attempts|
  {
    Run(h, evs).attempts[i]
  }

  lemma InvOf(h: Hash, evs: seq<Event>, i: nat)
    requires i < |Run(h, evs).attempts|
    ensures AttemptInv(AttemptOf(h, evs, i))
  {
    RunKeeps(h, evs);
    hide AttemptInv, Run, PendingInv, TrustInv;
  }

  /** If the dialer stored a token, the responder of that attempt had stored the same one, under the dialer's id. */
  lemma TokenAgreement(h: Hash, evs: seq<Event>, i: nat)
    requires i < |Run(h, evs).attempts|
    ensures var a := AttemptOf(h, evs, i);
            a.d.stored.Some? ==>
                a.r.stored == a.d.stored && a.r.device == a.d.owner
                && ValidTokenFormat(a.d.stored.value)
  {
    InvOf(h, evs, i);
    hide AttemptOf, Run, InboxOk, EventsOk, ValidTokenFormat;
  }

  lemma BothYes(a: Attempt)
    requires AttemptInv(a) && (a.d.stored.Some? || a.r.stored.Some?)
    ensures a.d.localYes && a.r.localYes
  {
    hide InboxOk, EventsOk, ValidTokenFormat, ScreenOk, StageOk, ResultOk;
  }

  lemma SameScreen(a: Attempt)
    requires AttemptInv(a) && a.d.localYes && a.r.localYes
    ensures a.d.shown.Some? && a.d.shown == a.r.shown && ValidCodeFormat(a.d.shown.value)
  {
    hide InboxOk, EventsOk, ValidTokenFormat, ValidCodeFormat, StageOk, ResultOk, StoreOk;
  }

  /** If either end stored a token, both humans accepted this very attempt, looking at the same six digits. */
  lemma NoTrustWithoutBothHumans(h: Hash, evs: seq<Event>, i: nat)
    requires i < |Run(h, evs).attempts|
    requires AttemptOf(h, evs, i).d.stored.Some? || AttemptOf(h, evs, i).r.stored.Some?
    ensures Consented(h, evs, (i, false)) && Consented(h, evs, (i, true))
    ensures var a := AttemptOf(h, evs, i);
            a.d.shown.Some? && a.d.shown == a.r.shown && ValidCodeFormat(a.d.shown.value)
  {
    InvOf(h, evs, i);
    BothYes(AttemptOf(h, evs, i));
    SameScreen(AttemptOf(h, evs, i));
    YesIsConsent(h, evs, i, false);
    YesIsConsent(h, evs, i, true);
    hide AttemptInv, Run, Consented, ValidCodeFormat;
  }

  /** Whatever code both screens show, it is the same one, stored token or not. */
  lemma ScreensAgree(h: Hash, evs: seq<Event>, i: nat)
    requires i < |Run(h, evs).attempts|
    ensures var a := AttemptOf(h, evs, i);
            a.d.shown.Some? && a.r.shown.Some? ==> a.d.shown == a.r.shown
  {
    InvOf(h, evs, i);
    hide AttemptOf, Run, InboxOk, EventsOk, ValidTokenFormat, ValidCodeFormat, StageOk, ResultOk, StoreOk, ConsentOk;
  }

  /** Every trust entry was earned by an attempt that both humans accepted. */
  lemma TrustIsEarned(h: Hash, evs: seq<Event>, k: Key) returns (p: Place)
    requires k in Run(h, evs).trust
    ensures Earned(Run(h, evs), k, Run(h, evs).trust[k], p.0, p.1)
    ensures Consented(h, evs, (p.0, false)) && Consented(h, evs, (p.0, true))
  {
    RunKeeps(h, evs);
    var w := Run(h, evs);
    var i, side :| Earned(w, k, w.trust[k], i, side);
    NoTrustWithoutBothHumans(h, evs, i);
    p := (i, side);
    hide AttemptInv, PendingInv, Run, Consented;
  }

  /** No daemon ever has two pairings with one device on screen. */
  lemma OnePairingPerDevice(h: Hash, evs: seq<Event>, p: Place, q: Place)
    requires p.0 < |Run(h, evs).attempts| && q.0 < |Run(h, evs).attempts|
    ensures var x, y := EndAt(AttemptOf(h, evs, p.0), p.1), EndAt(AttemptOf(h, evs, q.0), q.1);
            Live(x) && Live(y) && KeyOf(x) == KeyOf(y) ==> p == q
  {
    RunKeeps(h, evs);
    var w := Run(h, evs);
    if Live(EndAt(w.attempts[p.0], p.1)) && Live(EndAt(w.attempts[q.0], q.1)) {
      assert Listed(w, p.0, p.1) && Listed(w, q.0, q.1);
    }
    hide AttemptInv, TrustInv, Run;
  }

  // -- exactly one result --------------------------------------------------------------------

  /** Nothing this end's goroutines do can change it any more, but for its buffers. */
  predicate Finished(e: End) { e.stage.Refused? || (e.stage.Reported? && e.done) }

  /**
   * One result at most; exactly one once an attempt that was asked for, or whose code was shown, is over; and it
   * tells the truth.
   */
  lemma OneResult(h: Hash, evs: seq<Event>, i: nat, side: bool)
    requires i < |Run(h, evs).attempts|
    ensures var e := EndAt(AttemptOf(h, evs, i), side);
            && |e.results| <= 1
            && (Finished(e) && (e.asked || e.shown.Some?) ==> |e.results| == 1)
            && (|e.results| == 1 ==> (e.results[0].Success? <==> e.stored.Some? && e.saved))
            && (e.stored.Some? ==> e.localYes)
  {
    InvOf(h, evs, i);
    hide AttemptOf, Run, Agrees, ValidTokenFormat, ValidCodeFormat;
  }

  /** A success is only ever reported where the human accepted this attempt. */
  lemma SuccessNeedsConsent(h: Hash, evs: seq<Event>, i: nat, side: bool)
    requires i < |Run(h, evs).attempts| && Success in EndAt(AttemptOf(h, evs, i), side).results
    ensures Consented(h, evs, (i, side))
  {
    OneResult(h, evs, i, side);
    YesIsConsent(h, evs, i, side);
    hide Run, Consented;
  }

  /** How many steps of its own an end may still need. */
  function Rank(e: End): nat {
    match e.stage
    case Waiting => 10
    case Dialling => 9
    case Opening => 8
    case Offered => 7
    case Driving => 6
    case Completing(_) => 5
    case Failing(_, _) => 4
    case Stored(_) => 3
    case Closed(_) => 2
    case Announced => 2
    case Reported => if e.done then 0 else 1
    case Refused => 0
  }

  // -- an outcome, once chosen -----------------------------------------------------------------

  /** The driver has left its select for good. */
  predicate Chosen(e: End) { !Early(e.stage) && !e.stage.Driving? }

  /** What the world gives one step of an end. */
  datatype Input = Input(head: Option<Frame>, m: Move, free: Id -> bool, mine: bool)

  /** Any steps of an end, and the frames they send. */
  function Steps(h: Hash, e: End, ins: seq<Input>): (End, seq<Frame>)
    decreases |ins|
  {
    if ins == [] then (e, [])
    else
      var x := Act(h, e, ins[0].head, ins[0].m, ins[0].free, ins[0].mine);
      var rest := Steps(h, x.e, ins[1..]);
      (rest.0, x.sent + rest.1)
  }

  /** The next action is the same with another answer in the buffer, and does not go back into the select. */
  predicate Late(e: End, ok: bool, d: Option<Decision>) {
    && Finish(e.(decision := d), ok).0 == Finish(e, ok).0.(decision := d)
    && Finish(e.(decision := d), ok).1 == Finish(e, ok).1
    && Chosen(Finish(e, ok).0)
  }

  lemma LateFailing(e: End, ok: bool, d: Option<Decision>)
    requires e.stage.Failing?
    ensures Late(e, ok, d) && Rank(Finish(e, ok).0) < Rank(e)
  {
    assert Finish(e, ok).0 == e.(stage := Closed(e.stage.reason), alive := false);
  }

  lemma LateClosed(e: End, ok: bool, d: Option<Decision>)
    requires e.stage.Closed?
    ensures Late(e, ok, d) && Rank(Finish(e, ok).0) < Rank(e)
  {
    assert Finish(e, ok).0 == e.(stage := Reported, results := e.results + [Failure(e.stage.reason)]);
  }

  lemma LateCompleting(e: End, ok: bool, d: Option<Decision>)
    requires e.stage.Completing? && ok && ValidTokenFormat(e.stage.token)
    ensures Late(e, ok, d) && Rank(Finish(e, ok).0) < Rank(e)
  {
    hide ValidTokenFormat;
  }

  lemma LateWriteError(e: End, ok: bool, d: Option<Decision>)
    requires e.stage.Completing? && !ok && ValidTokenFormat(e.stage.token)
    ensures Late(e, ok, d) && Rank(Finish(e, ok).0) < Rank(e)
  {
    hide ValidTokenFormat;
  }

  lemma LateMalformed(e: End, ok: bool, d: Option<Decision>)
    requires e.stage.Completing? && !ValidTokenFormat(e.stage.token)
    ensures Late(e, ok, d) && Rank(Finish(e, ok).0) < Rank(e)
  {
    hide ValidTokenFormat;
  }

  lemma LateStored(e: End, ok: bool, d: Option<Decision>)
    requires e.stage.Stored?
    ensures Late(e, ok, d) && Rank(Finish(e, ok).0) < Rank(e)
  {
    if !e.responder {
      assert Finish(e, ok) == (e.(paired := true, stage := Announced), []);
    } else if e.alive && ok {
      assert Finish(e, ok) == (e.(paired := true, stage := Announced), [Paired(e.stage.token)]);
    } else {
      assert Finish(e, ok) == (e.(paired := true, stage := Announced, alive := false), []);
    }
  }

  lemma LateAnnounced(e: End, ok: bool, d: Option<Decision>)
    requires e.stage.Announced?
    ensures Late(e, ok, d) && Rank(Finish(e, ok).0) < Rank(e)
  {
    assert Finish(e, ok) == (e.(stage := Reported, results := e.results + [Success]), []);
  }

  lemma LateReported(e: End, ok: bool, d: Option<Decision>)
    requires e.stage.Reported? && !e.done
    ensures Late(e, ok, d) && Rank(Finish(e, ok).0) < Rank(e)
  {
    assert Finish(e, ok) == (e.(done := true), []);
  }

  lemma LateDone(e: End, ok: bool, d: Option<Decision>)
    requires e.stage.Reported? && e.done
    ensures Late(e, ok, d)
  {
  }

  lemma LateFinish(e: End, ok: bool, d: Option<Decision>)
    requires Chosen(e)
    ensures Late(e, ok, d) && (!Finished(e) ==> Rank(Finish(e, ok).0) < Rank(e))
  {
    match e.stage
    case Failing(_, _) => LateFailing(e, ok, d); hide Late, Rank;
    case Closed(_) => LateClosed(e, ok, d); hide Late, Rank;
    case Completing(t) =>
      if !ValidTokenFormat(t) { LateMalformed(e, ok, d); } else if ok { LateCompleting(e, ok, d); }
          else { LateWriteError(e, ok, d); }
      hide Late, Rank, ValidTokenFormat;
    case Stored(_) => LateStored(e, ok, d); hide Late, Rank;
    case Announced => LateAnnounced(e, ok, d); hide Late, Rank;
    case Reported => if e.done { LateDone(e, ok, d); } else { LateReported(e, ok, d); } hide Late, Rank;
    case _ =>
  }

  lemma LateFrame(e: End, f: Frame, mine: bool, d: Option<Decision>)
    ensures ReadFrame(e.(decision := d), f, mine) == ReadFrame(e, f, mine).(decision := d)
        && ReadFrame(e, f, mine).stage == e.stage
  {
    var ev := EventFor(e.device, f);
    if e.paired || !mine || ev.None? {
      assert ReadFrame(e, f, mine) == e.(alive := false);
    } else {
      LatePush(e, ev.value, d);
    }
    hide Push, EventFor;
  }

  lemma LatePush(e: End, ev: PairEvent, d: Option<Decision>)
    ensures Push(e.(decision := d), ev) == Push(e, ev).(decision := d) && Push(e, ev).stage == e.stage
  {
    if |e.events| < EVENT_CAPACITY {
      assert Push(e, ev) == e.(events := e.events + [ev]);
    } else {
      assert Push(e, ev) == e;
    }
  }

  /** All that is left to do once the outcome is chosen: the next action, or a frame that still comes in. */
  function Rest(e: End, x: Input): Effect {
    match x.m
    case Proceed(ok) => Kept(Finish(e, ok))
    case Loop => if e.shown.Some? && x.head.Some? then Took((ReadFrame(e, x.head.value, x.mine), [])) else Kept((e, []))
    case _ => Kept((e, []))
  }

  lemma OnlyTheRest(h: Hash, e: End, x: Input)
    requires Chosen(e)
    ensures Act(h, e, x.head, x.m, x.free, x.mine) == Rest(e, x)
  {
    hide Finish, ReadFrame, Connect, TakeHello, FirstFrame, Refuse, Abort, Offer, Show, Select;
  }

  predicate LateRestOk(e: End, x: Input, d: Option<Decision>) {
    && Rest(e.(decision := d), x).e == Rest(e, x).e.(decision := d)
    && Rest(e.(decision := d), x).sent == Rest(e, x).sent
    && Chosen(Rest(e, x).e)
  }

  lemma LateProceed(e: End, x: Input, d: Option<Decision>)
    requires Chosen(e) && x.m.Proceed?
    ensures LateRestOk(e, x, d)
  {
    LateFinish(e, x.m.ok, d);
    assert Rest(e, x) == Kept(Finish(e, x.m.ok));
    assert Rest(e.(decision := d), x) == Kept(Finish(e.(decision := d), x.m.ok));
    hide Finish, Rank, Finished, Chosen, Rest;
  }

  lemma LateRead(e: End, x: Input, d: Option<Decision>)
    requires Chosen(e) && x.m.Loop? && x.head.Some? && e.shown.Some?
    ensures LateRestOk(e, x, d)
  {
    LateFrame(e, x.head.value, x.mine, d);
    hide ReadFrame;
  }

  lemma LateIdle(e: End, x: Input, d: Option<Decision>)
    requires Chosen(e) && !x.m.Proceed? && !(x.m.Loop? && x.head.Some? && e.shown.Some?)
    ensures LateRestOk(e, x, d)
  {
    assert Rest(e, x) == Kept((e, []));
    hide ReadFrame, Finish, Chosen;
  }

  lemma LateStep(h: Hash, e: End, x: Input, d: Option<Decision>)
    requires Chosen(e)
    ensures Act(h, e.(decision := d), x.head, x.m, x.free, x.mine).e
        == Act(h, e, x.head, x.m, x.free, x.mine).e.(decision := d)
    ensures Act(h, e.(decision := d), x.head, x.m, x.free, x.mine).sent == Act(h, e, x.head, x.m, x.free, x.mine).sent
    ensures Chosen(Act(h, e, x.head, x.m, x.free, x.mine).e)
  {
    OnlyTheRest(h, e, x);
    OnlyTheRest(h, e.(decision := d), x);
    if x.m.Proceed? { LateProceed(e, x, d); }
    else if x.m.Loop? && x.head.Some? && e.shown.Some? { LateRead(e, x, d); }
    else { LateIdle(e, x, d); }
    hide Rest, Act;
  }

  /**
   * An answer that arrives once the outcome is chosen sits in the buffer: whatever steps follow, everything else about
   * the end, its result and its trust among it, and every frame it sends are what they would have been without it.
   */
  lemma {:induction false} LateAnswerChangesNothing(h: Hash, e: End, d: Decision, ins: seq<Input>)
    requires Chosen(e)
    ensures var with, without := Steps(h, Answer(e, d).0, ins), Steps(h, e, ins);
            with.0 == without.0.(decision := Answer(e, d).0.decision) && with.1 == without.1
  {
    hide Steps, Chosen;
    var after := Answer(e, d).0.decision;
    assert Answer(e, d).0 == e.(decision := after);
    hide Answer;
    LateSteps(h, e, after, ins);
  }

  lemma {:induction false} LateSteps(h: Hash, e: End, d: Option<Decision>, ins: seq<Input>)
    requires Chosen(e)
    ensures Steps(h, e.(decision := d), ins).0 == Steps(h, e, ins).0.(decision := d)
    ensures Steps(h, e.(decision := d), ins).1 == Steps(h, e, ins).1
    decreases |ins|
  {
    if ins != [] {
      LateStep(h, e, ins[0], d);
      LateSteps(h, Act(h, e, ins[0].head, ins[0].m, ins[0].free, ins[0].mine).e, d, ins[1..]);
      hide Act, Chosen;
    }
  }

  // -- every attempt can be brought to its end -----------------------------------------------------

  /**
   * The step this end takes when nobody and nothing else does anything: connecting fails or not, sends fail or not,
   * time runs out.
   */
  function Onward(e: End, ok: bool): Move {
    match e.stage
    case Waiting => NoAnswer
    case Dialling => Dial(ok)
    case Opening => if e.responder then SendOffer(ok) else NoAnswer
    case Offered => ShowCode
    case Driving => Turn(TimerFired)
    case _ => Proceed(ok)
  }

  lemma EarlyDescends(h: Hash, e: End, ok: bool, head: Option<Frame>, free: Id -> bool, mine: bool)
    requires e.stage.Waiting? || e.stage.Dialling? || e.stage.Offered? || e.stage.Driving?
    ensures Rank(Act(h, e, head, Onward(e, ok), free, mine).e) < Rank(e)
  {
    hide TakeHello, FirstFrame, OrDeclined, TakeAnswer, TakeRemote;
  }

  lemma OpeningDescends(h: Hash, e: End, ok: bool, head: Option<Frame>, free: Id -> bool, mine: bool)
    requires e.stage.Opening?
    ensures Rank(Act(h, e, head, Onward(e, ok), free, mine).e) < Rank(e)
  {
    if e.responder {
      assert Act(h, e, head, SendOffer(ok), free, mine) == Kept(Offer(e, ok));
    } else {
      assert Act(h, e, head, NoAnswer, free, mine) == Kept((Abort(e, UNREACHABLE, false), []));
    }
    hide Act, OrDeclined;
  }

  lemma OnwardDescends(h: Hash, e: End, ok: bool, head: Option<Frame>, free: Id -> bool, mine: bool)
    requires !Finished(e)
    ensures Rank(Act(h, e, head, Onward(e, ok), free, mine).e) < Rank(e)
  {
    if Chosen(e) {
      OnlyTheRest(h, e, Input(head, Proceed(ok), free, mine));
      LateFinish(e, ok, None);
      hide Finish, Finished, Rank, Late, Act;
    } else if e.stage.Opening? {
      OpeningDescends(h, e, ok, head, free, mine);
      hide Act, Rank, Onward;
    } else {
      EarlyDescends(h, e, ok, head, free, mine);
      hide Act, Rank, Onward;
    }
  }

  lemma StepDescends(h: Hash, w: World, i: nat, side: bool, ok: bool)
    requires i < |w.attempts| && !Finished(EndAt(w.attempts[i], side))
    ensures var v := Moved(h, w, i, side, Onward(EndAt(w.attempts[i], side), ok));
            i < |v.attempts| && Rank(EndAt(v.attempts[i], side)) < Rank(EndAt(w.attempts[i], side))
  {
    var a := w.attempts[i];
    var e, inbox := EndAt(a, side), InboxAt(a, side);
    OnwardDescends(h, e, ok, if inbox == [] then None else Some(inbox[0]), x => (e.owner, x) !in w.pending,
                   PendingAt(w, KeyOf(e)) == Some((i, side)));
    hide Act, Rank, Finished, Onward, PendingAfter, TrustAfter;
  }

  lemma RunStep(h: Hash, evs: seq<Event>, i: nat, side: bool, m: Move)
    requires i < |Run(h, evs).attempts|
    ensures Run(h, evs + [Step(i, side, m)]) == Moved(h, Run(h, evs), i, side, m)
  {
    assert (evs + [Step(i, side, m)])[..|evs|] == evs;
    hide Moved;
  }

  /** And there always is such a run: its own steps and the timer, at most as many as its rank. */
  lemma {:induction false} AnEndIsInReach(h: Hash, evs: seq<Event>, i: nat, side: bool, answers: nat -> bool)
      returns (more: seq<Event>)
    requires i < |Run(h, evs).attempts|
    ensures |more| <= Rank(EndAt(Run(h, evs).attempts[i], side))
    ensures forall k :: 0 <= k < |more| ==> more[k].Step? && more[k].i == i && more[k].side == side
    ensures i < |Run(h, evs + more).attempts| && Finished(EndAt(Run(h, evs + more).attempts[i], side))
    decreases Rank(EndAt(Run(h, evs).attempts[i], side))
  {
    hide Run, Moved, Rank, Finished, Onward;
    var w := Run(h, evs);
    var e := EndAt(w.attempts[i], side);
    if Finished(e) {
      more := [];
      assert evs + [] == evs;
    } else {
      var ev := Step(i, side, Onward(e, answers(Rank(e))));
      StepDescends(h, w, i, side, answers(Rank(e)));
      RunStep(h, evs, i, side, ev.m);
      var rest := AnEndIsInReach(h, evs + [ev], i, side, answers);
      more := [ev] + rest;
      assert evs + more == evs + [ev] + rest;
    }
  }

  // -- and nothing else stands in its way -------------------------------------------------------------

  lemma FailRank(e: End, reason: Reason, notify: bool)
    ensures Rank(Fail(e, reason, notify)) == 4 && Rank(Abort(e, reason, notify)) == 4
  {
    hide OrDeclined;
  }

  lemma TurnRank(e: End, c: Choice)
    requires e.stage.Driving?
    ensures Rank(Select(e, c).0) <= 6
  {
    hide OrDeclined;
    match c
    case TakeDecision(ok, mint) =>
      if e.decision.Some? { AnswerRank(e.(decision := None), e.decision.value, ok, mint); } hide TakeAnswer;
    case TakeEvent(mint) =>
      if e.events != [] { RemoteRank(e.(events := e.events[1..]), e.events[0], mint); } hide TakeRemote;
    case _ => FailRank(e, INTERNAL, true); FailRank(e, UNREACHABLE, false); FailRank(e, TIMEOUT, true); hide Fail;
  }

  lemma SelectedRank(e: End, mint: Option<Token>)
    requires e.stage.Driving?
    ensures Rank(AfterSelect(e, mint)) <= 6
  {
    FailRank(e, INTERNAL, true);
    hide Fail;
  }

  lemma AnswerRank(e: End, d: Decision, ok: bool, mint: Option<Token>)
    requires e.stage.Driving?
    ensures Rank(TakeAnswer(e, d, ok, mint).0) <= 6
  {
    FailRank(e, d.reason, true);
    FailRank(e.(localYes := true, alive := false), UNREACHABLE, false);
    SelectedRank(e.(localYes := true), mint);
    StageRank(e);
    hide Fail, AfterSelect, Rank;
  }

  lemma StageRank(e: End)
    requires e.stage.Driving?
    ensures Rank(e) == 6
  {
  }

  lemma RemoteRank(e: End, ev: PairEvent, mint: Option<Token>)
    requires e.stage.Driving?
    ensures Rank(TakeRemote(e, ev, mint)) <= 6
  {
    match ev
    case EvAccept => SelectedRank(e.(remoteYes := true), mint); hide Fail, AfterSelect;
    case EvReject(r) => FailRank(e, r, false); hide Fail, AfterSelect;
    case EvCancelled(r) => FailRank(e, r, true); hide Fail, AfterSelect;
    case EvPaired(t) => FailRank(e, INTERNAL, true); hide Fail, AfterSelect;
  }

  lemma EarlyRank(h: Hash, e: End, f: Frame, gate: Gate, free: Id -> bool, ok: bool)
    ensures Rank(TakeHello(h, e, f, gate, free).0) <= 8 && Rank(Connect(e, ok).0) <= 8
  {
    hide OrDeclined, Code, Abort, Refuse;
    FailRank(e, UNREACHABLE, false);
  }

  lemma FirstRank(h: Hash, e: End, f: Frame)
    ensures Rank(FirstFrame(h, e, f)) <= 6
  {
    FailRank(e, INTERNAL, true);
    FailRank(e, CODE_MISMATCH, true);
    if f.Reject? { FailRank(e, OrDeclined(f.reason), false); }
    hide OrDeclined, Code, Abort, ValidNonceFormat, ValidCodeFormat;
  }

  /** No step of an end takes it further from its finish. */
  lemma RankNeverGrows(h: Hash, e: End, head: Option<Frame>, m: Move, free: Id -> bool, mine: bool)
    ensures Rank(Act(h, e, head, m, free, mine).e) <= Rank(e)
  {
    if Chosen(e) {
      OnlyTheRest(h, e, Input(head, m, free, mine));
      RestRank(e, Input(head, m, free, mine));
      hide Act, Rest, Rank, Chosen;
    } else {
      hide Select, Connect, TakeHello, FirstFrame, Finish, ReadFrame, OrDeclined;
      match m
      case Dial(ok) => EarlyRank(h, e, Reject(""), Unreadable, free, ok);
      case First(gate) =>
        if head.Some? {
          EarlyRank(h, e, head.value, gate, free, false);
          FirstRank(h, e, head.value);
        }
      case Turn(c) => if e.stage.Driving? { TurnRank(e, c); }
      case Proceed(ok) => EarlyStays(e, ok);
      case Loop => if head.Some? { LateFrame(e, head.value, mine, None); }
      case _ =>
    }
  }

  lemma EarlyStays(e: End, ok: bool)
    requires !Chosen(e)
    ensures Finish(e, ok) == (e, [])
  {
  }

  lemma FinishRank(e: End, ok: bool)
    requires Chosen(e)
    ensures Rank(Finish(e, ok).0) <= Rank(e)
  {
    hide Finish, Late, Rank, Chosen, Finished;
    LateFinish(e, ok, None);
    if Finished(e) { FinishedStays(e, ok); }
  }

  lemma SameStageRank(e: End, n: End)
    requires n.stage == e.stage && n.done == e.done
    ensures Rank(n) == Rank(e)
  {
  }

  lemma ReadSame(e: End, f: Frame, mine: bool)
    ensures ReadFrame(e, f, mine).stage == e.stage && ReadFrame(e, f, mine).done == e.done
  {
    hide EventFor;
  }

  lemma RestRank(e: End, x: Input)
    requires Chosen(e)
    ensures Rank(Rest(e, x).e) <= Rank(e)
  {
    hide Finish, Rank, ReadFrame, Chosen;
    match x.m
    case Proceed(ok) => FinishRank(e, ok);
    case Loop =>
      if x.head.Some? {
        ReadSame(e, x.head.value, x.mine);
        SameStageRank(e, ReadFrame(e, x.head.value, x.mine));
      }
    case _ =>
  }

  lemma FinishedStays(e: End, ok: bool)
    requires Finished(e)
    ensures Rank(Finish(e, ok).0) == Rank(e) == 0
  {
  }

  /** Nor does anything else that happens in the world: answers, forgetting, dying sockets, other ends. */
  lemma EventRank(h: Hash, w: World, ev: Event, i: nat, side: bool)
    requires i < |w.attempts|
    ensures i < |Next(h, w, ev).attempts|
    ensures Rank(EndAt(Next(h, w, ev).attempts[i], side)) <= Rank(EndAt(w.attempts[i], side))
  {
    match ev
    case Step(j, s, m) =>
      if j < |w.attempts| {
        var a := w.attempts[j];
        var e, inbox := EndAt(a, s), InboxAt(a, s);
        RankNeverGrows(h, e, if inbox == [] then None else Some(inbox[0]), m, x => (e.owner, x) !in w.pending,
                       PendingAt(w, KeyOf(e)) == Some((j, s)));
      }
      hide Act, Rank, PendingAfter, TrustAfter;
    case Confirm(o, x, d) => SwappedRank(w, (o, x), d, i, side); hide Confirmed, Rank;
    case Cancel(o, x) => SwappedRank(w, (o, x), Decision(true, ""), i, side); hide Cancelled, Rank;
    case _ =>
  }

  lemma SwappedRank(w: World, k: Key, d: Decision, i: nat, side: bool)
    requires i < |w.attempts|
    ensures i < |Confirmed(w, k, d).attempts| && i < |Cancelled(w, k).attempts|
    ensures Rank(EndAt(Confirmed(w, k, d).attempts[i], side)) == Rank(EndAt(w.attempts[i], side))
    ensures Rank(EndAt(Cancelled(w, k).attempts[i], side)) == Rank(EndAt(w.attempts[i], side))
  {
  }

  /** The event is that end taking the step it can take by itself. */
  predicate GoesOn(h: Hash, w: World, ev: Event, i: nat, side: bool) {
    && ev.Step? && ev.i == i && ev.side == side && i < |w.attempts|
    && (ev.m == Onward(EndAt(w.attempts[i], side), true) || ev.m == Onward(EndAt(w.attempts[i], side), false))
  }

  /** How often it does so during `more`. */
  function OwnSteps(h: Hash, evs: seq<Event>, more: seq<Event>, i: nat, side: bool): nat
    decreases |more|
  {
    if more == [] then 0
    else (if GoesOn(h, Run(h, evs), more[0], i, side) then 1 else 0) + OwnSteps(h, evs + [more[0]], more[1..], i, side)
  }

  lemma TenStepsAreEnough(e: End)
    ensures Rank(e) <= 10 && (Rank(e) == 0 <==> Finished(e))
  {
  }

  lemma GoesOnDescends(h: Hash, w: World, ev: Event, i: nat, side: bool)
    requires GoesOn(h, w, ev, i, side) && !Finished(EndAt(w.attempts[i], side))
    ensures i < |Next(h, w, ev).attempts|
    ensures Rank(EndAt(Next(h, w, ev).attempts[i], side)) < Rank(EndAt(w.attempts[i], side))
  {
    StepDescends(h, w, i, side, true);
    StepDescends(h, w, i, side, false);
    hide Moved, Rank, Finished, Onward;
  }

  lemma {:induction false} RunDescends(h: Hash, evs: seq<Event>, more: seq<Event>, i: nat, side: bool)
    requires i < |Run(h, evs).attempts|
    ensures i < |Run(h, evs + more).attempts|
    ensures var left := Rank(EndAt(Run(h, evs).attempts[i], side));
            Rank(EndAt(Run(h, evs + more).attempts[i], side)) <= if OwnSteps(h, evs, more, i, side) <= left
                                                                 then left - OwnSteps(h, evs, more, i, side) else 0
    decreases |more|
  {
    hide Next, Rank, GoesOn, Finished;
    if more == [] {
      assert evs + more == evs;
    } else {
      var w, ev := Run(h, evs), more[0];
      assert evs + more == (evs + [ev]) + more[1..];
      assert (evs + [ev])[..|evs|] == evs;
      assert Run(h, evs + [ev]) == Next(h, w, ev);
      EventRank(h, w, ev, i, side);
      TenStepsAreEnough(EndAt(w.attempts[i], side));
      if GoesOn(h, w, ev, i, side) && !Finished(EndAt(w.attempts[i], side)) { GoesOnDescends(h, w, ev, i, side); }
      RunDescends(h, evs + [ev], more[1..], i, side);
      hide Run;
    }
  }

  /**
   * Every attempt ends. From every reachable state, in every run, whatever else happens in between and whatever sends,
   * writes and the far side answer: once an end has taken ten steps it can take by itself, it has reached its finish,
   * where OneResult says that it has reported exactly once.
   */
  lemma EveryAttemptEnds(h: Hash, evs: seq<Event>, more: seq<Event>, i: nat, side: bool)
    requires i < |Run(h, evs).attempts| && OwnSteps(h, evs, more, i, side) >= 10
    ensures i < |Run(h, evs + more).attempts| && Finished(EndAt(Run(h, evs + more).attempts[i], side))
  {
    RunDescends(h, evs, more, i, side);
    TenStepsAreEnough(EndAt(Run(h, evs).attempts[i], side));
    TenStepsAreEnough(EndAt(Run(h, evs + more).attempts[i], side));
    hide Run, Rank, Finished, OwnSteps;
  }
}
