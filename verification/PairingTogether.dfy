/**
 * Two humans who both accept: in every run in which nothing fails, nobody takes an answer back and time does not run
 * out, both ends come to hold the same token and both report success, whatever the order of their steps.
 */
module PairingTogether {
  import opened Common
  import opened PairingCode
  import opened PairingSpec
  import opened PairingInvariant
  import opened PairingWorld
  import opened PairingTheorems
  import opened PairingForget
  import opened PairingPost
  import opened PairingDelivery
  import opened PairingSuccess
  import PairingRuns

  // -- where it starts ----------------------------------------------------------------------------------------

  /** In its select on a live socket, accepted or with an accept in its buffer, and nothing there to stop it. */
  predicate Willingly(e: End) {
    && e.stage.Driving? && e.alive && (e.localYes || e.decision.Some?)
    && (e.decision.Some? ==> e.decision.value.accept)
    && (forall i :: 0 <= i < |e.events| ==> !e.events[i].EvReject? && !e.events[i].EvCancelled?)
  }

  predicate NoRejects(q: seq<Frame>) { forall i :: 0 <= i < |q| ==> !q[i].Reject? }

  /** Both humans have accepted, and the daemon that answered is the one that was picked. */
  predicate Promising(a: Attempt) {
    && Willingly(a.d) && Willingly(a.r) && NoRejects(a.toD) && NoRejects(a.toR)
    && a.d.device == a.r.owner && a.d.owner != "" && a.r.owner != ""
  }

  predicate OnlyAccepts(q: seq<Frame>, id: Id) { forall i :: 0 <= i < |q| ==> q[i] == Accept(id) }

  predicate OnlyYeses(evs: seq<PairEvent>) { forall i :: 0 <= i < |evs| ==> evs[i].EvAccept? }

  lemma {:induction false} AcceptsCount(q: seq<Frame>, id: Id)
    requires OnlyAccepts(q, id) && id != ""
    ensures AcceptsIn(q) == |q| && OnlyYeses(Made(id, q)) && |Made(id, q)| == |q| && Readable(id, q)
  {
    forall i | 0 <= i < |q| ensures EventFor(id, q[i]).Some? { AcceptIsRead(id); }
    if q != [] {
      AcceptsCount(q[1..], id);
      AcceptIsRead(id);
    }
    hide EventFor;
  }

  lemma {:induction false} NoOfferThere(q: seq<Frame>)
    requires Offers(q) == 0
    ensures forall i :: 0 <= i < |q| ==> !q[i].Required?
  {
    if q != [] {
      NoOfferThere(q[1..]);
      forall i | 0 <= i < |q| ensures !q[i].Required? { if i > 0 { assert q[i] == q[1..][i - 1]; } }
    }
  }

  lemma {:induction false} NoHelloThere(q: seq<Frame>)
    requires Hellos(q) == 0
    ensures forall i :: 0 <= i < |q| ==> !q[i].Hello?
  {
    if q != [] {
      NoHelloThere(q[1..]);
      forall i | 0 <= i < |q| ensures !q[i].Hello? { if i > 0 { assert q[i] == q[1..][i - 1]; } }
    }
  }

  /** No token has been sent or heard of yet: the frames under way are accepts. */
  lemma DiallerGets(a: Attempt)
    requires Known(a) && Promising(a)
    ensures OnlyAccepts(a.toD, a.r.owner) && OnlyYeses(a.d.events)
  {
    assert a.r.stored.None? && a.d.shown.Some? by { hide Agrees, ValidTokenFormat, ValidCodeFormat; }
    assert InboxOk(a.toD, a.r) && EventsOk(a.d.events, a.r) by { hide EndInv, InboxOk, EventsOk, BeliefOk; }
    hide AttemptInv, BufferOk, Counted, Heard, ToAnswerer, ValidTokenFormat, ValidCodeFormat, Offers, Public;
    NoOfferThere(a.toD);
    forall i | 0 <= i < |a.toD| ensures a.toD[i] == Accept(a.r.owner) { assert FrameOk(a.toD[i], a.r); }
    forall i | 0 <= i < |a.d.events| ensures a.d.events[i].EvAccept? { assert EventOk(a.d.events[i], a.r); }
  }

  lemma AnswererGets(a: Attempt)
    requires Known(a) && Promising(a)
    ensures OnlyAccepts(a.toR, a.d.owner) && OnlyYeses(a.r.events)
  {
    assert EventsOk(a.r.events, a.d) && !a.d.responder by { hide EndInv, InboxOk, EventsOk, BeliefOk; }
    hide AttemptInv, BufferOk, Counted, Heard, ToDialler, ValidTokenFormat, ValidCodeFormat, Hellos;
    NoHelloThere(a.toR);
    forall i | 0 <= i < |a.r.events| ensures a.r.events[i].EvAccept? { assert EventOk(a.r.events[i], a.d); }
  }

  lemma YesesAre(evs: seq<PairEvent>)
    requires OnlyYeses(evs) && |evs| <= 1
    ensures evs == AcceptIf(|evs| == 1)
  {
  }

  /** Exactly the accept that was sent and not taken yet. */
  lemma OneAccept(me: End, inbox: seq<Frame>, other: End)
    requires Counted(me, inbox, other) && Heard(me, inbox, other) && Willingly(me) && other.stage.Driving?
    requires OnlyAccepts(inbox, other.owner) && OnlyYeses(me.events)
    requires me.device == other.owner && other.owner != ""
    ensures Mail(me, inbox) == AcceptIf(other.localYes && !me.remoteYes) && Readable(me.device, inbox)
  {
    AcceptsCount(inbox, other.owner);
    FullOfYeses(me.events);
    assert !Deaf(me);
    assert OnlyYeses(Mail(me, inbox)) && |Mail(me, inbox)| == |me.events| + |inbox| by { hide Made; }
    hide Yeses, AcceptsIn, Made, Readable, Deaf;
    YesesAre(Mail(me, inbox));
  }

  lemma DrivingIsEager(e: End)
    requires EndInv(e) && BufferOk(e) && LinkOk(e) && Willingly(e)
    ensures Eager(e)
  {
    hide ValidTokenFormat, ValidCodeFormat, OnlyCancels;
  }

  lemma FarSide(a: Attempt)
    requires Known(a) && Promising(a)
    ensures !a.d.responder && a.r.responder && a.r.device == a.d.owner
    ensures (a.r.remoteYes ==> a.d.localYes) && (a.d.remoteYes ==> a.r.localYes) && !(a.r.localYes && a.r.remoteYes)
  {
    hide EndInv, InboxOk, EventsOk, Counted, Heard, ToDialler, ToAnswerer, Public, LinkOk, BufferOk;
  }

  lemma PromisingIsOnTrack(a: Attempt)
    requires Known(a) && Promising(a)
    ensures OnTrack(a)
  {
    DiallerGets(a);
    AnswererGets(a);
    FarSide(a);
    assert Eager(a.d) && Eager(a.r) by {
      ReadyAt(a, false);
      ReadyAt(a, true);
      DrivingIsEager(a.d);
      DrivingIsEager(a.r);
      hide Eager, EndInv, InboxOk, EventsOk, BeliefOk, Counted, Heard, ToDialler, ToAnswerer;
    }
    hide AttemptInv, BufferOk, ToDialler, ToAnswerer, Eager;
    OneAccept(a.d, a.toD, a.r);
    OneAccept(a.r, a.toR, a.d);
    hide Counted, Heard, Mail, Readable, OnlyAccepts, OnlyYeses;
    assert forall x :: AcceptIf(x) + [] == AcceptIf(x);
  }

  // -- where it ends --------------------------------------------------------------------------------------------

  /** Nothing to read, nothing to take, and no action left. */
  predicate Idle(e: End, inbox: seq<Frame>) {
    inbox == [] && if e.stage.Driving? then e.decision.None? && e.events == [] else e.done
  }

  predicate AtRest(a: Attempt) { Idle(a.d, a.toD) && Idle(a.r, a.toR) }

  /** Both report success, and it is the same token on both sides. */
  predicate Together(a: Attempt) {
    && a.d.results == [Success] && a.r.results == [Success]
    && a.d.stored.Some? && a.d.stored == a.r.stored && a.d.saved && a.r.saved
  }

  lemma RestIsSuccess(a: Attempt)
    requires OnTrack(a) && AtRest(a)
    ensures Together(a)
  {
    assert Mail(a.d, a.toD) == [] || !a.d.stage.Driving?;
    assert Mail(a.r, a.toR) == [] || !a.r.stage.Driving?;
    hide EventFor, Made, ValidTokenFormat;
  }

  /** What an end at rest has not done yet. */
  function Todo(e: End, inbox: seq<Frame>): Move {
    if inbox != [] then Loop
    else if !e.stage.Driving? then Proceed(true)
    else if e.decision.Some? then Turn(TakeDecision(true, Some(SomeToken())))
    else Turn(TakeEvent(Some(SomeToken())))
  }

  lemma TodoIsBenign(e: End, inbox: seq<Frame>)
    ensures Benign(Todo(e, inbox))
  {
    SomeTokenIsValid();
    hide ValidTokenFormat, SomeToken;
  }

  lemma TodoHasWork(e: End, inbox: seq<Frame>)
    requires !Idle(e, inbox)
    ensures HasWork(e, inbox, Todo(e, inbox))
  {
    hide SomeToken;
  }

  // -- the world goes on around it ------------------------------------------------------------------------------

  /** The pending pairing this event speaks to is attempt i. */
  predicate Reaches(w: World, k: Key, i: nat) { PendingAt(w, k).Some? && PendingAt(w, k).value.0 == i }

  /** Whatever else happens: at this attempt no step fails, nobody says no, nobody cancels and no socket dies. */
  predicate Helps(w: World, ev: Event, i: nat) {
    match ev
    case Step(j, _, m) => j == i ==> Benign(m)
    case Confirm(o, x, d) => Reaches(w, (o, x), i) ==> d.accept
    case Cancel(o, x) => !Reaches(w, (o, x), i)
    case Die(j, _, _) => j != i
    case _ => true
  }

  predicate AllHelp(h: Hash, evs: seq<Event>, more: seq<Event>, i: nat)
    decreases |more|
  {
    more == [] || (Helps(Run(h, evs), more[0], i) && AllHelp(h, evs + [more[0]], more[1..], i))
  }

  lemma PendingIsMine(w: World, i: nat, side: bool)
    requires WorldInv(w) && i < |w.attempts| && !EndAt(w.attempts[i], side).stage.Waiting?
    requires !EndAt(w.attempts[i], side).done
    ensures PendingAt(w, KeyOf(EndAt(w.attempts[i], side))) == Some((i, side))
  {
    assert Live(EndAt(w.attempts[i], side)) && Listed(w, i, side);
    hide AttemptInv, TrustInv;
  }

  /** A step of either end of the attempt. */
  lemma StepNearer(h: Hash, w: World, i: nat, side: bool, m: Move)
    requires WorldInv(w) && i < |w.attempts| && OnTrack(w.attempts[i]) && Benign(m)
    ensures var a := w.attempts[i];
            Nearer(a, Moved(h, w, i, side, m).attempts[i], HasWork(EndAt(a, side), InboxAt(a, side), m))
  {
    var a := w.attempts[i];
    var e := EndAt(a, side);
    var free := x => (e.owner, x) !in w.pending;
    assert !e.stage.Waiting? by { hide ValidTokenFormat, WorldInv, Mail, Readable; }
    if !e.done { PendingIsMine(w, i, side); }
    var mine := PendingAt(w, KeyOf(e)) == Some((i, side));
    assert AttemptInv(a) by { hide AttemptInv, PendingInv, TrustInv; }
    hide WorldInv, OnTrack, AttemptInv, Benign, HasWork, Nearer, Stepped, Moved, Mail, Left;
    if side { AnswererNearer(h, a, m, free, mine); } else { DiallerNearer(h, a, m, free, mine); }
    MovedIsStepped(h, w, i, side, m);
  }

  lemma MovedIsStepped(h: Hash, w: World, i: nat, side: bool, m: Move)
    requires i < |w.attempts|
    ensures var a := w.attempts[i];
            var e := EndAt(a, side);
            Moved(h, w, i, side, m).attempts[i]
                == Stepped(h, a, side, m, x => (e.owner, x) !in w.pending, PendingAt(w, KeyOf(e)) == Some((i, side)))
  {
    hide Act, Apply, PendingAfter, TrustAfter;
  }

  /** Another accept in the buffer. */
  lemma AnswerOnTrack(a: Attempt, side: bool, d: Decision)
    requires OnTrack(a) && d.accept
    ensures OnTrack(SetEnd(a, side, Answer(EndAt(a, side), d).0))
  {
    var e := EndAt(a, side);
    var n := Answer(e, d).0;
    assert Mail(n, InboxAt(a, side)) == Mail(e, InboxAt(a, side));
    hide EventFor, Made, ValidTokenFormat;
  }

  /** The same two daemons, each about the same device. */
  predicate SamePair(a: Attempt, n: Attempt) { KeyOf(n.d) == KeyOf(a.d) && KeyOf(n.r) == KeyOf(a.r) }

  lemma StepSamePair(h: Hash, w: World, i: nat, side: bool, m: Move)
    requires WorldInv(w) && i < |w.attempts| && OnTrack(w.attempts[i])
    ensures SamePair(w.attempts[i], Moved(h, w, i, side, m).attempts[i])
  {
    EffectKeeps(h, w, i, side, m);
    assert !EndAt(w.attempts[i], side).stage.Waiting? by { hide ValidTokenFormat, WorldInv, Mail, Readable; }
    assert Grows(EndAt(w.attempts[i], side), StepEffect(h, w, i, side, m).e) by { hide Act, Grows; }
    hide WorldInv, OnTrack, Act, Keeps, PendingAfter, TrustAfter, Public;
  }

  lemma AnswerSamePair(a: Attempt, side: bool, d: Decision)
    ensures SamePair(a, SetEnd(a, side, Answer(EndAt(a, side), d).0))
  {
  }

  lemma HelpKeeps(h: Hash, w: World, ev: Event, i: nat)
    requires WorldInv(w) && i < |w.attempts| && OnTrack(w.attempts[i]) && Helps(w, ev, i)
    ensures i < |Next(h, w, ev).attempts| && OnTrack(Next(h, w, ev).attempts[i])
    ensures SamePair(w.attempts[i], Next(h, w, ev).attempts[i])
  {
    hide KeyOf, WorldInv, OnTrack, Moved, Died, Push, Answer, Benign, HasWork, DECLINED;
    match ev
    case Step(j, side, m) =>
      if j < |w.attempts| {
        Elsewhere(h, w, j, side, m);
        if j == i { StepNearer(h, w, i, side, m); StepSamePair(h, w, i, side, m); }
      }
    case Confirm(o, x, d) =>
      var p := PendingAt(w, (o, x));
      if p.Some? && p.value.0 == i {
        AnswerOnTrack(w.attempts[i], p.value.1, d);
        AnswerSamePair(w.attempts[i], p.value.1, d);
      }
    case _ =>
  }

  lemma {:induction false} HelpRuns(h: Hash, evs: seq<Event>, more: seq<Event>, i: nat)
    requires i < |Run(h, evs).attempts| && OnTrack(Run(h, evs).attempts[i]) && AllHelp(h, evs, more, i)
    ensures i < |Run(h, evs + more).attempts| && OnTrack(Run(h, evs + more).attempts[i])
    ensures SamePair(Run(h, evs).attempts[i], Run(h, evs + more).attempts[i])
    decreases |more|
  {
    hide Next, OnTrack, Helps, KeyOf;
    if more == [] {
      assert evs + more == evs;
    } else {
      assert evs + more == (evs + [more[0]]) + more[1..];
      assert (evs + [more[0]])[..|evs|] == evs;
      assert Run(h, evs + [more[0]]) == Next(h, Run(h, evs), more[0]);
      RunKeeps(h, evs);
      HelpKeeps(h, Run(h, evs), more[0], i);
      HelpRuns(h, evs + [more[0]], more[1..], i);
      hide Run, WorldInv, AllHelp;
    }
  }

  /**
   * Once both humans have accepted and both drivers are in their selects, every run in which nothing goes wrong at this
   * attempt leads to success whenever it comes to rest: both ends have stored the same token, and both have said so.
   */
  lemma BothSucceed(h: Hash, evs: seq<Event>, more: seq<Event>, i: nat)
    requires i < |Run(h, evs).attempts| && Promising(Run(h, evs).attempts[i]) && AllHelp(h, evs, more, i)
    ensures i < |Run(h, evs + more).attempts| && SamePair(Run(h, evs).attempts[i], Run(h, evs + more).attempts[i])
    ensures AtRest(Run(h, evs + more).attempts[i]) ==> Together(Run(h, evs + more).attempts[i])
  {
    hide Promising, Known, OnTrack, AtRest, Together;
    RunKnown(h, evs, i);
    PromisingIsOnTrack(Run(h, evs).attempts[i]);
    HelpRuns(h, evs, more, i);
    hide Run, AllHelp;
    if AtRest(Run(h, evs + more).attempts[i]) { RestIsSuccess(Run(h, evs + more).attempts[i]); }
  }

  // -- and it comes to rest ---------------------------------------------------------------------------------------

  lemma LeftIsBounded(a: Attempt)
    requires OnTrack(a)
    ensures Left(a) <= 64
  {
    ReadableCounts(a.d.device, a.toD);
    ReadableCounts(a.r.device, a.toR);
    assert |Mail(a.d, a.toD)| <= 2 && |Mail(a.r, a.toR)| <= 1;
    hide EventFor, Made, Readable, Mail, ValidTokenFormat;
  }

  /** A step one end or the other still has to make. */
  lemma OneStepOn(h: Hash, evs: seq<Event>, i: nat) returns (ev: Event)
    requires i < |Run(h, evs).attempts| && OnTrack(Run(h, evs).attempts[i]) && !AtRest(Run(h, evs).attempts[i])
    ensures ev.Step? && ev.i == i && Helps(Run(h, evs), ev, i)
    ensures var w := Run(h, evs + [ev]);
            i < |w.attempts| && OnTrack(w.attempts[i]) && Left(w.attempts[i]) < Left(Run(h, evs).attempts[i])
  {
    hide OnTrack, Left, Idle, Todo, Moved, Benign, HasWork, WorldInv, Run;
    var w := Run(h, evs);
    var side := !Idle(w.attempts[i].r, w.attempts[i].toR);
    var e, inbox := EndAt(w.attempts[i], side), InboxAt(w.attempts[i], side);
    ev := Step(i, side, Todo(e, inbox));
    TodoHasWork(e, inbox);
    TodoIsBenign(e, inbox);
    RunKeeps(h, evs);
    StepNearer(h, w, i, side, ev.m);
    RunStep(h, evs, i, side, ev.m);
    Elsewhere(h, w, i, side, ev.m);
  }

  lemma {:induction false} RestIsInReach(h: Hash, evs: seq<Event>, i: nat) returns (rest: seq<Event>)
    requires i < |Run(h, evs).attempts| && OnTrack(Run(h, evs).attempts[i])
    ensures AllHelp(h, evs, rest, i) && |rest| <= Left(Run(h, evs).attempts[i])
    ensures forall j :: 0 <= j < |rest| ==> rest[j].Step? && rest[j].i == i
    ensures i < |Run(h, evs + rest).attempts| && AtRest(Run(h, evs + rest).attempts[i])
    decreases Left(Run(h, evs).attempts[i])
  {
    hide OnTrack, Left, AtRest, Helps, Run;
    if AtRest(Run(h, evs).attempts[i]) {
      rest := [];
      assert evs + rest == evs;
    } else {
      var ev := OneStepOn(h, evs, i);
      var later := RestIsInReach(h, evs + [ev], i);
      rest := [ev] + later;
      assert evs + rest == (evs + [ev]) + later && rest[1..] == later;
    }
  }

  /**
   * And rest is always in reach: wherever such a run stands, at most 64 more steps of the two ends, in which nothing
   * fails, bring it there.
   */
  lemma SuccessIsInReach(h: Hash, evs: seq<Event>, more: seq<Event>, i: nat) returns (rest: seq<Event>)
    requires i < |Run(h, evs).attempts| && Promising(Run(h, evs).attempts[i]) && AllHelp(h, evs, more, i)
    ensures |rest| <= 64 && AllHelp(h, evs + more, rest, i)
    ensures forall j :: 0 <= j < |rest| ==> rest[j].Step? && rest[j].i == i
    ensures i < |Run(h, evs + more + rest).attempts| && Together(Run(h, evs + more + rest).attempts[i])
    ensures SamePair(Run(h, evs).attempts[i], Run(h, evs + more + rest).attempts[i])
  {
    hide KeyOf, Promising, Known, OnTrack, AtRest, Together, Left;
    RunKnown(h, evs, i);
    PromisingIsOnTrack(Run(h, evs).attempts[i]);
    HelpRuns(h, evs, more, i);
    hide Run, AllHelp;
    LeftIsBounded(Run(h, evs + more).attempts[i]);
    rest := RestIsInReach(h, evs + more, i);
    HelpRuns(h, evs + more, rest, i);
    RestIsSuccess(Run(h, evs + more + rest).attempts[i]);
  }

  lemma NothingHelps(h: Hash, evs: seq<Event>, i: nat)
    ensures AllHelp(h, evs, [], i)
  {
  }

  lemma StrangersAccept(h: Hash, a: Id, b: Id, nonce: string)
    requires PairingRuns.Devices(a, b, nonce)
    ensures var w := Run(h, PairingRuns.BothAccepted(a, b, nonce));
            && |w.attempts| == 1 && Promising(w.attempts[0])
            && KeyOf(w.attempts[0].d) == (a, b) && KeyOf(w.attempts[0].r) == (b, a)
  {
    PairingRuns.BothAcceptedRuns(h, a, b, nonce);
    hide Run, PairingRuns.BothAccepted, PairingRuns.CodeFor, ValidNonceFormat;
  }

  /** From two strangers to two paired devices: such a run there is, for any two ids. */
  lemma StrangersCanPair(h: Hash, a: Id, b: Id, nonce: string) returns (evs: seq<Event>)
    requires PairingRuns.Devices(a, b, nonce)
    ensures |Run(h, evs).attempts| > 0 && Together(Run(h, evs).attempts[0])
    ensures KeyOf(Run(h, evs).attempts[0].d) == (a, b) && KeyOf(Run(h, evs).attempts[0].r) == (b, a)
  {
    var first := PairingRuns.BothAccepted(a, b, nonce);
    StrangersAccept(h, a, b, nonce);
    hide Run, PairingRuns.BothAccepted, PairingRuns.Devices, Together, AllHelp, Promising;
    var none: seq<Event> := [];
    assert first + none == first;
    NothingHelps(h, first, 0);
    var rest := SuccessIsInReach(h, first, none, 0);
    evs := first + rest;
    assert first + none + rest == evs;
  }
}
