/** Two runs of the world in which a promise of the pairing code is broken, step by step. */
module PairingRuns {
  import opened Common
  import opened PairingCode
  import opened PairingSpec
  import opened PairingInvariant
  import opened PairingWorld

  const YES: Decision := Decision(true, "")
  const NO: Decision := Decision(false, "")

  /** A world with a single attempt. */
  function Solo(d: End, r: End, toR: seq<Frame>, toD: seq<Frame>, pending: map<Key, Place>,
      trust: map<Key, Token>): World {
    World([Attempt(d, r, toR, toD)], pending, trust)
  }

  /** One step of the dialling end, once what it does by itself is known. */
  lemma DialerMoves(h: Hash, d: End, r: End, toR: seq<Frame>, toD: seq<Frame>, pending: map<Key, Place>,
      trust: map<Key, Token>, m: Move, x: Effect)
    requires (d.owner, d.device) in pending && pending[(d.owner, d.device)] == (0, false)
    requires !d.done && !x.e.done && !d.stage.Waiting? && d.stored == x.e.stored
    requires x == Act(h, d, if toD == [] then None else Some(toD[0]), m, y => (d.owner, y) !in pending, true)
    ensures Moved(h, Solo(d, r, toR, toD, pending, trust), 0, false, m)
         == Solo(x.e, r, toR + x.sent, if x.took then toD[1..] else toD, pending, trust)
  {
    var w := Solo(d, r, toR, toD, pending, trust);
    var head := if toD == [] then None else Some(toD[0]);
    assert StepEffect(h, w, 0, false, m) == x;
    hide Act;
    assert w.attempts[0 := Apply(w.attempts[0], false, x)] == [Apply(w.attempts[0], false, x)];
  }

  lemma ResponderMoves(h: Hash, d: End, r: End, toR: seq<Frame>, toD: seq<Frame>, pending: map<Key, Place>,
                       trust: map<Key, Token>, m: Move, x: Effect)
    requires (r.owner, r.device) in pending && pending[(r.owner, r.device)] == (0, true)
    requires !r.done && !x.e.done && !r.stage.Waiting?
    requires x == Act(h, r, if toR == [] then None else Some(toR[0]), m, y => (r.owner, y) !in pending, true)
    ensures Moved(h, Solo(d, r, toR, toD, pending, trust), 0, true, m)
         == Solo(d, x.e, if x.took then toR[1..] else toR, toD + x.sent, pending, TrustAfter(trust, r, x.e))
  {
    var w := Solo(d, r, toR, toD, pending, trust);
    assert StepEffect(h, w, 0, true, m) == x;
    hide Act;
    assert w.attempts[0 := Apply(w.attempts[0], true, x)] == [Apply(w.attempts[0], true, x)];
  }

  lemma RunOn(h: Hash, evs: seq<Event>, ev: Event)
    ensures Run(h, evs + [ev]) == Next(h, Run(h, evs), ev)
  {
    assert (evs + [ev])[..|evs|] == evs;
    hide Next;
  }

  // -- the two ends as they go along -------------------------------------------------------------------

  function Dialled(a: Id, b: Id): End { NewDialer(a, b).(linked := true, alive := true, stage := Opening) }

  function CodeFor(h: Hash, a: Id, b: Id, nonce: string): string { Code(h, b, a, nonce) }

  function Asked(h: Hash, a: Id, b: Id, nonce: string): End {
    NewResponder(b).(device := a, nonce := nonce, code := CodeFor(h, a, b, nonce), stage := Opening)
  }

  function DialerShown(h: Hash, a: Id, b: Id, nonce: string): End {
    var code := CodeFor(h, a, b, nonce);
    Dialled(a, b).(nonce := nonce, code := code, shown := Some(code), stage := Driving)
  }

  function BothPending(a: Id, b: Id): map<Key, Place> { map[(a, b) := (0, false), (b, a) := (0, true)] }

  predicate Devices(a: Id, b: Id, nonce: string) { a != b && a != "" && b != "" && ValidNonceFormat(nonce) }

  /** a dials b, b offers the code, a shows it. */
  function UpToOpening(a: Id, b: Id): seq<Event> { [] + [StartPairing(a, b, b)] + [Step(0, false, Dial(true))] }

  function UpToOffered(a: Id, b: Id, nonce: string): seq<Event> {
    UpToOpening(a, b) + [Step(0, true, First(Open(nonce)))] + [Step(0, true, SendOffer(true))]
  }

  function UpToShown(a: Id, b: Id, nonce: string): seq<Event> {
    UpToOffered(a, b, nonce) + [Step(0, false, First(Unreadable))]
  }

  /** Run on by one step of the dialling end. */
  lemma DialerRuns(h: Hash, evs: seq<Event>, d: End, r: End, toR: seq<Frame>, toD: seq<Frame>, pending: map<Key, Place>,
                   trust: map<Key, Token>, m: Move, x: Effect)
    requires Run(h, evs) == Solo(d, r, toR, toD, pending, trust)
    requires (d.owner, d.device) in pending && pending[(d.owner, d.device)] == (0, false)
    requires !d.done && !x.e.done && !d.stage.Waiting? && d.stored == x.e.stored
    requires x == Act(h, d, if toD == [] then None else Some(toD[0]), m, y => (d.owner, y) !in pending, true)
    ensures Run(h, evs + [Step(0, false, m)])
         == Solo(x.e, r, toR + x.sent, if x.took then toD[1..] else toD, pending, trust)
  {
    RunOn(h, evs, Step(0, false, m));
    DialerMoves(h, d, r, toR, toD, pending, trust, m, x);
    hide Moved, Act, Run;
  }

  lemma ResponderRuns(h: Hash, evs: seq<Event>, d: End, r: End, toR: seq<Frame>, toD: seq<Frame>,
      pending: map<Key, Place>, trust: map<Key, Token>, m: Move, x: Effect)
    requires Run(h, evs) == Solo(d, r, toR, toD, pending, trust)
    requires (r.owner, r.device) in pending && pending[(r.owner, r.device)] == (0, true)
    requires !r.done && !x.e.done && !r.stage.Waiting?
    requires x == Act(h, r, if toR == [] then None else Some(toR[0]), m, y => (r.owner, y) !in pending, true)
    ensures Run(h, evs + [Step(0, true, m)])
         == Solo(d, x.e, if x.took then toR[1..] else toR, toD + x.sent, pending, TrustAfter(trust, r, x.e))
  {
    RunOn(h, evs, Step(0, true, m));
    ResponderMoves(h, d, r, toR, toD, pending, trust, m, x);
    hide Moved, Act, Run;
  }

  lemma StartRuns(h: Hash, a: Id, b: Id)
    requires a != b && a != "" && b != ""
    ensures Run(h, [] + [StartPairing(a, b, b)])
         == Solo(NewDialer(a, b), NewResponder(b), [], [], map[(a, b) := (0, false)], map[])
  {
    var none: seq<Event> := [];
    RunOn(h, none, StartPairing(a, b, b));
    assert Run(h, none) == NOBODY;
  }

  lemma OpeningRuns(h: Hash, a: Id, b: Id)
    requires a != b && a != "" && b != ""
    ensures Run(h, UpToOpening(a, b))
        == Solo(Dialled(a, b), NewResponder(b), [Hello(a)], [], map[(a, b) := (0, false)], map[])
  {
    var pending: map<Key, Place> := map[(a, b) := (0, false)];
    var d := NewDialer(a, b);
    StartRuns(h, a, b);
    var x := Effect(Dialled(a, b), [Hello(a)], false);
    assert x == Act(h, d, None, Dial(true), y => (d.owner, y) !in pending, true);
    hide Act, Run;
    DialerRuns(h, [] + [StartPairing(a, b, b)], d, NewResponder(b), [], [], pending, map[], Dial(true), x);
    assert [] + [Hello(a)] == [Hello(a)];
  }

  /** The responder reads the hello and registers the attempt. */
  lemma HelloRuns(h: Hash, a: Id, b: Id, nonce: string)
    requires Devices(a, b, nonce)
    ensures Run(h, UpToOpening(a, b) + [Step(0, true, First(Open(nonce)))])
         == Solo(Dialled(a, b), Asked(h, a, b, nonce), [], [], BothPending(a, b), map[])
  {
    var evs, m := UpToOpening(a, b), First(Open(nonce));
    OpeningRuns(h, a, b);
    RunOn(h, evs, Step(0, true, m));
    hide Run, UpToOpening, Code, ValidNonceFormat;
    var w := Solo(Dialled(a, b), NewResponder(b), [Hello(a)], [], map[(a, b) := (0, false)], map[]);
    var x := Effect(Asked(h, a, b, nonce), [], true);
    assert StepEffect(h, w, 0, true, m) == x;
    hide StepEffect, Act;
    var none: seq<Frame> := [];
    assert [Hello(a)][1..] == none && none + none == none;
    assert Apply(w.attempts[0], true, x) == Attempt(Dialled(a, b), Asked(h, a, b, nonce), [], []);
    assert w.attempts[0 := Apply(w.attempts[0], true, x)] == [Attempt(Dialled(a, b), Asked(h, a, b, nonce), [], [])];
  }

  lemma OfferRuns(h: Hash, a: Id, b: Id, nonce: string)
    requires Devices(a, b, nonce)
    ensures Run(h, UpToOffered(a, b, nonce))
         == Solo(Dialled(a, b), Asked(h, a, b, nonce).(stage := Offered), [],
             [Required(CodeFor(h, a, b, nonce), nonce)],
                 BothPending(a, b), map[])
  {
    var evs := UpToOpening(a, b) + [Step(0, true, First(Open(nonce)))];
    var r := Asked(h, a, b, nonce);
    HelloRuns(h, a, b, nonce);
    hide Run, UpToOpening, Code, ValidNonceFormat;
    var x := Effect(r.(stage := Offered), [Required(CodeFor(h, a, b, nonce), nonce)], false);
    assert x == Act(h, r, None, SendOffer(true), y => (r.owner, y) !in BothPending(a, b), true) by { hide CodeFor; }
    hide Act;
    ResponderRuns(h, evs, Dialled(a, b), r, [], [], BothPending(a, b), map[], SendOffer(true), x);
    assert [] + x.sent == x.sent;
  }

  /** And the dialer shows the code it derives, which is the one that came along. */
  lemma ShownRuns(h: Hash, a: Id, b: Id, nonce: string)
    requires Devices(a, b, nonce)
    ensures Run(h, UpToShown(a, b, nonce))
         == Solo(DialerShown(h, a, b, nonce), Asked(h, a, b, nonce).(stage := Offered), [], [], BothPending(a, b),
             map[])
  {
    var d, code := Dialled(a, b), CodeFor(h, a, b, nonce);
    OfferRuns(h, a, b, nonce);
    CodeSymmetric(h, a, b, nonce);
    CodeIsSixDigits(h, a, b, nonce);
    hide Run, UpToOffered, ValidNonceFormat, ValidCodeFormat;
    var x := Effect(DialerShown(h, a, b, nonce), [], true);
    assert x == Act(h, d, Some(Required(code, nonce)), First(Unreadable), y => (d.owner, y) !in BothPending(a, b), true)
      by { hide Code, Abort; }
    hide Act, Code;
    DialerRuns(h, UpToOffered(a, b, nonce), d, Asked(h, a, b, nonce).(stage := Offered), [], [Required(code, nonce)],
               BothPending(a, b), map[], First(Unreadable), x);
    assert [Required(code, nonce)][1..] == [];
    assert [] + x.sent == [];
  }

  // -- a second answer -------------------------------------------------------------------------------------

  lemma ConfirmRuns(h: Hash, evs: seq<Event>, d: End, r: End, toR: seq<Frame>, toD: seq<Frame>,
      pending: map<Key, Place>, trust: map<Key, Token>, answer: Decision)
    requires Run(h, evs) == Solo(d, r, toR, toD, pending, trust)
    requires d.device != "" && (d.owner, d.device) in pending && pending[(d.owner, d.device)] == (0, false)
    requires d.decision.None? && !d.done
    ensures Run(h, evs + [Confirm(d.owner, d.device, answer)])
         == Solo(d.(decision := Some(answer)), r, toR, toD, pending, trust)
  {
    RunOn(h, evs, Confirm(d.owner, d.device, answer));
    var w := Solo(d, r, toR, toD, pending, trust);
    var n := d.(decision := Some(answer));
    assert w.attempts[0 := SetEnd(w.attempts[0], false, n)] == [Attempt(n, r, toR, toD)];
    hide Run;
  }

  lemma RespondRuns(h: Hash, evs: seq<Event>, d: End, r: End, toR: seq<Frame>, toD: seq<Frame>,
      pending: map<Key, Place>, trust: map<Key, Token>, answer: Decision)
    requires Run(h, evs) == Solo(d, r, toR, toD, pending, trust)
    requires r.device != "" && (r.owner, r.device) in pending && pending[(r.owner, r.device)] == (0, true)
    requires r.decision.None? && !r.done
    ensures Run(h, evs + [Confirm(r.owner, r.device, answer)])
         == Solo(d, r.(decision := Some(answer)), toR, toD, pending, trust)
  {
    RunOn(h, evs, Confirm(r.owner, r.device, answer));
    var w := Solo(d, r, toR, toD, pending, trust);
    var n := r.(decision := Some(answer));
    assert w.attempts[0 := SetEnd(w.attempts[0], true, n)] == [Attempt(d, n, toR, toD)];
    hide Run;
  }

  /** The dialer's human accepts, and its driver takes the answer. */
  function UpToAccepted(a: Id, b: Id, nonce: string): seq<Event> {
    UpToShown(a, b, nonce) + [Confirm(a, b, YES)] + [Step(0, false, Turn(TakeDecision(true, None)))]
  }

  function DialerYes(h: Hash, a: Id, b: Id, nonce: string): End { DialerShown(h, a, b, nonce).(localYes := true) }

  lemma AcceptedRuns(h: Hash, a: Id, b: Id, nonce: string)
    requires Devices(a, b, nonce)
    ensures Run(h, UpToAccepted(a, b, nonce))
         == Solo(DialerYes(h, a, b, nonce), Asked(h, a, b, nonce).(stage := Offered), [Accept(a)], [],
             BothPending(a, b), map[])
  {
    var d, r := DialerShown(h, a, b, nonce), Asked(h, a, b, nonce).(stage := Offered);
    ShownRuns(h, a, b, nonce);
    hide Run, UpToShown, Code, ValidNonceFormat, CodeFor;
    ConfirmRuns(h, UpToShown(a, b, nonce), d, r, [], [], BothPending(a, b), map[], YES);
    var e := d.(decision := Some(YES));
    var m := Turn(TakeDecision(true, None));
    var x := Effect(DialerYes(h, a, b, nonce), [Accept(a)], false);
    hide Act;
    TakesYes(h, e, None, y => (e.owner, y) !in BothPending(a, b));
    DialerRuns(h, UpToShown(a, b, nonce) + [Confirm(a, b, YES)], e, r, [], [], BothPending(a, b), map[], m, x);
    var none: seq<Frame> := [];
    assert none + [Accept(a)] == [Accept(a)];
  }

  function UpToRejected(a: Id, b: Id, nonce: string): seq<Event> {
    UpToAccepted(a, b, nonce) + [Confirm(a, b, NO)] + [Step(0, false, Turn(TakeDecision(true, None)))]
    + [Step(0, false, Proceed(true))] + [Step(0, false, Proceed(true))]
  }

  lemma FailsRuns(h: Hash, evs: seq<Event>, d: End, r: End, toR: seq<Frame>, toD: seq<Frame>, pending: map<Key, Place>)
    requires Run(h, evs) == Solo(d, r, toR, toD, pending, map[])
    requires (d.owner, d.device) in pending && pending[(d.owner, d.device)] == (0, false)
    requires d.stage.Driving? && !d.done && d.alive && d.linked && d.decision == Some(NO) && d.results == []
    ensures var last := Run(h, evs + [Step(0, false, Turn(TakeDecision(true, None)))]
                               + [Step(0, false, Proceed(true))] + [Step(0, false, Proceed(true))]);
            |last.attempts| == 1 && last.attempts[0].d.results == [Failure(DECLINED)]
  {
    hide Run;
    var e1 := d.(decision := None, stage := Failing(DECLINED, true));
    var e2 := e1.(stage := Closed(DECLINED), alive := false);
    var e3 := e2.(stage := Reported, results := [Failure(DECLINED)]);
    var head := if toD == [] then None else Some(toD[0]);
    var free := y => (d.owner, y) !in pending;
    var t := Turn(TakeDecision(true, None));
    var evs1 := evs + [Step(0, false, t)];
    TakesNo(h, d, head, free);
    hide Act, DECLINED;
    DialerRuns(h, evs, d, r, toR, toD, pending, map[], t, Effect(e1, [], false));
    DialerRuns(h, evs1, e1, r, toR + [], toD, pending, map[], Proceed(true), Effect(e2, [Reject(DECLINED)], false));
    DialerRuns(h, evs1 + [Step(0, false, Proceed(true))], e2, r, toR + [] + [Reject(DECLINED)], toD, pending, map[],
               Proceed(true), Effect(e3, [], false));
  }

  lemma TakesNo(h: Hash, d: End, head: Option<Frame>, free: Id -> bool)
    requires d.stage.Driving? && d.alive && d.linked && d.decision == Some(NO) && d.results == []
    ensures var e1 := d.(decision := None, stage := Failing(DECLINED, true));
            var e2 := e1.(stage := Closed(DECLINED), alive := false);
            var e3 := e2.(stage := Reported, results := [Failure(DECLINED)]);
            && Act(h, d, head, Turn(TakeDecision(true, None)), free, true) == Effect(e1, [], false)
            && Act(h, e1, head, Proceed(true), free, true) == Effect(e2, [Reject(DECLINED)], false)
            && Act(h, e2, head, Proceed(true), free, true) == Effect(e3, [], false)
  {
    var e1 := d.(decision := None, stage := Failing(DECLINED, true));
    var e2 := e1.(stage := Closed(DECLINED), alive := false);
    TakesReject(h, d, head, free);
    Closes(h, e1, head, free);
    Reports(h, e2, head, free);
    hide Act, DECLINED;
  }

  lemma TakesReject(h: Hash, d: End, head: Option<Frame>, free: Id -> bool)
    requires d.stage.Driving? && d.decision == Some(NO)
    ensures Act(h, d, head, Turn(TakeDecision(true, None)), free, true)
         == Effect(d.(decision := None, stage := Failing(DECLINED, true)), [], false)
  {
    assert Fail(d.(decision := None), "", true) == d.(decision := None, stage := Failing(DECLINED, true));
    hide OrDeclined, DECLINED, Fail, TakeRemote, AfterSelect;
  }

  lemma Closes(h: Hash, e: End, head: Option<Frame>, free: Id -> bool)
    requires e.stage.Failing? && e.stage.notify && e.alive && e.linked
    ensures Act(h, e, head, Proceed(true), free, true)
         == Effect(e.(stage := Closed(e.stage.reason), alive := false), [Reject(e.stage.reason)], false)
  {
    hide OrDeclined;
  }

  lemma Reports(h: Hash, e: End, head: Option<Frame>, free: Id -> bool)
    requires e.stage.Closed? && e.results == []
    ensures Act(h, e, head, Proceed(true), free, true)
         == Effect(e.(stage := Reported, results := [Failure(e.stage.reason)]), [], false)
  {
    var none: seq<Verdict> := [];
    assert none + [Failure(e.stage.reason)] == [Failure(e.stage.reason)];
    hide OrDeclined;
  }

  lemma TakesYes(h: Hash, e: End, head: Option<Frame>, free: Id -> bool)
    requires e.stage.Driving? && e.alive && e.decision == Some(YES) && !e.localYes && !e.remoteYes
    ensures Act(h, e, head, Turn(TakeDecision(true, None)), free, true)
         == Effect(e.(decision := None, localYes := true), [Accept(e.owner)], false)
  {
    hide Fail, TakeRemote;
  }

  /**
   * A second answer is not refused: once the driver has taken the accept out of its buffer, a reject fits into it, and
   * the pairing this human had accepted is reported as declined.
   */
  lemma SecondAnswerIsTaken(h: Hash, a: Id, b: Id, nonce: string)
    requires Devices(a, b, nonce)
    ensures var w := Run(h, UpToAccepted(a, b, nonce));
            |w.attempts| == 1 && w.attempts[0].d.localYes && Answer(w.attempts[0].d, NO).1
    ensures var last := Run(h, UpToRejected(a, b, nonce));
            |last.attempts| == 1 && last.attempts[0].d.results == [Failure(DECLINED)]
  {
    var d, r := DialerYes(h, a, b, nonce), Asked(h, a, b, nonce).(stage := Offered);
    AcceptedRuns(h, a, b, nonce);
    hide Run, UpToAccepted, Code, ValidNonceFormat, CodeFor, DECLINED;
    ConfirmRuns(h, UpToAccepted(a, b, nonce), d, r, [Accept(a)], [], BothPending(a, b), map[], NO);
    FailsRuns(h, UpToAccepted(a, b, nonce) + [Confirm(a, b, NO)], d.(decision := Some(NO)), r, [Accept(a)], [],
        BothPending(a, b));
  }

  // -- forgetting ----------------------------------------------------------------------------------------------

  function ResponderShown(h: Hash, a: Id, b: Id, nonce: string): End {
    Asked(h, a, b, nonce).(shown := Some(CodeFor(h, a, b, nonce)), stage := Driving)
  }

  /** The responder shows the code too, hears the dialer's accept, and its own human accepts. */
  function BothAccepted(a: Id, b: Id, nonce: string): seq<Event> {
    UpToAccepted(a, b, nonce) + [Step(0, true, ShowCode)] + [Step(0, true, Loop)] + [Confirm(b, a, YES)]
    + [Step(0, true, Turn(TakeDecision(true, None)))]
  }

  lemma Shows(h: Hash, e: End, head: Option<Frame>, free: Id -> bool)
    requires e.stage.Offered?
    ensures Act(h, e, head, ShowCode, free, true) == Effect(e.(shown := Some(e.code), stage := Driving), [], false)
  {
  }

  lemma Hears(h: Hash, e: End, free: Id -> bool)
    requires e.shown.Some? && e.device != "" && e.events == [] && !e.paired
    ensures Act(h, e, Some(Accept(e.device)), Loop, free, true) == Effect(e.(events := [EvAccept]), [], true)
  {
    var none: seq<PairEvent> := [];
    assert none + [EvAccept] == [EvAccept];
  }

  lemma BothAcceptedRuns(h: Hash, a: Id, b: Id, nonce: string)
    requires Devices(a, b, nonce)
    ensures var r := ResponderShown(h, a, b, nonce).(events := [EvAccept], localYes := true);
            Run(h, BothAccepted(a, b, nonce))
                == Solo(DialerYes(h, a, b, nonce), r, [], [Accept(b)], BothPending(a, b), map[])
  {
    var d, r0 := DialerYes(h, a, b, nonce), Asked(h, a, b, nonce).(stage := Offered);
    var r1 := ResponderShown(h, a, b, nonce);
    var r2 := r1.(events := [EvAccept]);
    var r3 := r2.(decision := Some(YES));
    var p := BothPending(a, b);
    var free := y => (b, y) !in p;
    var none: seq<Frame> := [];
    AcceptedRuns(h, a, b, nonce);
    Shows(h, r0, Some(Accept(a)), free);
    Hears(h, r1, free);
    TakesYes(h, r3, None, free);
    hide Run, UpToAccepted, Code, ValidNonceFormat, Act, CodeFor;
    var evs := UpToAccepted(a, b, nonce);
    ResponderRuns(h, evs, d, r0, [Accept(a)], [], p, map[], ShowCode, Effect(r1, [], false));
    assert none + none == none && [Accept(a)][1..] == none;
    var evs1 := evs + [Step(0, true, ShowCode)];
    ResponderRuns(h, evs1, d, r1, [Accept(a)], [], p, map[], Loop, Effect(r2, [], true));
    var evs2 := evs1 + [Step(0, true, Loop)];
    RespondRuns(h, evs2, d, r2, [], [], p, map[], YES);
    var x := Effect(r2.(localYes := true), [Accept(b)], false);
    ResponderRuns(h, evs2 + [Confirm(b, a, YES)], d, r3, [], [], p, map[], Turn(TakeDecision(true, None)), x);
    assert none + [Accept(b)] == [Accept(b)];
  }

  lemma ForgetRuns(h: Hash, evs: seq<Event>, d: End, r: End, toR: seq<Frame>, toD: seq<Frame>, pending: map<Key, Place>)
    requires Run(h, evs) == Solo(d, r, toR, toD, pending, map[])
    requires r.device != "" && (r.owner, r.device) in pending && pending[(r.owner, r.device)] == (0, true)
    requires |r.events| < EVENT_CAPACITY
    ensures Run(h, evs + [Cancel(r.owner, r.device)] + [Remove(r.owner, r.device)])
         == Solo(d, r.(events := r.events + [EvCancelled(DECLINED)]), toR, toD, pending, map[])
  {
    RunOn(h, evs, Cancel(r.owner, r.device));
    RunOn(h, evs + [Cancel(r.owner, r.device)], Remove(r.owner, r.device));
    hide Run, DECLINED;
    var w := Solo(d, r, toR, toD, pending, map[]);
    var n := r.(events := r.events + [EvCancelled(DECLINED)]);
    assert Push(r, EvCancelled(DECLINED)) == n;
    assert w.attempts[0 := SetEnd(w.attempts[0], true, n)] == [Attempt(d, n, toR, toD)];
    var none: map<Key, Token> := map[];
    assert none - {(r.owner, r.device)} == none;
  }

  /** The driver reads the accept and agrees on a token. */
  lemma Mints(h: Hash, e: End, head: Option<Frame>, free: Id -> bool, t: Token)
    requires e.stage.Driving? && e.responder && e.localYes && e.events != [] && e.events[0].EvAccept?
    ensures Act(h, e, head, Turn(TakeEvent(Some(t))), free, true)
         == Effect(e.(events := e.events[1..], remoteYes := true, stage := Completing(t)), [], false)
  {
    hide Fail, TakeAnswer;
  }

  lemma MintRuns(h: Hash, evs: seq<Event>, d: End, r: End, toD: seq<Frame>, pending: map<Key, Place>, t: Token)
    requires Run(h, evs) == Solo(d, r, [], toD, pending, map[])
    requires (r.owner, r.device) in pending && pending[(r.owner, r.device)] == (0, true)
    requires r.stage.Driving? && !r.done && r.responder && r.localYes && r.stored.None?
    requires r.events != [] && r.events[0].EvAccept?
    ensures Run(h, evs + [Step(0, true, Turn(TakeEvent(Some(t))))])
         == Solo(d, r.(events := r.events[1..], remoteYes := true, stage := Completing(t)), [], toD, pending, map[])
  {
    var n := r.(events := r.events[1..], remoteYes := true, stage := Completing(t));
    Mints(h, r, None, y => (r.owner, y) !in pending, t);
    hide Run, Act;
    ResponderRuns(h, evs, d, r, [], toD, pending, map[], Turn(TakeEvent(Some(t))), Effect(n, [], false));
    assert toD + [] == toD;
  }

  lemma StoresToken(h: Hash, e: End, head: Option<Frame>, free: Id -> bool)
    requires e.stage.Completing? && ValidTokenFormat(e.stage.token)
    ensures Act(h, e, head, Proceed(true), free, true)
         == Effect(e.(stored := Some(e.stage.token), saved := true, stage := Stored(e.stage.token)), [], false)
  {
    hide Fail, ValidTokenFormat;
  }

  lemma StoreRuns(h: Hash, evs: seq<Event>, d: End, r: End, toD: seq<Frame>, pending: map<Key, Place>)
    requires Run(h, evs) == Solo(d, r, [], toD, pending, map[])
    requires (r.owner, r.device) in pending && pending[(r.owner, r.device)] == (0, true)
    requires r.stage.Completing? && ValidTokenFormat(r.stage.token) && !r.done && r.stored.None?
    ensures Run(h, evs + [Step(0, true, Proceed(true))]).trust == map[(r.owner, r.device) := r.stage.token]
  {
    var n := r.(stored := Some(r.stage.token), saved := true, stage := Stored(r.stage.token));
    StoresToken(h, r, None, y => (r.owner, y) !in pending);
    hide Run, Act, ValidTokenFormat;
    ResponderRuns(h, evs, d, r, [], toD, pending, map[], Proceed(true), Effect(n, [], false));
  }

  /** The device is forgotten, and the responder's driver goes on with the accept it has not read yet. */
  function UpToForgotten(a: Id, b: Id, nonce: string): seq<Event> {
    BothAccepted(a, b, nonce) + [Cancel(b, a)] + [Remove(b, a)]
  }

  function Revived(a: Id, b: Id, nonce: string, t: Token): seq<Event> {
    UpToForgotten(a, b, nonce) + [Step(0, true, Turn(TakeEvent(Some(t))))] + [Step(0, true, Proceed(true))]
  }

  /**
   * Forgetting a device does not stop its pairing: the order to stop waits behind an accept the driver has not read, so
   * the token is minted and stored after all, and the device that was forgotten is trusted again.
   */
  lemma ForgottenIsStored(h: Hash, a: Id, b: Id, nonce: string, t: Token)
    requires Devices(a, b, nonce) && ValidTokenFormat(t)
    ensures (b, a) !in Run(h, UpToForgotten(a, b, nonce)).trust
    ensures Run(h, Revived(a, b, nonce, t)).trust == map[(b, a) := t]
  {
    var d, r := DialerYes(h, a, b, nonce), ResponderShown(h, a, b, nonce).(events := [EvAccept], localYes := true);
    BothAcceptedRuns(h, a, b, nonce);
    hide Run, BothAccepted, Code, ValidNonceFormat, ValidTokenFormat, CodeFor, DECLINED;
    ForgetRuns(h, BothAccepted(a, b, nonce), d, r, [], [Accept(b)], BothPending(a, b));
    var n := r.(events := r.events + [EvCancelled(DECLINED)]);
    MintRuns(h, UpToForgotten(a, b, nonce), d, n, [Accept(b)], BothPending(a, b), t);
    StoreRuns(h, UpToForgotten(a, b, nonce) + [Step(0, true, Turn(TakeEvent(Some(t))))], d,
              n.(events := n.events[1..], remoteYes := true, stage := Completing(t)), [Accept(b)], BothPending(a, b));
  }

  /** The driver has left its select with a token, and the device is forgotten before it is stored. */
  function UpToAgreed(a: Id, b: Id, nonce: string, t: Token): seq<Event> {
    BothAccepted(a, b, nonce) + [Step(0, true, Turn(TakeEvent(Some(t))))]
  }

  function UpToOverlooked(a: Id, b: Id, nonce: string, t: Token): seq<Event> {
    UpToAgreed(a, b, nonce, t) + [Cancel(b, a)] + [Remove(b, a)]
  }

  /**
   * The plainest form of it: nobody reads the order to stop any more, and the driver's next action puts the device back
   * into the store it has just been taken out of, with no further input.
   */
  lemma ForgottenBeforeTheStore(h: Hash, a: Id, b: Id, nonce: string, t: Token)
    requires Devices(a, b, nonce) && ValidTokenFormat(t)
    ensures (b, a) !in Run(h, UpToOverlooked(a, b, nonce, t)).trust
    ensures Run(h, UpToOverlooked(a, b, nonce, t) + [Step(0, true, Proceed(true))]).trust == map[(b, a) := t]
  {
    var d, r := DialerYes(h, a, b, nonce), ResponderShown(h, a, b, nonce).(events := [EvAccept], localYes := true);
    var n := r.(events := r.events[1..], remoteYes := true, stage := Completing(t));
    BothAcceptedRuns(h, a, b, nonce);
    hide Run, BothAccepted, Code, ValidNonceFormat, ValidTokenFormat, CodeFor, DECLINED;
    MintRuns(h, BothAccepted(a, b, nonce), d, r, [Accept(b)], BothPending(a, b), t);
    ForgetRuns(h, UpToAgreed(a, b, nonce, t), d, n, [], [Accept(b)], BothPending(a, b));
    StoreRuns(h, UpToOverlooked(a, b, nonce, t), d, n.(events := n.events + [EvCancelled(DECLINED)]), [Accept(b)],
              BothPending(a, b));
  }
}
