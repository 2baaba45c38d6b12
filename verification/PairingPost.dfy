/**
 * What each step of a pairing end does to its mail: what it sends, what it takes from its buffer and its socket, and
 * that an accept is never lost but for a reason.
 */
module PairingPost {
  import opened Common
  import opened PairingCode
  import opened PairingSpec
  import opened PairingInvariant
  import opened PairingWorld
  import opened PairingTheorems
  import opened PairingAnswers
  import opened PairingForget

  // -- counting -------------------------------------------------------------------------------------------

  function AcceptsIn(q: seq<Frame>): nat { if q == [] then 0 else (if q[0].Accept? then 1 else 0) + AcceptsIn(q[1..]) }

  function Hellos(q: seq<Frame>): nat { if q == [] then 0 else (if q[0].Hello? then 1 else 0) + Hellos(q[1..]) }

  function Offers(q: seq<Frame>): nat { if q == [] then 0 else (if q[0].Required? then 1 else 0) + Offers(q[1..]) }

  function Yeses(evs: seq<PairEvent>): nat {
    if evs == [] then 0 else (if evs[0].EvAccept? then 1 else 0) + Yeses(evs[1..])
  }

  function One(b: bool): nat { if b then 1 else 0 }

  lemma {:induction false} CountAppend(p: seq<Frame>, q: seq<Frame>)
    ensures AcceptsIn(p + q) == AcceptsIn(p) + AcceptsIn(q) && Hellos(p + q) == Hellos(p) + Hellos(q)
    ensures Offers(p + q) == Offers(p) + Offers(q)
  {
    if p == [] {
      assert p + q == q;
    } else {
      assert (p + q)[0] == p[0] && (p + q)[1..] == p[1..] + q;
      CountAppend(p[1..], q);
    }
  }

  lemma CountPrefix(q: seq<Frame>, k: nat)
    requires k <= |q|
    ensures AcceptsIn(q[..k]) <= AcceptsIn(q) && Hellos(q[..k]) <= Hellos(q) && Offers(q[..k]) <= Offers(q)
  {
    assert q == q[..k] + q[k..];
    CountAppend(q[..k], q[k..]);
  }

  lemma CountOne(f: Frame)
    ensures AcceptsIn([f]) == One(f.Accept?) && Hellos([f]) == One(f.Hello?) && Offers([f]) == One(f.Required?)
    ensures AcceptsIn([]) == 0 && Hellos([]) == 0 && Offers([]) == 0
  {
    assert [f][1..] == [];
  }

  lemma {:induction false} YesAppend(p: seq<PairEvent>, ev: PairEvent)
    ensures Yeses(p + [ev]) == Yeses(p) + One(ev.EvAccept?)
  {
    if p == [] {
      assert p + [ev] == [ev] && [ev][1..] == [];
    } else {
      assert (p + [ev])[0] == p[0] && (p + [ev])[1..] == p[1..] + [ev];
      YesAppend(p[1..], ev);
    }
  }

  // -- one step ---------------------------------------------------------------------------------------------

  /** Something in the buffer ends the pairing without a token. */
  predicate Doomed(evs: seq<PairEvent>) { exists i :: 0 <= i < |evs| && (evs[i].EvReject? || evs[i].EvCancelled?) }

  /** Decided, refused, without its socket, or about to be told to stop. */
  predicate Deaf(e: End) { Chosen(e) || e.stage.Refused? || (e.linked && !e.alive) || Doomed(e.events) }

  /** What a step may send, and when. */
  predicate Sends(e: End, n: End, sent: seq<Frame>) {
    && |sent| <= 1
    && (sent != [] ==>
          match sent[0]
          case Hello(id) => !e.responder && e.stage.Dialling? && n.stage.Opening? && id == e.owner
          case Required(_, _) => e.responder && e.stage.Opening? && n.stage.Offered?
          case Accept(id) => id == e.owner && !e.localYes && n.localYes && e.stage.Driving?
          case Paired(t) => e.responder && e.stage == Stored(t)
          case Reject(_) => true)
    && (!e.localYes && n.localYes && n.stage.Driving? ==> sent == [Accept(e.owner)])
    && (e.localYes ==> n.localYes) && n.owner == e.owner && n.responder == e.responder
    && (e.linked ==> n.linked) && (LinkOk(e) ==> LinkOk(n))
    && (n.stage.Driving? && e.localYes ==> e.stage.Driving?)
    && (!Early(e.stage) ==> n.shown == e.shown && !Early(n.stage) && (!e.alive ==> !n.alive))
  }

  /** Who is connected: every answering end, and every dialling one from its hello on. */
  predicate LinkOk(e: End) {
    && (e.responder || e.stage.Opening? || e.shown.Some? ==> e.linked)
    && (e.stage.Dialling? ==> !e.linked)
  }

  /** What a step may do with its mail; `f` is the frame it took, if it took one. */
  predicate Takes(e: End, n: End, f: Option<Frame>) {
    && Yeses(n.events) + One(n.remoteYes) <= Yeses(e.events) + One(e.remoteYes) + One(f.Some? && f.value.Accept?)
    && (e.remoteYes ==> n.remoteYes)
    && (Deaf(e) ==> Deaf(n))
    && (EvAccept in e.events ==> n.remoteYes || EvAccept in n.events || Deaf(n))
    && (n.responder && n.stage.Driving? && n.localYes && n.remoteYes ==>
          e.stage.Driving? && e.localYes && e.remoteYes)
    && (f.Some? && f.value.Accept? && (EvAccept !in e.events ==> |e.events| < EVENT_CAPACITY || Doomed(e.events)) ==>
          n.remoteYes || EvAccept in n.events || Deaf(n))
  }

  predicate Posts(e: End, x: Effect, head: Option<Frame>) {
    && Sends(e, x.e, x.sent)
    && Takes(e, x.e, if x.took then head else None)
  }

  // -- before the driver starts -----------------------------------------------------------------------------

  /** The buffers and what has been said are the same, and the socket is no worse off unless all is over. */
  predicate Quietly(e: End, n: End) {
    && SameBuffers(e, n) && n.localYes == e.localYes && n.owner == e.owner && n.responder == e.responder
    && (e.linked ==> n.linked)
    && (n.stage.Failing? || n.stage.Refused? || n.stage.Driving?
        || (Early(n.stage) && (e.linked && !e.alive ==> !n.alive)))
    && (n.stage.Driving? ==> n.alive == e.alive)
    && (LinkOk(e) ==> LinkOk(n))
  }

  lemma FailQuiet(e: End, reason: Reason, notify: bool)
    ensures Quietly(e, Fail(e, reason, notify)) && Quietly(e, Abort(e, reason, notify))
    ensures Chosen(Fail(e, reason, notify)) && Chosen(Abort(e, reason, notify))
  {
    hide OrDeclined;
  }

  lemma ShownQuiet(e: End, nonce: string, code: string)
    requires e.stage.Opening? || e.stage.Offered?
    requires e.stage.Offered? ==> e.responder
    ensures Quietly(e, e.(nonce := nonce, code := code, shown := Some(code), stage := Driving)) && Quietly(e, Show(e))
  {
  }

  lemma FirstQuiet(h: Hash, e: End, f: Frame)
    requires e.stage.Opening?
    ensures Quietly(e, FirstFrame(h, e, f)) && (!f.Required? ==> Chosen(FirstFrame(h, e, f)))
  {
    hide Code, ValidNonceFormat, ValidCodeFormat, Abort, OrDeclined, Quietly, INTERNAL, CODE_MISMATCH;
    FailQuiet(e, INTERNAL, true);
    FailQuiet(e, CODE_MISMATCH, true);
    if f.Reject? {
      FailQuiet(e, OrDeclined(f.reason), false);
    } else if f.Required? {
      ShownQuiet(e, f.nonce, Code(h, e.owner, e.device, f.nonce));
    }
  }

  lemma RefuseQuiet(e: End, answer: seq<Frame>)
    requires |answer| <= 1 && (forall i :: 0 <= i < |answer| ==> answer[i].Reject?) && Early(e.stage)
    ensures Quietly(e, Refuse(e, answer).0) && Sends(e, Refuse(e, answer).0, Refuse(e, answer).1)
  {
  }

  lemma BornQuiet(e: End, device: Id, nonce: string, code: string)
    requires e.stage.Waiting? && !e.localYes && e.responder && e.shown.None?
    ensures var n := e.(device := device, nonce := nonce, code := code, stage := Opening);
            Quietly(e, n) && Sends(e, n, [])
  {
  }

  lemma HelloQuiet(h: Hash, e: End, f: Frame, gate: Gate, free: Id -> bool)
    requires e.stage.Waiting? && !e.localYes && e.responder && e.shown.None?
    ensures var x := TakeHello(h, e, f, gate, free);
            Quietly(e, x.0) && Sends(e, x.0, x.1) && (!f.Hello? ==> x.0.stage.Refused?)
  {
    hide Code, Refuse, Quietly, Sends, INTERNAL, RATE_LIMITED, PROTOCOL_MISMATCH, BUSY;
    RefuseQuiet(e, []);
    RefuseQuiet(e, [Reject(PROTOCOL_MISMATCH)]);
    RefuseQuiet(e, [Reject(RATE_LIMITED)]);
    RefuseQuiet(e, [Reject(INTERNAL)]);
    RefuseQuiet(e, [Reject(BUSY)]);
    if f.Hello? && gate.Open? { BornQuiet(e, f.id, gate.nonce, Code(h, e.owner, f.id, gate.nonce)); }
  }

  lemma OfferQuiet(e: End, ok: bool)
    requires e.stage.Opening? && e.responder && !e.localYes
    ensures var x := Offer(e, ok); Quietly(e, x.0) && Sends(e, x.0, x.1)
  {
  }

  lemma ConnectQuiet(e: End, ok: bool)
    requires e.stage.Dialling? && !e.responder && !e.linked && !e.localYes
    ensures var x := Connect(e, ok); Quietly(e, x.0) && Sends(e, x.0, x.1)
  {
    FailQuiet(e, UNREACHABLE, false);
    QuietSends(e, Abort(e, UNREACHABLE, false));
    hide Abort, UNREACHABLE;
  }

  lemma QuietSends(e: End, n: End)
    requires Quietly(e, n) && !e.localYes && Early(e.stage)
    ensures Sends(e, n, [])
  {
  }

  lemma SameQuiet(e: End)
    requires Early(e.stage)
    ensures Quietly(e, e) && Sends(e, e, [])
  {
  }

  /** A stage before the driver starts, or the one the world never saw: what has been reached by then. */
  predicate Fresh(e: End) {
    && Early(e.stage) && e.shown.None? && !e.localYes && !e.remoteYes
    && (e.stage.Dialling? ==> !e.responder && !e.linked)
    && (e.stage.Offered? || e.stage.Waiting? ==> e.responder)
  }

  lemma EarlyPosts(h: Hash, e: End, x: Input)
    requires Fresh(e)
    ensures var n := Act(h, e, x.head, x.m, x.free, x.mine);
            && Quietly(e, n.e) && Sends(e, n.e, n.sent)
            && (n.took && !x.head.value.Hello? && !x.head.value.Required? ==> Deaf(n.e))
  {
    hide Doomed;
    hide FirstFrame, TakeHello, Select, Finish, ReadFrame, Abort, Connect, Offer, Refuse, Show, Quietly, Sends;
    hide UNREACHABLE;
    SameQuiet(e);
    match x.m
    case First(gate) =>
      if x.head.Some? && e.stage.Waiting? {
        HelloQuiet(h, e, x.head.value, gate, x.free);
      } else if x.head.Some? && e.stage.Opening? && !e.responder {
        FirstQuiet(h, e, x.head.value);
        QuietSends(e, FirstFrame(h, e, x.head.value));
      }
    case NoAnswer =>
      FailQuiet(e, UNREACHABLE, false);
      QuietSends(e, Abort(e, UNREACHABLE, false));
      if e.stage.Waiting? { RefuseQuiet(e, []); }
    case Dial(ok) => if e.stage.Dialling? { ConnectQuiet(e, ok); }
    case SendOffer(ok) => if e.stage.Opening? && e.responder { OfferQuiet(e, ok); }
    case ShowCode =>
      if e.stage.Offered? {
        ShownQuiet(e, "", "");
        QuietSends(e, Show(e));
      }
    case Proceed(ok) => EarlyStays(e, ok);
    case _ =>
  }

  lemma RefusedPosts(h: Hash, e: End, x: Input)
    requires e.stage.Refused? && e.shown.None?
    ensures var n := Act(h, e, x.head, x.m, x.free, x.mine); Sends(e, n.e, n.sent) && Takes(e, n.e, None) && !n.took
  {
    assert Act(h, e, x.head, x.m, x.free, x.mine) == Kept((e, []));
    SamePosts(e);
    hide Act, Sends, Takes;
  }

  lemma QuietTakes(e: End, n: End, f: Option<Frame>)
    requires Fresh(e) && Quietly(e, n) && !e.stage.Refused?
    requires f.Some? && f.value.Accept? ==> Deaf(n)
    ensures Takes(e, n, f)
  {
    hide Doomed, Yeses;
  }

  // -- in the select ------------------------------------------------------------------------------------------

  lemma DoomedRest(evs: seq<PairEvent>)
    requires evs != [] && !evs[0].EvReject? && !evs[0].EvCancelled?
    ensures Doomed(evs) ==> Doomed(evs[1..])
    ensures EvAccept in evs ==> evs[0].EvAccept? || EvAccept in evs[1..]
  {
    if i: nat :| 0 <= i < |evs| && (evs[i].EvReject? || evs[i].EvCancelled?) { assert evs[1..][i - 1] == evs[i]; }
  }

  lemma DoomedPush(evs: seq<PairEvent>, ev: PairEvent)
    ensures Doomed(evs) ==> Doomed(evs + [ev])
    ensures EvAccept in evs ==> EvAccept in evs + [ev]
    ensures EvAccept in evs + [EvAccept]
  {
    if i: nat :| 0 <= i < |evs| && (evs[i].EvReject? || evs[i].EvCancelled?) { assert (evs + [ev])[i] == evs[i]; }
    assert (evs + [EvAccept])[|evs|] == EvAccept;
  }

  /** What AfterSelect may do: nothing, or on to the outcome. */
  lemma AfterPosts(e: End, mint: Option<Token>)
    requires e.stage.Driving?
    ensures var n := AfterSelect(e, mint);
            && (n == e || Chosen(n)) && n.events == e.events && n.remoteYes == e.remoteYes && n.localYes == e.localYes
            && n.owner == e.owner && n.responder == e.responder && n.linked == e.linked && n.shown == e.shown
            && n.alive == e.alive
            && (n.stage.Driving? && n.responder ==> !(n.localYes && n.remoteYes))
  {
    hide OrDeclined;
  }

  lemma FailPosts(e: End, reason: Reason, notify: bool)
    ensures var n := Fail(e, reason, notify);
            && Chosen(n) && n.events == e.events && n.remoteYes == e.remoteYes && n.localYes == e.localYes
            && n.owner == e.owner && n.responder == e.responder && n.linked == e.linked && n.shown == e.shown
            && n.alive == e.alive
  {
    hide OrDeclined;
  }

  lemma AnswerPosts(e: End, d: Decision, ok: bool, mint: Option<Token>)
    requires e.stage.Driving?
    ensures var x := TakeAnswer(e, d, ok, mint); Sends(e, x.0, x.1) && Takes(e, x.0, None)
  {
    hide Fail, AfterSelect, UNREACHABLE, Doomed, Yeses;
    FailPosts(e, d.reason, true);
    FailPosts(e.(localYes := true, alive := false), UNREACHABLE, false);
    AfterPosts(e.(localYes := true), mint);
  }

  lemma AcceptPosts(e: End, mint: Option<Token>)
    requires e.stage.Driving? && e.events != [] && e.events[0].EvAccept?
    ensures var n := AfterSelect(e.(events := e.events[1..], remoteYes := true), mint);
            Sends(e, n, []) && Takes(e, n, None)
  {
    hide AfterSelect, Doomed;
    DoomedRest(e.events);
    AfterPosts(e.(events := e.events[1..], remoteYes := true), mint);
  }

  /** An event that decides. */
  lemma DecidedPosts(e: End, n: End)
    requires e.stage.Driving? && e.events != [] && !e.events[0].EvAccept? && Chosen(n)
    requires n.events == e.events[1..] && n.remoteYes == e.remoteYes && n.localYes == e.localYes
    requires n.owner == e.owner && n.responder == e.responder && n.linked == e.linked && n.shown == e.shown
    requires n.alive == e.alive
    ensures Sends(e, n, []) && Takes(e, n, None)
  {
    hide Doomed;
  }

  lemma TokenPosts(e: End, m: End, t: Token)
    requires e.stage.Driving? && e.events != [] && e.events[0] == EvPaired(t) && m == e.(events := e.events[1..])
    ensures Sends(e, TakeRemote(m, EvPaired(t), None), []) && Takes(e, TakeRemote(m, EvPaired(t), None), None)
  {
    hide Fail, AfterSelect, INTERNAL, Sends, Takes;
    if e.responder || !e.localYes {
      FailPosts(m, INTERNAL, true);
      DecidedPosts(e, Fail(m, INTERNAL, true));
    } else {
      DecidedPosts(e, m.(stage := Completing(t)));
    }
  }

  lemma RejectPosts(e: End, r: Reason, notify: bool)
    requires e.stage.Driving? && e.events != [] && !e.events[0].EvAccept?
    ensures var n := Fail(e.(events := e.events[1..]), r, notify); Sends(e, n, []) && Takes(e, n, None)
  {
    hide Fail, Sends, Takes;
    FailPosts(e.(events := e.events[1..]), r, notify);
    DecidedPosts(e, Fail(e.(events := e.events[1..]), r, notify));
  }

  /** What each event comes to. */
  lemma RemoteIs(m: End, ev: PairEvent, mint: Option<Token>)
    ensures TakeRemote(m, ev, mint)
         == match ev
            case EvAccept => AfterSelect(m.(remoteYes := true), mint)
            case EvReject(r) => Fail(m, r, false)
            case EvCancelled(r) => Fail(m, r, true)
            case EvPaired(t) => TakeRemote(m, EvPaired(t), None)
  {
    hide Fail, AfterSelect, INTERNAL;
  }

  lemma RemotePosts(e: End, ev: PairEvent, mint: Option<Token>)
    requires e.stage.Driving? && e.events != [] && e.events[0] == ev
    ensures var n := TakeRemote(e.(events := e.events[1..]), ev, mint); Sends(e, n, []) && Takes(e, n, None)
  {
    hide Fail, AfterSelect, TakeRemote, Sends, Takes;
    var m := e.(events := e.events[1..]);
    RemoteIs(m, ev, mint);
    match ev
    case EvAccept => AcceptPosts(e, mint);
    case EvReject(r) => RejectPosts(e, r, false);
    case EvCancelled(r) => RejectPosts(e, r, true);
    case EvPaired(t) => TokenPosts(e, m, t);
  }

  lemma SamePosts(e: End)
    ensures Sends(e, e, []) && Takes(e, e, None)
  {
    hide Doomed, Yeses;
  }

  lemma DecisionPosts(e: End, d: Option<Decision>, n: End, sent: seq<Frame>)
    requires Sends(e.(decision := d), n, sent) && Takes(e.(decision := d), n, None) && e.stage.Driving?
    ensures Sends(e, n, sent) && Takes(e, n, None)
  {
    hide Doomed, Yeses;
  }

  lemma SelectPosts(e: End, c: Choice)
    requires e.stage.Driving?
    ensures var x := Select(e, c); Sends(e, x.0, x.1) && Takes(e, x.0, None)
  {
    hide Fail, TakeAnswer, TakeRemote, INTERNAL, UNREACHABLE, TIMEOUT, Sends, Takes;
    SamePosts(e);
    match c
    case TakeDecision(ok, mint) =>
      if e.decision.Some? {
        AnswerPosts(e.(decision := None), e.decision.value, ok, mint);
        var x := TakeAnswer(e.(decision := None), e.decision.value, ok, mint);
        DecisionPosts(e, None, x.0, x.1);
      }
    case TakeEvent(mint) => if e.events != [] { RemotePosts(e, e.events[0], mint); }
    case _ =>
      FailedPosts(e, INTERNAL, true);
      FailedPosts(e, UNREACHABLE, false);
      FailedPosts(e, TIMEOUT, true);
  }

  lemma FailedPosts(e: End, reason: Reason, notify: bool)
    requires e.stage.Driving?
    ensures Sends(e, Fail(e, reason, notify), []) && Takes(e, Fail(e, reason, notify), None)
  {
    FailPosts(e, reason, notify);
    hide Fail, Doomed, Yeses;
  }

  // -- frames -----------------------------------------------------------------------------------------------

  lemma RoomPosts(e: End, ev: PairEvent, f: Frame)
    requires !Early(e.stage) && (ev.EvAccept? ==> f.Accept?)
    requires f.Accept? ==> ev.EvAccept?
    ensures var n := e.(events := e.events + [ev]); Sends(e, n, []) && Takes(e, n, Some(f))
  {
    YesAppend(e.events, ev);
    DoomedPush(e.events, ev);
    hide Doomed, Yeses;
  }

  lemma FullPosts(e: End, f: Frame)
    requires !Early(e.stage) && |e.events| >= EVENT_CAPACITY
    ensures Sends(e, e, []) && Takes(e, e, Some(f))
  {
    hide Doomed, Yeses;
  }

  lemma PushPosts(e: End, ev: PairEvent, f: Frame)
    requires !Early(e.stage) && (ev.EvAccept? ==> f.Accept?)
    requires f.Accept? ==> ev.EvAccept?
    ensures Sends(e, Push(e, ev), []) && Takes(e, Push(e, ev), Some(f))
  {
    if |e.events| < EVENT_CAPACITY { RoomPosts(e, ev, f); } else { FullPosts(e, f); }
    hide Sends, Takes;
  }

  lemma DeadPosts(e: End, f: Frame)
    requires !Early(e.stage) && e.linked
    ensures Sends(e, e.(alive := false), []) && Takes(e, e.(alive := false), Some(f))
  {
    hide Doomed, Yeses;
  }

  lemma ReadPosts(e: End, f: Frame, mine: bool)
    requires !Early(e.stage) && e.linked
    ensures Sends(e, ReadFrame(e, f, mine), []) && Takes(e, ReadFrame(e, f, mine), Some(f))
  {
    hide Sends, Takes, Push, ValidTokenFormat, OrDeclined;
    DeadPosts(e, f);
    var ev := EventFor(e.device, f);
    if ev.Some? { PushPosts(e, ev.value, f); }
  }

  // -- after the outcome --------------------------------------------------------------------------------------

  lemma StayPosts(e: End, n: End, sent: seq<Frame>)
    requires Chosen(e) && Chosen(n) && n.events == e.events && n.remoteYes == e.remoteYes && n.localYes == e.localYes
    requires n.owner == e.owner && n.responder == e.responder && n.linked == e.linked && n.shown == e.shown
    requires |sent| <= 1 && (!e.alive ==> !n.alive)
    requires sent != [] ==>
               sent[0].Reject? || (sent[0].Paired? && e.responder && e.stage == Stored(sent[0].token))
    ensures Sends(e, n, sent) && Takes(e, n, None)
  {
    hide Doomed, Yeses;
  }

  lemma FailingPosts(e: End, ok: bool)
    requires e.stage.Failing? || e.stage.Closed? || e.stage.Reported? || e.stage.Announced?
    ensures var x := Finish(e, ok); Sends(e, x.0, x.1) && Takes(e, x.0, None)
  {
    hide Fail, ValidTokenFormat, Sends, Takes;
    var x := Finish(e, ok);
    assert e.stage.Failing? ==> x.0 == e.(stage := Closed(e.stage.reason), alive := false);
    assert e.stage.Closed? ==> x.0 == e.(stage := Reported, results := e.results + [Failure(e.stage.reason)]);
    assert e.stage.Announced? ==> x.0 == e.(stage := Reported, results := e.results + [Success]);
    assert e.stage.Reported? ==> x.0 == e.(done := true);
    StayPosts(e, x.0, x.1);
  }

  lemma CompletingPosts(e: End, ok: bool)
    requires e.stage.Completing?
    ensures var x := Finish(e, ok); Sends(e, x.0, x.1) && Takes(e, x.0, None)
  {
    hide Fail, ValidTokenFormat, Sends, Takes, INTERNAL;
    FailPosts(e, INTERNAL, true);
    FailPosts(e.(stored := Some(e.stage.token), saved := false), INTERNAL, true);
    StayPosts(e, Finish(e, ok).0, []);
  }

  lemma StoredPosts(e: End, ok: bool)
    requires e.stage.Stored?
    ensures var x := Finish(e, ok); Sends(e, x.0, x.1) && Takes(e, x.0, None)
  {
    hide Sends, Takes;
    var n := e.(paired := true, stage := Announced);
    var x := Finish(e, ok);
    assert x.0 == n || x.0 == n.(alive := false);
    StayPosts(e, n, x.1);
    StayPosts(e, n.(alive := false), x.1);
  }

  lemma FinishPosts(e: End, ok: bool)
    requires Chosen(e)
    ensures var x := Finish(e, ok); Sends(e, x.0, x.1) && Takes(e, x.0, None)
  {
    if e.stage.Completing? { CompletingPosts(e, ok); }
    else if e.stage.Stored? { StoredPosts(e, ok); }
    else { FailingPosts(e, ok); }
    hide Finish, Sends, Takes;
  }

  // -- every step ---------------------------------------------------------------------------------------------

  /** What is known of any end of the world here: fresh before its driver starts, and on a socket after. */
  predicate PostInv(e: End) {
    && (Early(e.stage) ==> Fresh(e)) && (!Early(e.stage) && e.shown.Some? ==> e.linked)
  }

  lemma ActPosts(h: Hash, e: End, x: Input)
    requires PostInv(e)
    ensures Posts(e, Act(h, e, x.head, x.m, x.free, x.mine), x.head)
  {
    var n := Act(h, e, x.head, x.m, x.free, x.mine);
    if e.stage.Refused? {
      RefusedPosts(h, e, x);
      hide Act, Sends, Takes;
    } else if Early(e.stage) {
      EarlyPosts(h, e, x);
      QuietTakes(e, n.e, if n.took then x.head else None);
      hide Act, Sends, Takes, Quietly;
    } else {
      if e.stage.Driving? { DrivingMoves(h, e, x); } else { OnlyTheRest(h, e, x); }
      hide Act, Select, Finish, ReadFrame, Sends, Takes;
      SamePosts(e);
      match x.m
      case Turn(c) => if e.stage.Driving? { SelectPosts(e, c); }
      case Loop => if x.head.Some? && e.shown.Some? { ReadPosts(e, x.head.value, x.mine); }
      case Proceed(ok) => if Chosen(e) { FinishPosts(e, ok); }
      case _ =>
    }
  }

  // -- where a step leads -------------------------------------------------------------------------------------

  /** What a step can only have come from. */
  predicate Marks(e: End, n: End, f: Option<Frame>) {
    && (e.stage.Waiting? && !n.stage.Waiting? && !n.stage.Refused? ==> f.Some? && f.value.Hello?)
    && (e.stage.Refused? ==> n.stage.Refused?) && (n.stage.Refused? ==> e.responder || e.stage.Refused?)
    && (!e.responder && e.shown.None? && n.shown.Some? ==> f.Some? && f.value.Required?)
    && (n.stage.Dialling? ==> e.stage.Dialling?) && (n.stage.Waiting? ==> e.stage.Waiting?)
  }

  lemma FirstMarks(h: Hash, e: End, f: Frame)
    requires e.stage.Opening? && !e.responder
    ensures var n := FirstFrame(h, e, f);
            && (f.Required? || n.shown == e.shown) && !n.stage.Refused? && !n.stage.Dialling? && !n.stage.Waiting?
  {
    hide Code, ValidNonceFormat, ValidCodeFormat, Abort, OrDeclined, INTERNAL, CODE_MISMATCH;
    AbortMarks(e, INTERNAL, true);
    AbortMarks(e, CODE_MISMATCH, true);
    if f.Reject? { AbortMarks(e, OrDeclined(f.reason), false); }
  }

  lemma AbortMarks(e: End, reason: Reason, notify: bool)
    ensures Abort(e, reason, notify).shown == e.shown && Abort(e, reason, notify).stage.Failing?
  {
    hide OrDeclined;
  }

  lemma HelloMarks(h: Hash, e: End, f: Frame, gate: Gate, free: Id -> bool)
    ensures var n := TakeHello(h, e, f, gate, free).0; n.stage.Refused? || (n.stage.Opening? && f.Hello?)
  {
    hide Code;
  }

  lemma DialMarks(e: End, ok: bool)
    ensures var n := Connect(e, ok).0; n.shown == e.shown && (n.stage.Opening? || n.stage.Failing?)
  {
    AbortMarks(e, UNREACHABLE, false);
    hide Abort, UNREACHABLE;
  }

  lemma OfferMarks(e: End, ok: bool)
    ensures var n := Offer(e, ok).0; n.shown == e.shown && (n.stage.Offered? || n.stage.Refused?)
    ensures Show(e).stage.Driving? && Refuse(e, []).0.shown == e.shown
  {
  }

  lemma EarlyMarks(h: Hash, e: End, x: Input)
    requires Fresh(e)
    ensures var n := Act(h, e, x.head, x.m, x.free, x.mine); Marks(e, n.e, if n.took then x.head else None)
  {
    hide Select, Finish, ReadFrame, FirstFrame, TakeHello, Abort, Connect, Offer, Refuse, Show, UNREACHABLE;
    OfferMarks(e, false);
    AbortMarks(e, UNREACHABLE, false);
    match x.m
    case First(gate) =>
      if x.head.Some? && e.stage.Waiting? { HelloMarks(h, e, x.head.value, gate, x.free); }
      else if x.head.Some? && e.stage.Opening? && !e.responder { FirstMarks(h, e, x.head.value); }
    case Proceed(ok) => EarlyStays(e, ok);
    case Dial(ok) => DialMarks(e, ok);
    case SendOffer(ok) => OfferMarks(e, ok);
    case _ =>
  }

  lemma LateMarks(h: Hash, e: End, x: Input)
    requires !Early(e.stage) && PostInv(e)
    ensures var n := Act(h, e, x.head, x.m, x.free, x.mine).e; !Early(n.stage) && n.shown == e.shown
  {
    ActPosts(h, e, x);
    hide Act, Takes;
  }

  lemma ActMarks(h: Hash, e: End, x: Input)
    requires PostInv(e)
    ensures var n := Act(h, e, x.head, x.m, x.free, x.mine); Marks(e, n.e, if n.took then x.head else None)
  {
    if Early(e.stage) { EarlyMarks(h, e, x); } else { LateMarks(h, e, x); }
    hide Act;
  }
}
