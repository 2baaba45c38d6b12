/**
 * Two engines and their channel, again: not only that what comes out is right, but that it does come out. A yes reaches
 * the sender, and when nothing more can happen every transfer that was accepted has been delivered.
 */
module TransferLive {
  import opened Common
  import opened ChunkCodec
  import opened Rechunk
  import opened TransferSpec
  import opened ReceiverInvariant
  import opened TransferViews
  import opened TransferTalk
  import opened TransferNet

  // -- a yes is under way, or has done its work ------------------------------------------------------------

  /** The right-hand end accepted, its yes can still travel, and the left-hand sender has not heard it. */
  predicate Unheard(n: Net, id: Id) {
    && n.ba.alive && HeldBy(n.b.engine, id) == Some(true)
    && StandOf(n.a.engine, id) == Some(Asking) && !n.a.engine.disposed
  }

  ghost predicate YesOk(n: Net, id: Id) { Unheard(n, id) ==> !NoYes(Proj(n.ba.q, id)) }

  /** The channel was open and took the write, whenever that side had something to say. */
  predicate Taken(act: Act) {
    match act
    case Local(_, env) => env.open && env.ok
    case Arrive(env) => env.open && env.ok
    case LoseTail(_) => true
  }

  lemma NewIsUnheld(n: Net, id: Id)
    requires NetInv(n) && id !in n.a.files && id !in n.b.files
    ensures HeldBy(n.b.engine, id) == None && StandOf(n.a.engine, id) == None
    ensures HeldBy(n.a.engine, id) == None && StandOf(n.b.engine, id) == None
  {
    assert Rel(id, LineOf(n, id)) && Rel(id, LineOf(Swap(n), id));
    hide Proj, EmittedFor, PromptsOf, Flatten;
  }

  /** An act of the left-hand end. */
  lemma YesAtSender(n: Net, act: Act, id: Id)
    requires NetInv(n) && YesOk(n, id)
    ensures YesOk(ActA(n, act), id)
  {
    var m := ActA(n, act);
    if Unheard(m, id) && !act.LoseTail? && m != n {
      var ev := if act.Local? then act.ev else Deliver(n.ba.q[0]);
      HearsYes(n.a.engine, ev, act.env, id);
      if ev.SendFile? && ev.id == id {
        NewIsUnheld(n, id);
      } else if act.Arrive? {
        PoppedYes(n.ba.q, id);
      }
      hide Step, StandOf, HeldBy, NetInv, Proj;
    }
  }

  /** What is left of the queue still holds the yes, unless the yes was next. */
  lemma PoppedYes(q: seq<Frame>, id: Id)
    requires q != [] && !NoYes(Proj(q, id))
    ensures q[0] == AcceptFrame(id, true) || !NoYes(Proj(q[1..], id))
  {
    var p := Proj(q, id);
    if FrameId(q[0]) == Some(id) {
      assert p == [q[0]] + Proj(q[1..], id);
      var i :| 0 <= i < |p| && IsYes(p[i]);
      if i > 0 { assert Proj(q[1..], id)[i - 1] == p[i]; }
    } else {
      assert p == Proj(q[1..], id);
    }
    hide Proj;
  }

  /** An act of the right-hand end, whose writes are taken. */
  lemma YesAtReceiver(n: Net, act: Act, id: Id)
    requires NetInv(n) && YesOk(n, id) && Taken(act)
    ensures YesOk(Swap(ActA(Swap(n), act)), id)
  {
    var w := Swap(n);
    var m := ActA(w, act);
    if Unheard(Swap(m), id) && !act.LoseTail? && m != w {
      var ev := if act.Local? then act.ev else Deliver(w.ba.q[0]);
      var r := Step(w.a.engine, ev, act.env);
      assert Rel(id, LineOf(n, id)) by { hide Proj, Rel; }
      assert PromptsCurrent(w.a.engine, id) by { HeldCurrent(n, id); }
      AcceptsAloud(w.a.engine, ev, act.env, id);
      assert |r.sent| <= 1 by { SentOne(w, ev, act.env, id); }
      ProjSent(w.ab.q, r.sent, id);
      YesAppend(Proj(w.ab.q, id), Of(r.sent, id));
      hide Step, StandOf, HeldBy, NetInv, Proj, Rel, PromptsCurrent, Of;
    }
  }

  lemma HeldCurrent(n: Net, id: Id)
    requires NetInv(n)
    ensures PromptsCurrent(n.b.engine, id)
  {
    assert Rel(id, LineOf(n, id));
    if id in n.b.engine.incoming {
      forall s | s in n.b.engine.prompts && n.b.engine.prompts[s].id == id
        ensures s == n.b.engine.incoming[id].rec.serial
      {
        assert s in Prompts(n.b.engine, id);
      }
    }
    hide Proj, Inflight, EmittedFor, Flatten, Rel;
  }

  lemma SentOne(n: Net, ev: Event, env: Env, id: Id)
    requires NetInv(Swap(n)) && (ev.Deliver? || Fresh(n, ev))
    ensures |Step(n.a.engine, ev, env).sent| <= 1
  {
    assert NetInv(n) by { assert Swap(Swap(n)) == n; hide Rel, LineOf; }
    ActorMoves(n, ev, env, id);
    hide NetInv, Step, SendMove, RecvMove;
  }

  lemma {:induction false} RunYes(n: Net, acts: seq<(bool, Act)>, id: Id)
    requires NetInv(n) && YesOk(n, id)
    requires forall i :: 0 <= i < |acts| && !acts[i].0 ==> Taken(acts[i].1)
    ensures YesOk(RunNet(n, acts), id)
    decreases |acts|
  {
    hide NetInv, YesOk, ActA;
    if acts != [] {
      var m := ActOn(n, acts[0].0, acts[0].1);
      ActKeeps(n, acts[0].0, acts[0].1);
      if acts[0].0 { YesAtSender(n, acts[0].1, id); } else { YesAtReceiver(n, acts[0].1, id); }
      RunYes(m, acts[1..], id);
    }
  }

  /**
   * A yes is never lost. In every run, whatever is cancelled, closed, timed out or cut off on the way out: as long as
   * the link back is alive and has refused the receiving end no write, a transfer it has accepted is one whose yes is
   * under way, or whose sender has started, has been turned down by its own timer, or is gone, or hears nothing any
   * more because its engine is disposed.
   */
  lemma YesIsUnderWay(a: Engine, b: Engine, acts: seq<(bool, Act)>, id: Id)
    requires IsNew(a) && IsNew(b)
    requires forall i :: 0 <= i < |acts| && !acts[i].0 ==> Taken(acts[i].1)
    ensures var n := RunNet(NewNet(a, b), acts);
            n.ba.alive && HeldBy(n.b.engine, id) == Some(true) ==>
              || !NoYes(Proj(n.ba.q, id))
              || StandOf(n.a.engine, id) != Some(Asking)
              || n.a.engine.disposed
  {
    NewNetOk(a, b);
    RunYes(NewNet(a, b), acts, id);
    hide RunNet, Proj, StandOf, HeldBy, NetInv;
  }

  // -- nobody is disturbed ------------------------------------------------------------------------------------

  /**
   * Nothing goes wrong in this act: the channel is open and takes what is written, object URLs can be made, nobody
   * cancels, closes or disposes, no wait for an answer runs out, no stream breaks, and nothing is lost on the way.
   */
  predicate SmoothAct(act: Act) {
    match act
    case Local(ev, env) => Smooth(ev) && env.open && env.ok && env.urlOk
    case Arrive(env) => env.open && env.ok && env.urlOk
    case LoseTail(_) => false
  }

  predicate YesOnly(q: seq<Frame>) {
    forall i :: 0 <= i < |q| ==> !q[i].CancelFrame? && (q[i].AcceptFrame? ==> q[i].accept)
  }

  /**
   * An undisturbed transfer from the left: whoever has not accepted is waited for, and whoever has is sent the file.
   */
  predicate Talks(v: Line, x: Option<Stand>) {
    && NoWord(v.p)
    && (!NoStart(v.p) ==> x == Some(Asking) && NoWord(v.bp))
    && (v.r.Some? && !v.r.value.accepted ==> x == Some(Asking) && NoWord(v.bp))
    && (v.r.Some? && v.r.value.accepted ==>
          && v.pr == {} && YesOnly(v.bp)
          && ((x == Some(Asking) && !NoYes(v.bp)) || x == Some(Going) || (x.None? && !NoComplete(v.p))))
  }

  function Held(r: Option<RecvView>): Option<bool> { if r.Some? then Some(r.value.accepted) else None }

  // -- moves of an undisturbed sender -------------------------------------------------------------------------

  /** How a step at the sender's end changes the line: its frames go out, and what it heard is gone from the queue. */
  predicate SenderLine(id: Id, v: Line, v': Line, s: seq<Frame>, ev: Event) {
    && v'.p == v.p + s && v'.r == v.r && v'.pr == v.pr
    && if Hears(ev, id) then v.bp != [] && v.bp[0] == ev.frame && v'.bp == v.bp[1..] else v'.bp == v.bp
  }

  lemma WordAppend(p: seq<Frame>, s: seq<Frame>)
    ensures NoWord(p + s) <==> NoWord(p) && NoWord(s)
    ensures NoStart(p + s) <==> NoStart(p) && NoStart(s)
    ensures YesOnly(p + s) <==> YesOnly(p) && YesOnly(s)
    ensures NoYes(p + s) <==> NoYes(p) && NoYes(s)
    ensures NoComplete(p + s) <==> NoComplete(p) && NoComplete(s)
  {
    forall i | 0 <= i < |p| ensures (p + s)[i] == p[i] {}
    forall i | 0 <= i < |s| ensures (p + s)[|p| + i] == s[i] {}
    YesAppend(p, s);
  }

  lemma WordPop(q: seq<Frame>)
    requires q != []
    ensures NoWord(q) ==> NoWord(q[1..])
    ensures YesOnly(q) ==> YesOnly(q[1..])
    ensures !NoYes(q) ==> IsYes(q[0]) || !NoYes(q[1..])
    ensures !NoComplete(q) ==> q[0].CompleteFrame? || !NoComplete(q[1..])
    ensures !NoStart(q[1..]) ==> !NoStart(q)
  {
    forall i | 0 <= i < |q[1..]| ensures q[1..][i] == q[i + 1] {}
    if !NoYes(q) {
      var i :| 0 <= i < |q| && IsYes(q[i]);
      if i > 0 { assert IsYes(q[1..][i - 1]); }
    }
    if !NoComplete(q) {
      var i :| 0 <= i < |q| && q[i].CompleteFrame?;
      if i > 0 { assert q[1..][i - 1].CompleteFrame?; }
    }
  }

  lemma OfferIsStart(s: seq<Frame>)
    ensures NoOffer(s) <==> NoStart(s)
  {
  }

  lemma OnlyComplete(id: Id)
    ensures !NoComplete([CompleteFrame(id)])
  {
    assert [CompleteFrame(id)][0].CompleteFrame?;
  }

  /** A frame heard is the next one, so what it is follows from what is under way. */
  lemma HeardWord(id: Id, v: Line, ev: Event)
    requires Hears(ev, id) ==> v.bp != [] && v.bp[0] == ev.frame
    ensures NoWord(v.bp) ==> !HearsAnswer(ev, id, true) && !HearsAnswer(ev, id, false) && !HearsCancel(ev, id)
    ensures YesOnly(v.bp) ==> !HearsAnswer(ev, id, false) && !HearsCancel(ev, id)
    ensures Hears(ev, id) && IsYes(ev.frame) ==> HearsAnswer(ev, id, true)
  {
    hide ChunkCodec.Decode;
  }

  lemma TalkSend(id: Id, v: Line, v': Line, x: Option<Stand>, y: Option<Stand>, s: seq<Frame>, ev: Event)
    requires Talks(v, x) && SmoothSend(id, x, y, s, ev) && SenderLine(id, v, v', s, ev)
    requires !(ev.SendFile? && ev.id == id)
    ensures Talks(v', y)
  {
    WordAppend(v.p, s);
    OfferIsStart(s);
    OnlyComplete(id);
    HeardWord(id, v, ev);
    if v.bp != [] { WordPop(v.bp); }
    hide NoWord, NoStart, NoOffer, YesOnly, NoYes, NoComplete, IsYes, HearsAnswer, HearsCancel, Hears;
  }

  /** A transfer that starts. */
  lemma TalkStart(id: Id, v: Line, v': Line, y: Option<Stand>, s: seq<Frame>, ev: Event)
    requires ev.SendFile? && ev.id == id && v.p == [] && v.bp == [] && v.r.None?
    requires SmoothSend(id, None, y, s, ev) && SenderLine(id, v, v', s, ev)
    ensures Talks(v', y)
  {
    assert [] + s == s;
    OfferIsStart(s);
  }

  // -- moves of an undisturbed receiver ---------------------------------------------------------------------------

  predicate ReceiverLine(id: Id, v: Line, v': Line, s: seq<Frame>, ev: Event) {
    && v'.bp == v.bp + s
    && if Hears(ev, id) then v.p != [] && v.p[0] == ev.frame && v'.p == v.p[1..] else v'.p == v.p
  }

  lemma TalkRecv(id: Id, v: Line, v': Line, x: Option<Stand>, s: seq<Frame>, ev: Event)
    requires Talks(v, x) && ReceiverLine(id, v, v', s, ev)
    requires SmoothRecv(id, Held(v.r), Held(v'.r), v.pr, v'.pr, s, ev)
    requires (HearsStart(ev, id) ==> NoStart(v'.p)) && (!NoStart(v.p) ==> v.r.None?)
    ensures Talks(v', x)
  {
    WordAppend(v.bp, s);
    if v.p != [] { WordPop(v.p); }
    OneYes(id);
    HeardNext(id, v, ev);
    hide NoWord, NoStart, YesOnly, NoYes, NoComplete, IsYes, Hears, HearsStart;
  }

  lemma OneYes(id: Id)
    ensures YesOnly([AcceptFrame(id, true)]) && !NoYes([AcceptFrame(id, true)])
    ensures forall q :: NoWord(q) ==> YesOnly(q) && NoYes(q)
  {
    assert IsYes([AcceptFrame(id, true)][0]);
  }

  lemma HeardNext(id: Id, v: Line, ev: Event)
    requires Hears(ev, id) ==> v.p != [] && v.p[0] == ev.frame
    ensures HearsStart(ev, id) ==> !NoStart(v.p) && Hears(ev, id)
    ensures Hears(ev, id) && ev.frame.CompleteFrame? ==> ev == Deliver(CompleteFrame(id))
  {
    hide ChunkCodec.Decode;
    if HearsStart(ev, id) { assert v.p[0].StartFrame?; }
  }

  // -- both engines ---------------------------------------------------------------------------------------------

  /** A transfer the left-hand end was given that can be delivered: a proper id, and a stream of the declared size. */
  predicate Deliverable(n: Net, id: Id) {
    ValidId(id) && id in n.a.files && |n.a.files[id].content| == n.a.files[id].size
  }

  ghost predicate TalksOk(n: Net) {
    && n.ab.alive && n.ba.alive && !n.a.engine.disposed && !n.b.engine.disposed
    && (forall id :: Deliverable(n, id) ==> Talks(LineOf(n, id), StandOf(n.a.engine, id)))
    && (forall id :: ValidId(id) && id !in n.a.files && id !in n.b.files ==>
          Proj(n.ab.q, id) == [] && Proj(n.ba.q, id) == [])
  }

  /** What the left-hand engine's receiving half has to do with a transfer of its own: nothing. */
  lemma OwnIsNotReceived(n: Net, id: Id)
    requires NetInv(n) && id !in n.b.files
    ensures id !in n.a.engine.incoming && Prompts(n.a.engine, id) == {} && id !in n.b.engine.outgoing
    ensures NoUse(Proj(n.ba.q, id))
  {
    assert Rel(id, LineOf(Swap(n), id));
    hide Proj, EmittedFor, PromptsOf, Flatten;
  }

  /** The step of the left-hand engine in an act, if it makes one. */
  function EventOf(n: Net, act: Act): Event
    requires act.Local? || (act.Arrive? && n.ba.q != [])
  {
    if act.Local? then act.ev else Deliver(n.ba.q[0])
  }

  predicate Steps(n: Net, act: Act) {
    match act
    case Local(ev, _) => !ev.Deliver? && Fresh(n, ev)
    case Arrive(_) => n.ba.q != []
    case LoseTail(_) => false
  }

  lemma IdleAct(n: Net, act: Act)
    requires SmoothAct(act) && !Steps(n, act)
    ensures ActA(n, act) == n
  {
  }

  lemma HeadInProj(q: seq<Frame>, id: Id)
    requires q != []
    ensures FrameId(q[0]) == Some(id) ==>
              Proj(q, id) != [] && Proj(q, id)[0] == q[0] && Proj(q[1..], id) == Proj(q, id)[1..]
    ensures FrameId(q[0]) != Some(id) ==> Proj(q[1..], id) == Proj(q, id)
  {
    hide FrameId;
    assert Proj(q, id) == (if FrameId(q[0]) == Some(id) then [q[0]] else []) + Proj(q[1..], id);
  }

  /** What the left-hand engine's step means for a transfer of its own. */
  lemma SenderMoves(n: Net, act: Act, id: Id)
    requires NetInv(n) && TalksOk(n) && SmoothAct(act) && Steps(n, act) && ValidId(id) && id !in n.b.files
    ensures var m, ev := ActA(n, act), EventOf(n, act);
            var s := Of(Step(n.a.engine, ev, act.env).sent, id);
            && SmoothSend(id, StandOf(n.a.engine, id), StandOf(m.a.engine, id), s, ev)
            && SenderLine(id, LineOf(n, id), LineOf(m, id), s, ev)
            && !m.a.engine.disposed && m.ab.alive && m.ba.alive && m.b == n.b
            && Proj(m.ba.q, id) == (if Hears(ev, id) then Proj(n.ba.q, id)[1..] else Proj(n.ba.q, id))
            && (Hears(ev, id) ==> Proj(n.ba.q, id) != [])
  {
    var ev, r := EventOf(n, act), Step(n.a.engine, EventOf(n, act), act.env);
    OwnIsNotReceived(n, id);
    if act.Arrive? { HeadInProj(n.ba.q, id); HeadIsHeard(n, id); }
    assert ev.SendFile? ==> ev.id !in n.a.engine.outgoing by {
      if ev.SendFile? { NewIsUnheld(n, ev.id); StandIsOut(n.a.engine, ev.id); }
      hide NetInv;
    }
    SmoothSends(n.a.engine, ev, act.env, id);
    assert |r.sent| <= 1 by { assert NetInv(Swap(Swap(n))); SentOne(n, ev, act.env, id); }
    ProjSent(n.ab.q, r.sent, id);
    hide NetInv, Step, Proj, SmoothSend, StandOf, RV, PromptsOf, EmittedFor, Of, SV;
  }

  lemma StandIsOut(e: Engine, id: Id)
    ensures StandOf(e, id).None? <==> id !in e.outgoing
  {
  }

  lemma HeadIsHeard(n: Net, id: Id)
    requires n.ba.q != [] && NoUse(Proj(n.ba.q, id))
    ensures FrameId(n.ba.q[0]) == Some(id) ==> !n.ba.q[0].StartFrame? && !Data(n.ba.q[0])
  {
    HeadInProj(n.ba.q, id);
    hide Proj, FrameId;
  }

  lemma SmoothSenderKeeps(n: Net, act: Act)
    requires NetInv(n) && TalksOk(n) && SmoothAct(act)
    ensures TalksOk(ActA(n, act))
  {
    var m := ActA(n, act);
    if !Steps(n, act) {
      IdleAct(n, act);
    } else {
      StaysUndisposed(n.a.engine, EventOf(n, act), act.env);
      hide Step, NetInv, Talks, LineOf, Proj;
      forall id | Deliverable(m, id) ensures Talks(LineOf(m, id), StandOf(m.a.engine, id)) {
        SenderKeepsOne(n, act, id);
      }
      forall id | ValidId(id) && id !in m.a.files && id !in m.b.files
        ensures Proj(m.ab.q, id) == [] && Proj(m.ba.q, id) == []
      {
        StrangerStays(n, act, id);
      }
    }
  }

  lemma StaysUndisposed(e: Engine, ev: Event, env: Env)
    requires !ev.Dispose?
    ensures Step(e, ev, env).engine.disposed == e.disposed
  {
    hide StepSender, StepBinary, StepComplete, StepStart, StepAnswer, Finalise, SettledOutgoing, SettledIncoming;
    if ev.Deliver? { DeliverUndisposed(e, ev.frame, env); hide StepDeliver; }
    if ev.Answer? { SameSenders(e, ev, env); }
  }

  lemma DeliverUndisposed(e: Engine, f: Frame, env: Env)
    ensures StepDeliver(e, f, env).engine.disposed == e.disposed
  {
    hide StepBinary, StepComplete, StepStart, Finalise;
  }

  lemma SenderKeepsOne(n: Net, act: Act, id: Id)
    requires NetInv(n) && TalksOk(n) && SmoothAct(act) && Steps(n, act) && Deliverable(ActA(n, act), id)
    ensures Talks(LineOf(ActA(n, act), id), StandOf(ActA(n, act).a.engine, id))
  {
    var m, ev := ActA(n, act), EventOf(n, act);
    var s := Of(Step(n.a.engine, ev, act.env).sent, id);
    assert id !in n.b.files by { hide Step; }
    SenderMoves(n, act, id);
    if ev.SendFile? && ev.id == id {
      assert id !in n.a.files && id !in n.b.files;
      NewIsUnheld(n, id);
      UnheldView(n, id);
      hide Step, Talks, SmoothSend, Proj, StandOf;
      TalkStart(id, LineOf(n, id), LineOf(m, id), StandOf(m.a.engine, id), s, ev);
    } else {
      assert Deliverable(n, id) by { hide Step; }
      hide Step, Talks, SmoothSend, Proj, StandOf, LineOf, NetInv, SenderLine;
      TalkSend(id, LineOf(n, id), LineOf(m, id), StandOf(n.a.engine, id), StandOf(m.a.engine, id), s, ev);
    }
  }

  lemma UnheldView(n: Net, id: Id)
    requires HeldBy(n.b.engine, id) == None
    ensures RV(n.b.engine, id) == None
  {
  }

  /** Of an id nobody was given, nothing is said. */
  lemma StrangerStays(n: Net, act: Act, id: Id)
    requires NetInv(n) && TalksOk(n) && SmoothAct(act) && Steps(n, act)
    requires ValidId(id) && id !in ActA(n, act).a.files && id !in ActA(n, act).b.files
    ensures Proj(ActA(n, act).ab.q, id) == [] && Proj(ActA(n, act).ba.q, id) == []
  {
    var m, ev := ActA(n, act), EventOf(n, act);
    assert id !in n.a.files && id !in n.b.files && !(ev.SendFile? && ev.id == id) by { hide Step; }
    SenderMoves(n, act, id);
    NewIsUnheld(n, id);
    StrangerIsStill(n, act, id);
    hide Step, Proj, Talks, NetInv, StandOf, Of;
    assert Proj(n.ab.q, id) == [] && Proj(n.ba.q, id) == [];
    assert Proj(m.ab.q, id) == Proj(n.ab.q, id) + Of(Step(n.a.engine, ev, act.env).sent, id);
    hide SenderLine;
  }

  /** A step that is not about it does not start it. */
  lemma StrangerIsStill(n: Net, act: Act, id: Id)
    requires NetInv(n) && Steps(n, act) && id !in n.a.files && id !in n.b.files
    requires !(EventOf(n, act).SendFile? && EventOf(n, act).id == id)
    ensures StandOf(ActA(n, act).a.engine, id) == None
  {
    ActAKeeps(n, act);
    NewIsUnheld(ActA(n, act), id);
    hide NetInv, Step, StandOf, HeldBy;
  }

  // -- the other end --------------------------------------------------------------------------------------------

  lemma HeldIsHeld(e: Engine, id: Id)
    ensures Held(RV(e, id)) == HeldBy(e, id)
  {
  }

  lemma UpToStart(n: Net, id: Id)
    requires NetInv(n) && id in n.a.files
    ensures var v := LineOf(n, id);
            && (v.p != [] && v.p[0].StartFrame? ==> NoStart(v.p[1..])) && (!NoStart(v.p) ==> v.r.None?)
  {
    var v := LineOf(n, id);
    assert Rel(id, v);
    if v.p != [] { PopFacts(v.p, id, n.a.files[id]); }
    hide Proj, EmittedFor, PromptsOf, Flatten, Inflight, SV, RV;
  }

  /** What the right-hand engine's step means for a transfer from the left. */
  lemma ReceiverMoves(n: Net, act: Act, id: Id)
    requires NetInv(n) && TalksOk(n) && SmoothAct(act) && Steps(Swap(n), act) && id in n.a.files
    ensures var w := Swap(n);
            var m, ev := Swap(ActA(w, act)), EventOf(w, act);
            var s := Of(Step(w.a.engine, ev, act.env).sent, id);
            && SmoothRecv(id, HeldBy(n.b.engine, id), HeldBy(m.b.engine, id), Prompts(n.b.engine, id),
                          Prompts(m.b.engine, id), s, ev)
            && ReceiverLine(id, LineOf(n, id), LineOf(m, id), s, ev)
            && m.a == n.a
  {
    var w := Swap(n);
    var ev, r := EventOf(w, act), Step(w.a.engine, EventOf(w, act), act.env);
    OwnIsNotReceived(n, id);
    HeldCurrent(n, id);
    if act.Arrive? { HeadInProj(w.ba.q, id); }
    assert ev.SendFile? ==> ev.id !in w.a.engine.outgoing && ev.id != id by {
      if ev.SendFile? { NewIsUnheld(n, ev.id); StandIsOut(n.b.engine, ev.id); }
      hide NetInv;
    }
    SmoothRecvs(w.a.engine, ev, act.env, id);
    assert |r.sent| <= 1 by { SentOne(w, ev, act.env, id); }
    ProjSent(w.ab.q, r.sent, id);
    hide NetInv, Step, Proj, SmoothRecv, StandOf, RV, PromptsOf, EmittedFor, Of, SV, HeldBy, PromptsCurrent;
  }

  lemma ReceiverKeepsOne(n: Net, act: Act, id: Id)
    requires NetInv(n) && TalksOk(n) && SmoothAct(act) && Steps(Swap(n), act) && Deliverable(n, id)
    ensures var m := Swap(ActA(Swap(n), act)); Talks(LineOf(m, id), StandOf(m.a.engine, id))
  {
    var w := Swap(n);
    var m, ev := Swap(ActA(w, act)), EventOf(w, act);
    var s := Of(Step(w.a.engine, ev, act.env).sent, id);
    ReceiverMoves(n, act, id);
    UpToStart(n, id);
    HeldIsHeld(n.b.engine, id);
    HeldIsHeld(m.b.engine, id);
    HeardNext(id, LineOf(n, id), ev);
    hide Step, Talks, SmoothRecv, Proj, StandOf, NetInv, RV, PromptsOf, EmittedFor, HeldBy, SV, Of;
    TalkRecv(id, LineOf(n, id), LineOf(m, id), StandOf(n.a.engine, id), s, ev);
  }

  lemma SmoothReceiverKeeps(n: Net, act: Act)
    requires NetInv(n) && TalksOk(n) && SmoothAct(act) && TalksOk(ActA(Swap(n), act))
    ensures TalksOk(Swap(ActA(Swap(n), act)))
  {
    var m := Swap(ActA(Swap(n), act));
    if !Steps(Swap(n), act) {
      IdleAct(Swap(n), act);
      assert Swap(Swap(n)) == n;
    } else {
      assert m.a == n.a by { hide Step; }
      hide Talks, LineOf, Proj, NetInv, ActA;
      forall id | Deliverable(m, id) ensures Talks(LineOf(m, id), StandOf(m.a.engine, id)) {
        ReceiverKeepsOne(n, act, id);
      }
    }
  }

  ghost predicate LiveInv(n: Net) { NetInv(n) && TalksOk(n) && TalksOk(Swap(n)) }

  /** Every act that disturbs nobody keeps every undisturbed transfer on its way. */
  lemma SmoothKeeps(n: Net, left: bool, act: Act)
    requires LiveInv(n) && SmoothAct(act)
    ensures LiveInv(ActOn(n, left, act))
  {
    hide NetInv, TalksOk, ActA;
    assert Swap(Swap(n)) == n;
    ActKeeps(n, left, act);
    MirrorInv(n);
    if left {
      SmoothSenderKeeps(n, act);
      SmoothReceiverKeeps(Swap(n), act);
    } else {
      SmoothSenderKeeps(Swap(n), act);
      SmoothReceiverKeeps(n, act);
      assert Swap(Swap(ActA(Swap(n), act))) == ActA(Swap(n), act);
    }
  }

  lemma MirrorInv(n: Net)
    requires NetInv(n)
    ensures NetInv(Swap(n))
  {
    assert Swap(Swap(n)) == n;
    hide Rel, LineOf;
  }

  // -- accepted means delivered ------------------------------------------------------------------------------------

  /** The right-hand end has accepted the transfer, and holds it or has handed over its file. */
  predicate AcceptedOrDone(n: Net, id: Id) {
    HeldBy(n.b.engine, id) == Some(true) || EmittedFor(n.b.got, id) != []
  }

  /** A chunk that arrives is taken, and a completion that arrives emits the file. */
  lemma ArrivalDelivers(n: Net, env: Env, id: Id)
    requires NetInv(n) && Deliverable(n, id) && HeldBy(n.b.engine, id) == Some(true) && env.urlOk
    requires n.ab.q != [] && FrameId(n.ab.q[0]) == Some(id) && NoWord(Proj(n.ab.q, id))
    ensures var r := StepDeliver(n.b.engine, n.ab.q[0], env);
            HeldBy(r.engine, id) == Some(true) || (|r.files| == 1 && r.files[0].id == id)
  {
    var f := n.ab.q[0];
    HeadInProj(n.ab.q, id);
    UpToStart(n, id);
    assert !f.StartFrame? by { HeldIsHeld(n.b.engine, id); hide Proj, EmittedFor, SV, NetInv; }
    assert !f.AcceptFrame? && !f.CancelFrame?;
    hide Proj;
    if f.BinaryFrame? || f.CompleteFrame? {
      ArrivalFacts(n, id);
      assert SlotOk(n.b.engine, n.b.engine.incoming[id]);
    }
    hide NetInv, ChunkCodec.Decode, Flatten, Finalise;
  }

  lemma DeliveredAtReceiver(n: Net, act: Act, id: Id)
    requires LiveInv(n) && SmoothAct(act) && Deliverable(n, id) && AcceptedOrDone(n, id)
    ensures AcceptedOrDone(Swap(ActA(Swap(n), act)), id)
  {
    var w := Swap(n);
    var m := Swap(ActA(w, act));
    if !Steps(w, act) {
      IdleAct(w, act);
      assert Swap(Swap(n)) == n;
    } else {
      var ev, r := EventOf(w, act), Step(w.a.engine, EventOf(w, act), act.env);
      assert |r.files| <= 1 by { FilesOne(n, ev, act.env, id); }
      EmittedSent(n.b.got, r.files, id);
      assert m.b.got == n.b.got + r.files && m.b.engine == r.engine by { hide Step; }
      if HeldBy(n.b.engine, id) == Some(true) && HeldBy(m.b.engine, id) != Some(true) {
        ReceiverMoves(n, act, id);
        TalkFacts(n, id);
        HearsNext(n, act, id);
        ArrivalDelivers(n, act.env, id);
        assert r == StepDeliver(n.b.engine, n.ab.q[0], act.env);
        assert FilesOf(r.files, id) == r.files;
      }
    }
    hide LiveInv, Step, EmittedFor, HeldBy, SmoothRecv, StepDeliver, FilesOf;
  }

  lemma TalkFacts(n: Net, id: Id)
    requires LiveInv(n) && Deliverable(n, id)
    ensures NoWord(Proj(n.ab.q, id)) && (HeldBy(n.b.engine, id) == Some(true) ==> Prompts(n.b.engine, id) == {})
  {
    assert Talks(LineOf(n, id), StandOf(n.a.engine, id));
    hide Proj, EmittedFor, SV, PromptsOf, NetInv;
  }

  /** A held transfer that is let go was let go by a frame about it. */
  lemma HearsNext(n: Net, act: Act, id: Id)
    requires Steps(Swap(n), act)
    requires var w := Swap(n);
             var m, ev := Swap(ActA(w, act)), EventOf(w, act);
             && SmoothRecv(id, HeldBy(n.b.engine, id), HeldBy(m.b.engine, id), Prompts(n.b.engine, id),
                           Prompts(m.b.engine, id), Of(Step(w.a.engine, ev, act.env).sent, id), ev)
             && HeldBy(n.b.engine, id) == Some(true) && HeldBy(m.b.engine, id) != Some(true)
             && Prompts(n.b.engine, id) == {}
    ensures act.Arrive? && n.ab.q != [] && FrameId(n.ab.q[0]) == Some(id)
  {
    hide Step, Proj, HeldBy, PromptsOf, Of, ActA;
  }

  lemma FilesOne(n: Net, ev: Event, env: Env, id: Id)
    requires NetInv(n) && (ev.Deliver? || Fresh(Swap(n), ev))
    ensures |Step(n.b.engine, ev, env).files| <= 1
  {
    MirrorInv(n);
    ActorMoves(Swap(n), ev, env, id);
    hide NetInv, Step, SendMove, RecvMove;
  }

  lemma DeliveredAtSender(n: Net, act: Act, id: Id)
    requires AcceptedOrDone(n, id) && Deliverable(n, id)
    ensures AcceptedOrDone(ActA(n, act), id)
  {
    hide Step;
  }

  lemma FilesStay(n: Net, left: bool, act: Act, id: Id)
    requires NetInv(n) && Deliverable(n, id)
    ensures Deliverable(ActOn(n, left, act), id)
  {
    hide Step, NetInv;
  }

  lemma {:induction false} StaysDelivered(n: Net, acts: seq<(bool, Act)>, id: Id)
    requires LiveInv(n) && (forall i :: 0 <= i < |acts| ==> SmoothAct(acts[i].1))
    ensures LiveInv(RunNet(n, acts))
    ensures Deliverable(n, id) ==> Deliverable(RunNet(n, acts), id) && RunNet(n, acts).a.files[id] == n.a.files[id]
    ensures Deliverable(n, id) && AcceptedOrDone(n, id) ==> AcceptedOrDone(RunNet(n, acts), id)
    decreases |acts|
  {
    hide LiveInv, ActA, AcceptedOrDone;
    if acts != [] {
      var m := ActOn(n, acts[0].0, acts[0].1);
      SmoothKeeps(n, acts[0].0, acts[0].1);
      if Deliverable(n, id) {
        FilesStay(n, acts[0].0, acts[0].1, id) by { LiveIsNet(n); }
        SameFile(n, acts[0].0, acts[0].1, id) by { LiveIsNet(n); }
        if AcceptedOrDone(n, id) {
          if acts[0].0 { DeliveredAtSender(n, acts[0].1, id); } else { DeliveredAtReceiver(n, acts[0].1, id); }
        }
      }
      StaysDelivered(m, acts[1..], id);
    }
  }

  lemma LiveIsNet(n: Net)
    requires LiveInv(n)
    ensures NetInv(n)
  {
  }

  lemma SameFile(n: Net, left: bool, act: Act, id: Id)
    requires NetInv(n) && id in n.a.files
    ensures id in ActOn(n, left, act).a.files && ActOn(n, left, act).a.files[id] == n.a.files[id]
  {
    hide Step, NetInv;
  }

  lemma NewIsLive(a: Engine, b: Engine)
    requires IsNew(a) && IsNew(b)
    ensures LiveInv(NewNet(a, b))
  {
    NewNetOk(a, b);
    hide NetInv;
  }

  lemma {:induction false} RunInParts(n: Net, s: seq<(bool, Act)>, t: seq<(bool, Act)>)
    ensures RunNet(n, s + t) == RunNet(RunNet(n, s), t)
    decreases |s|
  {
    hide ActOn;
    if s == [] {
      assert s + t == t;
    } else {
      assert (s + t)[0] == s[0] && (s + t)[1..] == s[1..] + t;
      RunInParts(ActOn(n, s[0].0, s[0].1), s[1..], t);
    }
  }

  /** Nothing is under way, and every sender there is waits for its answer: neither end can go on by itself. */
  predicate Quiet(n: Net) {
    && n.ab.q == [] && n.ba.q == []
    && (forall id :: id in n.a.engine.outgoing ==> n.a.engine.outgoing[id].phase.Waiting?)
    && (forall id :: id in n.b.engine.outgoing ==> n.b.engine.outgoing[id].phase.Waiting?)
  }

  /** When everything has come to rest, nobody holds a transfer that is accepted and can be delivered. */
  lemma QuietHoldsNothing(n: Net, id: Id)
    requires LiveInv(n) && Quiet(n) && Deliverable(n, id)
    ensures HeldBy(n.b.engine, id) != Some(true)
  {
    assert Talks(LineOf(n, id), StandOf(n.a.engine, id));
    assert Proj([], id) == [];
    hide NetInv;
  }

  /**
   * Accepted means delivered. In every run in which nothing goes wrong and nobody interferes, with any number of
   * transfers both ways, some accepted and some declined, and any waits, reads and drains: once nothing is under way
   * and no sender can go on, every transfer that was ever accepted and whose stream is as long as declared has been
   * handed over at the far end, exactly as it was sent.
   */
  lemma AcceptedIsDelivered(a: Engine, b: Engine, before: seq<(bool, Act)>, after: seq<(bool, Act)>, id: Id)
    requires IsNew(a) && IsNew(b) && forall i :: 0 <= i < |before + after| ==> SmoothAct((before + after)[i].1)
    requires var n := RunNet(NewNet(a, b), before); Deliverable(n, id) && HeldBy(n.b.engine, id) == Some(true)
    requires Quiet(RunNet(NewNet(a, b), before + after))
    ensures var n := RunNet(NewNet(a, b), before + after);
            id in n.a.files && exists k :: 0 <= k < |n.b.got| && n.b.got[k].id == id
                                           && IsFile(id, n.a.files[id], n.b.got[k])
  {
    var n0 := NewNet(a, b);
    var mid, n := RunNet(n0, before), RunNet(n0, before + after);
    assert forall i :: 0 <= i < |before| ==> (before + after)[i] == before[i];
    assert forall i :: 0 <= i < |after| ==> (before + after)[|before| + i] == after[i];
    hide LiveInv, RunNet, EmittedFor, HeldBy, NewNet, Quiet, IsFile;
    NewIsLive(a, b);
    StaysDelivered(n0, before, id);
    StaysDelivered(mid, after, id);
    RunInParts(n0, before, after);
    QuietHoldsNothing(n, id);
    var k := SomeEmitted(n.b.got, id);
    LiveIsNet(n);
    RightFilesAreSent(n);
  }

  lemma {:induction false} SomeEmitted(got: seq<ReceivedFile>, id: Id) returns (k: nat)
    requires EmittedFor(got, id) != []
    ensures k < |got| && got[k].id == id
  {
    if got[0].id == id {
      k := 0;
    } else {
      var j := SomeEmitted(got[1..], id);
      k := j + 1;
    }
  }
}
