/** Whatever has happened so far in a run in which nobody interferes, an accepted transfer can be brought to its end. */
module TransferRest {
  import opened Common
  import opened ChunkCodec
  import opened Rechunk
  import opened TransferSpec
  import opened ReceiverInvariant
  import opened TransferViews
  import opened TransferTalk
  import opened TransferNet
  import opened TransferLive

  /** An open channel that takes writes and has nothing queued. */
  const CALM := Env(true, true, 0, true)

  /** What the coroutine of a send does next, once its wait is over. */
  function Onward(o: Outgoing, id: Id): Event {
    match o.phase
    case Reading(_) => if o.unread == [] then ReadDone(id) else Read(id, |o.unread|)
    case Draining(_, _, _, parked) => if parked then Drained else SendChunk(id)
    case Sent(_, _) => Continue(id)
    case _ => Resume(id)
  }

  /** How much it has still to do: by the byte, with the waits between. */
  function Effort(o: Outgoing): nat {
    8 * (|Pend(o.phase)| + |o.unread|)
    + match o.phase
      case Waiting => 20
      case Answered(_) => 16
      case Sent(_, _) => 6
      case Reading(_) => if o.unread == [] then 4 else 5
      case Draining(_, _, _, parked) => if parked then 3 else 2
  }

  function EffortOf(e: Engine, id: Id): nat { if id in e.outgoing then Effort(e.outgoing[id]) + 1 else 0 }

  lemma ReadEffort(e: Engine, id: Id)
    requires id in e.outgoing && e.outgoing[id].phase.Reading?
    ensures EffortOf(Step(e, Onward(e.outgoing[id], id), CALM).engine, id) < EffortOf(e, id)
  {
    var o := e.outgoing[id];
    assert o.unread[..|o.unread|] == o.unread;
    hide Finalise;
  }

  lemma ChunkEffort(e: Engine, id: Id)
    requires id in e.outgoing && e.outgoing[id].phase.Draining? && OutOk(e.outgoing[id]) && ValidId(id)
    ensures EffortOf(Step(e, Onward(e.outgoing[id], id), CALM).engine, id) < EffortOf(e, id)
  {
    hide Finalise, ChunkCodec.Encode, ChunkCodec.ValidId;
  }

  lemma RestEffort(e: Engine, id: Id)
    requires id in e.outgoing && (e.outgoing[id].phase.Answered? || e.outgoing[id].phase.Sent?)
    ensures EffortOf(Step(e, Onward(e.outgoing[id], id), CALM).engine, id) < EffortOf(e, id)
  {
    hide Finalise;
  }

  /** Once answered, a send always has a next step, and each uses up some of what is left. */
  lemma SenderGoesOn(e: Engine, id: Id)
    requires id in e.outgoing && !e.outgoing[id].phase.Waiting? && SenderInv(e) && ValidId(id)
    ensures EffortOf(Step(e, Onward(e.outgoing[id], id), CALM).engine, id) < EffortOf(e, id)
    ensures Smooth(Onward(e.outgoing[id], id)) && !Onward(e.outgoing[id], id).Deliver?
    ensures !Onward(e.outgoing[id], id).SendFile?
  {
    if e.outgoing[id].phase.Reading? {
      ReadEffort(e, id);
    } else if e.outgoing[id].phase.Draining? {
      ChunkEffort(e, id);
    } else {
      RestEffort(e, id);
    }
    hide Step, EffortOf, ChunkCodec.ValidId;
  }

  /** A frame that comes in gives a send no more to do. */
  lemma HearingIsFree(e: Engine, f: Frame, id: Id)
    ensures EffortOf(Step(e, Deliver(f), CALM).engine, id) <= EffortOf(e, id)
  {
    hide ChunkCodec.Decode, OrDefaultMime, Finalise, Flatten;
    if !e.disposed { match f case _ => }
  }

  // -- the two ends -------------------------------------------------------------------------------------------

  predicate Asked(n: Net, id: Id) { id in n.a.engine.outgoing && n.a.engine.outgoing[id].phase.Waiting? }

  /** What is next for a transfer from the left: its answer, its sender's next step, what it has sent. */
  function NextAct(n: Net, id: Id): (bool, Act) {
    if id !in n.a.engine.outgoing then (false, Arrive(CALM))
    else if Asked(n, id) then (true, Arrive(CALM))
    else (true, Local(Onward(n.a.engine.outgoing[id], id), CALM))
  }

  function ToHear(n: Net, id: Id): nat { if Asked(n, id) then |n.ba.q| else 0 }

  predicate Closer(n: Net, m: Net, id: Id) {
    || EffortOf(m.a.engine, id) < EffortOf(n.a.engine, id)
    || (EffortOf(m.a.engine, id) == EffortOf(n.a.engine, id) && ToHear(m, id) < ToHear(n, id))
    || (EffortOf(m.a.engine, id) == EffortOf(n.a.engine, id) && ToHear(m, id) == ToHear(n, id) && |m.ab.q| < |n.ab.q|)
  }

  lemma NextIsThere(n: Net, id: Id)
    requires LiveInv(n) && Deliverable(n, id) && HeldBy(n.b.engine, id) == Some(true)
    ensures Asked(n, id) ==> n.ba.q != []
    ensures id !in n.a.engine.outgoing ==> n.ab.q != []
    ensures SenderInv(n.a.engine) && ValidId(id)
  {
    assert Talks(LineOf(n, id), StandOf(n.a.engine, id));
    assert Proj([], id) == [];
    hide ChunkCodec.ValidId;
  }

  lemma NextIsCloser(n: Net, id: Id)
    requires LiveInv(n) && Deliverable(n, id) && HeldBy(n.b.engine, id) == Some(true)
    ensures var (left, act) := NextAct(n, id); SmoothAct(act) && Closer(n, ActOn(n, left, act), id)
  {
    NextIsThere(n, id);
    hide LiveInv, Deliverable, HeldBy, Effort, Step;
    if id !in n.a.engine.outgoing {
    } else if Asked(n, id) {
      HearingIsFree(n.a.engine, n.ba.q[0], id);
    } else {
      SenderGoesOn(n.a.engine, id);
    }
  }

  /** So the acts that are next, one after the other, bring the transfer home. */
  lemma {:induction false} HomeIsInReach(n: Net, id: Id) returns (rest: seq<(bool, Act)>)
    requires LiveInv(n) && Deliverable(n, id) && AcceptedOrDone(n, id)
    ensures forall i :: 0 <= i < |rest| ==> SmoothAct(rest[i].1)
    ensures EmittedFor(RunNet(n, rest).b.got, id) != []
    decreases EffortOf(n.a.engine, id), ToHear(n, id), |n.ab.q|
  {
    if HeldBy(n.b.engine, id) != Some(true) {
      rest := [];
    } else {
      NextIsCloser(n, id);
      var next := NextAct(n, id);
      var m := ActOn(n, next.0, next.1);
      assert RunNet(n, [next]) == m by { assert [next][1..] == []; hide ActOn; }
      StaysDelivered(n, [next], id);
      hide LiveInv, Deliverable, AcceptedOrDone, NextAct, ActOn, EffortOf, ToHear, EmittedFor, SmoothAct;
      var later := HomeIsInReach(m, id);
      rest := [next] + later;
      RunInParts(n, [next], later);
      hide RunNet;
    }
  }

  /**
   * In every run in which nothing goes wrong and nobody interferes, wherever it stands: a transfer that has been
   * accepted, and whose stream is as long as declared, can be brought home by steps in which nothing goes wrong
   * either, and what is then handed over at the far end is what was sent.
   */
  lemma DeliveryIsInReach(a: Engine, b: Engine, before: seq<(bool, Act)>, id: Id) returns (rest: seq<(bool, Act)>)
    requires IsNew(a) && IsNew(b) && forall i :: 0 <= i < |before| ==> SmoothAct(before[i].1)
    requires var n := RunNet(NewNet(a, b), before); Deliverable(n, id) && HeldBy(n.b.engine, id) == Some(true)
    ensures forall i :: 0 <= i < |rest| ==> SmoothAct(rest[i].1)
    ensures var n := RunNet(NewNet(a, b), before + rest);
            id in n.a.files && exists k :: 0 <= k < |n.b.got| && n.b.got[k].id == id
                                           && IsFile(id, n.a.files[id], n.b.got[k])
  {
    hide LiveInv, RunNet, EmittedFor, HeldBy, NewNet, IsFile, SmoothAct;
    var n0 := NewNet(a, b);
    NewIsLive(a, b);
    StaysDelivered(n0, before, id);
    var mid := RunNet(n0, before);
    rest := HomeIsInReach(mid, id);
    StaysDelivered(mid, rest, id);
    RunInParts(n0, before, rest);
    var n := RunNet(n0, before + rest);
    var k := SomeEmitted(n.b.got, id);
    LiveIsNet(n);
    RightFilesAreSent(n);
  }
}
