/**
 * What settling has to do for the calls it ends: with it, every step of the machine of calls is a step of the engine
 * that has no such calls, or none at all.
 */
module CallRefinement {
  import opened Common
  import opened ChunkCodec
  import opened Rechunk
  import opened TransferSpec
  import opened SendCalls

  // -- what every step keeps -------------------------------------------------------------------

  /** A call whose transfer is settled: told to stop and not waiting for anything that may not come. */
  predicate Dismissed(c: Call) {
    c.filed && (c.returned || (c.aborted && !c.phase.Waiting? && !(c.phase.Draining? && c.phase.parked)))
  }

  predicate CallOk(m: Machine, s: nat)
    requires s in m.calls
  {
    var c := m.calls[s];
    && s < m.base.next && c.rec.serial == s && c.rec.id == c.id
    && if IsLive(m, s) then !c.aborted && !c.filed && !c.returned else Dismissed(c)
  }

  ghost predicate Inv(m: Machine) {
    && m.base.outgoing == map[]
    && (forall s :: s in m.calls ==> CallOk(m, s))
    && (forall id :: id in m.live ==> m.live[id] in m.calls && m.calls[m.live[id]].id == id)
  }

  /** The machine's step does to the engine seen from outside what the engine's own step does. */
  predicate Refines(n: Out2, r: Out) {
    Abs(n.m) == r.engine && n.sent == r.sent && n.files == r.files
  }

  // -- small changes ------------------------------------------------------------------------------

  lemma LiveCallSeen(m: Machine, s: nat)
    requires Inv(m) && IsLive(m, s)
    ensures var id := m.calls[s].id;
            id in Abs(m).outgoing && Abs(m).outgoing[id] == OutgoingOf(m.calls[s]) && id in m.live && m.live[id] == s
  {
  }

  lemma LiveSetSeen(m: Machine, s: nat, c: Call)
    requires Inv(m) && IsLive(m, s) && c.id == m.calls[s].id
    ensures LiveOutgoing(m.live, m.calls[s := c]) == LiveOutgoing(m.live, m.calls)[c.id := OutgoingOf(c)]
  {
    hide CallOk;
  }

  lemma DeadSetSeen(m: Machine, s: nat, c: Call)
    requires Inv(m) && s in m.calls && !IsLive(m, s) && c.id == m.calls[s].id
    ensures LiveOutgoing(m.live, m.calls[s := c]) == LiveOutgoing(m.live, m.calls)
  {
    hide CallOk;
  }

  lemma LiveRemovedSeen(m: Machine, s: nat, c: Call)
    requires Inv(m) && IsLive(m, s) && c.id == m.calls[s].id
    ensures LiveOutgoing(m.live - {c.id}, m.calls[s := c]) == LiveOutgoing(m.live, m.calls) - {c.id}
  {
    hide CallOk;
  }

  /** A call changed without settling it, and the rest of the machine as it was. */
  lemma SetCallKeeps(m: Machine, s: nat, c: Call)
    requires Inv(m) && s in m.calls && c.id == m.calls[s].id && c.rec.serial == s && c.rec.id == c.id
    requires if IsLive(m, s) then !c.aborted && !c.filed && !c.returned else Dismissed(c)
    ensures Inv(SetCall(m, s, c))
    ensures IsLive(SetCall(m, s, c), s) == IsLive(m, s)
  {
    var n := SetCall(m, s, c);
    forall t | t in n.calls ensures CallOk(n, t) {
      assert CallOk(m, t) && (IsLive(n, t) <==> IsLive(m, t));
    }
  }

  lemma SettleKeeps(m: Machine, s: nat, status: Status, reason: Option<Reason>)
    requires Inv(m) && IsLive(m, s) && status.Terminal() && status != Complete
    ensures Inv(Settle(m, s, status, reason)) && !IsLive(Settle(m, s, status, reason), s)
    ensures Abs(Settle(m, s, status, reason)) == SettleOutgoing(Abs(m), m.calls[s].id, status, reason)
    ensures Settle(m, s, status, reason).calls[s] == SettledCall(m.calls[s], status, reason)
  {
    var c := m.calls[s];
    var c1 := SettledCall(c, status, reason);
    var n := Settle(m, s, status, reason);
    LiveRemovedSeen(m, s, c1);
    LiveCallSeen(m, s);
    assert CallOk(m, s);
    forall t | t in n.calls ensures CallOk(n, t) {
      assert CallOk(m, t);
      if t != s { assert IsLive(n, t) <==> IsLive(m, t); }
    }
    hide LiveOutgoing, Inv;
  }

  /** Settling followed by the call's own return. */
  lemma SettleReturnKeeps(m: Machine, s: nat, status: Status, reason: Option<Reason>)
    requires Inv(m) && IsLive(m, s)
    ensures Inv(Return(Settle(m, s, status, reason), s))
    ensures Abs(Return(Settle(m, s, status, reason), s)) == SettleOutgoing(Abs(m), m.calls[s].id, status, reason)
  {
    var c1 := SettledCall(m.calls[s], status, reason).(returned := true);
    var n := Return(Settle(m, s, status, reason), s);
    assert n.calls == m.calls[s := c1];
    LiveRemovedSeen(m, s, c1);
    LiveCallSeen(m, s);
    assert CallOk(m, s);
    forall t | t in n.calls ensures CallOk(n, t) {
      assert CallOk(m, t);
      if t != s { assert IsLive(n, t) <==> IsLive(m, t); }
    }
    hide LiveOutgoing, Inv;
  }

  // -- a live call's steps are the engine's ---------------------------------------------------------

  predicate Mirrors(m: Machine, n: (Machine, seq<Frame>), r: Out) {
    Abs(n.0) == r.engine && n.1 == r.sent && r.files == []
  }

  lemma SetPhaseMirrors(m: Machine, s: nat, phase: Phase)
    requires Inv(m) && IsLive(m, s)
    ensures Inv(SetPhase(m, s, phase)) && IsLive(SetPhase(m, s, phase), s)
    ensures var id := m.calls[s].id;
            id in Abs(m).outgoing
            && Abs(SetPhase(m, s, phase)) == Abs(m).(outgoing :=
                Abs(m).outgoing[id := Abs(m).outgoing[id].(phase := phase)])
  {
    var c := m.calls[s].(phase := phase);
    assert CallOk(m, s);
    SetCallKeeps(m, s, c);
    LiveSetSeen(m, s, c);
    LiveCallSeen(m, s);
    hide LiveOutgoing, Inv;
  }

  lemma LiveTimeout(m: Machine, s: nat, env: Env)
    requires Inv(m) && IsLive(m, s)
    ensures Inv(CallStep(m, s, Timeout, env).0)
    ensures Mirrors(m, CallStep(m, s, Timeout, env), StepAcceptAnswer(Abs(m), m.calls[s].id, false))
  {
    LiveCallSeen(m, s);
    assert CallOk(m, s);
    SetPhaseMirrors(m, s, Answered(false));
    hide LiveOutgoing, Inv, SetPhase;
  }

  lemma SetRecordMirrors(m: Machine, s: nat, rec: Record)
    requires Inv(m) && IsLive(m, s) && rec.serial == s && rec.id == m.calls[s].id
    ensures var n := SetRecord(m, s, rec); Inv(n) && IsLive(n, s) && n.calls[s] == m.calls[s].(rec := rec)
    ensures var id := m.calls[s].id;
            id in Abs(m).outgoing
            && Abs(SetRecord(m, s, rec)) == Abs(m).(outgoing := Abs(m).outgoing[id := Abs(m).outgoing[id].(rec := rec)])
  {
    var c := m.calls[s].(rec := rec);
    assert CallOk(m, s);
    assert SetRecord(m, s, rec) == SetCall(m, s, c);
    SetCallKeeps(m, s, c);
    LiveSetSeen(m, s, c);
    LiveCallSeen(m, s);
    hide LiveOutgoing, Inv;
  }

  lemma RecordPhaseMirrors(m: Machine, s: nat, rec: Record, phase: Phase)
    requires Inv(m) && IsLive(m, s) && rec.serial == s && rec.id == m.calls[s].id
    ensures var n := SetPhase(SetRecord(m, s, rec), s, phase);
            var id := m.calls[s].id;
            && Inv(n) && id in Abs(m).outgoing
            && Abs(n) == Abs(m).(outgoing := Abs(m).outgoing[id := Abs(m).outgoing[id].(rec := rec, phase := phase)])
  {
    SetRecordMirrors(m, s, rec);
    SetPhaseMirrors(SetRecord(m, s, rec), s, phase);
    hide LiveOutgoing, Inv, SetPhase, SetRecord;
  }

  lemma LiveResume(m: Machine, s: nat, env: Env)
    requires Inv(m) && IsLive(m, s)
    ensures Inv(CallStep(m, s, Wake.Resume, env).0)
    ensures Mirrors(m, CallStep(m, s, Wake.Resume, env), StepResume(Abs(m), m.calls[s].id))
  {
    var c := m.calls[s];
    LiveCallSeen(m, s);
    assert CallOk(m, s);
    hide LiveOutgoing, Inv, SetPhase, SetRecord, Settle, Return, SettleOutgoing;
    if c.phase.Answered? {
      RecordPhaseMirrors(m, s, c.rec.(status := Active), Reading([]));
      SettleReturnKeeps(m, s, Cancelled, Some(Declined));
    }
  }

  /** Cutting, for a live call, is the cut of the engine. */
  lemma CutMirrors(m: Machine, s: nat, view: seq<byte>, env: Env)
    requires Inv(m) && IsLive(m, s)
    ensures CutOrRead(m, s, view, env) == SetPhase(m, s, Cut(view, env))
  {
    assert CallOk(m, s);
    hide SetPhase, Inv;
  }

  lemma LiveRead(m: Machine, s: nat, count: nat, env: Env)
    requires Inv(m) && IsLive(m, s)
    ensures Inv(CallStep(m, s, Wake.Read(count), env).0)
    ensures Mirrors(m, CallStep(m, s, Wake.Read(count), env), StepRead(Abs(m), m.calls[s].id, count, env))
  {
    var c := m.calls[s];
    LiveCallSeen(m, s);
    assert CallOk(m, s);
    if c.phase.Reading? && count <= |c.unread| {
      var c1 := c.(unread := c.unread[count..]);
      var m1 := SetCall(m, s, c1);
      SetCallKeeps(m, s, c1);
      LiveSetSeen(m, s, c1);
      CutMirrors(m1, s, c.phase.carry + c.unread[..count], env);
      SetPhaseMirrors(m1, s, Cut(c.phase.carry + c.unread[..count], env));
    }
    hide LiveOutgoing, Inv, SetPhase, CutOrRead, Cut;
  }

  lemma FinishMirrors(m: Machine, s: nat, env: Env)
    requires Inv(m) && IsLive(m, s)
    ensures Inv(FinishCall(m, s, env).0)
    ensures Mirrors(m, FinishCall(m, s, env), Finish(Abs(m), m.calls[s].id, env))
  {
    assert CallOk(m, s);
    SettleReturnKeeps(m, s, Complete, None);
    hide LiveOutgoing, Inv, Settle, Return, SettleOutgoing;
  }

  lemma LiveReadDone(m: Machine, s: nat, env: Env)
    requires Inv(m) && IsLive(m, s)
    ensures Inv(CallStep(m, s, Wake.ReadDone, env).0)
    ensures Mirrors(m, CallStep(m, s, Wake.ReadDone, env), StepReadDone(Abs(m), m.calls[s].id, env))
  {
    var c := m.calls[s];
    LiveCallSeen(m, s);
    assert CallOk(m, s);
    if c.phase.Reading? && c.unread == [] {
      FinishMirrors(m, s, env);
      SetPhaseMirrors(m, s, Draining(c.phase.carry, [], true, env.buffered > HIGH_WATER));
    }
    hide LiveOutgoing, Inv, SetPhase, FinishCall, Finish;
  }

  lemma LiveReadFail(m: Machine, s: nat, env: Env)
    requires Inv(m) && IsLive(m, s)
    ensures Inv(CallStep(m, s, Wake.ReadFail, env).0)
    ensures Mirrors(m, CallStep(m, s, Wake.ReadFail, env), StepReadFail(Abs(m), m.calls[s].id))
  {
    LiveCallSeen(m, s);
    assert CallOk(m, s);
    assert ThrowCall(m, s) == Return(Settle(m, s, Failed, Some(Error)), s);
    hide LiveOutgoing, Inv, Settle, Return, SettleOutgoing, ThrowCall;
    if m.calls[s].phase.Reading? { SettleReturnKeeps(m, s, Failed, Some(Error)); }
  }

  lemma FailedChunk(m: Machine, s: nat, rest: seq<byte>, last: bool)
    requires Inv(m) && IsLive(m, s)
    ensures var n := SetPhase(Settle(m, s, Failed, Some(Error)), s, TransferSpec.Sent(rest, last));
            Inv(n) && Abs(n) == SettleOutgoing(Abs(m), m.calls[s].id, Failed, Some(Error))
  {
    var m1 := Settle(m, s, Failed, Some(Error));
    SettleKeeps(m, s, Failed, Some(Error));
    var c := m1.calls[s].(phase := TransferSpec.Sent(rest, last));
    assert CallOk(m, s) && CallOk(m1, s);
    SetCallKeeps(m1, s, c);
    DeadSetSeen(m1, s, c);
    hide LiveOutgoing, Inv, Settle, SettleOutgoing;
  }

  lemma ChunkNotSent(m: Machine, s: nat, p: Phase, env: Env)
    requires Inv(m) && IsLive(m, s) && p.Draining? && !(env.open && ValidId(m.calls[s].id) && env.ok)
    ensures var n := SendChunkCall(m, s, p.chunk, p.rest, p.last, env);
            Inv(n.0) && Abs(n.0) == SettleOutgoing(Abs(m), m.calls[s].id, Failed, Some(Error)) && n.1 == []
  {
    assert CallOk(m, s);
    FailedChunk(m, s, p.rest, p.last);
    SettleReturnKeeps(m, s, Failed, Some(Error));
    hide LiveOutgoing, Inv, SetPhase, SetRecord, Settle, Return, SettleOutgoing, ValidId;
  }

  lemma ChunkSent(m: Machine, s: nat, p: Phase, env: Env)
    requires Inv(m) && IsLive(m, s) && p.Draining? && env.open && ValidId(m.calls[s].id) && env.ok
    ensures var n := SendChunkCall(m, s, p.chunk, p.rest, p.last, env);
            var id := m.calls[s].id;
            var rec := m.calls[s].rec.(bytes := m.calls[s].rec.bytes + |p.chunk|);
            && Inv(n.0) && n.1 == [BinaryFrame(Encode(id, p.chunk))] && id in Abs(m).outgoing
            && Abs(n.0) == Abs(m).(outgoing :=
                 Abs(m).outgoing[id := Abs(m).outgoing[id].(rec := rec, phase := TransferSpec.Sent(p.rest, p.last))])
  {
    assert CallOk(m, s);
    var c := m.calls[s];
    var rec := c.rec.(bytes := c.rec.bytes + |p.chunk|);
    hide LiveOutgoing, Inv, SetPhase, SetRecord, ValidId, ChunkCodec.Encode, Settle, Return;
    assert SendChunkCall(m, s, p.chunk, p.rest, p.last, env) ==
      (SetPhase(SetRecord(m, s, rec), s, TransferSpec.Sent(p.rest, p.last)), [BinaryFrame(Encode(c.id, p.chunk))]);
    hide SendChunkCall;
    RecordPhaseMirrors(m, s, rec, TransferSpec.Sent(p.rest, p.last));
  }

  lemma ChunkMirrors(m: Machine, s: nat, env: Env)
    requires Inv(m) && IsLive(m, s) && m.calls[s].phase.Draining? && !m.calls[s].phase.parked
    ensures var p := m.calls[s].phase;
            var n := SendChunkCall(m, s, p.chunk, p.rest, p.last, env);
            Inv(n.0) && Mirrors(m, n, StepSendChunk(Abs(m), m.calls[s].id, env))
  {
    var c := m.calls[s];
    LiveCallSeen(m, s);
    hide LiveOutgoing, Inv, SendChunkCall, SettleOutgoing, ValidId, ChunkCodec.Encode;
    if env.open && ValidId(c.id) && env.ok {
      ChunkSent(m, s, c.phase, env);
    } else {
      ChunkNotSent(m, s, c.phase, env);
    }
  }

  /** A call with no chunk in hand, or parked with it, sends none. */
  lemma ChunkDue(m: Machine, s: nat, env: Env)
    requires s in m.calls && !m.calls[s].returned
    ensures CallStep(m, s, Wake.SendChunk, env)
            == var p := m.calls[s].phase;
               if p.Draining? && !p.parked then SendChunkCall(m, s, p.chunk, p.rest, p.last, env) else (m, [])
  {
    hide SendChunkCall;
  }

  lemma LiveSendChunk(m: Machine, s: nat, env: Env)
    requires Inv(m) && IsLive(m, s)
    ensures Inv(CallStep(m, s, Wake.SendChunk, env).0)
    ensures Mirrors(m, CallStep(m, s, Wake.SendChunk, env), StepSendChunk(Abs(m), m.calls[s].id, env))
  {
    LiveCallSeen(m, s);
    assert CallOk(m, s);
    ChunkDue(m, s, env);
    hide LiveOutgoing, Inv, SendChunkCall, CallStep, SettleOutgoing, Encode, ValidId;
    if m.calls[s].phase.Draining? && !m.calls[s].phase.parked {
      ChunkMirrors(m, s, env);
    }
  }

  lemma LiveContinue(m: Machine, s: nat, env: Env)
    requires Inv(m) && IsLive(m, s)
    ensures Inv(CallStep(m, s, Wake.Continue, env).0)
    ensures Mirrors(m, CallStep(m, s, Wake.Continue, env), StepContinue(Abs(m), m.calls[s].id, env))
  {
    var c := m.calls[s];
    LiveCallSeen(m, s);
    assert CallOk(m, s);
    if c.phase.Sent? {
      FinishMirrors(m, s, env);
      CutMirrors(m, s, c.phase.rest, env);
      SetPhaseMirrors(m, s, Cut(c.phase.rest, env));
    }
    hide LiveOutgoing, Inv, SetPhase, CutOrRead, Cut, FinishCall, Finish;
  }

  /** The engine's name for what a live call does. */
  function EventOf(id: Id, w: Wake): Event {
    match w
    case Timeout => AcceptTimeout(id)
    case Resume => Event.Resume(id)
    case Read(count) => Event.Read(id, count)
    case ReadDone => Event.ReadDone(id)
    case ReadFail => Event.ReadFail(id)
    case SendChunk => Event.SendChunk(id)
    case Continue => Event.Continue(id)
  }

  lemma LiveCallMirrors(m: Machine, s: nat, w: Wake, env: Env)
    requires Inv(m) && IsLive(m, s)
    ensures Inv(CallStep(m, s, w, env).0)
    ensures Mirrors(m, CallStep(m, s, w, env), Step(Abs(m), EventOf(m.calls[s].id, w), env))
  {
    match w
    case Timeout => LiveTimeout(m, s, env); hide Inv, CallStep, StepAcceptAnswer;
    case Resume => LiveResume(m, s, env); hide Inv, CallStep, StepResume;
    case Read(count) => LiveRead(m, s, count, env); hide Inv, CallStep, StepRead;
    case ReadDone => LiveReadDone(m, s, env); hide Inv, CallStep, StepReadDone;
    case ReadFail => LiveReadFail(m, s, env); hide Inv, CallStep, StepReadFail;
    case SendChunk => LiveSendChunk(m, s, env); hide Inv, CallStep, StepSendChunk;
    case Continue => LiveContinue(m, s, env); hide Inv, CallStep, StepContinue;
  }

  // -- a settled call's steps are nobody's --------------------------------------------------------------

  /** How many awaits a settled call may still have to go through. */
  function Awaits(c: Call): nat {
    if c.returned then 0
    else match c.phase
      case Waiting => 4
      case Answered(_) => 1
      case Reading(_) => 3
      case Draining(_, _, _, _) => 2
      case Sent(_, _) => 1
  }

  /** A settled call that goes on sends nothing, changes nothing anyone sees, and comes nearer its end. */
  lemma SettledCallStep(m: Machine, s: nat, w: Wake, env: Env)
    requires Inv(m) && s in m.calls && !IsLive(m, s)
    ensures var n := CallStep(m, s, w, env);
            && Inv(n.0) && Abs(n.0) == Abs(m) && n.1 == [] && s in n.0.calls && !IsLive(n.0, s)
            && (Ready(m.calls[s], w) ==> Awaits(n.0.calls[s]) < Awaits(m.calls[s]))
  {
    assert CallOk(m, s);
    if Ready(m.calls[s], w) {
      var n := CallStep(m, s, w, env);
      var c := n.0.calls[s];
      SettledCallTurn(m, s, w, env);
      SetCallKeeps(m, s, c);
      DeadSetSeen(m, s, c);
      hide LiveOutgoing, Inv, CallStep, Ready, Awaits;
    }
  }

  lemma SettledCallTurn(m: Machine, s: nat, w: Wake, env: Env)
    requires s in m.calls && Dismissed(m.calls[s]) && Ready(m.calls[s], w)
    ensures var (n, sent) := CallStep(m, s, w, env);
            && s in n.calls && n == SetCall(m, s, n.calls[s]) && sent == []
            && Dismissed(n.calls[s]) && Awaits(n.calls[s]) < Awaits(m.calls[s])
            && n.calls[s].id == m.calls[s].id && n.calls[s].rec == m.calls[s].rec
  {
    hide Settle, SetRecord;
    match w
    case Read(count) => SettledRead(m, s, count, env); hide ReadCall;
    case _ =>
  }

  lemma SettledRead(m: Machine, s: nat, count: nat, env: Env)
    requires s in m.calls && Dismissed(m.calls[s]) && Ready(m.calls[s], Wake.Read(count))
    ensures var n := ReadCall(m, s, m.calls[s].phase.carry, count, env);
            && s in n.calls && n == SetCall(m, s, n.calls[s])
            && Dismissed(n.calls[s]) && Awaits(n.calls[s]) < Awaits(m.calls[s])
            && n.calls[s].id == m.calls[s].id && n.calls[s].rec == m.calls[s].rec
  {
  }

  /** And it is never stuck: whatever it stands at can resolve, given that a read of its stream does. */
  lemma SettledCallGoesOn(m: Machine, s: nat)
    requires Inv(m) && s in m.calls && !IsLive(m, s) && !m.calls[s].returned
    ensures Awaits(m.calls[s]) <= 3
    ensures exists w :: Ready(m.calls[s], w)
  {
    assert CallOk(m, s);
    var c := m.calls[s];
    match c.phase
    case Answered(_) => assert Ready(c, Wake.Resume);
    case Reading(_) => assert Ready(c, Wake.ReadFail);
    case Draining(_, _, _, _) => assert Ready(c, Wake.SendChunk);
    case Sent(_, _) => assert Ready(c, Wake.Continue);
  }

  // -- what comes from outside ----------------------------------------------------------------------------

  /** A step that leaves the sending half's map alone. */
  lemma RebasedRefines(m: Machine, r: Out)
    requires Inv(m) && r.engine.outgoing == Abs(m).outgoing && m.base.next <= r.engine.next
    ensures Inv(Rebased(m, r).m) && Refines(Rebased(m, r), r)
  {
    var n := Rebased(m, r).m;
    forall t | t in n.calls ensures CallOk(n, t) { assert CallOk(m, t) && (IsLive(n, t) <==> IsLive(m, t)); }
    hide LiveOutgoing;
  }

  lemma SameKeys(m: Machine, id: Id)
    requires Inv(m)
    ensures id in Abs(m).outgoing <==> id in m.live && m.live[id] in m.calls
    ensures id in m.live ==> IsLive(m, m.live[id]) && m.calls[m.live[id]].id == id
  {
    hide CallOk;
  }

  /** The machine with a new call in it. */
  function Born(m: Machine, c: Call): Machine {
    Machine(m.base.(next := m.base.next + 1), m.live[c.id := m.base.next], m.calls[m.base.next := c])
  }

  lemma StartRefines(m: Machine, id: Id, file: File, env: Env)
    requires Inv(m) && id !in m.live
    ensures Inv(StartCall(m, id, file, env).0)
    ensures Mirrors(m, StartCall(m, id, file, env), StepSendFile(Abs(m), id, file, env))
  {
    var s := m.base.next;
    var rec := Record(s, id, Send, file.name, OrDefaultMime(file.mime), file.size, 0, Pending, None, 0);
    var c := Call(id, rec, file, file.content, Waiting, false, false, false);
    BornKeeps(m, c);
    BornSeen(m, c);
    SettleReturnKeeps(Born(m, c), s, Failed, Some(Error));
    assert StartCall(m, id, file, env) ==
      if env.open && env.ok then (Born(m, c), [StartFrame(id, rec.name, rec.mime, rec.size)])
      else (Return(Settle(Born(m, c), s, Failed, Some(Error)), s), []);
    hide StartCall, LiveOutgoing, Inv, Settle, Return, SettleOutgoing, OrDefaultMime, Born, Abs;
  }

  lemma BornKeeps(m: Machine, c: Call)
    requires Inv(m) && c.id !in m.live && c.rec.serial == m.base.next && c.rec.id == c.id
    requires !c.aborted && !c.filed && !c.returned
    ensures Inv(Born(m, c)) && IsLive(Born(m, c), m.base.next) && Born(m, c).calls[m.base.next] == c
  {
    var n := Born(m, c);
    forall t | t in n.calls ensures CallOk(n, t) { BornCallOk(m, c, t); }
    hide CallOk;
  }

  lemma BornCallOk(m: Machine, c: Call, t: nat)
    requires Inv(m) && c.id !in m.live && c.rec.serial == m.base.next && c.rec.id == c.id
    requires !c.aborted && !c.filed && !c.returned
    requires t in Born(m, c).calls
    ensures CallOk(Born(m, c), t)
  {
    if t != m.base.next {
      assert CallOk(m, t);
      assert IsLive(Born(m, c), t) <==> IsLive(m, t);
    }
    hide Dismissed;
  }

  lemma BornSeen(m: Machine, c: Call)
    requires Inv(m) && c.id !in m.live
    ensures Abs(Born(m, c)) == Abs(m).(outgoing := Abs(m).outgoing[c.id := OutgoingOf(c)], next := m.base.next + 1)
  {
    var n := Born(m, c);
    forall id | id in m.live ensures m.live[id] in m.calls && m.live[id] != m.base.next {
      assert CallOk(m, m.live[id]);
    }
    assert LiveOutgoing(n.live, n.calls) == LiveOutgoing(m.live, m.calls)[c.id := OutgoingOf(c)] by { hide CallOk; }
    hide LiveOutgoing, Inv;
  }

  lemma UnparkRefines(m: Machine)
    requires Inv(m)
    ensures Inv(UnparkCalls(m)) && Abs(UnparkCalls(m)) == UnparkAll(Abs(m))
    ensures forall s :: s in UnparkCalls(m).calls ==> !UnparkCalls(m).calls[s].Parked()
  {
    var n := UnparkCalls(m);
    forall t | t in n.calls ensures CallOk(n, t) { assert CallOk(m, t) && (IsLive(n, t) <==> IsLive(m, t)); }
    UnparkSeen(m);
  }

  lemma UnparkSeen(m: Machine)
    requires Inv(m)
    ensures LiveOutgoing(m.live, UnparkCalls(m).calls) == UnparkAll(Abs(m)).outgoing
  {
    hide CallOk;
  }

  lemma TeardownSeen(m: Machine, status: Status, reason: Option<Reason>)
    requires Inv(m)
    ensures Abs(SettleEverything(m, status, reason)) == SettleAll(Abs(m), status, reason)
  {
    NobodySeen(SettledCalls(m.live, m.calls, status, reason));
    hide SettledOutgoing, SettledIncoming, SettledCalls, LiveOutgoing, CallOk;
  }

  lemma NobodySeen(calls: map<nat, Call>)
    ensures LiveOutgoing(map[], calls) == map[]
  {
  }

  lemma TeardownKeeps(m: Machine, status: Status, reason: Option<Reason>)
    requires Inv(m) && status.Terminal() && status != Complete
    ensures Inv(SettleEverything(m, status, reason))
  {
    var n := SettleEverything(m, status, reason);
    hide SettledOutgoing, SettledIncoming, SettledCall, CallOk;
    forall t | t in n.calls ensures CallOk(n, t) { TeardownCallOk(m, status, reason, t); }
  }

  lemma SettledIsDismissed(c: Call, status: Status, reason: Option<Reason>)
    requires status != Complete
    ensures var d := SettledCall(c, status, reason);
            Dismissed(d) && d.id == c.id && d.rec.serial == c.rec.serial && d.rec.id == c.rec.id
  {
  }

  lemma TeardownCallOk(m: Machine, status: Status, reason: Option<Reason>, t: nat)
    requires Inv(m) && status.Terminal() && status != Complete && t in m.calls
    ensures CallOk(SettleEverything(m, status, reason), t)
  {
    assert CallOk(m, t);
    SettledIsDismissed(m.calls[t], status, reason);
    hide SettledOutgoing, SettledIncoming, LiveOutgoing, SettledCall, Dismissed, Inv;
  }

  lemma CancelRefines(m: Machine, id: Id, reason: Reason, env: Env)
    requires Inv(m)
    ensures Inv(CancelCall(m, id, reason, env).m)
        && Refines(CancelCall(m, id, reason, env), StepCancelLocal(Abs(m), id, reason, env))
  {
    SameKeys(m, id);
    if id in m.live {
      SettleKeeps(m, m.live[id], Cancelled, Some(reason));
    } else {
      RebasedRefines(m, StepCancelLocal(Abs(m), id, reason, env));
    }
    hide Inv, LiveOutgoing, Settle, Finalise;
  }

  lemma AcceptRefines(m: Machine, id: Id, accept: bool, env: Env)
    requires Inv(m) && !m.base.disposed
    ensures var f := AcceptFrame(id, accept);
            Inv(DeliverStep(m, f, env).m) && Refines(DeliverStep(m, f, env), StepDeliver(Abs(m), f, env))
  {
    SameKeys(m, id);
    if id in m.live {
      LiveCallSeen(m, m.live[id]);
      SetPhaseMirrors(m, m.live[id], Answered(accept));
    }
    hide Inv, LiveOutgoing, SetPhase;
  }

  lemma AckRefines(m: Machine, id: Id, bytes: int, env: Env)
    requires Inv(m) && !m.base.disposed
    ensures var f := AckFrame(id, bytes);
            Inv(DeliverStep(m, f, env).m) && Refines(DeliverStep(m, f, env), StepDeliver(Abs(m), f, env))
  {
    SameKeys(m, id);
    if id in m.live {
      var s := m.live[id];
      LiveCallSeen(m, s);
      assert CallOk(m, s);
      SetRecordMirrors(m, s, m.calls[s].rec.(ackedBytes := bytes));
    }
    hide Inv, LiveOutgoing, SetRecord;
  }

  lemma RemoteCancelRefines(m: Machine, id: Id, reason: Reason, env: Env)
    requires Inv(m) && !m.base.disposed
    ensures var f := CancelFrame(id, reason);
            Inv(DeliverStep(m, f, env).m) && Refines(DeliverStep(m, f, env), StepDeliver(Abs(m), f, env))
  {
    SameKeys(m, id);
    if id in m.live {
      SettleKeeps(m, m.live[id], if reason.Error? || reason.TooLarge? then Failed else Cancelled, Some(reason));
    } else {
      RebasedRefines(m, StepDeliver(Abs(m), CancelFrame(id, reason), env));
    }
    hide Inv, LiveOutgoing, Settle, Finalise;
  }

  lemma DeliverRefines(m: Machine, f: Frame, env: Env)
    requires Inv(m)
    ensures Inv(DeliverStep(m, f, env).m) && Refines(DeliverStep(m, f, env), StepDeliver(Abs(m), f, env))
  {
    if !m.base.disposed {
      match f
      case AcceptFrame(id, accept) => AcceptRefines(m, id, accept, env); hide Inv, DeliverStep, StepDeliver;
      case AckFrame(id, bytes) => AckRefines(m, id, bytes, env); hide Inv, DeliverStep, StepDeliver;
      case CancelFrame(id, reason) => RemoteCancelRefines(m, id, reason, env); hide Inv, DeliverStep, StepDeliver;
      case _ =>
        RebasedRefines(m, StepDeliver(Abs(m), f, env));
        hide Inv, StepStart, StepBinary, StepComplete, LiveOutgoing;
    }
  }

  lemma OutsideRefines(m: Machine, ev: Event, env: Env)
    requires Inv(m) && (ev.SendFile? ==> ev.id !in m.live) && (ev.Sending() ==> ev.SendFile? || ev.Drained?)
    ensures Inv(OutsideStep(m, ev, env).m) && Refines(OutsideStep(m, ev, env), Step(Abs(m), ev, env))
  {
    match ev
    case SendFile(id, file) => StartRefines(m, id, file, env); hide Inv, StartCall, StepSendFile;
    case Drained => UnparkRefines(m); hide Inv, UnparkCalls, UnparkAll;
    case CancelLocal(id, reason) => CancelRefines(m, id, reason, env); hide Inv, CancelCall, StepCancelLocal;
    case Deliver(f) => DeliverRefines(m, f, env); hide Inv, DeliverStep, StepDeliver;
    case Closed => ClosedRefines(m); hide Inv, CloseCalls, StepClosed;
    case Dispose => DisposeRefines(m); hide Inv, DisposeCalls, StepDispose;
    case Answer(_, _) => RebasedRefines(m, Step(Abs(m), ev, env)); hide Inv, LiveOutgoing, StepAnswer, Rebased;
    case SetConsent(_) => RebasedRefines(m, Step(Abs(m), ev, env)); hide Inv, LiveOutgoing, Rebased;
    case _ =>
  }

  lemma ClosedRefines(m: Machine)
    requires Inv(m)
    ensures Inv(CloseCalls(m)) && Out(Abs(CloseCalls(m)), [], []) == StepClosed(Abs(m))
  {
    if m.base.disposed {
      UnparkRefines(m);
    } else {
      var n := SettleEverything(m, Failed, Some(Error));
      TeardownKeeps(m, Failed, Some(Error));
      TeardownSeen(m, Failed, Some(Error));
      UnparkRefines(n);
      NobodyToWake(Abs(m), Failed, Some(Error));
    }
    hide Inv, LiveOutgoing, UnparkCalls, UnparkAll, SettleEverything, SettleAll;
  }

  lemma NobodyToWake(e: Engine, status: Status, reason: Option<Reason>)
    ensures UnparkAll(SettleAll(e, status, reason)) == SettleAll(e, status, reason)
  {
    hide SettledOutgoing, SettledIncoming;
  }

  lemma DisposedKeeps(m: Machine)
    requires Inv(m)
    ensures var n := m.(base := m.base.(disposed := true)); Inv(n) && Abs(n) == Abs(m).(disposed := true)
  {
    var n := m.(base := m.base.(disposed := true));
    forall t | t in n.calls ensures CallOk(n, t) { assert CallOk(m, t) && (IsLive(n, t) <==> IsLive(m, t)); }
    hide LiveOutgoing;
  }

  lemma DisposeRefines(m: Machine)
    requires Inv(m)
    ensures Inv(DisposeCalls(m)) && Out(Abs(DisposeCalls(m)), [], []) == StepDispose(Abs(m))
  {
    if !m.base.disposed {
      TeardownKeeps(m, Cancelled, Some(UserCancelled));
      TeardownSeen(m, Cancelled, Some(UserCancelled));
      DisposedKeeps(SettleEverything(m, Cancelled, Some(UserCancelled)));
    }
    hide Inv, LiveOutgoing, SettleEverything, SettleAll;
  }
}
