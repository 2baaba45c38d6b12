/** Whole runs of the machine of calls: they are runs of the engine, and no call outstays its transfer. */
module CallRuns {
  import opened Common
  import ChunkCodec
  import opened TransferSpec
  import opened SendCalls
  import opened CallRefinement
  import Settlement

  type Run = seq<(Happening, Env)>

  function After(m: Machine, run: Run): Machine
    decreases |run|
  {
    if run == [] then m else After(MachineStep(m, run[0].0, run[0].1).m, run[1..])
  }

  /** Everything sent on the channel during a run, in order. */
  function Sent(m: Machine, run: Run): seq<Frame>
    decreases |run|
  {
    if run == [] then []
    else var r := MachineStep(m, run[0].0, run[0].1); r.sent + Sent(r.m, run[1..])
  }

  /** No transfer id is given out while the call that has it is still in the map. */
  predicate Fresh(m: Machine, h: Happening) {
    h.Outside? && h.ev.SendFile? ==> h.ev.id !in m.live
  }

  predicate FreshRun(m: Machine, run: Run)
    decreases |run|
  {
    run == [] || (Fresh(m, run[0].0) && FreshRun(MachineStep(m, run[0].0, run[0].1).m, run[1..]))
  }

  /** What the engine sees of one happening: nothing, when a settled call goes on. */
  function Seen(m: Machine, h: Happening, env: Env): seq<(Event, Env)> {
    match h
    case Own(s, w) => if IsLive(m, s) then [(EventOf(m.calls[s].id, w), env)] else []
    case Outside(ev) => if ev.Sending() && !ev.SendFile? && !ev.Drained? then [] else [(ev, env)]
  }

  function Trace(m: Machine, run: Run): seq<(Event, Env)>
    decreases |run|
  {
    if run == [] then [] else Seen(m, run[0].0, run[0].1) + Trace(MachineStep(m, run[0].0, run[0].1).m, run[1..])
  }

  // -- refinement -------------------------------------------------------------------------------

  lemma StepKeeps(m: Machine, h: Happening, env: Env)
    requires Inv(m) && Fresh(m, h)
    ensures Inv(MachineStep(m, h, env).m)
    ensures Abs(MachineStep(m, h, env).m) == Settlement.Run(Abs(m), Seen(m, h, env))
    ensures MachineStep(m, h, env).sent == Settlement.EngineSent(Abs(m), Seen(m, h, env))
  {
    var r := MachineStep(m, h, env);
    OneStep(Abs(m), if h.Own? then (if h.s in m.calls then EventOf(m.calls[h.s].id, h.w) else Drained) else h.ev, env);
    match h
    case Own(s, w) =>
      if IsLive(m, s) {
        LiveCallMirrors(m, s, w, env);
      } else if s in m.calls {
        SettledCallStep(m, s, w, env);
      }
      hide Inv, CallStep, Step, Abs;
    case Outside(ev) =>
      if !(ev.Sending() && !ev.SendFile? && !ev.Drained?) {
        OutsideRefines(m, ev, env);
        hide Inv, OutsideStep, Step, Abs;
      } else {
        hide Inv, Step, Abs;
      }
  }

  lemma OneStep(e: Engine, ev: Event, env: Env)
    ensures Settlement.Run(e, [(ev, env)]) == Step(e, ev, env).engine
    ensures Settlement.EngineSent(e, [(ev, env)]) == Step(e, ev, env).sent
  {
    var one := [(ev, env)];
    assert one[1..] == [];
    assert Settlement.Run(e, one) == Settlement.Run(Step(e, ev, env).engine, []);
    hide Step;
  }

  lemma {:induction false} RunAppends(e: Engine, s: seq<(Event, Env)>, t: seq<(Event, Env)>)
    ensures Settlement.Run(e, s + t) == Settlement.Run(Settlement.Run(e, s), t)
    ensures Settlement.EngineSent(e, s + t) == Settlement.EngineSent(e, s)
        + Settlement.EngineSent(Settlement.Run(e, s), t)
    decreases |s|
  {
    hide Step;
    if s == [] {
      assert s + t == t;
    } else {
      assert (s + t)[0] == s[0] && (s + t)[1..] == s[1..] + t;
      RunAppends(Step(e, s[0].0, s[0].1).engine, s[1..], t);
    }
  }

  lemma {:induction false} RunRefines(m: Machine, run: Run)
    requires Inv(m) && FreshRun(m, run)
    ensures Inv(After(m, run))
    ensures Abs(After(m, run)) == Settlement.Run(Abs(m), Trace(m, run))
    ensures Sent(m, run) == Settlement.EngineSent(Abs(m), Trace(m, run))
    decreases |run|
  {
    hide Inv, MachineStep, Abs, Seen;
    if run != [] {
      var r := MachineStep(m, run[0].0, run[0].1);
      StepKeeps(m, run[0].0, run[0].1);
      RunRefines(r.m, run[1..]);
      RunAppends(Abs(m), Seen(m, run[0].0, run[0].1), Trace(r.m, run[1..]));
    }
  }

  lemma NewIsOk(hasConsent: bool, maxBytes: nat)
    ensures Inv(NewMachine(hasConsent, maxBytes))
        && Abs(NewMachine(hasConsent, maxBytes)) == NewEngine(hasConsent, maxBytes)
  {
    assert LiveOutgoing(map[], map[]) == map[];
  }

  /**
   * Every run of the calls, settled ones running on included, is a run of the engine without them: same transfers, same
   * history, same frames. What is proved of the engine's runs holds of these.
   */
  lemma CallsAreTheEngine(hasConsent: bool, maxBytes: nat, run: Run)
    requires FreshRun(NewMachine(hasConsent, maxBytes), run)
    ensures var m, e := NewMachine(hasConsent, maxBytes), NewEngine(hasConsent, maxBytes);
            && Abs(After(m, run)) == Settlement.Run(e, Trace(m, run))
            && Sent(m, run) == Settlement.EngineSent(e, Trace(m, run))
  {
    NewIsOk(hasConsent, maxBytes);
    RunRefines(NewMachine(hasConsent, maxBytes), run);
    hide Inv, NewMachine, NewEngine, Abs, FreshRun;
  }

  // -- nobody waits for a transfer that is gone ------------------------------------------------------

  /** A call that waits, for the buffer to drain or for the answer, is the call of a transfer still in the map. */
  lemma WaitingCallsAreLive(hasConsent: bool, maxBytes: nat, run: Run, s: nat)
    requires FreshRun(NewMachine(hasConsent, maxBytes), run)
    ensures var m := After(NewMachine(hasConsent, maxBytes), run);
            s in m.calls && (m.calls[s].Parked() || m.calls[s].Undecided()) ==> IsLive(m, s)
  {
    NewIsOk(hasConsent, maxBytes);
    RunRefines(NewMachine(hasConsent, maxBytes), run);
    var m := After(NewMachine(hasConsent, maxBytes), run);
    if s in m.calls { assert CallOk(m, s); }
    hide After, FreshRun, NewMachine;
  }

  /** A close, and a drain event, leave no call waiting for the buffer, whatever became of its transfer. */
  lemma CloseWakesEveryCall(m: Machine, env: Env)
    requires Inv(m)
    ensures forall s :: s in MachineStep(m, Outside(Closed), env).m.calls ==>
        !MachineStep(m, Outside(Closed), env).m.calls[s].Parked()
    ensures forall s :: s in MachineStep(m, Outside(Drained), env).m.calls ==>
        !MachineStep(m, Outside(Drained), env).m.calls[s].Parked()
  {
    if !m.base.disposed { TeardownKeeps(m, Failed, Some(Error)); }
    UnparkRefines(m);
    UnparkRefines(if m.base.disposed then m else SettleEverything(m, Failed, Some(Error)));
    hide Inv, UnparkCalls, SettleEverything;
  }

  // -- and its call ends -------------------------------------------------------------------------------

  /** How often call s went on during a run. */
  function OwnSteps(m: Machine, run: Run, s: nat): nat
    decreases |run|
  {
    if run == [] then 0
    else
      OwnSteps(MachineStep(m, run[0].0, run[0].1).m, run[1..], s) +
      if run[0].0.Own? && run[0].0.s == s && s in m.calls && Ready(m.calls[s], run[0].0.w) then 1 else 0
  }

  /** What it sent. */
  function OwnSent(m: Machine, run: Run, s: nat): seq<Frame>
    decreases |run|
  {
    if run == [] then []
    else
      var r := MachineStep(m, run[0].0, run[0].1);
      (if run[0].0.Own? && run[0].0.s == s then r.sent else []) + OwnSent(r.m, run[1..], s)
  }

  /** What happens elsewhere can at most wake a settled call, which is awake already. */
  predicate LeavesAlone(m: Machine, n: Machine, s: nat) {
    && s in m.calls && s in n.calls && !IsLive(n, s)
    && (n.calls[s] == m.calls[s] || n.calls[s] == UnparkCall(m.calls[s]))
  }

  /** Only call t changes, and the map only loses entries. */
  predicate OnlyCall(m: Machine, n: Machine, t: nat) {
    && n.calls.Keys == m.calls.Keys
    && (forall s :: s in m.calls && s != t ==> n.calls[s] == m.calls[s])
    && (forall id :: id in n.live ==> id in m.live && n.live[id] == m.live[id])
  }

  lemma OnlyTwice(m: Machine, n: Machine, k: Machine, t: nat)
    requires OnlyCall(m, n, t) && OnlyCall(n, k, t)
    ensures OnlyCall(m, k, t)
  {
  }

  lemma SettleOnly(m: Machine, t: nat, status: Status, reason: Option<Reason>)
    requires t in m.calls
    ensures OnlyCall(m, Settle(m, t, status, reason), t)
    ensures OnlyCall(m, Return(Settle(m, t, status, reason), t), t)
  {
    hide SettledCall;
  }

  lemma SetOnly(m: Machine, t: nat, c: Call)
    requires t in m.calls
    ensures OnlyCall(m, SetCall(m, t, c), t)
  {
  }

  lemma RecordOnly(m: Machine, t: nat, rec: Record, phase: Phase)
    requires t in m.calls
    ensures OnlyCall(m, SetRecord(m, t, rec), t) && OnlyCall(m, SetPhase(SetRecord(m, t, rec), t, phase), t)
  {
  }

  lemma CallStepOnly(m: Machine, t: nat, w: Wake, env: Env)
    requires t in m.calls
    ensures OnlyCall(m, CallStep(m, t, w, env).0, t)
  {
    var c := m.calls[t];
    if Ready(c, w) {
      match w
      case Timeout => SetOnly(m, t, c.(phase := Answered(false))); hide OnlyCall;
      case Resume =>
        SetOnly(m, t, c.(returned := true));
        SettleOnly(m, t, Cancelled, Some(Declined));
        RecordOnly(m, t, c.rec.(status := Active), Reading([]));
        hide OnlyCall, Settle, SetRecord;
      case Read(count) => ReadOnly(m, t, count, env); hide OnlyCall, ReadCall;
      case ReadDone =>
        SetOnly(m, t, c.(phase := Drain(c, c.phase.carry, [], true, env)));
        FinishOnly(m, t, env);
        hide OnlyCall, FinishCall;
      case ReadFail =>
        SetOnly(m, t, c.(returned := true)); SettleOnly(m, t, Failed, Some(Error)); hide OnlyCall, Settle;
      case SendChunk => SendOnly(m, t, env); hide OnlyCall, SendChunkCall;
      case Continue =>
        SetOnly(m, t, c.(returned := true));
        FinishOnly(m, t, env);
        CutOnly(m, t, c.phase.rest, env);
        hide OnlyCall, FinishCall, CutOrRead;
    } else {
      assert OnlyCall(m, m, t);
      hide OnlyCall;
    }
  }

  lemma FinishOnly(m: Machine, t: nat, env: Env)
    requires t in m.calls
    ensures OnlyCall(m, FinishCall(m, t, env).0, t)
  {
    SetOnly(m, t, m.calls[t].(returned := true));
    SettleOnly(m, t, Complete, None);
    hide OnlyCall, Settle;
  }

  lemma CutOnly(m: Machine, t: nat, view: seq<byte>, env: Env)
    requires t in m.calls
    ensures OnlyCall(m, CutOrRead(m, t, view, env), t)
  {
    hide Drain;
  }

  lemma ReadOnly(m: Machine, t: nat, count: nat, env: Env)
    requires t in m.calls && m.calls[t].phase.Reading? && count <= |m.calls[t].unread|
    ensures OnlyCall(m, ReadCall(m, t, m.calls[t].phase.carry, count, env), t)
  {
    var c := m.calls[t];
    var m1 := SetCall(m, t, c.(unread := c.unread[count..]));
    SetOnly(m, t, c.(unread := c.unread[count..]));
    CutOnly(m1, t, c.phase.carry + c.unread[..count], env);
    OnlyTwice(m, m1, CutOrRead(m1, t, c.phase.carry + c.unread[..count], env), t);
    hide OnlyCall, CutOrRead;
  }

  lemma SettlePhaseOnly(m: Machine, t: nat, phase: Phase)
    requires t in m.calls
    ensures t in Settle(m, t, Failed, Some(Error)).calls
    ensures OnlyCall(m, SetPhase(Settle(m, t, Failed, Some(Error)), t, phase), t)
  {
    var m1 := Settle(m, t, Failed, Some(Error));
    SettleOnly(m, t, Failed, Some(Error));
    SetOnly(m1, t, m1.calls[t].(phase := phase));
    OnlyTwice(m, m1, SetPhase(m1, t, phase), t);
    hide Settle;
  }

  lemma SendOnly(m: Machine, t: nat, env: Env)
    requires t in m.calls && m.calls[t].phase.Draining?
    ensures var p := m.calls[t].phase; OnlyCall(m, SendChunkCall(m, t, p.chunk, p.rest, p.last, env).0, t)
  {
    var c := m.calls[t];
    var sent := TransferSpec.Sent(c.phase.rest, c.phase.last);
    var n := SendChunkCall(m, t, c.phase.chunk, c.phase.rest, c.phase.last, env).0;
    hide OnlyCall, Settle, SetRecord, SetPhase, Return, ThrowCall, ChunkCodec.Encode, ChunkCodec.ValidId;
    if c.aborted {
      PhaseReturnOnly(m, t, sent);
    } else if env.open && ChunkCodec.ValidId(c.id) && env.ok {
      RecordOnly(m, t, c.rec.(bytes := c.rec.bytes + |c.phase.chunk|), sent);
    } else {
      assert n == SetPhase(Settle(m, t, Failed, Some(Error)), t, sent) || n == ThrowCall(m, t);
      SettlePhaseOnly(m, t, sent);
      ThrowOnly(m, t);
    }
  }

  lemma ThrowOnly(m: Machine, t: nat)
    requires t in m.calls
    ensures OnlyCall(m, ThrowCall(m, t), t)
  {
    PhaseReturnOnly(m, t, Waiting);
    SettleOnly(m, t, Failed, Some(Error));
    hide OnlyCall, Settle, Return;
  }

  lemma PhaseReturnOnly(m: Machine, t: nat, phase: Phase)
    requires t in m.calls
    ensures OnlyCall(m, SetPhase(m, t, phase), t) && OnlyCall(m, Return(m, t), t)
  {
  }

  lemma OnlyLeavesAlone(m: Machine, n: Machine, t: nat, s: nat)
    requires s in m.calls && !IsLive(m, s) && OnlyCall(m, n, t) && t != s
    ensures LeavesAlone(m, n, s)
  {
    hide UnparkCall;
  }

  lemma OutsideLeavesAlone(m: Machine, ev: Event, env: Env, s: nat)
    requires Inv(m) && Fresh(m, Outside(ev)) && s in m.calls && !IsLive(m, s)
    ensures LeavesAlone(m, OutsideStep(m, ev, env).m, s)
  {
    hide LeavesAlone, Inv, Abs, StartCall, UnparkCalls, CancelCall, DeliverStep, CloseCalls, DisposeCalls, Step,
        Rebased;
    match ev
    case SendFile(id, file) => StartLeavesAlone(m, id, file, env, s);
    case Drained => UnparkLeavesAlone(m, s);
    case CancelLocal(id, reason) => CancelLeavesAlone(m, id, reason, env, s);
    case Deliver(f) => DeliverLeavesAlone(m, f, env, s);
    case Closed => CloseLeavesAlone(m, s);
    case Dispose => CloseLeavesAlone(m, s);
    case _ => RebasedLeavesAlone(m, Step(Abs(m), ev, env), s);
  }

  lemma CancelLeavesAlone(m: Machine, id: Id, reason: Reason, env: Env, s: nat)
    requires Inv(m) && s in m.calls && !IsLive(m, s)
    ensures LeavesAlone(m, CancelCall(m, id, reason, env).m, s)
  {
    SameKeys(m, id);
    hide Settle, StepCancelLocal, Inv, OnlyCall, LeavesAlone, Rebased;
    if id in m.live {
      SettleOnly(m, m.live[id], Cancelled, Some(reason));
      OnlyLeavesAlone(m, Settle(m, m.live[id], Cancelled, Some(reason)), m.live[id], s);
    } else {
      RebasedLeavesAlone(m, StepCancelLocal(Abs(m), id, reason, env), s);
    }
  }

  lemma UnparkLeavesAlone(m: Machine, s: nat)
    requires s in m.calls && !IsLive(m, s)
    ensures LeavesAlone(m, UnparkCalls(m), s)
  {
  }

  lemma RebasedLeavesAlone(m: Machine, r: Out, s: nat)
    requires s in m.calls && !IsLive(m, s)
    ensures LeavesAlone(m, Rebased(m, r).m, s) && LeavesAlone(m, m, s)
  {
    hide UnparkCall;
  }

  lemma StartLeavesAlone(m: Machine, id: Id, file: File, env: Env, s: nat)
    requires Inv(m) && id !in m.live && s in m.calls && !IsLive(m, s)
    ensures LeavesAlone(m, StartCall(m, id, file, env).0, s)
  {
    var t := m.base.next;
    var rec := Record(t, id, Send, file.name, OrDefaultMime(file.mime), file.size, 0, Pending, None, 0);
    var n := Born(m, Call(id, rec, file, file.content, Waiting, false, false, false));
    assert CallOk(m, s);
    assert LeavesAlone(m, n, s);
    SettleOnly(n, t, Failed, Some(Error));
    OnlyLeavesAlone(n, Return(Settle(n, t, Failed, Some(Error)), t), t, s);
    hide Settle, Return, OrDefaultMime, OnlyCall, CallOk, Inv, UnparkCall;
  }

  lemma CloseLeavesAlone(m: Machine, s: nat)
    requires Inv(m) && s in m.calls && !IsLive(m, s)
    ensures LeavesAlone(m, CloseCalls(m), s) && LeavesAlone(m, DisposeCalls(m), s)
  {
    hide SettledCall, SettledOutgoing, SettledIncoming, CallOk;
  }

  lemma DeliverLeavesAlone(m: Machine, f: Frame, env: Env, s: nat)
    requires Inv(m) && s in m.calls && !IsLive(m, s)
    ensures LeavesAlone(m, DeliverStep(m, f, env).m, s)
  {
    match f
    case AcceptFrame(id, accept) =>
      SameKeys(m, id);
      if id in m.live {
        SetOnly(m, m.live[id], m.calls[m.live[id]].(phase := Answered(accept)));
        OnlyLeavesAlone(m, SetPhase(m, m.live[id], Answered(accept)), m.live[id], s);
      }
      hide OnlyCall, Inv, UnparkCall;
    case AckFrame(id, bytes) =>
      SameKeys(m, id);
      if id in m.live {
        var rec := m.calls[m.live[id]].rec.(ackedBytes := bytes);
        RecordOnly(m, m.live[id], rec, Waiting);
        OnlyLeavesAlone(m, SetRecord(m, m.live[id], rec), m.live[id], s);
      }
      hide OnlyCall, Inv, UnparkCall, SetRecord;
    case CancelFrame(id, reason) =>
      SameKeys(m, id);
      if id in m.live {
        var status := if reason.Error? || reason.TooLarge? then Failed else Cancelled;
        SettleOnly(m, m.live[id], status, Some(reason));
        OnlyLeavesAlone(m, Settle(m, m.live[id], status, Some(reason)), m.live[id], s);
      }
      hide OnlyCall, Inv, UnparkCall, Settle, StepDeliver;
    case _ => hide StepDeliver, Inv, UnparkCall;
  }

  /**
   * One happening: a settled call stays settled, and only its own going on, which sends nothing, brings it nearer
   * its end.
   */
  lemma SettledCallInStep(m: Machine, h: Happening, env: Env, s: nat)
    requires Inv(m) && Fresh(m, h) && s in m.calls && !IsLive(m, s)
    ensures var r := MachineStep(m, h, env);
            && Inv(r.m) && s in r.m.calls && !IsLive(r.m, s) && Awaits(r.m.calls[s]) <= Awaits(m.calls[s])
            && (h.Own? && h.s == s && Ready(m.calls[s], h.w) ==> Awaits(r.m.calls[s]) < Awaits(m.calls[s]))
            && (h.Own? && h.s == s ==> r.sent == [])
  {
    StepKeeps(m, h, env);
    match h
    case Own(t, w) =>
      if t == s {
        SettledCallStep(m, s, w, env);
        if !Ready(m.calls[s], w) { IdleWait(m, s, w, env); }
      } else if t in m.calls {
        CallStepOnly(m, t, w, env);
        OnlyLeavesAlone(m, CallStep(m, t, w, env).0, t, s);
      }
      hide CallStep, Inv, Abs, OnlyCall;
    case Outside(ev) =>
      OutsideLeavesAlone(m, ev, env, s);
      hide OutsideStep, Inv, Abs;
  }

  lemma IdleWait(m: Machine, s: nat, w: Wake, env: Env)
    requires s in m.calls && !Ready(m.calls[s], w)
    ensures CallStep(m, s, w, env) == (m, [])
  {
    hide Ready;
  }

  lemma {:induction false} SettledCallInRun(m: Machine, run: Run, s: nat)
    requires Inv(m) && FreshRun(m, run) && s in m.calls && !IsLive(m, s)
    ensures var n := After(m, run);
            && Inv(n) && s in n.calls && !IsLive(n, s) && OwnSent(m, run, s) == []
            && OwnSteps(m, run, s) + Awaits(n.calls[s]) <= Awaits(m.calls[s])
    decreases |run|
  {
    hide Inv, MachineStep, IsLive, Awaits, Ready, Fresh;
    if run != [] {
      SettledCallInStep(m, run[0].0, run[0].1, s);
      SettledCallInRun(MachineStep(m, run[0].0, run[0].1).m, run[1..], s);
    }
  }

  /**
   * From the moment its transfer is settled, by whatever and wherever it stood, a call goes through at most three more
   * awaits and sends nothing more, in every run, and while it has not returned it can go on.
   */
  lemma SettledCallsEnd(hasConsent: bool, maxBytes: nat, before: Run, after: Run, s: nat)
    requires FreshRun(NewMachine(hasConsent, maxBytes), before)
    requires FreshRun(After(NewMachine(hasConsent, maxBytes), before), after)
    requires s in After(NewMachine(hasConsent, maxBytes), before).calls
        && !IsLive(After(NewMachine(hasConsent, maxBytes), before), s)
    ensures var m := After(NewMachine(hasConsent, maxBytes), before);
            var n := After(m, after);
            && OwnSteps(m, after, s) <= 3 && OwnSent(m, after, s) == []
            && s in n.calls && !IsLive(n, s)
            && (OwnSteps(m, after, s) == 3 ==> n.calls[s].returned)
            && (!n.calls[s].returned ==> exists w :: Ready(n.calls[s], w))
  {
    var m0 := NewMachine(hasConsent, maxBytes);
    NewIsOk(hasConsent, maxBytes);
    RunRefines(m0, before);
    var m := After(m0, before);
    SettledCallInRun(m, after, s);
    var n := After(m, after);
    if !m.calls[s].returned { SettledCallGoesOn(m, s); }
    if !n.calls[s].returned { SettledCallGoesOn(n, s); AwaitsLeft(n.calls[s]); }
    hide Inv, NewMachine, After, FreshRun, Ready, IsLive, OwnSteps, OwnSent;
  }

  lemma AwaitsLeft(c: Call)
    requires !c.returned
    ensures Awaits(c) > 0
  {
  }
}
