/** How every transfer ends: which status and reason its record gets, for what, and what a complete one stands for. */
module Outcomes {
  import opened Common
  import opened ChunkCodec
  import opened Rechunk
  import opened TransferSpec
  import opened ReceiverInvariant
  import opened TransferViews
  import opened Settlement
  import opened FrameStream

  datatype Verdict = Verdict(status: Status, reason: Option<Reason>)

  /** The record as it was, with its outcome, and the reason if there is one. */
  predicate Closes(was: Record, now: Record, v: Verdict) {
    && now.status == v.status && now.reason == (if v.reason.Some? then v.reason else was.reason)
    && now.(status := was.status, reason := was.reason) == was
  }

  /** The stream has ended with everything sent: nothing is left to read or cut, or the last chunk is out. */
  predicate AtEnd(o: Outgoing, ev: Event, id: Id) {
    || (ev == ReadDone(id) && o.phase == Reading([]) && o.unread == [])
    || (ev == Continue(id) && o.phase.Sent? && o.phase.last)
  }

  /** What ends a transfer this side sends, and how. */
  function SendVerdict(o: Outgoing, id: Id, ev: Event, env: Env, disposed: bool): Option<Verdict> {
    if AtEnd(o, ev, id) then Some(Verdict(Complete, None))
    else match ev
      case Resume(i) => if i == id && o.phase == Answered(false) then Some(Verdict(Cancelled, Some(Declined))) else None
      case ReadFail(i) => if i == id && o.phase.Reading? then Some(Verdict(Failed, Some(Error))) else None
      case SendChunk(i) =>
        if i == id && o.phase.Draining? && !o.phase.parked && !(env.open && env.ok && ValidId(id))
        then Some(Verdict(Failed, Some(Error))) else None
      case CancelLocal(i, reason) => if i == id then Some(Verdict(Cancelled, Some(reason))) else None
      case Deliver(f) =>
        if disposed || !f.CancelFrame? || f.id != id then None
        else Some(Verdict(if f.reason.Error? || f.reason.TooLarge? then Failed else Cancelled, Some(f.reason)))
      case Closed => if disposed then None else Some(Verdict(Failed, Some(Error)))
      case Dispose => if disposed then None else Some(Verdict(Cancelled, Some(UserCancelled)))
      case _ => None
  }

  /** What ends a transfer this side receives, and how. */
  function RecvVerdict(e: Engine, id: Id, ev: Event, env: Env): Option<Verdict>
    requires id in e.incoming
  {
    var s := e.incoming[id];
    match ev
    case Answer(serial, accept) =>
      if serial in e.prompts && e.prompts[serial].id == id && !accept then Some(Verdict(Cancelled, Some(Declined)))
      else None
    case CancelLocal(i, reason) => if i == id then Some(Verdict(Cancelled, Some(reason))) else None
    case Deliver(f) =>
      if e.disposed then None
      else if f == CompleteFrame(id) then
        if s.received == s.rec.size && env.urlOk then Some(Verdict(Complete, None))
        else Some(Verdict(Failed, Some(Error)))
      else if f.CancelFrame? && f.id == id then Some(Verdict(Cancelled, Some(f.reason)))
      else if f.BinaryFrame? && FrameId(f) == Some(id) && s.accepted
              && s.received + |Decode(f.data).value.payload| > s.rec.size then Some(Verdict(Failed, Some(Error)))
      else None
    case Closed => if e.disposed then None else Some(Verdict(Failed, Some(Error)))
    case Dispose => if e.disposed then None else Some(Verdict(Cancelled, Some(UserCancelled)))
    case _ => None
  }

  /** An announcement that is turned down, or never made, has a record all the same. */
  function BirthVerdict(e: Engine, id: Id, ev: Event, env: Env): Option<Verdict> {
    match ev
    case SendFile(i, _) => if i == id && !(env.open && env.ok) then Some(Verdict(Failed, Some(Error))) else None
    case Deliver(f) =>
      if e.disposed || !f.StartFrame? || f.id != id then None
      else if f.size < 0 || f.size > MAX_SAFE_INTEGER then Some(Verdict(Failed, Some(Error)))
      else if f.size > e.maxBytes then Some(Verdict(Failed, Some(TooLarge)))
      else if !e.hasConsent then Some(Verdict(Cancelled, Some(Declined)))
      else None
    case _ => None
  }

  // -- one step ----------------------------------------------------------------------------------------------

  /** Still there, or gone into the history with that verdict. */
  predicate SendEnd(e: Engine, n: Engine, id: Id, v: Option<Verdict>)
    requires id in e.outgoing
  {
    var rec := e.outgoing[id].rec;
    match v
    case None => id in n.outgoing && n.outgoing[id].rec.serial == rec.serial
    case Some(x) => id !in n.outgoing && (rec.serial, id) in n.finished && Closes(rec, n.finished[(rec.serial, id)], x)
  }

  predicate RecvEnd(e: Engine, n: Engine, id: Id, v: Option<Verdict>)
    requires id in e.incoming
  {
    var rec := e.incoming[id].rec;
    match v
    case None => id in n.incoming && n.incoming[id].rec.serial == rec.serial
    case Some(x) => id !in n.incoming && (rec.serial, id) in n.finished && Closes(rec, n.finished[(rec.serial, id)], x)
  }

  lemma SettledSend(e: Engine, id: Id, status: Status, reason: Option<Reason>)
    requires id in e.outgoing
    ensures SendEnd(e, SettleOutgoing(e, id, status, reason), id, Some(Verdict(status, reason)))
  {
  }

  lemma SettledRecv(e: Engine, id: Id, status: Status, reason: Option<Reason>)
    requires id in e.incoming
    ensures RecvEnd(e, SettleIncoming(e, id, e.incoming[id].rec, status, reason), id, Some(Verdict(status, reason)))
  {
  }

  lemma WaitEnds(e: Engine, ev: Event, env: Env, id: Id)
    requires id in e.outgoing && (ev == AcceptTimeout(id) || ev == Resume(id) || ev == ReadFail(id) || ev.Drained?)
    ensures SendEnd(e, StepSender(e, ev, env).engine, id, SendVerdict(e.outgoing[id], id, ev, env, e.disposed))
  {
    hide Closes, Finalise;
    SettledSend(e, id, Failed, Some(Error));
    SettledSend(e, id, Cancelled, Some(Declined));
  }

  lemma ReadEnds(e: Engine, ev: Event, env: Env, id: Id)
    requires id in e.outgoing && ((ev.Read? && ev.id == id) || ev == ReadDone(id))
    ensures SendEnd(e, StepSender(e, ev, env).engine, id, SendVerdict(e.outgoing[id], id, ev, env, e.disposed))
  {
    hide Closes, Finalise, Cut;
    SettledSend(e, id, Complete, None);
  }

  lemma ChunkEnds(e: Engine, ev: Event, env: Env, id: Id)
    requires id in e.outgoing && (ev == SendChunk(id) || ev == Continue(id))
    ensures SendEnd(e, StepSender(e, ev, env).engine, id, SendVerdict(e.outgoing[id], id, ev, env, e.disposed))
  {
    hide Closes, Finalise, Cut, ChunkCodec.Encode, ChunkCodec.ValidId;
    SettledSend(e, id, Complete, None);
    SettledSend(e, id, Failed, Some(Error));
  }

  lemma ElsewhereStays(e: Engine, ev: Event, env: Env, id: Id)
    requires id in e.outgoing && ev.Sending() && !ev.Drained? && ev.id != id
    ensures id in StepSender(e, ev, env).engine.outgoing
    ensures StepSender(e, ev, env).engine.outgoing[id] == e.outgoing[id]
  {
    hide Finalise, Cut, ChunkCodec.Encode, ChunkCodec.ValidId, OrDefaultMime;
  }

  lemma CoroutineEnds(e: Engine, ev: Event, env: Env, id: Id)
    requires id in e.outgoing && ev.Sending() && !(ev.SendFile? && ev.id == id)
    ensures SendEnd(e, StepSender(e, ev, env).engine, id, SendVerdict(e.outgoing[id], id, ev, env, e.disposed))
  {
    if !ev.Drained? && ev.id != id {
      ElsewhereStays(e, ev, env, id);
    } else if ev.Read? || ev.ReadDone? {
      ReadEnds(e, ev, env, id);
    } else if ev.SendChunk? || ev.Continue? {
      ChunkEnds(e, ev, env, id);
    } else {
      WaitEnds(e, ev, env, id);
    }
    hide StepSender;
  }

  lemma TornDownEnds(e: Engine, status: Status, reason: Option<Reason>, id: Id, disposed: bool)
    requires !(id in e.outgoing && id in e.incoming)
    ensures var n := SettleAll(e, status, reason).(disposed := disposed);
            && (id in e.outgoing ==> SendEnd(e, n, id, Some(Verdict(status, reason))))
            && (id in e.incoming ==> RecvEnd(e, n, id, Some(Verdict(status, reason))))
  {
    SettleAllTornDown(e, status, reason, id, disposed);
    hide SettleAll, Serials, LiveSerials;
  }

  /** Every step either leaves a transfer this side sends where it is, or ends it as the verdict says. */
  lemma SendEnds(e: Engine, ev: Event, env: Env, id: Id)
    requires id in e.outgoing && id !in e.incoming && !(ev.SendFile? && ev.id == id)
    ensures SendEnd(e, Step(e, ev, env).engine, id, SendVerdict(e.outgoing[id], id, ev, env, e.disposed))
  {
    hide StepStart, StepBinary, StepComplete, StepAnswer, SettleAll, UnparkAll, Closes, Finalise, StepSender;
    if ev.Sending() {
      CoroutineEnds(e, ev, env, id);
    } else {
      match ev
      case CancelLocal(i, reason) => SettledSend(e, id, Cancelled, Some(reason));
      case Deliver(f) =>
        if f.CancelFrame? {
          SettledSend(e, id, if f.reason.Error? || f.reason.TooLarge? then Failed else Cancelled, Some(f.reason));
        }
      case Closed =>
        TornDownEnds(e, Failed, Some(Error), id, e.disposed);
        SettleAllDisposed(e, Failed, Some(Error));
        ParkedStays(e, id);
      case Dispose => TornDownEnds(e, Cancelled, Some(UserCancelled), id, true);
      case _ =>
    }
  }

  lemma ParkedStays(e: Engine, id: Id)
    requires id in e.outgoing
    ensures id in UnparkAll(e).outgoing && UnparkAll(e).outgoing[id].rec == e.outgoing[id].rec
    ensures UnparkAll(e).incoming == e.incoming
  {
  }

  /** What a delivered frame does to a transfer that is received. */
  lemma DeliverEnds(e: Engine, f: Frame, env: Env, id: Id)
    requires id in e.incoming && id !in e.outgoing
    ensures RecvEnd(e, StepDeliver(e, f, env).engine, id, RecvVerdict(e, id, Deliver(f), env))
  {
    hide ChunkCodec.Decode, Flatten, OrDefaultMime, Closes, Finalise, Refuse;
    SettledRecv(e, id, Failed, Some(Error));
    SettledRecv(e, id, Complete, None);
    if f.CancelFrame? { SettledRecv(e, id, Cancelled, Some(f.reason)); }
    if f.StartFrame? && f.id != id { OfferElsewhere(e, f, env, id); hide StepStart; }
  }

  lemma OfferElsewhere(e: Engine, f: Frame, env: Env, id: Id)
    requires f.StartFrame? && f.id != id && id in e.incoming
    ensures id in StepStart(e, f, env).engine.incoming && StepStart(e, f, env).engine.incoming[id] == e.incoming[id]
  {
    hide OrDefaultMime, Finalise;
  }

  lemma AnswerEnds(e: Engine, serial: nat, accept: bool, env: Env, id: Id)
    requires id in e.incoming
    requires serial in e.prompts && e.prompts[serial].id == id ==> serial == e.incoming[id].rec.serial
    ensures RecvEnd(e, StepAnswer(e, serial, accept, env).engine, id, RecvVerdict(e, id, Answer(serial, accept), env))
  {
    hide Closes, Finalise, PromptRecord;
    if serial in e.prompts { SettledRecv(e.(prompts := e.prompts - {serial}), id, Cancelled, Some(Declined)); }
  }

  /** And the same for a transfer this side receives. */
  lemma RecvEnds(e: Engine, ev: Event, env: Env, id: Id)
    requires id in e.incoming && id !in e.outgoing
    requires forall s :: s in e.prompts && e.prompts[s].id == id ==> s == e.incoming[id].rec.serial
    ensures RecvEnd(e, Step(e, ev, env).engine, id, RecvVerdict(e, id, ev, env))
  {
    hide StepDeliver, StepAnswer, SettleAll, UnparkAll, Closes, Finalise, StepSender;
    match ev
    case CancelLocal(i, reason) => SettledRecv(e, id, Cancelled, Some(reason));
    case Deliver(f) => DeliverEnds(e, f, env, id);
    case Answer(serial, accept) => AnswerEnds(e, serial, accept, env, id);
    case Closed =>
      TornDownEnds(e, Failed, Some(Error), id, e.disposed);
      SettleAllDisposed(e, Failed, Some(Error));
    case Dispose => TornDownEnds(e, Cancelled, Some(UserCancelled), id, true);
    case _ =>
  }

  /** A file comes out exactly with the verdict that its transfer is complete. */
  lemma EmitsWhenComplete(e: Engine, ev: Event, env: Env)
    ensures var r := Step(e, ev, env);
            && |r.files| <= 1
            && forall id :: id in e.incoming && id !in e.outgoing ==>
                 (RecvVerdict(e, id, ev, env) == Some(Verdict(Complete, None))
                  <==> r.files != [] && r.files[0].id == id && r.files[0].serial == e.incoming[id].rec.serial)
    ensures var r := Step(e, ev, env);
            r.files != [] ==> r.files[0].id in e.incoming && r.files[0].id !in e.outgoing
                              && r.files[0].serial == e.incoming[r.files[0].id].rec.serial
  {
    hide StepSender, StepAnswer, StepStart, StepBinary, StepAck, StepAcceptAnswer, SettleAll, SettleIncoming;
    hide SettleOutgoing, ChunkCodec.Decode, Flatten, UnparkAll;
  }

  // -- records of transfers that never were -----------------------------------------------------------------

  /** The record of an announcement that came to nothing: what was announced, and the verdict. */
  predicate Stillborn(rec: Record, serial: nat, ev: Event, v: Verdict) {
    && rec.serial == serial && rec.bytes == 0 && rec.status == v.status && rec.reason == v.reason
    && match ev
       case SendFile(id, file) =>
         rec.id == id && rec.direction.Send? && rec.name == file.name && rec.size == file.size
       case Deliver(f) =>
         f.StartFrame? && rec.id == f.id && rec.direction.Receive? && rec.name == f.name && rec.size == f.size
       case _ => false
  }

  lemma StartBirth(e: Engine, f: Frame, env: Env)
    requires f.StartFrame? && !e.disposed && f.id !in e.incoming && f.id !in e.outgoing
    ensures var v, n := BirthVerdict(e, f.id, Deliver(f), env), StepStart(e, f, env).engine;
            v.Some? ==> (e.next, f.id) in n.finished && f.id !in n.incoming
                        && Stillborn(n.finished[(e.next, f.id)], e.next, Deliver(f), v.value)
    ensures var v, n := BirthVerdict(e, f.id, Deliver(f), env), StepStart(e, f, env).engine;
            v.None? ==> n.finished == e.finished && f.id in n.incoming
  {
    hide OrDefaultMime;
  }

  lemma SendFileBirth(e: Engine, id: Id, file: File, env: Env)
    ensures var v, n := BirthVerdict(e, id, SendFile(id, file), env), StepSendFile(e, id, file, env).engine;
            v.Some? ==> (e.next, id) in n.finished && id !in n.outgoing
                        && Stillborn(n.finished[(e.next, id)], e.next, SendFile(id, file), v.value)
    ensures var v, n := BirthVerdict(e, id, SendFile(id, file), env), StepSendFile(e, id, file, env).engine;
            v.None? ==> n.finished == e.finished && id in n.outgoing
  {
    hide OrDefaultMime;
  }

  // -- nothing else writes to the history ---------------------------------------------------------------------

  /** Whatever is new in the history of an id that is nowhere was stillborn there and then. */
  lemma UnknownStays(e: Engine, ev: Event, env: Env, s: nat, id: Id)
    requires Orderly(e) && !Known(e, id) && BirthVerdict(e, id, ev, env).None?
    ensures (s, id) !in Step(e, ev, env).engine.finished
  {
    SerialsMember(e.finished, id, s);
    assert forall x :: x in e.prompts && e.prompts[x].id == id ==> Known(e, id) by { assert IdOk(e, id); }
    hide Orderly, IdOk, Serials, Finalise, OrDefaultMime;
    if ev.Sending() {
      UnknownSends(e, ev, env, s, id);
      hide StepSender;
    } else if ev.Deliver? {
      UnknownHears(e, ev.frame, env, s, id);
      hide StepDeliver;
    } else if ev.Closed? || ev.Dispose? {
      SettledOutgoingAt(e.outgoing, (s, id), Failed, Some(Error));
      SettledIncomingAt(e.incoming, (s, id), Failed, Some(Error));
      SettledOutgoingAt(e.outgoing, (s, id), Cancelled, Some(UserCancelled));
      SettledIncomingAt(e.incoming, (s, id), Cancelled, Some(UserCancelled));
      hide SettledOutgoing, SettledIncoming;
    } else {
      hide SettleAll, StepDeliver;
    }
  }

  lemma UnknownSends(e: Engine, ev: Event, env: Env, s: nat, id: Id)
    requires id !in e.outgoing && (s, id) !in e.finished && ev.Sending() && BirthVerdict(e, id, ev, env).None?
    ensures (s, id) !in StepSender(e, ev, env).engine.finished
  {
    hide Finalise, OrDefaultMime, Cut, ChunkCodec.Encode, ChunkCodec.ValidId;
  }

  lemma UnknownHears(e: Engine, f: Frame, env: Env, s: nat, id: Id)
    requires id !in e.outgoing && id !in e.incoming && (s, id) !in e.finished
    requires BirthVerdict(e, id, Deliver(f), env).None?
    ensures (s, id) !in StepDeliver(e, f, env).engine.finished
  {
    hide Finalise, OrDefaultMime, ChunkCodec.Decode, Flatten;
    if f.StartFrame? && !e.disposed && f.id == id {
      StartBirth(e, f, env);
      hide StepStart;
    }
  }

  /** Where a record of the history came from: a live transfer that ended, or an announcement that came to nothing. */
  ghost predicate Origin(e: Engine, ev: Event, env: Env, n: Engine, s: nat, id: Id)
    requires (s, id) in n.finished
  {
    || (id in e.outgoing && id !in e.incoming && e.outgoing[id].rec.serial == s
        && var v := SendVerdict(e.outgoing[id], id, ev, env, e.disposed);
           v.Some? && Closes(e.outgoing[id].rec, n.finished[(s, id)], v.value))
    || (id in e.incoming && id !in e.outgoing && e.incoming[id].rec.serial == s
        && var v := RecvVerdict(e, id, ev, env);
           v.Some? && Closes(e.incoming[id].rec, n.finished[(s, id)], v.value))
    || (!Known(e, id) && s == e.next
        && var v := BirthVerdict(e, id, ev, env);
           v.Some? && Stillborn(n.finished[(s, id)], s, ev, v.value))
  }

  /** Every new record of the history has an origin, and the verdict that goes with it. */
  lemma NewRecords(e: Engine, ev: Event, env: Env, s: nat, id: Id)
    requires Orderly(e) && FreshIds(e, ev)
    requires (s, id) !in e.finished && (s, id) in Step(e, ev, env).engine.finished
    ensures Origin(e, ev, env, Step(e, ev, env).engine, s, id)
  {
    var n := Step(e, ev, env).engine;
    StepSettles(e, ev, env);
    assert IdOk(e, id) && IdOk(n, id) && IdMove(e, n, id);
    SerialsMember(n.finished, id, s);
    SerialsMember(e.finished, id, s);
    hide Step, Orderly, Serials, SendVerdict, RecvVerdict, BirthVerdict, Closes, Stillborn, ReceiverInv;
    if id in e.outgoing {
      SendEnds(e, ev, env, id);
      OnlyRecord(n, id, s, e.outgoing[id].rec.serial);
    } else if id in e.incoming {
      RecvEnds(e, ev, env, id);
      OnlyRecord(n, id, s, e.incoming[id].rec.serial);
    } else {
      if IsFinished(e, id) { StillTheOne(e, n, s, id); }
      Births(e, ev, env, s, id);
    }
  }

  lemma StillTheOne(e: Engine, n: Engine, s: nat, id: Id)
    requires IsFinished(e, id) && IdMove(e, n, id) && IdOk(n, id) && (s, id) in n.finished
    ensures (s, id) in e.finished
  {
    var t :| t in Serials(e.finished, id);
    OnlyRecord(n, id, s, t);
    hide Serials;
  }

  lemma OnlyRecord(n: Engine, id: Id, s: nat, t: nat)
    requires IdOk(n, id) && (s, id) in n.finished && (t, id) in n.finished
    ensures s == t
  {
    SerialsMember(n.finished, id, s);
    SerialsMember(n.finished, id, t);
    hide Serials;
  }

  lemma Births(e: Engine, ev: Event, env: Env, s: nat, id: Id)
    requires Orderly(e) && !Known(e, id) && FreshIds(e, ev)
    requires (s, id) in Step(e, ev, env).engine.finished && IdOk(Step(e, ev, env).engine, id)
    ensures Origin(e, ev, env, Step(e, ev, env).engine, s, id)
  {
    var v := BirthVerdict(e, id, ev, env);
    if v.None? {
      UnknownStays(e, ev, env, s, id);
    } else {
      hide Orderly, IdOk;
      if ev.SendFile? { SendFileBirth(e, id, ev.file, env); } else { StartBirth(e, ev.frame, env); }
      hide StepSendFile, StepStart, Stillborn;
      OnlyRecord(Step(e, ev, env).engine, id, s, e.next);
    }
    hide Step, Orderly, Serials, BirthVerdict, Stillborn;
  }

  // -- whole runs ---------------------------------------------------------------------------------------------

  type Steps = seq<(Event, Env)>

  /** The engine before step k, and after it. */
  function Before(e: Engine, steps: Steps, k: nat): Engine
    requires k <= |steps|
  {
    Run(e, steps[..k])
  }

  lemma NoSteps(e: Engine)
    ensures Run(e, []) == e
  {
  }

  lemma {:induction false} RunsOn(e: Engine, steps: Steps, k: nat)
    requires k < |steps|
    ensures Before(e, steps, k + 1) == Step(Before(e, steps, k), steps[k].0, steps[k].1).engine
    decreases k
  {
    hide Step;
    if k == 0 {
      assert steps[..1][1..] == [] && steps[..1][0] == steps[0] && steps[..0] == [];
      NoSteps(Step(e, steps[0].0, steps[0].1).engine);
      NoSteps(e);
    } else {
      assert steps[..k + 1][0] == steps[0] && steps[..k + 1][1..] == steps[1..][..k];
      assert steps[..k][0] == steps[0] && steps[..k][1..] == steps[1..][..k - 1];
      RunsOn(Step(e, steps[0].0, steps[0].1).engine, steps[1..], k - 1);
    }
  }

  lemma {:induction false} SplitFresh(e: Engine, steps: Steps, k: nat)
    requires FreshRun(e, steps) && k <= |steps|
    ensures FreshRun(e, steps[..k]) && FreshRun(Before(e, steps, k), steps[k..])
    ensures Run(e, steps) == Run(Before(e, steps, k), steps[k..])
    decreases k
  {
    hide Step;
    if k > 0 {
      assert steps[..k][0] == steps[0] && steps[..k][1..] == steps[1..][..k - 1] && steps[k..] == steps[1..][k - 1..];
      SplitFresh(Step(e, steps[0].0, steps[0].1).engine, steps[1..], k - 1);
    } else {
      assert steps[0..] == steps;
    }
  }

  /** In order before step k, which is fresh; and what its step leaves in the history is there at the end. */
  lemma At(e: Engine, steps: Steps, k: nat, s: nat, id: Id)
    requires Orderly(e) && FreshRun(e, steps) && k < |steps|
    ensures var w, n := Before(e, steps, k), Before(e, steps, k + 1);
            && n == Step(w, steps[k].0, steps[k].1).engine && Orderly(w) && Orderly(n) && FreshIds(w, steps[k].0)
            && ((s, id) in n.finished ==>
                  (s, id) in Run(e, steps).finished && Run(e, steps).finished[(s, id)] == n.finished[(s, id)])
  {
    hide Orderly, FreshIds, Step, Run;
    RunsOn(e, steps, k);
    SplitFresh(e, steps, k);
    SplitFresh(e, steps, k + 1);
    FinishedIsFinal(e, steps[..k], id);
    FinishedIsFinal(e, steps[..k + 1], id);
    var n := Before(e, steps, k + 1);
    FinishedIsFinal(n, steps[k + 1..], id);
    if (s, id) in n.finished {
      SerialsMember(n.finished, id, s);
      assert IdMove(n, Run(n, steps[k + 1..]), id);
    }
    hide Serials;
  }

  /** The step that put a record into the history. */
  lemma {:induction false} Written(e: Engine, steps: Steps, s: nat, id: Id) returns (k: nat)
    requires (s, id) !in e.finished && (s, id) in Run(e, steps).finished
    ensures k < |steps| && (s, id) !in Before(e, steps, k).finished && (s, id) in Before(e, steps, k + 1).finished
    decreases |steps|
  {
    hide Step;
    var n := Step(e, steps[0].0, steps[0].1).engine;
    if (s, id) in n.finished {
      k := 0;
      RunsOn(e, steps, 0);
    } else {
      var j := Written(n, steps[1..], s, id);
      k := j + 1;
      assert steps[..k][0] == steps[0] && steps[..k][1..] == steps[1..][..j];
      assert steps[..k + 1][0] == steps[0] && steps[..k + 1][1..] == steps[1..][..j + 1];
    }
  }

  /** Every record in the history of a fresh run was written by one step, for a reason that says what it is. */
  lemma EveryRecordHasAnOrigin(hasConsent: bool, maxBytes: nat, steps: Steps, s: nat, id: Id) returns (k: nat)
    requires FreshRun(NewEngine(hasConsent, maxBytes), steps)
    requires (s, id) in Run(NewEngine(hasConsent, maxBytes), steps).finished
    ensures k < |steps|
    ensures var e := NewEngine(hasConsent, maxBytes);
            && (s, id) in Before(e, steps, k + 1).finished
            && Origin(Before(e, steps, k), steps[k].0, steps[k].1, Before(e, steps, k + 1), s, id)
            && Run(e, steps).finished[(s, id)] == Before(e, steps, k + 1).finished[(s, id)]
  {
    var e := NewEngine(hasConsent, maxBytes);
    NewOrderly(hasConsent, maxBytes);
    k := Written(e, steps, s, id);
    At(e, steps, k, s, id);
    NewRecords(Before(e, steps, k), steps[k].0, steps[k].1, s, id);
    hide Origin, Orderly, FreshIds, Run, Step, Before;
  }

  // -- which side a record is of ------------------------------------------------------------------------------

  predicate Sided(e: Engine) {
    && (forall i :: i in e.outgoing ==> e.outgoing[i].rec.direction.Send?)
    && (forall i :: i in e.incoming ==> e.incoming[i].rec.direction.Receive?)
  }

  lemma WaitingSided(e: Engine, ev: Event, env: Env)
    requires Sided(e) && ev.Sending() && !ev.SendChunk? && !ev.Continue? && !ev.ReadDone?
    ensures Sided(StepSender(e, ev, env).engine)
  {
    hide Finalise, OrDefaultMime, Cut;
  }

  lemma ChunkSided(e: Engine, id: Id, env: Env)
    requires Sided(e)
    ensures Sided(StepSendChunk(e, id, env).engine)
  {
    hide Finalise, ChunkCodec.Encode, ChunkCodec.ValidId;
  }

  lemma EndingSided(e: Engine, ev: Event, env: Env)
    requires Sided(e) && (ev.Continue? || ev.ReadDone?)
    ensures Sided(StepSender(e, ev, env).engine)
  {
    hide Finalise, Cut;
  }

  lemma HearingSided(e: Engine, f: Frame, env: Env)
    requires Sided(e)
    ensures Sided(StepDeliver(e, f, env).engine)
  {
    hide Finalise, OrDefaultMime, ChunkCodec.Decode, Flatten;
  }

  lemma StepSided(e: Engine, ev: Event, env: Env)
    requires Sided(e)
    ensures Sided(Step(e, ev, env).engine)
  {
    hide StepDeliver, StepSendChunk, Finalise;
    if ev.SendChunk? { ChunkSided(e, ev.id, env); assert StepSender(e, ev, env) == StepSendChunk(e, ev.id, env); }
    else if ev.Continue? || ev.ReadDone? { EndingSided(e, ev, env); }
    else if ev.Sending() { WaitingSided(e, ev, env); }
    if ev.Deliver? { HearingSided(e, ev.frame, env); }
  }

  lemma {:induction false} RunSided(e: Engine, steps: Steps)
    requires Sided(e)
    ensures Sided(Run(e, steps))
    decreases |steps|
  {
    hide Step, Sided;
    if steps != [] {
      StepSided(e, steps[0].0, steps[0].1);
      RunSided(Step(e, steps[0].0, steps[0].1).engine, steps[1..]);
    }
  }

  // -- complete ---------------------------------------------------------------------------------------------------

  /** Step k hands over a file for that record. */
  predicate Emits(e: Engine, steps: Steps, k: nat, s: nat, id: Id) {
    && k < |steps|
    && var files := Step(Before(e, steps, k), steps[k].0, steps[k].1).files;
       files != [] && files[0].serial == s && files[0].id == id
  }

  /**
   * In every run with fresh ids: the record of a transfer received is complete exactly if a file has been emitted for
   * it.
   */
  lemma ReceivedIsComplete(hasConsent: bool, maxBytes: nat, steps: Steps, s: nat, id: Id)
    requires FreshRun(NewEngine(hasConsent, maxBytes), steps)
    ensures var e := NewEngine(hasConsent, maxBytes);
            (exists k :: Emits(e, steps, k, s, id))
            <==> (s, id) in Run(e, steps).finished && Run(e, steps).finished[(s, id)].direction.Receive?
                 && Run(e, steps).finished[(s, id)].status.Complete?
  {
    var e := NewEngine(hasConsent, maxBytes);
    NewOrderly(hasConsent, maxBytes);
    hide Run, Step, Orderly, FreshIds;
    if k: nat :| Emits(e, steps, k, s, id) {
      At(e, steps, k, s, id);
      var w := Before(e, steps, k);
      RunSided(e, steps[..k]);
      EmitsWhenComplete(w, steps[k].0, steps[k].1);
      CurrentPrompts(w, id);
      RecvEnds(w, steps[k].0, steps[k].1, id);
      hide RecvVerdict, Before;
    }
    if (s, id) in Run(e, steps).finished {
      var k := EveryRecordHasAnOrigin(hasConsent, maxBytes, steps, s, id);
      RunSided(e, steps[..k]);
      var w := Before(e, steps, k);
      EmitsWhenComplete(w, steps[k].0, steps[k].1);
      CompleteOrigin(w, steps[k].0, steps[k].1, Before(e, steps, k + 1), s, id);
      assert Run(e, steps).finished[(s, id)].status.Complete? && Run(e, steps).finished[(s, id)].direction.Receive?
             ==> Emits(e, steps, k, s, id);
      hide Origin, Before, RecvVerdict, SendVerdict;
    }
  }

  lemma CurrentPrompts(e: Engine, id: Id)
    requires Orderly(e)
    ensures id in e.incoming ==>
              && id !in e.outgoing
              && forall s :: s in e.prompts && e.prompts[s].id == id ==> s == e.incoming[id].rec.serial
  {
    assert IdOk(e, id);
    hide Serials;
  }

  /** A record that is complete when it is written is of a transfer just completed. */
  lemma CompleteOrigin(e: Engine, ev: Event, env: Env, n: Engine, s: nat, id: Id)
    requires Sided(e) && (s, id) in n.finished && Origin(e, ev, env, n, s, id)
    ensures var rec := n.finished[(s, id)];
            rec.status.Complete? ==>
              if rec.direction.Send? then
                id in e.outgoing && e.outgoing[id].rec.serial == s && AtEnd(e.outgoing[id], ev, id)
                && rec.bytes == e.outgoing[id].rec.bytes
              else
                id in e.incoming && id !in e.outgoing && e.incoming[id].rec.serial == s
                && RecvVerdict(e, id, ev, env) == Some(Verdict(Complete, None))
  {
    hide Known, AtEnd, ChunkCodec.Decode, ChunkCodec.ValidId, Serials;
  }

  // -- complete, on the sending side ----------------------------------------------------------------------------

  /** Step k ends the stream of that record, with all of it sent. */
  predicate Ends(e: Engine, steps: Steps, k: nat, s: nat, id: Id) {
    && k < |steps|
    && var w := Before(e, steps, k);
       id in w.outgoing && w.outgoing[id].rec.serial == s && AtEnd(w.outgoing[id], steps[k].0, id)
  }

  lemma NotAgain(e: Engine, ev: Event, id: Id)
    requires FreshIds(e, ev) && id in e.outgoing && Orderly(e)
    ensures !(ev.SendFile? && ev.id == id) && id !in e.incoming
  {
    assert IdOk(e, id);
    hide Serials;
  }

  /**
   * In every run with fresh ids: the record of a transfer sent is complete exactly if its stream has ended, with all of
   * it sent.
   */
  lemma SentIsComplete(hasConsent: bool, maxBytes: nat, steps: Steps, s: nat, id: Id)
    requires FreshRun(NewEngine(hasConsent, maxBytes), steps)
    ensures var e := NewEngine(hasConsent, maxBytes);
            (exists k :: Ends(e, steps, k, s, id))
            <==> (s, id) in Run(e, steps).finished && Run(e, steps).finished[(s, id)].direction.Send?
                 && Run(e, steps).finished[(s, id)].status.Complete?
  {
    var e := NewEngine(hasConsent, maxBytes);
    NewOrderly(hasConsent, maxBytes);
    hide Run, Step, Orderly, FreshIds, AtEnd;
    if k: nat :| Ends(e, steps, k, s, id) {
      At(e, steps, k, s, id);
      var w := Before(e, steps, k);
      RunSided(e, steps[..k]);
      NotAgain(w, steps[k].0, id);
      SendEnds(w, steps[k].0, steps[k].1, id);
      hide Before;
    }
    if (s, id) in Run(e, steps).finished {
      var k := EveryRecordHasAnOrigin(hasConsent, maxBytes, steps, s, id);
      RunSided(e, steps[..k]);
      CompleteOrigin(Before(e, steps, k), steps[k].0, steps[k].1, Before(e, steps, k + 1), s, id);
      assert Run(e, steps).finished[(s, id)].status.Complete? && Run(e, steps).finished[(s, id)].direction.Send?
             ==> Ends(e, steps, k, s, id);
      hide Origin, Before, RecvVerdict, SendVerdict;
    }
  }

  // -- and what has been sent by then ---------------------------------------------------------------------------

  /** What has been sent of a live transfer, and what is left of it, are its stream; of an unknown one, nothing. */
  ghost predicate SentSoFar(e: Engine, id: Id, done: seq<seq<byte>>) {
    match SV(e, id)
    case Some(v) => Split(v.file.content) == done + Split(v.todo) && v.bytes + |v.todo| == |v.file.content|
    case None => !Known(e, id) ==> done == []
  }

  lemma StillUnknown(e: Engine, ev: Event, env: Env, id: Id)
    requires Orderly(e) && FreshIds(e, ev) && Known(e, id)
    ensures Known(Step(e, ev, env).engine, id)
  {
    StepSettles(e, ev, env);
    var n := Step(e, ev, env).engine;
    assert IdMove(e, n, id);
    hide Step, Orderly;
    if IsFinished(e, id) {
      var s :| s in Serials(e.finished, id);
      assert s in Serials(n.finished, id);
    } else if id in e.outgoing {
      SerialsMember(n.finished, id, e.outgoing[id].rec.serial);
    } else {
      SerialsMember(n.finished, id, e.incoming[id].rec.serial);
    }
    hide Serials;
  }

  lemma SentStep(e: Engine, ev: Event, env: Env, id: Id, done: seq<seq<byte>>)
    requires Orderly(e) && SenderInv(e) && FreshIds(e, ev) && SentSoFar(e, id, done)
    ensures var r := Step(e, ev, env); SentSoFar(r.engine, id, done + Payloads(r.sent, id)) && SenderInv(r.engine)
  {
    var r := Step(e, ev, env);
    assert ReceiverInv(e);
    assert ev.SendFile? ==> ev.id !in e.outgoing;
    if Known(e, id) { StillUnknown(e, ev, env, id); }
    hide Step, Orderly, ReceiverInv, Split, ChunkCodec.Decode;
    if ev.SendFile? && ev.id == id {
      Announces(e, id, ev.file, env);
      StepMoves(e, ev, env, id);
      hide SenderInv, RecvMove, Streaming, FreshIds, Of, Serials;
      assert done + Payloads(r.sent, id) == done;
      NewlyAnnounced(e, r, ev, id, done);
    } else {
      var content := if SV(e, id).Some? then SV(e, id).value.file.content else [];
      StreamOrNot(e, id, done, content);
      assert SV(e, id).Some? ==> Known(e, id);
      StepMoves(e, ev, env, id);
      hide SenderInv, RecvMove, FreshIds, SV, Serials, NoUse;
      if SV(e, id).Some? || !Known(e, id) { StreamStep(e, ev, env, id, content, done); }
      Followed(e, r, ev, id, done, content);
    }
  }

  lemma StreamOrNot(e: Engine, id: Id, done: seq<seq<byte>>, content: seq<byte>)
    requires SentSoFar(e, id, done) && content == if SV(e, id).Some? then SV(e, id).value.file.content else []
    ensures SV(e, id).Some? || !Known(e, id) ==> Streaming(e, id, content, done)
  {
    hide Known, SV;
  }

  lemma NewlyAnnounced(e: Engine, r: Out, ev: Event, id: Id, done: seq<seq<byte>>)
    requires ev.SendFile? && ev.id == id && SV(e, id).None? && !Known(e, id) && done == []
    requires SendMove(id, SV(e, id), SV(r.engine, id), Of(r.sent, id), ev)
    requires SV(r.engine, id).None? ==> done + Payloads(r.sent, id) == done
    requires Payloads(r.sent, id) == []
    ensures SentSoFar(r.engine, id, done + Payloads(r.sent, id))
  {
    hide SV, Known, Of, Payloads;
    assert done + [] == [];
    if SV(r.engine, id).Some? { assert [] + Split(ev.file.content) == Split(ev.file.content); }
    hide Split;
  }

  lemma Followed(e: Engine, r: Out, ev: Event, id: Id, done: seq<seq<byte>>, content: seq<byte>)
    requires SentSoFar(e, id, done) && content == if SV(e, id).Some? then SV(e, id).value.file.content else []
    requires SendMove(id, SV(e, id), SV(r.engine, id), Of(r.sent, id), ev) && !(ev.SendFile? && ev.id == id)
    requires SV(e, id).Some? || !Known(e, id) ==> Streaming(r.engine, id, content, done + Payloads(r.sent, id))
    requires (Known(e, id) ==> Known(r.engine, id)) && (SV(e, id).Some? ==> Known(e, id))
    ensures SentSoFar(r.engine, id, done + Payloads(r.sent, id))
  {
    hide SV, Known, Of, Payloads, NoUse, ChunkCodec.Decode;
    assert Split([]) == [];
    hide Split;
  }

  lemma {:induction false} SentRun(e: Engine, steps: Steps, id: Id, done: seq<seq<byte>>)
    requires Orderly(e) && SenderInv(e) && FreshRun(e, steps) && SentSoFar(e, id, done)
    ensures SentSoFar(Run(e, steps), id, done + Payloads(EngineSent(e, steps), id)) && SenderInv(Run(e, steps))
    decreases |steps|
  {
    hide Orderly, SenderInv, Step, SentSoFar, FreshIds, Payloads;
    if steps == [] {
      assert Payloads([], id) == [] by { NoPayloads(id); }
      assert done + [] == done;
    } else {
      var r := Step(e, steps[0].0, steps[0].1);
      SentStep(e, steps[0].0, steps[0].1, id, done);
      StepSettles(e, steps[0].0, steps[0].1);
      SentRun(r.engine, steps[1..], id, done + Payloads(r.sent, id));
      PayloadsAppend(r.sent, EngineSent(r.engine, steps[1..]), id);
      assert done + Payloads(r.sent, id) + Payloads(EngineSent(r.engine, steps[1..]), id)
          == done + Payloads(EngineSent(e, steps), id);
    }
  }

  lemma NoPayloads(id: Id)
    ensures Payloads([], id) == []
  {
  }

  /** When its stream ends, a transfer has sent all of it: every chunk of the canonical split, every byte counted. */
  lemma EndedHasSentAll(hasConsent: bool, maxBytes: nat, steps: Steps, k: nat, s: nat, id: Id)
    requires FreshRun(NewEngine(hasConsent, maxBytes), steps) && Ends(NewEngine(hasConsent, maxBytes), steps, k, s, id)
    ensures var e := NewEngine(hasConsent, maxBytes);
            var o := Before(e, steps, k).outgoing[id];
            Payloads(EngineSent(e, steps[..k]), id) == Split(o.file.content) && o.rec.bytes == |o.file.content|
  {
    var e := NewEngine(hasConsent, maxBytes);
    NewOrderly(hasConsent, maxBytes);
    SplitFresh(e, steps, k);
    assert SenderInv(e) && SentSoFar(e, id, []) by { FreshEngine(hasConsent, maxBytes, id); }
    hide Run, Orderly, EngineSent, Payloads, FreshRun;
    SentRun(e, steps[..k], id, []);
    var done := Payloads(EngineSent(e, steps[..k]), id);
    assert [] + done == done;
    var w := Before(e, steps, k);
    assert OutOk(w.outgoing[id]);
    assert SV(w, id).value.todo == [];
    assert Split([]) == [];
    assert done + [] == done;
    hide Split, Known;
  }

  // -- teardown and cancel, for good ----------------------------------------------------------------------------

  /** That transfer is in the history with that verdict, and stays there unchanged whatever follows. */
  ghost predicate SettledFor(was: Record, id: Id, n: Engine, v: Verdict) {
    && id !in n.outgoing && id !in n.incoming && (was.serial, id) in n.finished
    && Closes(was, n.finished[(was.serial, id)], v)
    && forall after: Steps :: FreshRun(n, after) ==>
         (was.serial, id) in Run(n, after).finished
         && Run(n, after).finished[(was.serial, id)] == n.finished[(was.serial, id)]
  }

  lemma StaysSettled(was: Record, id: Id, n: Engine, v: Verdict)
    requires Orderly(n) && (was.serial, id) in n.finished && Closes(was, n.finished[(was.serial, id)], v)
    ensures SettledFor(was, id, n, v)
  {
    SerialsMember(n.finished, id, was.serial);
    assert IdOk(n, id);
    hide Orderly, Closes, Serials;
    forall after: Steps | FreshRun(n, after)
      ensures (was.serial, id) in Run(n, after).finished
      ensures Run(n, after).finished[(was.serial, id)] == n.finished[(was.serial, id)]
    {
      FinishedIsFinal(n, after, id);
      hide Run, FreshRun;
    }
  }

  /** What ends a transfer does so for good. */
  lemma EndsForGood(e: Engine, ev: Event, env: Env, id: Id)
    requires Orderly(e) && FreshIds(e, ev)
    ensures var n := Step(e, ev, env).engine;
            && (id in e.outgoing && SendVerdict(e.outgoing[id], id, ev, env, e.disposed).Some? ==>
                  SettledFor(e.outgoing[id].rec, id, n,
                             SendVerdict(e.outgoing[id], id, ev, env, e.disposed).value))
            && (id in e.incoming && RecvVerdict(e, id, ev, env).Some? ==>
                  SettledFor(e.incoming[id].rec, id, n, RecvVerdict(e, id, ev, env).value))
  {
    var n := Step(e, ev, env).engine;
    StepSettles(e, ev, env);
    CurrentPrompts(e, id);
    hide Step, Orderly, SendVerdict, RecvVerdict, Closes, SettledFor;
    if id in e.outgoing {
      NotAgain(e, ev, id);
      SendEnds(e, ev, env, id);
      if SendVerdict(e.outgoing[id], id, ev, env, e.disposed).Some? {
        StaysSettled(e.outgoing[id].rec, id, n, SendVerdict(e.outgoing[id], id, ev, env, e.disposed).value);
      }
    } else if id in e.incoming {
      RecvEnds(e, ev, env, id);
      if RecvVerdict(e, id, ev, env).Some? {
        StaysSettled(e.incoming[id].rec, id, n, RecvVerdict(e, id, ev, env).value);
      }
    }
    hide FreshIds;
  }

  /** A live transfer's record. */
  function LiveRecord(e: Engine, id: Id): Option<Record> {
    if id in e.outgoing then Some(e.outgoing[id].rec)
    else if id in e.incoming then Some(e.incoming[id].rec)
    else None
  }

  /** The outcomes of the three. */
  lemma TeardownVerdicts(e: Engine, env: Env, id: Id, reason: Reason)
    requires !e.disposed
    ensures id in e.outgoing ==>
              var o := e.outgoing[id];
              && SendVerdict(o, id, Closed, env, e.disposed) == Some(Verdict(Failed, Some(Error)))
              && SendVerdict(o, id, Dispose, env, e.disposed) == Some(Verdict(Cancelled, Some(UserCancelled)))
              && SendVerdict(o, id, CancelLocal(id, reason), env, e.disposed) == Some(Verdict(Cancelled, Some(reason)))
    ensures id in e.incoming ==>
              && RecvVerdict(e, id, Closed, env) == Some(Verdict(Failed, Some(Error)))
              && RecvVerdict(e, id, Dispose, env) == Some(Verdict(Cancelled, Some(UserCancelled)))
              && RecvVerdict(e, id, CancelLocal(id, reason), env) == Some(Verdict(Cancelled, Some(reason)))
  {
  }

  lemma TornDownForGood(e: Engine, env: Env, id: Id, reason: Reason)
    requires Orderly(e) && !e.disposed && LiveRecord(e, id).Some?
    ensures var was := LiveRecord(e, id).value;
            && SettledFor(was, id, Step(e, Closed, env).engine, Verdict(Failed, Some(Error)))
            && SettledFor(was, id, Step(e, Dispose, env).engine, Verdict(Cancelled, Some(UserCancelled)))
            && SettledFor(was, id, Step(e, CancelLocal(id, reason), env).engine, Verdict(Cancelled, Some(reason)))
  {
    CurrentPrompts(e, id);
    TeardownVerdicts(e, env, id, reason);
    assert FreshIds(e, Closed) && FreshIds(e, Dispose) && FreshIds(e, CancelLocal(id, reason));
    hide Step, Orderly, SettledFor, SendVerdict, RecvVerdict, FreshIds;
    EndsForGood(e, Closed, env, id);
    EndsForGood(e, Dispose, env, id);
    EndsForGood(e, CancelLocal(id, reason), env, id);
  }

  /**
   * In every state a fresh run reaches, of an engine not disposed: a close fails every live transfer, for an error;
   * disposing it cancels every live transfer; a local cancel cancels the one it names, for the reason given. Each is in
   * the history from then on, with that outcome and nothing else changed.
   */
  lemma TeardownOutcomes(hasConsent: bool, maxBytes: nat, steps: Steps, env: Env, id: Id, reason: Reason)
    requires FreshRun(NewEngine(hasConsent, maxBytes), steps) && !Run(NewEngine(hasConsent, maxBytes), steps).disposed
    ensures var e := Run(NewEngine(hasConsent, maxBytes), steps);
            LiveRecord(e, id).Some? ==>
              var was := LiveRecord(e, id).value;
              && SettledFor(was, id, Step(e, Closed, env).engine, Verdict(Failed, Some(Error)))
              && SettledFor(was, id, Step(e, Dispose, env).engine, Verdict(Cancelled, Some(UserCancelled)))
              && SettledFor(was, id, Step(e, CancelLocal(id, reason), env).engine, Verdict(Cancelled, Some(reason)))
  {
    hide Run, Step, Orderly, SettledFor, FreshRun, LiveRecord;
    var e := Run(NewEngine(hasConsent, maxBytes), steps);
    NewOrderly(hasConsent, maxBytes);
    FinishedIsFinal(NewEngine(hasConsent, maxBytes), steps, id);
    if LiveRecord(e, id).Some? { TornDownForGood(e, env, id, reason); }
  }
}
