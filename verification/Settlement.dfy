/**
 * Settlement: as long as ids are not reused, every transfer is in exactly one of outgoing, incoming and
 * finished, moves forward only, is finalised once, and its record never changes afterwards.
 */
module Settlement {
  import opened Common
  import opened ChunkCodec
  import opened TransferSpec
  import opened ReceiverInvariant

  /** Announcements carry ids of which no finished record exists, and sendFile an id not used at all. */
  ghost predicate FreshIds(e: Engine, ev: Event) {
    match ev
    case SendFile(id, _) => !Known(e, id)
    case Deliver(f) => f.StartFrame? ==> !IsFinished(e, f.id)
    case _ => true
  }

  /** The finished record objects of `id`. */
  function Serials(fin: map<RecordKey, Record>, id: Id): set<nat> {
    set k | k in fin && k.1 == id :: k.0
  }

  lemma SerialsMember(fin: map<RecordKey, Record>, id: Id, s: nat)
    ensures s in Serials(fin, id) <==> (s, id) in fin
  {
    if (s, id) in fin {
      var k := (s, id);
      assert k in fin && k.1 == id && k.0 == s;
    }
  }

  lemma SerialsUpdate(fin: map<RecordKey, Record>, s: nat, own: Id, rec: Record, id: Id)
    ensures Serials(fin[(s, own) := rec], id) == Serials(fin, id) + (if own == id then {s} else {})
  {
    var fin' := fin[(s, own) := rec];
    forall t ensures t in Serials(fin', id) <==> t in Serials(fin, id) || (own == id && t == s) {
      SerialsMember(fin', id, t);
      SerialsMember(fin, id, t);
    }
  }

  lemma SerialsSum(fin: map<RecordKey, Record>, more: map<RecordKey, Record>, id: Id)
    ensures Serials(fin + more, id) == Serials(fin, id) + Serials(more, id)
  {
    forall t ensures t in Serials(fin + more, id) <==> t in Serials(fin, id) || t in Serials(more, id) {
      SerialsMember(fin + more, id, t);
      SerialsMember(fin, id, t);
      SerialsMember(more, id, t);
    }
  }

  ghost predicate IsFinished(e: Engine, id: Id) { Serials(e.finished, id) != {} }

  ghost predicate Known(e: Engine, id: Id) { id in e.outgoing || id in e.incoming || IsFinished(e, id) }

  predicate PhaseStatus(o: Outgoing) {
    o.rec.status == if o.phase.Waiting? || o.phase.Answered? then Pending else Active
  }

  predicate SlotStatus(s: Incoming) { s.rec.status == if s.accepted then Active else Pending }

  /** Exactly one place for a known id, with a status that fits the place; one record object for the id. */
  ghost predicate IdOk(e: Engine, id: Id) {
    var done := Serials(e.finished, id);
    && !(id in e.outgoing && id in e.incoming)
    && (done != {} ==> id !in e.outgoing && id !in e.incoming)
    && (forall s, t :: s in done && t in done ==> s == t)
    && (forall s :: s in done ==> (s, id) in e.finished && e.finished[(s, id)].status.Terminal())
    && (forall s :: s in e.prompts && e.prompts[s].id == id ==>
        Known(e, id)
        && (id in e.incoming ==> s == e.incoming[id].rec.serial))
    && (id in e.outgoing ==> PhaseStatus(e.outgoing[id]))
    && (id in e.incoming ==> SlotStatus(e.incoming[id]))
    && Below(e, id)
  }

  /** Every record object of the id was created earlier. */
  ghost predicate Below(e: Engine, id: Id) {
    && (forall s :: s in Serials(e.finished, id) ==> s < e.next)
    && (id in e.outgoing ==> e.outgoing[id].rec.serial < e.next)
    && (id in e.incoming ==> e.incoming[id].rec.serial < e.next)
  }

  /** `now` is `was`, possibly further on: same object, same description, never back to pending. */
  predicate Forward(was: Record, now: Record) {
    && now == was.(bytes := now.bytes, status := now.status, reason := now.reason, ackedBytes := now.ackedBytes)
    && (was.status == Active ==> now.status != Pending)
    && was.bytes <= now.bytes
  }

  /** What one step may do to one transfer. */
  ghost predicate IdMove(e: Engine, e': Engine, id: Id) {
    && (forall s :: s in Serials(e.finished, id) ==>
          s in Serials(e'.finished, id) && (s, id) in e.finished && (s, id) in e'.finished
              && e'.finished[(s, id)] == e.finished[(s, id)])
    && (id in e.outgoing ==>
          var was := e.outgoing[id].rec;
          || (id in e'.outgoing && Forward(was, e'.outgoing[id].rec))
          || ((was.serial, id) in e'.finished && Forward(was, e'.finished[(was.serial, id)])))
    && (id in e.incoming ==>
          var was := e.incoming[id].rec;
          || (id in e'.incoming && Forward(was, e'.incoming[id].rec))
          || ((was.serial, id) in e'.finished && Forward(was, e'.finished[(was.serial, id)])))
  }

  ghost predicate Kept(e: Engine, e': Engine, id: Id) { IdOk(e', id) && IdMove(e, e', id) }

  lemma SerialsHave(e: Engine, id: Id)
    ensures forall s :: s in Serials(e.finished, id) ==> (s, id) in e.finished
  {
  }

  // -- the four kinds of change -------------------------------------------------

  lemma SettleOutgoingKept(e: Engine, own: Id, status: Status, reason: Option<Reason>, id: Id)
    requires IdOk(e, id) && status.Terminal()
    ensures Kept(e, SettleOutgoing(e, own, status, reason), id)
  {
    SettleOutgoingMove(e, own, status, reason, id);
    hide IdMove;
    if own in e.outgoing {
      var rec := e.outgoing[own].rec;
      SerialsUpdate(e.finished, rec.serial, own, Finalise(rec, status, reason), id);
    }
    hide Serials;
  }

  lemma SettleOutgoingMove(e: Engine, own: Id, status: Status, reason: Option<Reason>, id: Id)
    requires IdOk(e, id) && status.Terminal()
    ensures IdMove(e, SettleOutgoing(e, own, status, reason), id)
  {
    if own in e.outgoing {
      var rec := e.outgoing[own].rec;
      SerialsUpdate(e.finished, rec.serial, own, Finalise(rec, status, reason), id);
    }
    hide Serials;
  }

  lemma SettleIncomingKept(e: Engine, own: Id, status: Status, reason: Option<Reason>, id: Id)
    requires IdOk(e, id) && status.Terminal() && own in e.incoming
    ensures Kept(e, SettleIncoming(e, own, e.incoming[own].rec, status, reason), id)
  {
    var rec := e.incoming[own].rec;
    SerialsUpdate(e.finished, rec.serial, own, Finalise(rec, status, reason), id);
    hide Serials;
  }

  lemma UpdateOutgoingKept(e: Engine, own: Id, o: Outgoing, id: Id)
    requires IdOk(e, id) && own in e.outgoing && Forward(e.outgoing[own].rec, o.rec) && PhaseStatus(o)
    ensures Kept(e, e.(outgoing := e.outgoing[own := o]), id)
  {
    SerialsHave(e, id);
    hide Serials;
  }

  lemma UpdateIncomingKept(e: Engine, own: Id, s: Incoming, id: Id)
    requires IdOk(e, id) && own in e.incoming && Forward(e.incoming[own].rec, s.rec) && SlotStatus(s)
    ensures Kept(e, e.(incoming := e.incoming[own := s]), id)
  {
    SerialsHave(e, id);
    hide Serials;
  }

  // -- the sending half ---------------------------------------------------------

  ghost predicate StatusesOk(e: Engine) {
    && (forall i :: i in e.outgoing ==> PhaseStatus(e.outgoing[i]))
    && (forall i :: i in e.incoming ==> SlotStatus(e.incoming[i]))
  }

  lemma OfferedKept(e: Engine, own: Id, o: Outgoing, id: Id)
    requires IdOk(e, id) && !Known(e, own) && PhaseStatus(o) && o.rec.serial == e.next
    ensures Kept(e, e.(outgoing := e.outgoing[own := o], next := e.next + 1), id)
  {
    SerialsHave(e, id);
    hide Serials;
  }

  lemma FailedAtOnceKept(e: Engine, own: Id, rec: Record, id: Id)
    requires IdOk(e, id) && !Known(e, own) && rec.status.Terminal() && rec.serial == e.next
    ensures Kept(e, e.(finished := e.finished[(rec.serial, own) := rec], next := e.next + 1), id)
  {
    SerialsHave(e, id);
    SerialsUpdate(e.finished, rec.serial, own, rec, id);
    hide Serials;
  }

  lemma SendFileKept(e: Engine, own: Id, file: File, env: Env, id: Id)
    requires IdOk(e, id) && !Known(e, own)
    ensures Kept(e, StepSendFile(e, own, file, env).engine, id)
  {
    var rec := Record(e.next, own, Send, file.name, OrDefaultMime(file.mime), file.size, 0, Pending, None, 0);
    var o := Outgoing(rec, file, Waiting, file.content);
    var e' := StepSendFile(e, own, file, env).engine;
    assert own !in e.outgoing;
    hide OrDefaultMime, IdOk, Kept, Known;
    if env.open && env.ok {
      assert e' == e.(outgoing := e.outgoing[own := o], next := e.next + 1);
      OfferedKept(e, own, o, id);
    } else {
      assert e.outgoing[own := o] - {own} == e.outgoing;
      assert e' == e.(finished := e.finished[(e.next, own) := Finalise(rec, Failed, Some(Error))], next := e.next + 1);
      FailedAtOnceKept(e, own, Finalise(rec, Failed, Some(Error)), id);
    }
  }

  lemma AnswerWaitKept(e: Engine, own: Id, accept: bool, id: Id)
    requires IdOk(e, id) && StatusesOk(e)
    ensures Kept(e, StepAcceptAnswer(e, own, accept).engine, id)
  {
    hide IdOk; hide IdMove;
    if own in e.outgoing && e.outgoing[own].phase.Waiting? {
      UpdateOutgoingKept(e, own, e.outgoing[own].(phase := Answered(accept)), id);
    } else { Same(e, id); }
  }

  lemma Same(e: Engine, id: Id)
    requires IdOk(e, id)
    ensures Kept(e, e, id)
  {
    SerialsHave(e, id);
    hide Serials;
  }

  lemma ResumeKept(e: Engine, own: Id, id: Id)
    requires IdOk(e, id) && StatusesOk(e)
    ensures Kept(e, StepResume(e, own).engine, id)
  {
    hide Kept; hide IdOk; hide SettleOutgoing;
    if own in e.outgoing && e.outgoing[own].phase.Answered? {
      var o := e.outgoing[own];
      if o.phase.accept {
        UpdateOutgoingKept(e, own, o.(rec := o.rec.(status := Active), phase := Reading([])), id);
      } else {
        SettleOutgoingKept(e, own, Cancelled, Some(Declined), id);
      }
    } else { Same(e, id); }
  }

  lemma ReadKept(e: Engine, own: Id, count: nat, env: Env, id: Id)
    requires IdOk(e, id) && StatusesOk(e)
    ensures Kept(e, StepRead(e, own, count, env).engine, id)
  {
    hide Kept; hide IdOk;
    var r := StepRead(e, own, count, env).engine;
    if own in e.outgoing && r != e {
      UpdateOutgoingKept(e, own, r.outgoing[own], id);
    } else { Same(e, id); }
  }

  lemma FinishKept(e: Engine, own: Id, env: Env, id: Id)
    requires IdOk(e, id)
    ensures Kept(e, Finish(e, own, env).engine, id)
  {
    SettleOutgoingKept(e, own, Complete, None, id);
  }

  lemma ReadDoneKept(e: Engine, own: Id, env: Env, id: Id)
    requires IdOk(e, id) && StatusesOk(e)
    ensures Kept(e, StepReadDone(e, own, env).engine, id)
  {
    hide Kept; hide IdOk; hide Finish;
    if own in e.outgoing && e.outgoing[own].phase.Reading? && e.outgoing[own].unread == [] {
      var o := e.outgoing[own];
      if o.phase.carry == [] {
        FinishKept(e, own, env, id);
      } else {
        UpdateOutgoingKept(e, own, o.(phase := Draining(o.phase.carry, [], true, env.buffered > HIGH_WATER)), id);
      }
    } else { Same(e, id); }
  }

  lemma ReadFailKept(e: Engine, own: Id, id: Id)
    requires IdOk(e, id)
    ensures Kept(e, StepReadFail(e, own).engine, id)
  {
    hide Kept; hide IdOk; hide SettleOutgoing;
    SettleOutgoingKept(e, own, Failed, Some(Error), id);
    Same(e, id);
  }

  lemma SendChunkKept(e: Engine, own: Id, env: Env, id: Id)
    requires IdOk(e, id) && StatusesOk(e)
    ensures Kept(e, StepSendChunk(e, own, env).engine, id)
  {
    hide Kept; hide IdOk; hide SettleOutgoing; hide ChunkCodec.Encode; hide ChunkCodec.ValidId;
    SettleOutgoingKept(e, own, Failed, Some(Error), id);
    Same(e, id);
    if own in e.outgoing && e.outgoing[own].phase.Draining? {
      var o := e.outgoing[own];
      UpdateOutgoingKept(e, own, o.(rec := o.rec.(bytes := o.rec.bytes + |o.phase.chunk|), phase :=
          Sent(o.phase.rest, o.phase.last)), id);
    }
  }

  lemma ContinueKept(e: Engine, own: Id, env: Env, id: Id)
    requires IdOk(e, id) && StatusesOk(e)
    ensures Kept(e, StepContinue(e, own, env).engine, id)
  {
    hide Kept; hide IdOk; hide Finish;
    if own in e.outgoing && e.outgoing[own].phase.Sent? {
      var o := e.outgoing[own];
      if o.phase.last {
        FinishKept(e, own, env, id);
      } else {
        UpdateOutgoingKept(e, own, o.(phase := Cut(o.phase.rest, env)), id);
      }
    } else { Same(e, id); }
  }

  lemma UnparkKept(e: Engine, id: Id)
    requires IdOk(e, id)
    ensures Kept(e, UnparkAll(e), id)
  {
    SerialsHave(e, id);
    hide Serials;
  }

  // -- the receiving half -------------------------------------------------------

  lemma StartKept(e: Engine, f: Frame, env: Env, id: Id)
    requires IdOk(e, id) && f.StartFrame? && IdOk(e, f.id) && !IsFinished(e, f.id)
    requires e.next !in e.prompts
    ensures Kept(e, StepStart(e, f, env).engine, id)
  {
    if f.id in e.incoming || f.id in e.outgoing {
      Same(e, id);
    } else {
      var e' := StepStart(e, f, env).engine;
      StartOffers(e, f, env);
      hide StepStart; hide Offered;
      OfferedOk(e, e', f.id, id);
      OfferedMove(e, e', f.id, id);
      hide IdOk; hide IdMove;
    }
  }

  /** A new offer: live under its id, or one terminal record of the next serial; prompts only for live offers. */
  ghost predicate Offered(e: Engine, e': Engine, own: Id) {
    && e'.outgoing == e.outgoing && e'.next == e.next + 1
    && e'.incoming - {own} == e.incoming - {own}
    && (if own in e'.incoming then e'.finished == e.finished && SlotStatus(e'.incoming[own])
        && e'.incoming[own].rec.serial == e.next
        else OneTerminal(e, e', own))
    && (forall s :: s in e'.prompts ==>
        (s in e.prompts && e'.prompts[s] == e.prompts[s])
        || (s == e.next && e'.prompts[s].id == own && own in e'.incoming))
  }

  lemma StartPrompts(e: Engine, f: Frame, env: Env)
    requires f.StartFrame? && f.id !in e.incoming && f.id !in e.outgoing
    ensures var r := StepStart(e, f, env).engine;
            && r.incoming - {f.id} == e.incoming - {f.id} && r.outgoing == e.outgoing && r.next == e.next + 1
            && (forall s :: s in r.prompts ==>
                  (s in e.prompts && r.prompts[s] == e.prompts[s])
                      || (s == e.next && r.prompts[s].id == f.id && f.id in r.incoming))
  {
    hide OrDefaultMime, Finalise;
  }

  lemma StartOffers(e: Engine, f: Frame, env: Env)
    requires f.StartFrame? && f.id !in e.incoming && f.id !in e.outgoing
    ensures Offered(e, StepStart(e, f, env).engine, f.id)
  {
    StartHistory(e, f, env);
    StartPrompts(e, f, env);
    hide StepStart, OneTerminal, SlotStatus;
  }

  ghost predicate OneTerminal(e: Engine, e': Engine, own: Id) {
    exists rec: Record :: rec.status.Terminal() && e'.finished == e.finished[(e.next, own) := rec]
  }

  lemma StartHistory(e: Engine, f: Frame, env: Env)
    requires f.StartFrame? && f.id !in e.incoming && f.id !in e.outgoing
    ensures var e' := StepStart(e, f, env).engine;
            if f.id in e'.incoming then e'.finished == e.finished && SlotStatus(e'.incoming[f.id])
                && e'.incoming[f.id].rec.serial == e.next
            else OneTerminal(e, e', f.id)
  {
    hide SameSender; hide OrDefaultMime; hide OneTerminal;
    RefuseHistory(e, f, Error, env);
    RefuseHistory(e, f, TooLarge, env);
    var rec := Record(e.next, f.id, Receive, f.name, OrDefaultMime(f.mime), f.size, 0, Pending, None, 0);
    DeclineHistory(e, f.id, rec);
    hide Refuse; hide SettleIncoming;
  }

  lemma RefuseHistory(e: Engine, f: Frame, reason: Reason, env: Env)
    requires f.StartFrame?
    ensures OneTerminal(e, Refuse(e, f, reason, env).engine, f.id)
    ensures Refuse(e, f, reason, env).engine.incoming == e.incoming
  {
    hide OrDefaultMime; hide SameSender;
    var rec := Record(e.next, f.id, Receive, f.name, OrDefaultMime(f.mime), f.size, 0, Failed, Some(reason), 0);
    assert rec.status.Terminal();
  }

  lemma DeclineHistory(e: Engine, id: Id, rec: Record)
    requires rec.serial == e.next
    ensures var e' :=
        SettleIncoming(e.(incoming := e.incoming[id := Incoming(rec, [], 0, 0, false)], next := e.next + 1), id, rec,
        Cancelled, Some(Declined));
            OneTerminal(e, e', id) && id !in e'.incoming
  {
    assert Finalise(rec, Cancelled, Some(Declined)).status.Terminal();
  }

  lemma OfferedOk(e: Engine, e': Engine, own: Id, id: Id)
    requires Offered(e, e', own) && IdOk(e, id) && !Known(e, own) && IdOk(e, own)
    ensures IdOk(e', id)
  {
    if own !in e'.incoming {
      var rec: Record :| rec.status.Terminal() && e'.finished == e.finished[(e.next, own) := rec];
      SerialsUpdate(e.finished, e.next, own, rec, id);
    }
    assert id != own ==>
        (id in e'.incoming <==> id in e'.incoming - {own})
        && (id in e.incoming <==> id in e.incoming - {own});
    hide Serials;
  }

  lemma OfferedMove(e: Engine, e': Engine, own: Id, id: Id)
    requires Offered(e, e', own) && IdOk(e, id) && !Known(e, own)
    ensures IdMove(e, e', id)
  {
    if own !in e'.incoming {
      var rec: Record :| rec.status.Terminal() && e'.finished == e.finished[(e.next, own) := rec];
      SerialsUpdate(e.finished, e.next, own, rec, id);
    }
    assert id != own ==>
        (id in e'.incoming <==> id in e'.incoming - {own})
        && (id in e.incoming <==> id in e.incoming - {own});
    hide Serials;
  }

  lemma AnswerKept(e: Engine, serial: nat, accept: bool, env: Env, id: Id)
    requires IdOk(e, id) && StatusesOk(e)
    requires serial in e.prompts ==> IdOk(e, e.prompts[serial].id)
    ensures Kept(e, StepAnswer(e, serial, accept, env).engine, id)
  {
    ClosePromptKept(e, serial, id);
    if serial in e.prompts && e.prompts[serial].id in e.incoming {
      var own := e.prompts[serial].id;
      var e1 := e.(prompts := e.prompts - {serial});
      var current := e.incoming[own];
      assert current.rec.serial == serial;
      hide IdOk; hide Kept;
      if accept {
        UpdateIncomingKept(e1, own, current.(accepted := true, rec := current.rec.(status := Active)), id);
      } else {
        SettleIncomingKept(e1, own, Cancelled, Some(Declined), id);
      }
    }
  }

  lemma ClosePromptKept(e: Engine, serial: nat, id: Id)
    requires IdOk(e, id)
    ensures Kept(e, e.(prompts := e.prompts - {serial}), id)
  {
    SerialsHave(e, id);
    hide Serials;
  }

  lemma BinaryKept(e: Engine, data: seq<byte>, env: Env, id: Id)
    requires IdOk(e, id) && StatusesOk(e)
    requires forall i :: i in e.incoming ==> e.incoming[i].rec.bytes == e.incoming[i].received
    ensures Kept(e, StepBinary(e, data, env).engine, id)
  {
    hide ChunkCodec.Decode; hide SettleIncoming; hide Kept; hide IdOk;
    var d := Decode(data);
    if d.Some? && d.value.transferId in e.incoming && e.incoming[d.value.transferId].accepted {
      var own := d.value.transferId;
      var s := e.incoming[own];
      if s.received + |d.value.payload| > s.rec.size {
        SettleIncomingKept(e, own, Failed, Some(Error), id);
      } else {
        UpdateIncomingKept(e, own, StepBinary(e, data, env).engine.incoming[own], id);
      }
    } else {
      DropKept(e, id);
      Same(e, id);
    }
  }

  lemma DropKept(e: Engine, id: Id)
    requires IdOk(e, id)
    ensures Kept(e, e.(dropped := e.dropped + 1), id)
  {
    SerialsHave(e, id);
    hide Serials;
  }

  lemma CompleteKept(e: Engine, own: Id, env: Env, id: Id)
    requires IdOk(e, id)
    ensures Kept(e, StepComplete(e, own, env).engine, id)
  {
    hide Flatten; hide Kept; hide IdOk; hide SettleIncoming;
    if own in e.outgoing || own !in e.incoming {
      Same(e, id);
    } else {
      SettleIncomingKept(e, own, Failed, Some(Error), id);
      SettleIncomingKept(e, own, Complete, None, id);
    }
  }

  lemma RemoteCancelKept(e: Engine, own: Id, reason: Reason, id: Id)
    requires IdOk(e, id)
    ensures Kept(e, StepRemoteCancel(e, own, reason).engine, id)
  {
    hide Kept; hide IdOk; hide SettleIncoming; hide SettleOutgoing;
    if own in e.outgoing {
      SettleOutgoingKept(e, own, if reason.Error? || reason.TooLarge? then Failed else Cancelled, Some(reason), id);
    } else if own in e.incoming {
      SettleIncomingKept(e, own, Cancelled, Some(reason), id);
    } else { Same(e, id); }
  }

  lemma AckKept(e: Engine, own: Id, bytes: int, id: Id)
    requires IdOk(e, id) && StatusesOk(e)
    ensures Kept(e, StepAck(e, own, bytes).engine, id)
  {
    hide Kept; hide IdOk;
    if own in e.outgoing {
      var o := e.outgoing[own];
      UpdateOutgoingKept(e, own, o.(rec := o.rec.(ackedBytes := bytes)), id);
    } else { Same(e, id); }
  }

  lemma CancelKept(e: Engine, own: Id, reason: Reason, env: Env, id: Id)
    requires IdOk(e, id)
    ensures Kept(e, StepCancelLocal(e, own, reason, env).engine, id)
  {
    hide Kept; hide IdOk; hide SettleIncoming; hide SettleOutgoing;
    if own in e.outgoing {
      SettleOutgoingKept(e, own, Cancelled, Some(reason), id);
    } else if own in e.incoming {
      SettleIncomingKept(e, own, Cancelled, Some(reason), id);
    } else { Same(e, id); }
  }

  function LiveSerials(e: Engine, id: Id): set<nat> {
    (if id in e.outgoing then {e.outgoing[id].rec.serial} else {})
        + (if id in e.incoming then {e.incoming[id].rec.serial} else {})
  }

  /** Nothing is live any more, and the history has gained exactly the live records, settled. */
  ghost predicate TornDown(e: Engine, e': Engine, status: Status, reason: Option<Reason>, id: Id) {
    var fin := e'.finished;
    && e'.outgoing == map[] && e'.incoming == map[] && e'.prompts == e.prompts && e'.next == e.next
    && Serials(fin, id) == Serials(e.finished, id) + LiveSerials(e, id)
    && (forall s :: s in Serials(e.finished, id) && s !in LiveSerials(e, id) ==>
        (s, id) in e.finished
        && (s, id) in fin && fin[(s, id)] == e.finished[(s, id)])
    && (id in e.outgoing ==>
        (e.outgoing[id].rec.serial, id) in fin
        && fin[(e.outgoing[id].rec.serial, id)] == Finalise(e.outgoing[id].rec, status, reason))
    && (id in e.incoming ==>
        (e.incoming[id].rec.serial, id) in fin
        && fin[(e.incoming[id].rec.serial, id)] == Finalise(e.incoming[id].rec, status, reason))
  }

  lemma SettleAllTornDown(e: Engine, status: Status, reason: Option<Reason>, id: Id, disposed: bool)
    requires !(id in e.outgoing && id in e.incoming)
    ensures TornDown(e, SettleAll(e, status, reason).(disposed := disposed), status, reason, id)
  {
    hide Finalise;
    var out, inc := SettledOutgoing(e.outgoing, status, reason), SettledIncoming(e.incoming, status, reason);
    SerialsHave(e, id);
    SerialsSum(e.finished, out, id);
    SerialsSum(e.finished + out, inc, id);
    SettledSerials(e, status, reason, id);
    hide Serials; hide SettledOutgoing; hide SettledIncoming;
  }

  lemma SettledSerials(e: Engine, status: Status, reason: Option<Reason>, id: Id)
    ensures var out, inc := SettledOutgoing(e.outgoing, status, reason), SettledIncoming(e.incoming, status, reason);
            && (forall s :: (s, id) in out <==> id in e.outgoing && s == e.outgoing[id].rec.serial)
            && (forall s :: (s, id) in inc <==> id in e.incoming && s == e.incoming[id].rec.serial)
            && (id in e.outgoing ==> out[(e.outgoing[id].rec.serial, id)] == Finalise(e.outgoing[id].rec, status,
                reason))
            && (id in e.incoming ==> inc[(e.incoming[id].rec.serial, id)] == Finalise(e.incoming[id].rec, status,
                reason))
            && Serials(out, id) == (if id in e.outgoing then {e.outgoing[id].rec.serial} else {})
            && Serials(inc, id) == (if id in e.incoming then {e.incoming[id].rec.serial} else {})
  {
    hide Finalise;
    var out, inc := SettledOutgoing(e.outgoing, status, reason), SettledIncoming(e.incoming, status, reason);
    if id in e.outgoing { assert (e.outgoing[id].rec.serial, id) in out; }
    if id in e.incoming { assert (e.incoming[id].rec.serial, id) in inc; }
    forall s ensures (s in Serials(out, id) <==> (s, id) in out) && (s in Serials(inc, id) <==> (s, id) in inc) {
      SerialsMember(out, id, s);
      SerialsMember(inc, id, s);
    }
  }

  lemma TornDownOk(e: Engine, e': Engine, status: Status, reason: Option<Reason>, id: Id)
    requires IdOk(e, id) && status.Terminal() && TornDown(e, e', status, reason, id)
    ensures IdOk(e', id)
  {
    hide Serials;
  }

  lemma TornDownMove(e: Engine, e': Engine, status: Status, reason: Option<Reason>, id: Id)
    requires IdOk(e, id) && status.Terminal() && TornDown(e, e', status, reason, id)
    ensures IdMove(e, e', id)
  {
    hide Serials;
  }

  // -- every step ---------------------------------------------------------------

  /** The engine between two steps: every id in order, the receiver's books balanced. */
  ghost predicate Orderly(e: Engine) {
    ReceiverInv(e) && forall id :: IdOk(e, id)
  }

  lemma SenderKept(e: Engine, ev: Event, env: Env, id: Id)
    requires Orderly(e) && ev.Sending() && FreshIds(e, ev)
    ensures Kept(e, Step(e, ev, env).engine, id)
  {
    assert IdOk(e, id);
    assert StatusesOk(e) by { OrderlyStatuses(e); }
    hide Kept; hide IdOk; hide ReceiverInv; hide StatusesOk;
    hide StepSendFile; hide StepAcceptAnswer; hide StepResume; hide StepRead; hide StepReadDone; hide StepReadFail;
    hide StepSendChunk; hide StepContinue; hide UnparkAll;
    match ev
    case SendFile(own, file) => SendFileKept(e, own, file, env, id);
    case AcceptTimeout(own) => AnswerWaitKept(e, own, false, id);
    case Resume(own) => ResumeKept(e, own, id);
    case Read(own, count) => ReadKept(e, own, count, env, id);
    case ReadDone(own) => ReadDoneKept(e, own, env, id);
    case ReadFail(own) => ReadFailKept(e, own, id);
    case SendChunk(own) => SendChunkKept(e, own, env, id);
    case Continue(own) => ContinueKept(e, own, env, id);
    case Drained => UnparkKept(e, id);
  }

  lemma OrderlyStatuses(e: Engine)
    requires Orderly(e)
    ensures StatusesOk(e)
  {
    forall i | i in e.outgoing ensures PhaseStatus(e.outgoing[i]) { assert IdOk(e, i); }
    forall i | i in e.incoming ensures SlotStatus(e.incoming[i]) { assert IdOk(e, i); }
  }

  lemma DeliverKept(e: Engine, f: Frame, env: Env, id: Id)
    requires Orderly(e) && FreshIds(e, Deliver(f))
    ensures Kept(e, StepDeliver(e, f, env).engine, id)
  {
    assert IdOk(e, id);
    OrderlyStatuses(e);
    if e.disposed || f.TextFrame? {
      Same(e, id);
    } else {
      assert forall i :: i in e.incoming ==> SlotOk(e, e.incoming[i]);
      assert e.next !in e.prompts;
      if f.StartFrame? { assert IdOk(e, f.id); }
      hide Kept; hide IdOk; hide ReceiverInv; hide StatusesOk;
      hide StepStart; hide StepAcceptAnswer; hide StepAck; hide StepComplete; hide StepRemoteCancel; hide StepBinary;
      match f
      case StartFrame(_, _, _, _) => StartKept(e, f, env, id);
      case AcceptFrame(own, accept) => AnswerWaitKept(e, own, accept, id);
      case AckFrame(own, bytes) => AckKept(e, own, bytes, id);
      case CompleteFrame(own) => CompleteKept(e, own, env, id);
      case CancelFrame(own, reason) => RemoteCancelKept(e, own, reason, id);
      case BinaryFrame(data) => BinaryKept(e, data, env, id);
    }
  }

  /** Every step with fresh ids keeps each transfer in exactly one place and only moves it forward. */
  lemma StepSettles(e: Engine, ev: Event, env: Env)
    requires Orderly(e) && FreshIds(e, ev)
    ensures Orderly(Step(e, ev, env).engine)
    ensures forall id :: IdMove(e, Step(e, ev, env).engine, id)
  {
    StepKeepsReceiver(e, ev, env);
    forall id ensures Kept(e, Step(e, ev, env).engine, id) { StepKept(e, ev, env, id); }
    hide Step; hide IdOk; hide IdMove;
    forall id ensures IdOk(Step(e, ev, env).engine, id) && IdMove(e, Step(e, ev, env).engine, id) {
      assert Kept(e, Step(e, ev, env).engine, id);
    }
  }

  lemma StepKept(e: Engine, ev: Event, env: Env, id: Id)
    requires Orderly(e) && FreshIds(e, ev)
    ensures Kept(e, Step(e, ev, env).engine, id)
  {
    if ev.Sending() {
      hide Step; hide Kept;
      SenderKept(e, ev, env, id);
    } else {
      assert IdOk(e, id);
      OrderlyStatuses(e);
      if ev.Answer? && ev.serial in e.prompts { assert IdOk(e, e.prompts[ev.serial].id); }
      hide IdOk; hide IdMove; hide ReceiverInv; hide StatusesOk;
      hide StepDeliver; hide StepAnswer; hide StepCancelLocal; hide StepClosed; hide StepDispose;
      match ev
      case Deliver(f) => DeliverKept(e, f, env, id);
      case Answer(serial, accept) => AnswerKept(e, serial, accept, env, id);
      case CancelLocal(own, reason) => CancelKept(e, own, reason, env, id);
      case SetConsent(_) => ConsentKept(e, ev.handler, id);
      case _ => TeardownKept(e, ev, env, id);
    }
  }

  lemma ConsentKept(e: Engine, handler: bool, id: Id)
    requires IdOk(e, id)
    ensures Kept(e, e.(hasConsent := handler), id)
  {
    SerialsHave(e, id);
    hide Serials;
  }

  lemma SettleAllKept(e: Engine, status: Status, reason: Option<Reason>, disposed: bool, id: Id)
    requires IdOk(e, id) && status.Terminal()
    ensures Kept(e, SettleAll(e, status, reason).(disposed := disposed), id)
  {
    var e' := SettleAll(e, status, reason).(disposed := disposed);
    SettleAllTornDown(e, status, reason, id, disposed);
    hide SettleAll, TornDown, IdOk, IdMove;
    TornDownOk(e, e', status, reason, id);
    TornDownMove(e, e', status, reason, id);
  }

  lemma TeardownKept(e: Engine, ev: Event, env: Env, id: Id)
    requires IdOk(e, id) && (ev.Closed? || ev.Dispose?)
    ensures Kept(e, Step(e, ev, env).engine, id)
  {
    hide IdOk, IdMove, Kept, SettleAll, UnparkAll;
    Same(e, id);
    UnparkKept(e, id);
    SettleAllKept(e, Failed, Some(Error), e.disposed, id);
    SettleAllKept(e, Cancelled, Some(UserCancelled), true, id);
    assert ev.Closed? ==> Step(e, ev, env) == StepClosed(e);
    assert ev.Dispose? ==> Step(e, ev, env) == StepDispose(e);
    SettleAllDisposed(e, Failed, Some(Error));
    hide Step;
  }

  lemma SettleAllDisposed(e: Engine, status: Status, reason: Option<Reason>)
    ensures SettleAll(e, status, reason).(disposed := e.disposed) == SettleAll(e, status, reason)
  {
    hide SettledOutgoing, SettledIncoming;
  }

  // -- exactly which steps ----------------------------------------------------------

  /** A disposed engine hears no frames; otherwise the ids have to be fresh. */
  ghost predicate Harmless(e: Engine, ev: Event) { (e.disposed && ev.Deliver?) || FreshIds(e, ev) }

  lemma HarmlessKept(e: Engine, ev: Event, env: Env, id: Id)
    requires Orderly(e) && Harmless(e, ev)
    ensures Kept(e, Step(e, ev, env).engine, id)
  {
    if FreshIds(e, ev) {
      StepKept(e, ev, env, id);
    } else {
      assert IdOk(e, id) && Step(e, ev, env).engine == e;
      Same(e, id);
    }
    hide Step, IdOk, IdMove, ReceiverInv, FreshIds;
  }

  /** Announcing an id in use makes two transfers of it, or loses the first, or gives it a second record. */
  lemma SendFileBreaks(e: Engine, id: Id, file: File, env: Env)
    requires IdOk(e, id) && Known(e, id)
    ensures !Kept(e, StepSendFile(e, id, file, env).engine, id)
  {
    var rec := Record(e.next, id, Send, file.name, OrDefaultMime(file.mime), file.size, 0, Pending, None, 0);
    var e' := StepSendFile(e, id, file, env).engine;
    if env.open && env.ok {
      assert e'.finished == e.finished && id in e'.outgoing && e'.outgoing[id].rec.serial == e.next;
    } else {
      assert e'.finished == e.finished[(e.next, id) := Finalise(rec, Failed, Some(Error))] && id !in e'.outgoing;
      SerialsUpdate(e.finished, e.next, id, Finalise(rec, Failed, Some(Error)), id);
      SecondRecord(e, e', id);
    }
    hide Serials, OrDefaultMime, StepSendFile;
  }

  /** A record of the next serial beside whatever the id was before. */
  lemma SecondRecord(e: Engine, e': Engine, id: Id)
    requires IdOk(e, id) && Known(e, id) && id !in e'.outgoing && e'.incoming == e.incoming
    requires Serials(e'.finished, id) == Serials(e.finished, id) + {e.next}
    ensures !Kept(e, e', id)
  {
    SerialsHave(e, id);
    if id in e.outgoing { SerialsMember(e'.finished, id, e.outgoing[id].rec.serial); }
    assert e.next in Serials(e'.finished, id);
    hide Serials;
  }

  /** So does taking an announcement of an id that is finished. */
  lemma StartBreaks(e: Engine, f: Frame, env: Env)
    requires f.StartFrame? && IdOk(e, f.id) && IsFinished(e, f.id)
    ensures !Kept(e, StepStart(e, f, env).engine, f.id)
  {
    var e' := StepStart(e, f, env).engine;
    StartOffers(e, f, env);
    if f.id in e'.incoming {
      assert e'.finished == e.finished;
    } else {
      var rec: Record :| rec.status.Terminal() && e'.finished == e.finished[(e.next, f.id) := rec];
      SerialsUpdate(e.finished, e.next, f.id, rec, f.id);
      var s :| s in Serials(e.finished, f.id);
      assert s in Serials(e'.finished, f.id) && e.next in Serials(e'.finished, f.id) && s < e.next;
    }
    hide Serials, StepStart;
  }

  lemma ReuseBreaks(e: Engine, ev: Event, env: Env) returns (id: Id)
    requires Orderly(e) && !Harmless(e, ev)
    ensures !Kept(e, Step(e, ev, env).engine, id)
  {
    match ev
    case SendFile(own, file) =>
      id := own;
      assert IdOk(e, own);
      SendFileBreaks(e, own, file, env);
      hide IdOk, Kept, StepSendFile;
    case Deliver(f) =>
      id := f.id;
      assert IdOk(e, f.id);
      StartBreaks(e, f, env);
      hide IdOk, Kept, StepStart;
  }

  /**
   * Exactly which steps keep settlement, for every engine a settled run can reach: the ones that announce no id in use
   * and take no announcement of a finished one. Every single reuse breaks it there and then.
   */
  lemma FreshIdsExactly(e: Engine, ev: Event, env: Env)
    requires Orderly(e)
    ensures Harmless(e, ev)
            <==> Orderly(Step(e, ev, env).engine) && forall id :: IdMove(e, Step(e, ev, env).engine, id)
  {
    var e' := Step(e, ev, env).engine;
    if Harmless(e, ev) {
      StepKeepsReceiver(e, ev, env);
      forall id ensures IdOk(e', id) && IdMove(e, e', id) {
        HarmlessKept(e, ev, env, id);
      }
    } else {
      var id := ReuseBreaks(e, ev, env);
      assert !IdOk(e', id) || !IdMove(e, e', id);
    }
    hide Step, IdOk, IdMove, ReceiverInv, Harmless;
  }

  // -- whole runs ---------------------------------------------------------------

  function Run(e: Engine, steps: seq<(Event, Env)>): Engine
    decreases |steps|
  {
    if steps == [] then e else Run(Step(e, steps[0].0, steps[0].1).engine, steps[1..])
  }

  /** Everything sent on the channel during a run, in order. */
  function EngineSent(e: Engine, steps: seq<(Event, Env)>): seq<Frame>
    decreases |steps|
  {
    if steps == [] then []
    else var r := Step(e, steps[0].0, steps[0].1); r.sent + EngineSent(r.engine, steps[1..])
  }

  /** No step of the run announces or receives an id that is already finished. */
  ghost predicate FreshRun(e: Engine, steps: seq<(Event, Env)>)
    decreases |steps|
  {
    steps == [] || (FreshIds(e, steps[0].0) && FreshRun(Step(e, steps[0].0, steps[0].1).engine, steps[1..]))
  }

  lemma NewOrderly(hasConsent: bool, maxBytes: nat)
    ensures Orderly(NewEngine(hasConsent, maxBytes))
  {
  }

  /**
   * Whatever is finished stays finished, with the very same record, and whatever is live stays known, for the rest
   * of the run.
   */
  lemma {:induction false} FinishedIsFinal(e: Engine, steps: seq<(Event, Env)>, id: Id)
    requires Orderly(e) && FreshRun(e, steps)
    ensures var e' := Run(e, steps);
            && Orderly(e')
            && IdMove(e, e', id)
    decreases |steps|
  {
    if steps == [] {
      SerialsHave(e, id);
      hide Serials; hide Orderly;
    } else {
      var mid := Step(e, steps[0].0, steps[0].1).engine;
      StepSettles(e, steps[0].0, steps[0].1);
      assert IdMove(e, mid, id);
      assert IdOk(mid, id);
      hide Step; hide IdMove; hide IdOk; hide ReceiverInv;
      FinishedIsFinal(mid, steps[1..], id);
      assert IdMove(mid, Run(mid, steps[1..]), id);
      MoveTrans(e, mid, Run(mid, steps[1..]), id);
    }
  }

  lemma MoveTrans(e: Engine, mid: Engine, e': Engine, id: Id)
    requires IdMove(e, mid, id) && IdMove(mid, e', id) && IdOk(mid, id) && IdOk(e', id)
    ensures IdMove(e, e', id)
  {
    forall s ensures (s in Serials(mid.finished, id) <==> (s, id) in mid.finished)
        && (s in Serials(e'.finished, id) <==> (s, id) in e'.finished) {
      SerialsMember(mid.finished, id, s);
      SerialsMember(e'.finished, id, s);
    }
    hide Serials;
  }

  /** The three places of a transfer. */
  predicate Sending(e: Engine, id: Id) { id in e.outgoing }
  predicate Receiving(e: Engine, id: Id) { id in e.incoming }

  /**
   * Settlement. In every run of a fresh engine in which ids are not reused: a known transfer is in exactly one of
   * outgoing, incoming and finished; live ones are pending or active and finished ones terminal; there is one
   * record object per id; and from any earlier state on, a finished record never changes and a live one only moves
   * forward.
   */
  lemma TransfersSettleOnce(hasConsent: bool, maxBytes: nat, before: seq<(Event, Env)>, after: seq<(Event, Env)>,
      id: Id)
    requires FreshRun(NewEngine(hasConsent, maxBytes), before)
    requires FreshRun(Run(NewEngine(hasConsent, maxBytes), before), after)
    ensures var e := Run(NewEngine(hasConsent, maxBytes), before);
            var e' := Run(e, after);
            && (Known(e, id) ==> Known(e', id))
            && !(Sending(e', id) && Receiving(e', id))
            && !(Sending(e', id) && IsFinished(e', id))
            && !(Receiving(e', id) && IsFinished(e', id))
            && (Sending(e', id) ==> !e'.outgoing[id].rec.status.Terminal())
            && (Receiving(e', id) ==> !e'.incoming[id].rec.status.Terminal())
            && (forall s :: (s, id) in e'.finished ==> e'.finished[(s, id)].status.Terminal())
            && (forall s, t :: (s, id) in e'.finished && (t, id) in e'.finished ==> s == t)
            && (forall s :: (s, id) in e.finished ==>
                (s, id) in e'.finished
                && e'.finished[(s, id)] == e.finished[(s, id)])
            && IdMove(e, e', id)
  {
    NewOrderly(hasConsent, maxBytes);
    var e0 := NewEngine(hasConsent, maxBytes);
    FinishedIsFinal(e0, before, id);
    var e := Run(e0, before);
    FinishedIsFinal(e, after, id);
    var e' := Run(e, after);
    assert IdOk(e', id);
    forall s ensures (s in Serials(e'.finished, id) <==> (s, id) in e'.finished)
        && (s in Serials(e.finished, id) <==> (s, id) in e.finished) {
      SerialsMember(e'.finished, id, s);
      SerialsMember(e.finished, id, s);
    }
    hide Serials; hide Run; hide ReceiverInv;
    if Known(e, id) && id !in e.outgoing && id !in e.incoming {
      var s :| s in Serials(e.finished, id);
      assert s in Serials(e'.finished, id);
    }
  }

  /**
   * Freshness is needed: a peer that cancels an offer and announces the same id again while the first prompt is open
   * makes that prompt's "no" finalise the first record a second time, with another reason, and drop the new transfer.
   */
  lemma ReusedIdFinalisesTwice(id: Id, size: nat)
    requires size <= MAX_SAFE_INTEGER
    ensures var env := Env(true, true, 0, true);
            var offer, cancel := Deliver(StartFrame(id, "", "", size)), Deliver(CancelFrame(id, UserCancelled));
            var e := Step(Step(Step(NewEngine(true, size), offer, env).engine, cancel, env).engine, offer, env).engine;
            var e' := Step(e, Answer(0, false), env).engine;
            && (0, id) in e.finished && e.finished[(0, id)].reason == Some(UserCancelled)
            && (0, id) in e'.finished && e'.finished[(0, id)].reason == Some(Declined)
            && id in e.incoming && id !in e'.incoming && (1, id) !in e'.finished
  {
    var env := Env(true, true, 0, true);
    var first := Record(0, id, Receive, "", DEFAULT_MIME, size, 0, Pending, None, 0);
    var e1 := Engine(map[], map[id := Incoming(first, [], 0, 0, false)], map[], map[0 := first], 1, 0, false, true,
        size);
    OfferAgain(id, size, env);
    CancelThenNo(id, e1, env);
    hide Step;
  }

  /** Cancelling the first offer, and answering its prompt once a second offer of the id is live. */
  lemma CancelThenNo(id: Id, e1: Engine, env: Env)
    requires !e1.disposed && e1.outgoing == map[] && e1.finished == map[]
    requires id in e1.incoming && e1.incoming.Keys == {id} && 0 in e1.prompts && e1.prompts[0] == e1.incoming[id].rec
    requires e1.incoming[id].rec.serial == 0 && e1.incoming[id].rec.id == id
    ensures var first := e1.incoming[id].rec;
            var gone := first.(status := Cancelled, reason := Some(UserCancelled));
            var e2 := e1.(incoming := map[], finished := map[(0, id) := gone]);
            && Step(e1, Deliver(CancelFrame(id, UserCancelled)), env).engine == e2
            && (forall e3: Engine ::
                e3.finished == e2.finished && id in e3.incoming
                && e3.incoming[id].rec.serial != 0 && 0 in e3.prompts && e3.prompts[0] == first ==>
                  var e4 := Step(e3, Answer(0, false), env).engine;
                  (0, id) in e4.finished && e4.finished[(0, id)].reason == Some(Declined) && id !in e4.incoming
                      && (1, id) !in e4.finished)
  {
    hide StepSender; hide StepStart; hide StepBinary; hide StepComplete;
    assert e1.incoming - {id} == map[];
  }

  /** The two announcements of that run, computed. */
  lemma OfferAgain(id: Id, size: nat, env: Env)
    requires size <= MAX_SAFE_INTEGER
    ensures var offer := Deliver(StartFrame(id, "", "", size));
            var first := Record(0, id, Receive, "", DEFAULT_MIME, size, 0, Pending, None, 0);
            var second := first.(serial := 1);
            var e1 := Engine(map[], map[id := Incoming(first, [], 0, 0, false)], map[], map[0 := first], 1, 0, false,
                true, size);
            var e2 := e1.(incoming := map[], finished :=
                map[(0, id) := first.(status := Cancelled, reason := Some(UserCancelled))]);
            && Step(NewEngine(true, size), offer, env).engine == e1
            && Step(e2, offer, env).engine
                == e2.(incoming := map[id := Incoming(second, [], 0, 0, false)], prompts :=
                map[0 := first, 1 := second], next := 2)
  {
    hide StepSender; hide SettleIncoming; hide Refuse;
  }
}
