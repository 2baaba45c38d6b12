/**
 * What an engine says, and what it makes of what it hears: the frames of every step whose writes are taken, and how
 * the consent of one transfer travels.
 */
module TransferTalk {
  import opened Common
  import opened ChunkCodec
  import opened Rechunk
  import opened TransferSpec
  import opened ReceiverInvariant
  import opened TransferViews

  // -- every word, when the channel takes it ---------------------------------------------------------------

  /** The frame of one step, if there is one, on an open channel that takes the write. */
  ghost predicate Says(e: Engine, ev: Event, urlOk: bool, sent: seq<Frame>) {
    match ev
    case SendFile(id, f) =>
      sent == [StartFrame(id, f.name, if f.mime == "" then "application/octet-stream" else f.mime, f.size)]
    case ReadDone(id) =>
      sent == if id in e.outgoing && e.outgoing[id].phase == Reading([]) && e.outgoing[id].unread == []
              then [CompleteFrame(id)] else []
    case Continue(id) =>
      sent == if id in e.outgoing && e.outgoing[id].phase.Sent? && e.outgoing[id].phase.last
              then [CompleteFrame(id)] else []
    case SendChunk(id) =>
      if id in e.outgoing && e.outgoing[id].phase.Draining? && !e.outgoing[id].phase.parked && ValidId(id) then
        |sent| == 1 && sent[0].BinaryFrame?
        && Decode(sent[0].data) == Some(DecodedChunk(id, e.outgoing[id].phase.chunk))
      else sent == []
    case CancelLocal(id, reason) =>
      sent == if id in e.outgoing || id in e.incoming then [CancelFrame(id, reason)] else []
    case Answer(serial, accept) =>
      sent == if serial in e.prompts && e.prompts[serial].id in e.incoming
              then [AcceptFrame(e.prompts[serial].id, accept)] else []
    case Deliver(f) => if e.disposed then sent == [] else Replies(e, f, urlOk, sent)
    case _ => sent == []
  }

  /** What a frame is answered with. */
  ghost predicate Replies(e: Engine, f: Frame, urlOk: bool, sent: seq<Frame>) {
    match f
    case StartFrame(id, _, _, size) =>
      sent == if id in e.incoming || id in e.outgoing then []
              else if size < 0 || size > MAX_SAFE_INTEGER then [CancelFrame(id, Error)]
              else if size > e.maxBytes then [CancelFrame(id, TooLarge)]
              else if e.hasConsent then [] else [AcceptFrame(id, false)]
    case BinaryFrame(data) =>
      var d := Decode(data);
      if d.None? || d.value.transferId !in e.incoming || !e.incoming[d.value.transferId].accepted then sent == []
      else
        var s, n := e.incoming[d.value.transferId], e.incoming[d.value.transferId].received + |d.value.payload|;
        sent == if n > s.rec.size then [CancelFrame(d.value.transferId, Error)]
                else if n - s.acked >= 1048576 then [AckFrame(d.value.transferId, n)] else []
    case CompleteFrame(id) =>
      sent == if id in e.incoming && id !in e.outgoing && e.incoming[id].received == e.incoming[id].rec.size && urlOk
              then [AckFrame(id, e.incoming[id].received)] else []
    case _ => sent == []
  }

  lemma SenderSays(e: Engine, ev: Event, env: Env)
    requires ev.Sending() && env.open && env.ok
    ensures Says(e, ev, env.urlOk, StepSender(e, ev, env).sent)
  {
    hide Cut, ChunkCodec.Encode, ChunkCodec.Decode, ChunkCodec.ValidId, SettleOutgoing, UnparkAll;
    if ev.SendChunk? && ValidId(ev.id) && ev.id in e.outgoing && e.outgoing[ev.id].phase.Draining? {
      DecodeEncode(ev.id, e.outgoing[ev.id].phase.chunk);
    }
  }

  lemma ReplySays(e: Engine, f: Frame, env: Env)
    requires env.open && env.ok && !e.disposed
    ensures Replies(e, f, env.urlOk, StepDeliver(e, f, env).sent)
  {
    hide ChunkCodec.Decode, OrDefaultMime, SettleIncoming, Flatten;
  }

  /** With the channel open and the write taken, every step says exactly that, in the peer's own words. */
  lemma EveryWordIsSent(e: Engine, ev: Event, env: Env)
    requires env.open && env.ok
    ensures Says(e, ev, env.urlOk, Step(e, ev, env).sent)
  {
    if ev.Sending() {
      SenderSays(e, ev, env);
      hide StepSender, Says;
    } else if ev.Deliver? {
      if !e.disposed { ReplySays(e, ev.frame, env); }
      DeliverSaid(e, ev, env);
      hide Replies, Says, StepDeliver;
    } else {
      OtherSays(e, ev, env);
      hide Says, Step;
    }
  }

  lemma DeliverSaid(e: Engine, ev: Event, env: Env)
    requires ev.Deliver?
    requires !e.disposed ==> Replies(e, ev.frame, env.urlOk, StepDeliver(e, ev.frame, env).sent)
    ensures Says(e, ev, env.urlOk, Step(e, ev, env).sent)
  {
    hide Replies;
    if !e.disposed { hide StepDeliver; }
  }

  lemma OtherSays(e: Engine, ev: Event, env: Env)
    requires !ev.Sending() && !ev.Deliver? && env.open && env.ok
    ensures Says(e, ev, env.urlOk, Step(e, ev, env).sent)
  {
    hide SettleIncoming, SettleOutgoing, SettleAll, UnparkAll, PromptRecord;
  }

  /**
   * A yes is sent: with the channel open and the write taken, answering the prompt of the transfer that is held makes
   * it accepted, and sends that answer and nothing else; a no lets it go and sends that.
   */
  lemma AnswersAreSent(e: Engine, serial: nat, accept: bool, env: Env)
    requires serial in e.prompts && env.open && env.ok
    requires var id := e.prompts[serial].id; id in e.incoming && e.incoming[id].rec.serial == serial
    ensures var id, r := e.prompts[serial].id, Step(e, Answer(serial, accept), env);
            && r.sent == [AcceptFrame(id, accept)] && r.files == []
            && if accept then id in r.engine.incoming && r.engine.incoming[id].accepted
                              && r.engine.incoming[id].rec.status.Active?
               else id !in r.engine.incoming
  {
    EveryWordIsSent(e, Answer(serial, accept), env);
    hide StepSender, PromptRecord, Finalise, SendFrame;
  }

  lemma FrameDrops(e: Engine, f: Frame, env: Env)
    requires !e.disposed
    ensures StepDeliver(e, f, env).engine.dropped == e.dropped + if f.BinaryFrame? && !Taken(e, f.data) then 1 else 0
  {
    hide ChunkCodec.Decode, OrDefaultMime, Finalise, Flatten;
  }

  /** The bytes of a chunk for a transfer that is held and accepted. */
  predicate Taken(e: Engine, data: seq<byte>) {
    var d := Decode(data);
    d.Some? && d.value.transferId in e.incoming && e.incoming[d.value.transferId].accepted
  }

  /** Every binary frame that comes for no transfer this side has accepted is counted as dropped, and no other event. */
  lemma DropsAreCounted(e: Engine, ev: Event, env: Env)
    ensures Step(e, ev, env).engine.dropped
         == e.dropped + if ev.Deliver? && ev.frame.BinaryFrame? && !e.disposed && !Taken(e, ev.frame.data) then 1 else 0
  {
    hide StepSender, StepDeliver, Taken, PromptRecord, Finalise;
    if ev.Sending() {
      SenderDrops(e, ev, env);
    } else if ev.Deliver? && !e.disposed {
      FrameDrops(e, ev.frame, env);
    }
    DisposedHears(e, ev, env);
  }

  lemma DisposedHears(e: Engine, ev: Event, env: Env)
    ensures e.disposed && ev.Deliver? ==> StepDeliver(e, ev.frame, env).engine == e
  {
  }

  lemma SenderDrops(e: Engine, ev: Event, env: Env)
    requires ev.Sending()
    ensures StepSender(e, ev, env).engine.dropped == e.dropped
  {
    hide Cut, ChunkCodec.Encode, ChunkCodec.ValidId, OrDefaultMime, Finalise;
  }

  // -- where a sender stands -----------------------------------------------------------------------------------

  /** Waiting for the answer; turned down, and about to notice; past it. */
  datatype Stand = Asking | Turned | Going

  function StandOf(e: Engine, id: Id): Option<Stand> {
    if id !in e.outgoing then None
    else match e.outgoing[id].phase
      case Waiting => Some(Asking)
      case Answered(accept) => Some(if accept then Going else Turned)
      case _ => Some(Going)
  }

  /** The frame the engine is handed is that answer, or a cancel, of that transfer. */
  predicate HearsAnswer(ev: Event, id: Id, accept: bool) { ev == Deliver(AcceptFrame(id, accept)) }

  predicate HearsCancel(ev: Event, id: Id) { ev.Deliver? && ev.frame.CancelFrame? && ev.frame.id == id }

  /** Nobody cancels, closes or disposes, no wait runs out, no stream breaks. */
  predicate Smooth(ev: Event) {
    !ev.CancelLocal? && !ev.Closed? && !ev.Dispose? && !ev.AcceptTimeout? && !ev.ReadFail?
  }

  /** How a sender that is not disturbed moves, and what it says. */
  ghost predicate SmoothSend(id: Id, x: Option<Stand>, y: Option<Stand>, s: seq<Frame>, ev: Event) {
    && NoWord(s) && (!NoOffer(s) ==> ev.SendFile? && ev.id == id && y == Some(Asking))
    && match (x, y)
       case (None, None) => !(ev.SendFile? && ev.id == id) && (!Hears(ev, id) ==> s == [])
       case (None, Some(n)) => ev.SendFile? && ev.id == id && n.Asking?
       case (Some(Asking), Some(n)) =>
         if HearsAnswer(ev, id, true) then n.Going? else if HearsAnswer(ev, id, false) then n.Turned? else n.Asking?
       case (Some(Asking), None) => HearsCancel(ev, id)
       case (Some(Turned), Some(n)) => n.Turned?
       case (Some(Turned), None) => true
       case (Some(Going), Some(n)) => n.Going?
       case (Some(Going), None) => s == [CompleteFrame(id)] || HearsCancel(ev, id)
  }

  predicate Hears(ev: Event, id: Id) { ev.Deliver? && FrameId(ev.frame) == Some(id) }

  /** No answer and no cancel. */
  predicate NoWord(s: seq<Frame>) { forall i :: 0 <= i < |s| ==> !s[i].AcceptFrame? && !s[i].CancelFrame? }

  predicate NoOffer(s: seq<Frame>) { forall i :: 0 <= i < |s| ==> !s[i].StartFrame? }

  /** One step of the coroutine of that id, as far as an undisturbed sender goes. */
  ghost predicate OwnSend(e: Engine, ev: Event, r: Out)
    requires ev.Sending() && !ev.Drained?
  {
    && SmoothSend(ev.id, StandOf(e, ev.id), StandOf(r.engine, ev.id), r.sent, ev) && |r.sent| <= 1
  }

  lemma OwnWait(e: Engine, ev: Event, env: Env)
    requires (ev.SendFile? && ev.id !in e.outgoing) || ev.Resume? || ev.Read?
    requires env.open && env.ok
    ensures OwnSend(e, ev, StepSender(e, ev, env))
  {
    hide OrDefaultMime, Finalise, Cut;
    if ev.Read? && ev.id in e.outgoing && ev.count <= |e.outgoing[ev.id].unread| && e.outgoing[ev.id].phase.Reading? {
      CutFacts(e.outgoing[ev.id].phase.carry + e.outgoing[ev.id].unread[..ev.count], env);
      CutGoes(e.outgoing[ev.id].phase.carry + e.outgoing[ev.id].unread[..ev.count], env);
    }
  }

  lemma CutGoes(view: seq<byte>, env: Env)
    ensures Cut(view, env).Draining? || Cut(view, env).Reading?
  {
  }

  lemma OwnChunk(e: Engine, ev: Event, env: Env)
    requires ev.SendChunk? && env.open && env.ok && ValidId(ev.id)
    ensures OwnSend(e, ev, StepSender(e, ev, env))
  {
    hide ChunkCodec.Encode, ChunkCodec.ValidId, SettleOutgoing;
  }

  lemma OwnEnd(e: Engine, ev: Event, env: Env)
    requires (ev.ReadDone? || ev.Continue?) && env.open && env.ok
    ensures OwnSend(e, ev, StepSender(e, ev, env))
  {
    hide Finalise, Cut;
    if ev.Continue? && ev.id in e.outgoing && e.outgoing[ev.id].phase.Sent? {
      CutGoes(e.outgoing[ev.id].phase.rest, env);
    }
  }

  lemma OwnSmoothSend(e: Engine, ev: Event, env: Env)
    requires ev.Sending() && !ev.Drained? && Smooth(ev) && env.open && env.ok && ValidId(ev.id)
    requires ev.SendFile? ==> ev.id !in e.outgoing
    ensures OwnSend(e, ev, StepSender(e, ev, env))
  {
    if ev.SendChunk? { OwnChunk(e, ev, env); }
    else if ev.ReadDone? || ev.Continue? { OwnEnd(e, ev, env); }
    else { OwnWait(e, ev, env); }
    hide StepSender, OwnSend;
  }

  lemma NothingSaid(e: Engine, ev: Event, r: Out, id: Id)
    requires StandOf(r.engine, id) == StandOf(e, id) && r.sent == [] && !(ev.SendFile? && ev.id == id)
    requires !HearsAnswer(ev, id, true) && !HearsAnswer(ev, id, false)
    ensures SmoothSend(id, StandOf(e, id), StandOf(r.engine, id), [], ev)
  {
    hide StandOf;
  }

  /** The coroutines of an undisturbed sender. */
  lemma CoroutineSmooth(e: Engine, ev: Event, env: Env, id: Id)
    requires ev.Sending() && Smooth(ev) && env.open && env.ok && ValidId(id)
    requires ev.SendFile? ==> ev.id !in e.outgoing
    requires SenderInv(e)
    ensures var r := StepSender(e, ev, env);
            SmoothSend(id, StandOf(e, id), StandOf(r.engine, id), Of(r.sent, id), ev)
  {
    var r := StepSender(e, ev, env);
    if ev.Drained? {
      assert StandOf(r.engine, id) == StandOf(e, id);
      NothingSaid(e, ev, r, id);
      hide StepSender, SmoothSend;
    } else if ev.id == id {
      OwnSmoothSend(e, ev, env);
      OwnStepMoves(e, ev, env);
      hide StepSender, SmoothSend, StandOf, SendMove, SenderInv;
      assert r.sent == [] || Of(r.sent, id) == r.sent;
    } else {
      OwnStepMoves(e, ev, env);
      hide StepSender, SendMove, SenderInv, FrameId;
      assert id in e.outgoing <==> id in e.outgoing - {ev.id};
      assert id in r.engine.outgoing <==> id in r.engine.outgoing - {ev.id};
      assert StandOf(r.engine, id) == StandOf(e, id);
      assert Of(r.sent, id) == [];
      SaidNothing(id, StandOf(e, id), ev);
      hide StandOf, SmoothSend, OwnFrames;
    }
  }

  lemma SaidNothing(id: Id, x: Option<Stand>, ev: Event)
    requires !ev.Deliver? && !(ev.SendFile? && ev.id == id)
    ensures SmoothSend(id, x, x, [], ev)
  {
  }

  /**
   * An undisturbed sender, whatever its engine does: with no transfer and no prompt of that id on the receiving side.
   */
  lemma SmoothSends(e: Engine, ev: Event, env: Env, id: Id)
    requires SenderInv(e) && ReceiverInv(e) && Smooth(ev) && env.open && env.ok && ValidId(id) && !e.disposed
    requires id !in e.incoming && Prompts(e, id) == {}
    requires ev.SendFile? ==> ev.id !in e.outgoing
    requires Hears(ev, id) ==> !ev.frame.StartFrame? && !Data(ev.frame)
    ensures var r := Step(e, ev, env);
            SmoothSend(id, StandOf(e, id), StandOf(r.engine, id), Of(r.sent, id), ev) && r.engine.disposed == e.disposed
  {
    if ev.Sending() {
      CoroutineSmooth(e, ev, env, id);
      hide StepSender, SmoothSend;
    } else if ev.Deliver? {
      HearsSmooth(e, ev.frame, env, id);
      hide StepDeliver, SmoothSend;
    } else {
      AnswersElsewhere(e, ev, env, id);
      hide SmoothSend;
    }
  }

  lemma HearsSmooth(e: Engine, f: Frame, env: Env, id: Id)
    requires SenderInv(e) && ReceiverInv(e) && !e.disposed && id !in e.incoming
    requires FrameId(f) == Some(id) ==> !f.StartFrame? && !Data(f)
    ensures var r := StepDeliver(e, f, env);
            && SmoothSend(id, StandOf(e, id), StandOf(r.engine, id), Of(r.sent, id), Deliver(f))
            && r.engine.disposed == e.disposed
  {
    var ev, r := Deliver(f), StepDeliver(e, f, env);
    if f.AcceptFrame? || f.CancelFrame? || f.AckFrame? || f.TextFrame? {
      hide ChunkCodec.Decode, Finalise, StepStart, StepBinary, StepComplete;
    } else {
      AnotherFrame(e, f, env, id);
      hide StepDeliver, ReceiverInv, SenderInv, ChunkCodec.Decode;
      assert Of(r.sent, id) == [];
    }
  }

  /** A frame of another transfer to be received. */
  lemma AnotherFrame(e: Engine, f: Frame, env: Env, id: Id)
    requires ReceiverInv(e) && !e.disposed && (f.StartFrame? || f.BinaryFrame? || f.CompleteFrame?)
    requires FrameId(f) != Some(id)
    ensures var r := StepDeliver(e, f, env);
            && r.engine.outgoing == e.outgoing && r.engine.disposed == e.disposed && Of(r.sent, id) == []
  {
    hide ChunkCodec.Decode, Finalise, OrDefaultMime, Flatten;
  }

  lemma AnswersElsewhere(e: Engine, ev: Event, env: Env, id: Id)
    requires Smooth(ev) && !ev.Sending() && !ev.Deliver? && Prompts(e, id) == {}
    ensures var r := Step(e, ev, env);
            && SmoothSend(id, StandOf(e, id), StandOf(r.engine, id), Of(r.sent, id), ev)
            && r.engine.disposed == e.disposed
  {
    var r := Step(e, ev, env);
    assert forall p :: p in e.prompts && e.prompts[p].id == id ==> p in Prompts(e, id);
    assert r.engine.outgoing == e.outgoing && r.engine.disposed == e.disposed && Of(r.sent, id) == [] by {
      hide PromptRecord, Finalise, SettleIncoming;
    }
    hide Step;
  }

  // -- where a receiver stands ---------------------------------------------------------------------------------

  /** Nothing held; held and not accepted; accepted. */
  function HeldBy(e: Engine, id: Id): Option<bool> {
    if id in e.incoming then Some(e.incoming[id].accepted) else None
  }

  predicate HearsStart(ev: Event, id: Id) { ev.Deliver? && ev.frame.StartFrame? && ev.frame.id == id }

  /** How a receiver that is not disturbed moves, what becomes of its prompts, and what it says. */
  ghost predicate SmoothRecv(id: Id, y: Option<bool>, z: Option<bool>, pr: set<nat>, pr': set<nat>, s: seq<Frame>,
      ev: Event) {
    match (y, z)
    case (None, None) => NoWord(s) || HearsStart(ev, id)
    case (None, Some(accepted)) => !accepted && HearsStart(ev, id) && s == []
    case (Some(was), Some(now)) =>
      ev != Deliver(CompleteFrame(id)) && if was then now && (pr == {} ==> pr' == {} && NoWord(s))
      else if now then s == [AcceptFrame(id, true)] && pr' == {}
      else NoWord(s)
    case (Some(was), None) => was && pr == {} ==> Hears(ev, id)
  }

  /** A step that leaves the receiver and its prompts alone, and says nothing of it. */
  lemma LeftAlone(e: Engine, ev: Event, r: Out, id: Id)
    requires HeldBy(r.engine, id) == HeldBy(e, id) && Prompts(r.engine, id) <= Prompts(e, id) && NoWord(Of(r.sent, id))
    requires ev != Deliver(CompleteFrame(id))
    ensures SmoothRecv(id, HeldBy(e, id), HeldBy(r.engine, id), Prompts(e, id), Prompts(r.engine, id), Of(r.sent, id),
                       ev)
  {
    hide HeldBy, PromptsOf, Of;
  }

  lemma SendsAlone(e: Engine, ev: Event, env: Env, id: Id)
    requires ev.Sending() && SenderInv(e) && id !in e.outgoing && !(ev.SendFile? && ev.id == id)
    requires ev.SendFile? ==> ev.id !in e.outgoing
    ensures var r := StepSender(e, ev, env);
            HeldBy(r.engine, id) == HeldBy(e, id) && Prompts(r.engine, id) == Prompts(e, id) && Of(r.sent, id) == []
  {
    if !ev.Drained? {
      OwnStepMoves(e, ev, env);
      if ev.id == id {
        hide SenderInv, SendMove, FrameId, ChunkCodec.Encode, ChunkCodec.ValidId;
        assert StepSender(e, ev, env).sent == [];
      } else {
        hide StepSender, SenderInv, SendMove, FrameId;
      }
    }
    hide PromptsOf;
  }

  lemma OwnStartRecv(e: Engine, f: Frame, env: Env)
    requires f.StartFrame? && !e.disposed
    ensures var r, id := StepDeliver(e, f, env), f.id;
            SmoothRecv(id, HeldBy(e, id), HeldBy(r.engine, id), Prompts(e, id), Prompts(r.engine, id), Of(r.sent, id),
                       Deliver(f))
  {
    var r := StepDeliver(e, f, env);
    if f.id in e.incoming { assert Prompts(r.engine, f.id) == Prompts(e, f.id); }
    hide PromptsOf, OrDefaultMime, Finalise;
  }

  /** A frame about that transfer. */
  lemma OwnFrameRecv(e: Engine, f: Frame, env: Env, id: Id)
    requires ReceiverInv(e) && !e.disposed && FrameId(f) == Some(id) && id !in e.outgoing
    ensures var r := StepDeliver(e, f, env);
            SmoothRecv(id, HeldBy(e, id), HeldBy(r.engine, id), Prompts(e, id), Prompts(r.engine, id), Of(r.sent, id),
                       Deliver(f))
  {
    if f.StartFrame? {
      OwnStartRecv(e, f, env);
      hide StepDeliver, SmoothRecv;
    } else {
      assert Prompts(StepDeliver(e, f, env).engine, id) == Prompts(e, id);
      hide ChunkCodec.Decode, Flatten, Finalise, StepStart, PromptsOf, ReceiverInv;
    }
  }

  /** A frame about another one, or about none. */
  lemma OtherFrameRecv(e: Engine, f: Frame, env: Env, id: Id)
    requires ReceiverInv(e) && !e.disposed && FrameId(f) != Some(id)
    ensures var r := StepDeliver(e, f, env);
            SmoothRecv(id, HeldBy(e, id), HeldBy(r.engine, id), Prompts(e, id), Prompts(r.engine, id), Of(r.sent, id),
                       Deliver(f))
  {
    var r := StepDeliver(e, f, env);
    hide PromptsOf, SmoothRecv, Flatten, ChunkCodec.Decode, Finalise, OrDefaultMime;
    if f.StartFrame? {
      OfferTouches(e, f, env);
      TouchedElsewhere(e, r, f.id, id);
    } else if f.BinaryFrame? {
      BinaryTouches(e, f.data, env);
      if FrameId(f).Some? { TouchedElsewhere(e, r, FrameId(f).value, id); }
    } else {
      assert Prompts(r.engine, id) == Prompts(e, id) && HeldBy(r.engine, id) == HeldBy(e, id) && Of(r.sent, id) == [];
    }
    hide ReceiverInv, TouchesOnly, StepDeliver, HeldBy;
    LeftAlone(e, Deliver(f), r, id);
  }

  lemma TouchedElsewhere(e: Engine, r: Out, own: Id, id: Id)
    requires TouchesOnly(e, r, own) && id != own
    ensures HeldBy(r.engine, id) == HeldBy(e, id) && Prompts(r.engine, id) == Prompts(e, id) && Of(r.sent, id) == []
  {
    hide PromptsOf;
    assert id in e.incoming <==> id in e.incoming - {own};
    assert id in r.engine.incoming <==> id in r.engine.incoming - {own};
  }

  lemma AnswerRecv(e: Engine, serial: nat, accept: bool, env: Env, id: Id)
    requires PromptsCurrent(e, id) && env.open && env.ok
    ensures var r := StepAnswer(e, serial, accept, env);
            SmoothRecv(id, HeldBy(e, id), HeldBy(r.engine, id), Prompts(e, id), Prompts(r.engine, id), Of(r.sent, id),
                       Answer(serial, accept))
  {
    var r := StepAnswer(e, serial, accept, env);
    PromptsClose(e.prompts, serial, id);
    if serial !in e.prompts || e.prompts[serial].id != id {
      OtherAnswerSays(e, serial, accept, env, id);
      hide StepAnswer, SmoothRecv;
      LeftAlone(e, Answer(serial, accept), r, id);
    } else {
      assert serial in Prompts(e, id);
      if id in e.incoming {
        forall p | p in Prompts(e, id) ensures p == serial { assert p == e.incoming[id].rec.serial; }
        assert Prompts(r.engine, id) == {};
      }
      hide PromptsOf, PromptRecord, Finalise;
    }
  }

  lemma OtherAnswerSays(e: Engine, serial: nat, accept: bool, env: Env, id: Id)
    requires serial !in e.prompts || e.prompts[serial].id != id
    ensures var r := StepAnswer(e, serial, accept, env);
            HeldBy(r.engine, id) == HeldBy(e, id) && Prompts(r.engine, id) <= Prompts(e, id) && Of(r.sent, id) == []
  {
    PromptsClose(e.prompts, serial, id);
    hide PromptsOf, PromptRecord, Finalise;
  }

  /** An undisturbed receiver, whatever its engine does: with no transfer of that id on the sending side. */
  lemma SmoothRecvs(e: Engine, ev: Event, env: Env, id: Id)
    requires SenderInv(e) && ReceiverInv(e) && Smooth(ev) && env.open && env.ok && !e.disposed
    requires id !in e.outgoing && PromptsCurrent(e, id) && !(ev.SendFile? && ev.id == id)
    requires ev.SendFile? ==> ev.id !in e.outgoing
    ensures var r := Step(e, ev, env);
            SmoothRecv(id, HeldBy(e, id), HeldBy(r.engine, id), Prompts(e, id), Prompts(r.engine, id), Of(r.sent, id),
                       ev)
  {
    var r := Step(e, ev, env);
    hide SmoothRecv, HeldBy, Of, PromptsOf, StepAnswer, StepDeliver, StepSender;
    if ev.Sending() {
      SendsAlone(e, ev, env, id);
      LeftAlone(e, ev, r, id);
    } else if ev.Deliver? {
      if FrameId(ev.frame) == Some(id) { OwnFrameRecv(e, ev.frame, env, id); }
      else { OtherFrameRecv(e, ev.frame, env, id); }
    } else if ev.Answer? {
      AnswerRecv(e, ev.serial, ev.accept, env, id);
    } else {
      NothingReceived(e, ev.handler, id);
      LeftAlone(e, ev, r, id);
    }
  }

  lemma NothingReceived(e: Engine, handler: bool, id: Id)
    ensures var n := e.(hasConsent := handler); HeldBy(n, id) == HeldBy(e, id) && Prompts(n, id) == Prompts(e, id)
    ensures Of([], id) == []
  {
  }

  // -- a yes, whatever else happens -------------------------------------------------------------------------------

  /** Nobody goes on waiting who has heard a yes, and nobody starts waiting but by announcing. */
  lemma HearsYes(e: Engine, ev: Event, env: Env, id: Id)
    ensures var n := Step(e, ev, env).engine;
            && (e.disposed ==> n.disposed)
            && (StandOf(n, id) == Some(Asking) && !(ev.SendFile? && ev.id == id) ==>
                  StandOf(e, id) == Some(Asking) && (HearsAnswer(ev, id, true) ==> e.disposed))
  {
    if ev.Sending() {
      AskingStays(e, ev, env, id);
      hide StepSender;
    } else {
      hide StepStart, StepBinary, StepComplete, StepAnswer, SettledOutgoing, SettledIncoming, Finalise;
      SameSenders(e, ev, env);
    }
  }

  lemma SameSenders(e: Engine, ev: Event, env: Env)
    ensures ev.Answer? ==> SameSender(e, StepAnswer(e, ev.serial, ev.accept, env).engine)
  {
  }

  lemma AskingStays(e: Engine, ev: Event, env: Env, id: Id)
    requires ev.Sending()
    ensures var n := StepSender(e, ev, env).engine;
            && (e.disposed ==> n.disposed)
            && (StandOf(n, id) == Some(Asking) && !(ev.SendFile? && ev.id == id) ==> StandOf(e, id) == Some(Asking))
  {
    hide Finalise, OrDefaultMime, ChunkCodec.Encode, ChunkCodec.ValidId;
  }

  /** And nobody accepts who does not say so. */
  lemma AcceptsAloud(e: Engine, ev: Event, env: Env, id: Id)
    requires PromptsCurrent(e, id) && env.open && env.ok && ReceiverInv(e)
    ensures var r := Step(e, ev, env);
            HeldBy(r.engine, id) == Some(true) && HeldBy(e, id) != Some(true) ==>
              Of(r.sent, id) == [AcceptFrame(id, true)]
  {
    if ev.Answer? {
      AnswerRecv(e, ev.serial, ev.accept, env, id);
      hide StepAnswer, PromptsOf;
    } else if ev.Deliver? {
      HearingAcceptsNothing(e, ev.frame, env, id);
      hide StepDeliver;
    } else {
      hide StepSender, SettledOutgoing, SettledIncoming, Finalise;
    }
  }

  lemma HearingAcceptsNothing(e: Engine, f: Frame, env: Env, id: Id)
    ensures HeldBy(StepDeliver(e, f, env).engine, id) == Some(true) ==> HeldBy(e, id) == Some(true)
  {
    hide ChunkCodec.Decode, Flatten, Finalise, OrDefaultMime;
  }
}
