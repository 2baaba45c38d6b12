/**
 * What an engine can do to a single transfer: every engine step is, seen through one
 * transfer id, one move of a small sender automaton and one of a small receiver automaton.
 */
module TransferViews {
  import opened Common
  import opened ChunkCodec
  import opened Rechunk
  import opened TransferSpec
  import opened ReceiverInvariant

  /** The transfer a frame is about. */
  function FrameId(f: Frame): Option<Id> {
    match f
    case TextFrame(_) => None
    case StartFrame(id, _, _, _) => Some(id)
    case AcceptFrame(id, _) => Some(id)
    case AckFrame(id, _) => Some(id)
    case CompleteFrame(id) => Some(id)
    case CancelFrame(id, _) => Some(id)
    case BinaryFrame(data) =>
      var d := Decode(data);
      if d.Some? then Some(d.value.transferId) else None
  }

  /** The frames of one step (at most one) that concern `id`. */
  function Of(sent: seq<Frame>, id: Id): seq<Frame> {
    if |sent| == 1 && FrameId(sent[0]) == Some(id) then sent else []
  }

  // -- the sending half -------------------------------------------------------

  /** `todo` is what the peer has not been sent yet; `started` is past the consent wait. */
  datatype SendView = SendView(file: File, bytes: nat, todo: seq<byte>, started: bool)

  function Pend(ph: Phase): seq<byte> {
    match ph
    case Reading(carry) => carry
    case Draining(chunk, rest, _, _) => chunk + rest
    case Sent(rest, _) => rest
    case _ => []
  }

  predicate Started(ph: Phase) { !ph.Waiting? && ph != Answered(false) }

  function SV(e: Engine, id: Id): Option<SendView> {
    if id !in e.outgoing then None
    else
      var o := e.outgoing[id];
      Some(SendView(o.file, o.rec.bytes, Pend(o.phase) + o.unread, Started(o.phase)))
  }

  /** One outgoing transfer between two awaits: full chunks first, nothing left behind the last one. */
  ghost predicate OutOk(o: Outgoing) {
    match o.phase
    case Reading(carry) => |carry| < CHUNK_SIZE
    case Draining(chunk, rest, last, _) =>
      && 0 < |chunk| <= CHUNK_SIZE
      && (if last then rest == [] && o.unread == [] else |chunk| == CHUNK_SIZE)
    case Sent(rest, last) => last ==> rest == [] && o.unread == []
    case _ => true
  }

  ghost predicate SenderInv(e: Engine) {
    forall i :: i in e.outgoing ==> OutOk(e.outgoing[i])
  }

  predicate Data(f: Frame) { f.BinaryFrame? || f.CompleteFrame? }

  predicate NoUse(s: seq<Frame>) { forall i :: 0 <= i < |s| ==> !s[i].StartFrame? && !Data(s[i]) }

  predicate IsYes(f: Frame) { f.AcceptFrame? && f.accept }

  predicate NoYes(s: seq<Frame>) { forall i :: 0 <= i < |s| ==> !IsYes(s[i]) }

  function StartOf(id: Id, f: File): Frame { StartFrame(id, f.name, OrDefaultMime(f.mime), f.size) }

  /** The sender automaton: absent, announced, streaming, gone. */
  ghost predicate SendMove(id: Id, o: Option<SendView>, o': Option<SendView>, s: seq<Frame>, ev: Event) {
    match (o, o')
    case (None, None) => NoUse(s)
    case (None, Some(n)) =>
      ev == SendFile(id, n.file) && n == SendView(n.file, 0, n.file.content, false) && s == [StartOf(id, n.file)]
    case (Some(v), None) => NoUse(s) || (s == [CompleteFrame(id)] && v.todo == [] && v.started)
    case (Some(v), Some(n)) =>
      || (n == v && NoUse(s))
      || (n == v.(started := true) && s == [] && ev == Deliver(AcceptFrame(id, true)))
      || (v.started && ChunkMove(id, v, n, s))
  }

  ghost predicate ChunkMove(id: Id, v: SendView, n: SendView, s: seq<Frame>) {
    && v.bytes < n.bytes <= v.bytes + |v.todo|
    && var k := n.bytes - v.bytes;
    && n == v.(bytes := n.bytes, todo := v.todo[k..])
    && |s| == 1 && s[0].BinaryFrame? && Decode(s[0].data) == Some(DecodedChunk(id, v.todo[..k]))
  }

  /** What a step about `id` may send: at most one frame, about `id`, and never a consent. */
  ghost predicate OwnFrames(sent: seq<Frame>, id: Id) {
    |sent| <= 1 && (sent != [] ==> FrameId(sent[0]) == Some(id) && !IsYes(sent[0]))
  }

  lemma CutFacts(view: seq<byte>, env: Env)
    ensures Pend(Cut(view, env)) == view && Started(Cut(view, env))
    ensures forall o: Outgoing :: o.phase == Cut(view, env) ==> OutOk(o)
  {
    if |view| >= CHUNK_SIZE {
      assert view[..CHUNK_SIZE] + view[CHUNK_SIZE..] == view;
    }
  }

  lemma StartMoves(e: Engine, id: Id, file: File, env: Env)
    requires SenderInv(e) && id !in e.outgoing
    ensures var r := StepSendFile(e, id, file, env);
            && SenderInv(r.engine)
            && OwnFrames(r.sent, id)
            && SendMove(id, SV(e, id), SV(r.engine, id), r.sent, SendFile(id, file))
            && r.engine.outgoing - {id} == e.outgoing - {id}
  {
    assert [] + file.content == file.content;
  }

  lemma ReadMoves(e: Engine, id: Id, count: nat, env: Env)
    requires SenderInv(e)
    ensures var r := StepRead(e, id, count, env);
            && SenderInv(r.engine) && r.sent == [] && SV(r.engine, id) == SV(e, id)
            && r.engine.outgoing - {id} == e.outgoing - {id}
  {
    if id in e.outgoing && e.outgoing[id].phase.Reading? && count <= |e.outgoing[id].unread| {
      var o := e.outgoing[id];
      var view := o.phase.carry + o.unread[..count];
      CutFacts(view, env);
      assert view + o.unread[count..] == o.phase.carry + o.unread;
    }
  }

  lemma FinishMoves(e: Engine, id: Id, env: Env, ev: Event)
    requires SenderInv(e) && id in e.outgoing
    requires var o := e.outgoing[id]; Pend(o.phase) == [] && o.unread == [] && Started(o.phase)
    ensures var r := Finish(e, id, env);
            && SenderInv(r.engine)
            && OwnFrames(r.sent, id)
            && SendMove(id, SV(e, id), SV(r.engine, id), r.sent, ev)
            && r.engine.outgoing - {id} == e.outgoing - {id}
  {
  }

  lemma ReadDoneMoves(e: Engine, id: Id, env: Env)
    requires SenderInv(e)
    ensures var r := StepReadDone(e, id, env);
            && SenderInv(r.engine)
            && OwnFrames(r.sent, id)
            && SendMove(id, SV(e, id), SV(r.engine, id), r.sent, ReadDone(id))
            && r.engine.outgoing - {id} == e.outgoing - {id}
  {
    if id in e.outgoing && e.outgoing[id].phase.Reading? && e.outgoing[id].unread == [] {
      assert OutOk(e.outgoing[id]);
      var o := e.outgoing[id];
      if o.phase.carry == [] {
        FinishMoves(e, id, env, ReadDone(id));
      } else {
        assert o.phase.carry + [] == o.phase.carry;
      }
    }
  }

  lemma ChunkMoves(e: Engine, id: Id, env: Env)
    requires SenderInv(e)
    ensures var r := StepSendChunk(e, id, env);
            && SenderInv(r.engine)
            && OwnFrames(r.sent, id)
            && SendMove(id, SV(e, id), SV(r.engine, id), r.sent, SendChunk(id))
            && r.engine.outgoing - {id} == e.outgoing - {id}
  {
    hide ChunkCodec.Decode;
    hide ChunkCodec.Encode;
    if id in e.outgoing && e.outgoing[id].phase.Draining? {
      var o := e.outgoing[id];
      assert OutOk(o);
      var todo := Pend(o.phase) + o.unread;
      assert todo == o.phase.chunk + (o.phase.rest + o.unread);
      if ValidId(id) {
        DecodeEncode(id, o.phase.chunk);
      }
      if !o.phase.parked && env.open && env.ok && ValidId(id) {
        assert ChunkMove(id, SV(e, id).value, SV(StepSendChunk(e, id, env).engine, id).value,
            StepSendChunk(e, id, env).sent);
      }
    }
  }

  lemma ContinueMoves(e: Engine, id: Id, env: Env)
    requires SenderInv(e)
    ensures var r := StepContinue(e, id, env);
            && SenderInv(r.engine)
            && OwnFrames(r.sent, id)
            && SendMove(id, SV(e, id), SV(r.engine, id), r.sent, Continue(id))
            && r.engine.outgoing - {id} == e.outgoing - {id}
  {
    if id in e.outgoing && e.outgoing[id].phase.Sent? {
      var o := e.outgoing[id];
      assert OutOk(o);
      if o.phase.last {
        FinishMoves(e, id, env, Continue(id));
      } else {
        CutFacts(o.phase.rest, env);
      }
    }
  }

  lemma ResumeMoves(e: Engine, id: Id)
    requires SenderInv(e)
    ensures var r := StepResume(e, id);
            && SenderInv(r.engine) && r.sent == []
            && SendMove(id, SV(e, id), SV(r.engine, id), r.sent, Resume(id))
            && r.engine.outgoing - {id} == e.outgoing - {id}
  {
    hide Finalise;
    var r := StepResume(e, id);
    if id in r.engine.outgoing {
      assert SV(r.engine, id) == SV(e, id);
    }
  }

  lemma TimeoutMoves(e: Engine, id: Id)
    requires SenderInv(e)
    ensures var r := StepAcceptAnswer(e, id, false);
            && SenderInv(r.engine) && r.sent == [] && SV(r.engine, id) == SV(e, id)
            && r.engine.outgoing - {id} == e.outgoing - {id}
  {
  }

  lemma ReadFailMoves(e: Engine, id: Id)
    requires SenderInv(e)
    ensures var r := StepReadFail(e, id);
            && SenderInv(r.engine) && r.sent == []
            && SendMove(id, SV(e, id), SV(r.engine, id), r.sent, ReadFail(id))
            && r.engine.outgoing - {id} == e.outgoing - {id}
  {
  }

  lemma UnparkMoves(e: Engine, id: Id)
    requires SenderInv(e)
    ensures SenderInv(UnparkAll(e)) && SV(UnparkAll(e), id) == SV(e, id)
  {
    forall i | i in e.outgoing ensures OutOk(Unpark(e.outgoing[i])) {
      assert OutOk(e.outgoing[i]);
    }
  }

  /** Every step of the sending half, seen through any id. */
  lemma SenderStepMoves(e: Engine, ev: Event, env: Env, id: Id)
    requires ev.Sending() && SenderInv(e)
    requires ev.SendFile? ==> ev.id !in e.outgoing
    ensures var r := StepSender(e, ev, env);
            && SenderInv(r.engine) && |r.sent| <= 1
            && SendMove(id, SV(e, id), SV(r.engine, id), Of(r.sent, id), ev)
            && (r.sent != [] ==> !IsYes(r.sent[0]))
  {
    hide ChunkCodec.Decode;
    hide Cut;
    var r := StepSender(e, ev, env);
    if ev.Drained? {
      UnparkMoves(e, id);
    } else {
      OwnStepMoves(e, ev, env);
      if ev.id != id {
        assert id in e.outgoing <==> id in e.outgoing - {ev.id};
        assert id in r.engine.outgoing <==> id in r.engine.outgoing - {ev.id};
        assert SV(r.engine, id) == SV(e, id);
      }
    }
  }

  lemma OwnStepMoves(e: Engine, ev: Event, env: Env)
    requires ev.Sending() && !ev.Drained? && SenderInv(e)
    requires ev.SendFile? ==> ev.id !in e.outgoing
    ensures var r := StepSender(e, ev, env);
            && SenderInv(r.engine)
            && OwnFrames(r.sent, ev.id)
            && SendMove(ev.id, SV(e, ev.id), SV(r.engine, ev.id), r.sent, ev)
            && r.engine.outgoing - {ev.id} == e.outgoing - {ev.id}
  {
    hide StepRead; hide StepReadDone; hide StepReadFail; hide StepSendChunk; hide StepContinue;
    hide StepSendFile; hide StepAcceptAnswer; hide StepResume;
    hide SV; hide OutOk; hide FrameId;
    match ev
    case AcceptTimeout(id) => TimeoutMoves(e, id);
    case Resume(id) => ResumeMoves(e, id);
    case ReadFail(id) => ReadFailMoves(e, id);
    case SendFile(id, file) => StartMoves(e, id, file, env);
    case Read(id, count) => ReadMoves(e, id, count, env);
    case ReadDone(id) => ReadDoneMoves(e, id, env);
    case SendChunk(id) => ChunkMoves(e, id, env);
    case Continue(id) => ContinueMoves(e, id, env);
  }

  // -- the receiving half -----------------------------------------------------

  datatype RecvView = RecvView(serial: nat, name: string, mime: string, size: int, data: seq<byte>, accepted: bool)

  function RV(e: Engine, id: Id): Option<RecvView> {
    if id !in e.incoming then None
    else
      var s := e.incoming[id];
      Some(RecvView(s.rec.serial, s.rec.name, s.rec.mime, s.rec.size, Flatten(s.chunks), s.accepted))
  }

  /** The consent questions open for `id`. */
  function Prompts(e: Engine, id: Id): set<nat> { PromptsOf(e.prompts, id) }

  function PromptsOf(prompts: map<nat, Record>, id: Id): set<nat> {
    set s | s in prompts && prompts[s].id == id
  }

  lemma PromptsOpen(prompts: map<nat, Record>, s: nat, rec: Record)
    ensures PromptsOf(prompts[s := rec], rec.id) == PromptsOf(prompts, rec.id) + {s}
  {
  }

  lemma PromptsOther(prompts: map<nat, Record>, s: nat, rec: Record, id: Id)
    requires s !in prompts && rec.id != id
    ensures PromptsOf(prompts[s := rec], id) == PromptsOf(prompts, id)
  {
  }

  lemma PromptsClose(prompts: map<nat, Record>, s: nat, id: Id)
    ensures PromptsOf(prompts - {s}, id) == PromptsOf(prompts, id) - {s}
  {
  }

  function AsFile(id: Id, v: RecvView): ReceivedFile {
    ReceivedFile(v.serial, id, v.name, v.mime, v.size, v.data)
  }

  /** The receiver automaton: absent, offered, accepted, gone; a file comes out only of a full one. */
  ghost predicate RecvMove(
    id: Id, r: Option<RecvView>, r': Option<RecvView>, pr: set<nat>, pr': set<nat>,
    s: seq<Frame>, files: seq<ReceivedFile>, ev: Event)
  {
    match (r, r')
    case (None, None) => NoYes(s) && pr' <= pr && files == []
    case (None, Some(n)) =>
      && ev.Deliver? && ev.frame.StartFrame? && ev.frame.id == id
      && n.name == ev.frame.name && n.mime == OrDefaultMime(ev.frame.mime) && n.size == ev.frame.size
      && n.data == [] && !n.accepted && pr' == pr + {n.serial} && s == [] && files == []
    case (Some(v), None) =>
      && NoYes(s) && pr' <= pr
      && (files == [] || (files == [AsFile(id, v)] && ev == Deliver(CompleteFrame(id)) && |v.data| == v.size))
      && (ev == Deliver(CompleteFrame(id)) && |v.data| != v.size ==> files == [])
    case (Some(v), Some(n)) =>
      && files == [] && pr' <= pr
      && ev != Deliver(CompleteFrame(id))
      && if ev.Deliver? && ev.frame.BinaryFrame? && FrameId(ev.frame) == Some(id) && v.accepted
         then NoYes(s) && n == v.(data := v.data + Decode(ev.frame.data).value.payload) && |n.data| <= v.size
         else (n == v && NoYes(s)) || (n == v.(accepted := true) && (NoYes(s) || s == [AcceptFrame(id, true)]))
  }

  /** Frames and files of one step that concern `id`. */
  function FilesOf(files: seq<ReceivedFile>, id: Id): seq<ReceivedFile> {
    if |files| == 1 && files[0].id == id then files else []
  }

  /** An open prompt of `id` was opened for the transfer now filed under it. */
  ghost predicate PromptsCurrent(e: Engine, id: Id) {
    id in e.incoming ==> forall s :: s in e.prompts && e.prompts[s].id == id ==> s == e.incoming[id].rec.serial
  }

  ghost predicate BothMoves(e: Engine, ev: Event, r: Out, id: Id) {
    SendSide(e, ev, r, id) && RecvSide(e, ev, r, id)
  }

  ghost predicate SendSide(e: Engine, ev: Event, r: Out, id: Id) {
    && |r.sent| <= 1 && NoUse(r.sent) && SenderInv(r.engine)
    && SendMove(id, SV(e, id), SV(r.engine, id), Of(r.sent, id), ev)
  }

  ghost predicate RecvSide(e: Engine, ev: Event, r: Out, id: Id) {
    && |r.files| <= 1
    && ((id in e.incoming ==> id !in e.outgoing) && PromptsCurrent(e, id) ==>
          RecvMove(id, RV(e, id), RV(r.engine, id), Prompts(e, id), Prompts(r.engine, id), Of(r.sent, id),
              FilesOf(r.files, id), ev))
  }

  lemma SenderUntouched(e: Engine, ev: Event, r: Out, id: Id)
    requires SenderInv(e) && SameSender(e, r.engine) && |r.sent| <= 1 && NoUse(r.sent)
    ensures SendSide(e, ev, r, id)
  {
  }

  lemma ReceiverUntouched(e: Engine, ev: Event, r: Out, id: Id)
    requires RV(r.engine, id) == RV(e, id) && Prompts(r.engine, id) <= Prompts(e, id)
    requires NoYes(Of(r.sent, id)) && |r.files| <= 1 && FilesOf(r.files, id) == []
    requires RV(e, id).Some? ==> ev != Deliver(CompleteFrame(id))
    requires RV(e, id).Some? && RV(e, id).value.accepted && ev.Deliver? && ev.frame.BinaryFrame? ==>
        FrameId(ev.frame) != Some(id)
    ensures RecvSide(e, ev, r, id)
  {
  }

  /** A step whose effects on the receiving half all concern `own`. */
  ghost predicate TouchesOnly(e: Engine, r: Out, own: Id) {
    && r.engine.incoming - {own} == e.incoming - {own}
    && (forall i :: i != own ==> Prompts(r.engine, i) == Prompts(e, i))
    && |r.sent| <= 1 && (r.sent != [] ==> FrameId(r.sent[0]) == Some(own)) && r.files == []
  }

  lemma OthersUntouched(e: Engine, ev: Event, r: Out, own: Id, id: Id)
    requires TouchesOnly(e, r, own) && id != own
    requires ev.Deliver? ==> FrameId(ev.frame) == Some(own)
    ensures RecvSide(e, ev, r, id)
  {
    hide PromptsOf; hide Flatten;
    assert id in e.incoming <==> id in e.incoming - {own};
    assert id in r.engine.incoming <==> id in r.engine.incoming - {own};
    assert RV(r.engine, id) == RV(e, id);
    hide RecvSide;
    ReceiverUntouched(e, ev, r, id);
  }

  lemma OfferTouches(e: Engine, f: Frame, env: Env)
    requires f.StartFrame? && ReceiverInv(e)
    ensures TouchesOnly(e, StepStart(e, f, env), f.id)
  {
    var r := StepStart(e, f, env);
    assert r.engine.prompts == e.prompts
        || (r.engine.prompts == e.prompts[e.next := r.engine.prompts[e.next]] && r.engine.prompts[e.next].id == f.id);
    assert e.next !in e.prompts;
    hide ReceiverInv;
    assert r.engine.incoming - {f.id} == e.incoming - {f.id};
    hide StepStart;
    forall i | i != f.id ensures Prompts(r.engine, i) == Prompts(e, i) {
      if r.engine.prompts != e.prompts {
        PromptsOther(e.prompts, e.next, r.engine.prompts[e.next], i);
      }
      hide PromptsOf;
    }
    assert |r.sent| <= 1 && (r.sent != [] ==> FrameId(r.sent[0]) == Some(f.id))
        && r.files == [] by { OfferSends(e, f, env); }
  }

  lemma OfferSends(e: Engine, f: Frame, env: Env)
    requires f.StartFrame?
    ensures var r := StepStart(e, f, env);
    |r.sent| <= 1 && (r.sent != [] ==> FrameId(r.sent[0]) == Some(f.id)) && r.files == []
  {
  }

  lemma OfferMoves(e: Engine, f: Frame, env: Env, id: Id)
    requires ReceiverInv(e) && SenderInv(e) && f.StartFrame? && !e.disposed
    ensures BothMoves(e, Deliver(f), StepStart(e, f, env), id)
  {
    var r := StepStart(e, f, env);
    SenderUntouched(e, Deliver(f), r, id);
    hide SendSide; hide SenderInv; hide RecvSide;
    if f.id == id {
      OwnOfferMoves(e, f, env);
    } else {
      OfferTouches(e, f, env);
      hide StepStart; hide TouchesOnly;
      OthersUntouched(e, Deliver(f), r, f.id, id);
    }
  }

  lemma OwnOfferMoves(e: Engine, f: Frame, env: Env)
    requires f.StartFrame?
    ensures RecvSide(e, Deliver(f), StepStart(e, f, env), f.id)
  {
    var r := StepStart(e, f, env);
    assert Flatten<byte>([]) == [];
    PromptsOpen(e.prompts, e.next,
        Record(e.next, f.id, Receive, f.name, OrDefaultMime(f.mime), f.size, 0, Pending, None, 0));
    hide Flatten; hide PromptsOf; hide OrDefaultMime;
  }

  lemma BinaryTouches(e: Engine, data: seq<byte>, env: Env)
    ensures match FrameId(BinaryFrame(data))
            case Some(own) => TouchesOnly(e, StepBinary(e, data, env), own)
            case None => StepBinary(e, data, env) == Out(e.(dropped := e.dropped + 1), [], [])
  {
    hide ChunkCodec.Decode; hide PromptsOf;
  }

  lemma BinaryMoves(e: Engine, data: seq<byte>, env: Env, id: Id)
    requires ReceiverInv(e) && SenderInv(e) && !e.disposed
    ensures BothMoves(e, Deliver(BinaryFrame(data)), StepBinary(e, data, env), id)
  {
    hide ChunkCodec.Decode;
    var ev, r := Deliver(BinaryFrame(data)), StepBinary(e, data, env);
    SenderUntouched(e, ev, r, id);
    hide SendSide; hide SenderInv; hide RecvSide;
    if FrameId(ev.frame) == Some(id) {
      OwnBinaryMoves(e, data, env, id);
    } else {
      BinaryTouches(e, data, env);
      hide StepBinary; hide TouchesOnly; hide ReceiverInv;
      match FrameId(ev.frame)
      case Some(own) => OthersUntouched(e, ev, r, own, id);
      case None => ReceiverUntouched(e, ev, r, id);
    }
  }

  lemma OwnBinaryMoves(e: Engine, data: seq<byte>, env: Env, id: Id)
    requires ReceiverInv(e) && FrameId(BinaryFrame(data)) == Some(id)
    ensures RecvSide(e, Deliver(BinaryFrame(data)), StepBinary(e, data, env), id)
  {
    hide ChunkCodec.Decode; hide PromptsOf; hide Finalise;
    var r := StepBinary(e, data, env);
    assert r.engine.prompts == e.prompts;
    if id in e.incoming {
      assert SlotOk(e, e.incoming[id]);
      FlattenAppend(e.incoming[id].chunks, Decode(data).value.payload);
      hide Flatten;
    }
  }

  lemma CompleteMoves(e: Engine, cid: Id, env: Env, id: Id)
    requires ReceiverInv(e) && SenderInv(e) && !e.disposed
    ensures BothMoves(e, Deliver(CompleteFrame(cid)), StepComplete(e, cid, env), id)
  {
    var r := StepComplete(e, cid, env);
    SenderUntouched(e, Deliver(CompleteFrame(cid)), r, id);
    hide SendSide; hide SenderInv; hide Flatten;
    assert Prompts(r.engine, id) == Prompts(e, id);
  }

  lemma CancelMoves(e: Engine, cid: Id, reason: Reason, id: Id)
    requires ReceiverInv(e) && SenderInv(e) && !e.disposed
    ensures BothMoves(e, Deliver(CancelFrame(cid, reason)), StepRemoteCancel(e, cid, reason), id)
  {
    assert Prompts(StepRemoteCancel(e, cid, reason).engine, id) == Prompts(e, id);
  }

  lemma AnswerFrameMoves(e: Engine, cid: Id, accept: bool, id: Id)
    requires ReceiverInv(e) && SenderInv(e) && !e.disposed
    ensures BothMoves(e, Deliver(AcceptFrame(cid, accept)), StepAcceptAnswer(e, cid, accept), id)
  {
    assert Prompts(StepAcceptAnswer(e, cid, accept).engine, id) == Prompts(e, id);
  }

  lemma AckMoves(e: Engine, cid: Id, bytes: int, id: Id)
    requires ReceiverInv(e) && SenderInv(e) && !e.disposed
    ensures BothMoves(e, Deliver(AckFrame(cid, bytes)), StepAck(e, cid, bytes), id)
  {
    assert Prompts(StepAck(e, cid, bytes).engine, id) == Prompts(e, id);
  }

  lemma DeliverMoves(e: Engine, f: Frame, env: Env, id: Id)
    requires ReceiverInv(e) && SenderInv(e)
    ensures BothMoves(e, Deliver(f), StepDeliver(e, f, env), id)
  {
    if e.disposed || f.TextFrame? {
      assert StepDeliver(e, f, env) == Out(e, [], []);
    } else {
      hide BothMoves; hide StepStart; hide StepBinary; hide StepComplete; hide StepRemoteCancel;
      hide StepAcceptAnswer; hide StepAck;
      match f
      case StartFrame(_, _, _, _) => OfferMoves(e, f, env, id);
      case AcceptFrame(cid, accept) => AnswerFrameMoves(e, cid, accept, id);
      case AckFrame(cid, bytes) => AckMoves(e, cid, bytes, id);
      case CompleteFrame(cid) => CompleteMoves(e, cid, env, id);
      case CancelFrame(cid, reason) => CancelMoves(e, cid, reason, id);
      case BinaryFrame(data) => BinaryMoves(e, data, env, id);
    }
  }

  /** Answering a prompt of another id only closes that prompt. */
  lemma OtherAnswer(e: Engine, serial: nat, accept: bool, env: Env, id: Id)
    requires serial !in e.prompts || e.prompts[serial].id != id
    ensures var r := StepAnswer(e, serial, accept, env);
            && RV(r.engine, id) == RV(e, id) && Prompts(r.engine, id) <= Prompts(e, id)
            && NoYes(Of(r.sent, id))
  {
    PromptsClose(e.prompts, serial, id);
    hide PromptsOf; hide PromptRecord; hide Finalise; hide Flatten;
  }

  lemma PromptAnswerMoves(e: Engine, serial: nat, accept: bool, env: Env, id: Id)
    requires ReceiverInv(e) && SenderInv(e)
    ensures BothMoves(e, Answer(serial, accept), StepAnswer(e, serial, accept, env), id)
  {
    hide Finalise; hide PromptRecord;
    var r := StepAnswer(e, serial, accept, env);
    SenderUntouched(e, Answer(serial, accept), r, id);
    hide SendSide; hide SenderInv; hide ReceiverInv; hide RecvSide;
    if serial !in e.prompts || e.prompts[serial].id != id {
      OtherAnswer(e, serial, accept, env, id);
      hide StepAnswer;
      ReceiverUntouched(e, Answer(serial, accept), r, id);
    } else {
      hide StepAnswer;
      OwnAnswerMoves(e, serial, accept, env);
    }
  }

  lemma OwnAnswerMoves(e: Engine, serial: nat, accept: bool, env: Env)
    requires serial in e.prompts
    ensures RecvSide(e, Answer(serial, accept), StepAnswer(e, serial, accept, env), e.prompts[serial].id)
  {
    var id := e.prompts[serial].id;
    PromptsClose(e.prompts, serial, id);
    hide Finalise; hide Flatten; hide PromptRecord;
    if PromptsCurrent(e, id) && id in e.incoming {
      assert e.incoming[id].rec.serial == serial;
    }
    hide PromptsOf;
  }

  lemma CancelLocalMoves(e: Engine, cid: Id, reason: Reason, env: Env, id: Id)
    requires ReceiverInv(e) && SenderInv(e)
    ensures BothMoves(e, CancelLocal(cid, reason), StepCancelLocal(e, cid, reason, env), id)
  {
    CancelSend(e, cid, reason, env, id);
    CancelReceive(e, cid, reason, env, id);
    hide SendSide; hide RecvSide; hide StepCancelLocal;
  }

  lemma CancelReceive(e: Engine, cid: Id, reason: Reason, env: Env, id: Id)
    requires ReceiverInv(e)
    ensures RecvSide(e, CancelLocal(cid, reason), StepCancelLocal(e, cid, reason, env), id)
  {
    hide Finalise; hide Flatten; hide Pend; hide OrDefaultMime; hide SV; hide SendMove;
    assert Prompts(StepCancelLocal(e, cid, reason, env).engine, id) == Prompts(e, id);
    hide PromptsOf;
  }

  lemma CancelSend(e: Engine, cid: Id, reason: Reason, env: Env, id: Id)
    requires SenderInv(e)
    ensures SendSide(e, CancelLocal(cid, reason), StepCancelLocal(e, cid, reason, env), id)
  {
    hide Finalise; hide Pend;
  }

  lemma TeardownMoves(e: Engine, ev: Event, env: Env, id: Id)
    requires ReceiverInv(e) && SenderInv(e) && (ev.Closed? || ev.Dispose?)
    ensures BothMoves(e, ev, Step(e, ev, env), id)
  {
    hide SettledOutgoing; hide SettledIncoming;
    var r := Step(e, ev, env);
    assert Prompts(r.engine, id) == Prompts(e, id);
    if ev.Closed? && e.disposed {
      UnparkMoves(e, id);
    }
  }

  /** Every step outside the send loop, seen through any id. */
  lemma OtherStepMoves(e: Engine, ev: Event, env: Env, id: Id)
    requires !ev.Sending() && ReceiverInv(e) && SenderInv(e)
    ensures BothMoves(e, ev, Step(e, ev, env), id)
  {
    if ev.SetConsent? {
      assert Prompts(Step(e, ev, env).engine, id) == Prompts(e, id);
    } else {
      hide BothMoves; hide StepDeliver; hide StepAnswer; hide StepCancelLocal; hide StepClosed; hide StepDispose;
      match ev
      case Deliver(f) => DeliverMoves(e, f, env, id);
      case Answer(serial, accept) => PromptAnswerMoves(e, serial, accept, env, id);
      case CancelLocal(cid, reason) => CancelLocalMoves(e, cid, reason, env, id);
      case _ => TeardownMoves(e, ev, env, id);
    }
  }

  /** Both automata at once, for every step of the engine and every id. */
  lemma StepMoves(e: Engine, ev: Event, env: Env, id: Id)
    requires ReceiverInv(e) && SenderInv(e)
    requires ev.SendFile? ==> ev.id !in e.outgoing
    ensures var r := Step(e, ev, env);
            && ReceiverInv(r.engine) && SenderInv(r.engine)
            && |r.sent| <= 1 && |r.files| <= 1
            && SendMove(id, SV(e, id), SV(r.engine, id), Of(r.sent, id), ev)
            && ((id in e.incoming ==> id !in e.outgoing) && PromptsCurrent(e, id) ==>
                  RecvMove(id, RV(e, id), RV(r.engine, id), Prompts(e, id), Prompts(r.engine, id), Of(r.sent, id),
                      FilesOf(r.files, id), ev))
  {
    StepKeepsReceiver(e, ev, env);
    if ev.Sending() {
      hide StepSender; hide SendMove; hide SenderInv;
      SenderStepMoves(e, ev, env, id);
      var r := Step(e, ev, env);
      assert Prompts(r.engine, id) == Prompts(e, id);
      assert RV(r.engine, id) == RV(e, id);
    } else {
      OtherStepMoves(e, ev, env, id);
    }
  }
}
