/**
 * The transfer engine as a step machine on values.
 *
 * One step is one stretch of code between two awaits. What the world decides for
 * that stretch (whether the channel is open, whether the write is taken, how much
 * is buffered, whether an object URL can be made) is the step's Env.
 */
module TransferSpec {
  import opened Common
  import opened ChunkCodec
  import opened Rechunk

  const MAX_SAFE_INTEGER: int := 0x1F_FFFF_FFFF_FFFF
  const ACK_INTERVAL_BYTES: nat := 1024 * 1024
  const HIGH_WATER: nat := 4 * 1024 * 1024
  const BUFFERED_LOW: nat := 262144
  const DEFAULT_MIME: string := "application/octet-stream"

  type Id = string

  datatype Direction = Send | Receive

  datatype Status = Pending | Active | Complete | Cancelled | Failed {
    predicate Terminal() { Complete? || Cancelled? || Failed? }
  }

  datatype Reason = UserCancelled | TooLarge | Declined | Error

  /** `serial` is the identity of the record object; ids are chosen by whoever announces. */
  datatype Record = Record(
    serial: nat, id: Id, direction: Direction, name: string, mime: string, size: int,
    bytes: nat, status: Status, reason: Option<Reason>, ackedBytes: int)

  /** A record object: the order in which it was created, and the id it was created for. */
  type RecordKey = (nat, Id)

  /** What sendFile is given: the declared size and the bytes its stream will yield. */
  datatype File = File(name: string, mime: string, size: nat, content: seq<byte>)

  datatype Frame =
    | TextFrame(text: string)
    | StartFrame(id: Id, name: string, mime: string, size: int)
    | AcceptFrame(id: Id, accept: bool)
    | AckFrame(id: Id, bytes: int)
    | CompleteFrame(id: Id)
    | CancelFrame(id: Id, reason: Reason)
    | BinaryFrame(data: seq<byte>)

  /** Where the coroutine of one sendFile call is suspended. */
  datatype Phase =
    | Waiting                                       // for transfer:accept or the timer
    | Answered(accept: bool)                        // the wait has resolved
    | Reading(carry: seq<byte>)                     // for reader.read()
    | Draining(chunk: seq<byte>, rest: seq<byte>, last: bool, parked: bool) // inside awaitDrain()
    | Sent(rest: seq<byte>, last: bool)             // sendChunk has resolved

  datatype Outgoing = Outgoing(rec: Record, file: File, phase: Phase, unread: seq<byte>)

  datatype Incoming = Incoming(rec: Record, chunks: seq<seq<byte>>, received: nat, acked: nat, accepted: bool)

  datatype ReceivedFile = ReceivedFile(serial: nat, id: Id, name: string, mime: string, size: int, data: seq<byte>)

  /** `prompts` are the consent questions still open, each with the record it was asked about. */
  datatype Engine = Engine(
    outgoing: map<Id, Outgoing>, incoming: map<Id, Incoming>, finished: map<RecordKey, Record>,
    prompts: map<nat, Record>, next: nat, dropped: nat, disposed: bool, hasConsent: bool, maxBytes: nat)

  datatype Env = Env(open: bool, ok: bool, buffered: nat, urlOk: bool)

  datatype Out = Out(engine: Engine, sent: seq<Frame>, files: seq<ReceivedFile>)

  datatype Event =
    | SendFile(id: Id, file: File)
    | AcceptTimeout(id: Id)
    | Resume(id: Id)
    | Read(id: Id, count: nat)
    | ReadDone(id: Id)
    | ReadFail(id: Id)
    | SendChunk(id: Id)
    | Continue(id: Id)
    | Drained
    | CancelLocal(id: Id, reason: Reason)
    | Answer(serial: nat, accept: bool)
    | SetConsent(handler: bool)
    | Deliver(frame: Frame)
    | Closed
    | Dispose
  {
    predicate Sending() {
      SendFile? || AcceptTimeout? || Resume? || Read? || ReadDone? || ReadFail? || SendChunk? || Continue? || Drained?
    }
  }

  function NewEngine(hasConsent: bool, maxBytes: nat): Engine {
    Engine(map[], map[], map[], map[], 0, 0, false, hasConsent, maxBytes)
  }

  // -- settlement -------------------------------------------------------------

  function Finalise(rec: Record, status: Status, reason: Option<Reason>): Record {
    rec.(status := status, reason := if reason.Some? then reason else rec.reason)
  }

  function SettleOutgoing(e: Engine, id: Id, status: Status, reason: Option<Reason>): Engine {
    if id !in e.outgoing then e
    else
      var rec := e.outgoing[id].rec;
      e.(outgoing := e.outgoing - {id}, finished := e.finished[(rec.serial, id) := Finalise(rec, status, reason)])
  }

  /** settleIncoming for the record object `rec`; membership is tested by id only. */
  function SettleIncoming(e: Engine, id: Id, rec: Record, status: Status, reason: Option<Reason>): Engine {
    if id !in e.incoming then e
    else e.(incoming := e.incoming - {id}, finished := e.finished[(rec.serial, id) := Finalise(rec, status, reason)])
  }

  function SettledOutgoing(out: map<Id, Outgoing>, status: Status, reason: Option<Reason>): map<RecordKey, Record> {
    map i | i in out :: (out[i].rec.serial, i) := Finalise(out[i].rec, status, reason)
  }

  function SettledIncoming(inc: map<Id, Incoming>, status: Status, reason: Option<Reason>): map<RecordKey, Record> {
    map i | i in inc :: (inc[i].rec.serial, i) := Finalise(inc[i].rec, status, reason)
  }

  lemma SettledOutgoingAt(out: map<Id, Outgoing>, k: RecordKey, status: Status, reason: Option<Reason>)
    ensures k in SettledOutgoing(out, status, reason) <==> k.1 in out && out[k.1].rec.serial == k.0
    ensures k in SettledOutgoing(out, status, reason) ==>
        SettledOutgoing(out, status, reason)[k] == Finalise(out[k.1].rec, status, reason)
  {
    hide Finalise;
    if k.1 in out && out[k.1].rec.serial == k.0 { assert k == (out[k.1].rec.serial, k.1); }
  }

  /** Settling one more transfer of `ids` adds exactly its record. */
  lemma SettledOutgoingStep(out: map<Id, Outgoing>, ids: set<Id>, id: Id, status: Status, reason: Option<Reason>)
    requires id in ids && ids <= out.Keys
    ensures SettledOutgoing(out - (ids - {id}), status, reason)
         == SettledOutgoing(out - ids, status, reason)[(out[id].rec.serial, id) :=
             Finalise(out[id].rec, status, reason)]
  {
    var more := SettledOutgoing(out - (ids - {id}), status, reason);
    var fewer := SettledOutgoing(out - ids, status, reason);
    var after := fewer[(out[id].rec.serial, id) := Finalise(out[id].rec, status, reason)];
    forall k: RecordKey ensures (k in more <==> k in after) && (k in more ==> more[k] == after[k]) {
      SettledOutgoingAt(out - (ids - {id}), k, status, reason);
      SettledOutgoingAt(out - ids, k, status, reason);
    }
    hide SettledOutgoing, Finalise;
  }

  lemma SettledIncomingAt(inc: map<Id, Incoming>, k: RecordKey, status: Status, reason: Option<Reason>)
    ensures k in SettledIncoming(inc, status, reason) <==> k.1 in inc && inc[k.1].rec.serial == k.0
    ensures k in SettledIncoming(inc, status, reason) ==>
        SettledIncoming(inc, status, reason)[k] == Finalise(inc[k.1].rec, status, reason)
  {
    hide Finalise;
    if k.1 in inc && inc[k.1].rec.serial == k.0 { assert k == (inc[k.1].rec.serial, k.1); }
  }

  /** Settling one more transfer of `ids` adds exactly its record. */
  lemma SettledIncomingStep(inc: map<Id, Incoming>, ids: set<Id>, id: Id, status: Status, reason: Option<Reason>)
    requires id in ids && ids <= inc.Keys
    ensures SettledIncoming(inc - (ids - {id}), status, reason)
         == SettledIncoming(inc - ids, status, reason)[(inc[id].rec.serial, id) :=
             Finalise(inc[id].rec, status, reason)]
  {
    var more := SettledIncoming(inc - (ids - {id}), status, reason);
    var fewer := SettledIncoming(inc - ids, status, reason);
    var after := fewer[(inc[id].rec.serial, id) := Finalise(inc[id].rec, status, reason)];
    forall k: RecordKey ensures (k in more <==> k in after) && (k in more ==> more[k] == after[k]) {
      SettledIncomingAt(inc - (ids - {id}), k, status, reason);
      SettledIncomingAt(inc - ids, k, status, reason);
    }
    hide SettledIncoming, Finalise;
  }

  lemma SettledIncomingNone(inc: map<Id, Incoming>, status: Status, reason: Option<Reason>)
    ensures SettledIncoming(inc - inc.Keys, status, reason) == map[]
  {
    assert inc - inc.Keys == map[];
  }

  /** Every live transfer settled with the same outcome, outgoing ones and incoming ones. */
  function SettleAll(e: Engine, status: Status, reason: Option<Reason>): Engine {
    e.(outgoing := map[], incoming := map[],
       finished := e.finished + SettledOutgoing(e.outgoing, status, reason) + SettledIncoming(e.incoming, status,
           reason))
  }

  /** Nothing the receiving half reads has changed, except that new records may exist. */
  ghost predicate SameReceiver(e: Engine, e': Engine) {
    e'.incoming == e.incoming && e'.prompts == e.prompts && e'.disposed == e.disposed && e'.maxBytes == e.maxBytes
        && e.next <= e'.next
  }

  /** Nothing the sending half reads has changed. */
  ghost predicate SameSender(e: Engine, e': Engine) {
    e'.outgoing == e.outgoing && e'.disposed == e.disposed && e'.maxBytes == e.maxBytes && e.next <= e'.next
  }

  // -- sending ----------------------------------------------------------------

  function SendFrame(env: Env, f: Frame): seq<Frame> {
    if env.open && env.ok then [f] else []
  }

  function OrDefaultMime(mime: string): string { if mime == "" then DEFAULT_MIME else mime }

  function StepSendFile(e: Engine, id: Id, file: File, env: Env): (r: Out)
    ensures SameReceiver(e, r.engine) && r.files == []
  {
    var rec := Record(e.next, id, Send, file.name, OrDefaultMime(file.mime), file.size, 0, Pending, None, 0);
    var e1 := e.(outgoing := e.outgoing[id := Outgoing(rec, file, Waiting, file.content)], next := e.next + 1);
    if env.open && env.ok then Out(e1, [StartFrame(id, rec.name, rec.mime, rec.size)], [])
    else Out(SettleOutgoing(e1, id, Failed, Some(Error)), [], [])
  }

  /** settleAccept, by the timer or by the peer's answer; only the first call counts. */
  function StepAcceptAnswer(e: Engine, id: Id, accept: bool): (r: Out)
    ensures SameReceiver(e, r.engine) && r.files == []
  {
    if id in e.outgoing && e.outgoing[id].phase.Waiting?
    then Out(e.(outgoing := e.outgoing[id := e.outgoing[id].(phase := Answered(accept))]), [], [])
    else Out(e, [], [])
  }

  function StepResume(e: Engine, id: Id): (r: Out)
    ensures SameReceiver(e, r.engine) && r.files == []
  {
    if id in e.outgoing && e.outgoing[id].phase.Answered? then
      var o := e.outgoing[id];
      if !o.phase.accept then Out(SettleOutgoing(e, id, Cancelled, Some(Declined)), [], [])
      else Out(e.(outgoing := e.outgoing[id := o.(rec := o.rec.(status := Active), phase := Reading([]))]), [], [])
    else Out(e, [], [])
  }

  /** The inner loop of streamFile up to its next await, with `view` still to be cut. */
  function Cut(view: seq<byte>, env: Env): Phase {
    if |view| >= CHUNK_SIZE then Draining(view[..CHUNK_SIZE], view[CHUNK_SIZE..], false, env.buffered > HIGH_WATER)
    else Reading(view)
  }

  function StepRead(e: Engine, id: Id, count: nat, env: Env): (r: Out)
    ensures SameReceiver(e, r.engine) && r.files == []
  {
    if id in e.outgoing && e.outgoing[id].phase.Reading? && count <= |e.outgoing[id].unread| then
      var o := e.outgoing[id];
      var phase := Cut(o.phase.carry + o.unread[..count], env);
      Out(e.(outgoing := e.outgoing[id := o.(phase := phase, unread := o.unread[count..])]), [], [])
    else Out(e, [], [])
  }

  /** The end of streamFile: announce completion, settle as complete whether or not the frame was taken. */
  function Finish(e: Engine, id: Id, env: Env): (r: Out)
    ensures SameReceiver(e, r.engine) && r.files == []
  {
    Out(SettleOutgoing(e, id, Complete, None), SendFrame(env, CompleteFrame(id)), [])
  }

  function StepReadDone(e: Engine, id: Id, env: Env): (r: Out)
    ensures SameReceiver(e, r.engine) && r.files == []
  {
    if id in e.outgoing && e.outgoing[id].phase.Reading? && e.outgoing[id].unread == [] then
      var o := e.outgoing[id];
      if o.phase.carry == [] then Finish(e, id, env)
      else Out(e.(outgoing := e.outgoing[id :=
          o.(phase := Draining(o.phase.carry, [], true, env.buffered > HIGH_WATER))]), [], [])
    else Out(e, [], [])
  }

  function StepReadFail(e: Engine, id: Id): (r: Out)
    ensures SameReceiver(e, r.engine) && r.files == []
  {
    if id in e.outgoing && e.outgoing[id].phase.Reading?
    then Out(SettleOutgoing(e, id, Failed, Some(Error)), [], [])
    else Out(e, [], [])
  }

  /** sendChunk after its wait: a closed channel, a malformed id or a refused write fail the transfer. */
  function StepSendChunk(e: Engine, id: Id, env: Env): (r: Out)
    ensures SameReceiver(e, r.engine) && r.files == []
  {
    if id in e.outgoing && e.outgoing[id].phase.Draining? && !e.outgoing[id].phase.parked then
      var o := e.outgoing[id];
      if !env.open || !ValidId(id) || !env.ok then Out(SettleOutgoing(e, id, Failed, Some(Error)), [], [])
      else
        var rec := o.rec.(bytes := o.rec.bytes + |o.phase.chunk|);
        Out(e.(outgoing := e.outgoing[id := o.(rec := rec, phase := Sent(o.phase.rest, o.phase.last))]),
            [BinaryFrame(Encode(id, o.phase.chunk))], [])
    else Out(e, [], [])
  }

  function StepContinue(e: Engine, id: Id, env: Env): (r: Out)
    ensures SameReceiver(e, r.engine) && r.files == []
  {
    if id in e.outgoing && e.outgoing[id].phase.Sent? then
      var o := e.outgoing[id];
      if o.phase.last then Finish(e, id, env)
      else Out(e.(outgoing := e.outgoing[id := o.(phase := Cut(o.phase.rest, env))]), [], [])
    else Out(e, [], [])
  }

  function Unpark(o: Outgoing): Outgoing {
    if o.phase.Draining? then o.(phase := o.phase.(parked := false)) else o
  }

  /** Every sender parked in awaitDrain is woken. */
  function UnparkAll(e: Engine): (r: Engine)
    ensures SameReceiver(e, r)
  {
    e.(outgoing := map i | i in e.outgoing :: Unpark(e.outgoing[i]))
  }

  // -- receiving --------------------------------------------------------------

  function Refuse(e: Engine, f: Frame, reason: Reason, env: Env): (r: Out)
    requires f.StartFrame?
    ensures SameSender(e, r.engine) && r.files == []
  {
    var rec := Record(e.next, f.id, Receive, f.name, OrDefaultMime(f.mime), f.size, 0, Failed, Some(reason), 0);
    Out(e.(finished := e.finished[(rec.serial, f.id) := rec], next := e.next + 1),
        SendFrame(env, CancelFrame(f.id, reason)), [])
  }

  function StepStart(e: Engine, f: Frame, env: Env): (r: Out)
    requires f.StartFrame?
    ensures SameSender(e, r.engine) && r.files == []
  {
    if f.id in e.incoming || f.id in e.outgoing then Out(e, [], [])
    else if f.size < 0 || f.size > MAX_SAFE_INTEGER then Refuse(e, f, Error, env)
    else if f.size > e.maxBytes then Refuse(e, f, TooLarge, env)
    else
      var rec := Record(e.next, f.id, Receive, f.name, OrDefaultMime(f.mime), f.size, 0, Pending, None, 0);
      var e1 := e.(incoming := e.incoming[f.id := Incoming(rec, [], 0, 0, false)], next := e.next + 1);
      if e.hasConsent then Out(e1.(prompts := e1.prompts[rec.serial := rec]), [], [])
      else Out(SettleIncoming(e1, f.id, rec, Cancelled, Some(Declined)), SendFrame(env, AcceptFrame(f.id, false)), [])
  }

  /** The record object a prompt was opened for, as it is now. */
  function PromptRecord(e: Engine, serial: nat): Record
    requires serial in e.prompts
  {
    var key := (serial, e.prompts[serial].id);
    if key in e.finished then e.finished[key] else e.prompts[serial]
  }

  /**
   * The continuation of handleStart once the consent question is answered; a throw counts as a no.
   * It holds the record object it was started for, but looks the transfer up by id.
   */
  function StepAnswer(e: Engine, serial: nat, accept: bool, env: Env): (r: Out)
    ensures SameSender(e, r.engine) && r.files == []
  {
    if serial !in e.prompts then Out(e, [], [])
    else
      var id := e.prompts[serial].id;
      var rec := PromptRecord(e, serial);
      var e1 := e.(prompts := e.prompts - {serial});
      if id !in e1.incoming then Out(e1, [], [])
      else
        var sent := SendFrame(env, AcceptFrame(id, accept));
        var current := e1.incoming[id];
        if !accept then
          Out(SettleIncoming(e1, id, if current.rec.serial == serial then current.rec
              else rec, Cancelled, Some(Declined)), sent, [])
        else if current.rec.serial == serial then
          Out(e1.(incoming := e1.incoming[id := current.(accepted := true, rec := current.rec.(status := Active))]),
              sent, [])
        else if (serial, id) in e1.finished then
          Out(e1.(finished := e1.finished[(serial, id) := rec.(status := Active)]), sent, [])
        else Out(e1, sent, [])
  }

  function StepBinary(e: Engine, data: seq<byte>, env: Env): (r: Out)
    ensures SameSender(e, r.engine) && r.files == []
  {
    var decoded := Decode(data);
    if decoded.None? then Out(e.(dropped := e.dropped + 1), [], [])
    else
      var id := decoded.value.transferId;
      if id !in e.incoming || !e.incoming[id].accepted then Out(e.(dropped := e.dropped + 1), [], [])
      else
        var s := e.incoming[id];
        var payload := decoded.value.payload;
        if s.received + |payload| > s.rec.size then
          Out(SettleIncoming(e, id, s.rec, Failed, Some(Error)), SendFrame(env, CancelFrame(id, Error)), [])
        else
          var received := s.received + |payload|;
          var due := received - s.acked >= ACK_INTERVAL_BYTES;
          var s1 := s.(chunks := s.chunks + [payload], received := received, rec := s.rec.(bytes := received),
                       acked := if due then received else s.acked);
          Out(e.(incoming := e.incoming[id := s1]), if due then SendFrame(env, AckFrame(id, received)) else [], [])
  }

  function StepComplete(e: Engine, id: Id, env: Env): (r: Out)
    ensures SameSender(e, r.engine)
  {
    if id in e.outgoing || id !in e.incoming then Out(e, [], [])
    else
      var s := e.incoming[id];
      if s.received != s.rec.size || !env.urlOk then Out(SettleIncoming(e, id, s.rec, Failed, Some(Error)), [], [])
      else
        var file := ReceivedFile(s.rec.serial, id, s.rec.name, s.rec.mime, s.rec.size, Flatten(s.chunks));
        Out(SettleIncoming(e, id, s.rec, Complete, None), SendFrame(env, AckFrame(id, s.received)), [file])
  }

  function StepRemoteCancel(e: Engine, id: Id, reason: Reason): Out {
    if id in e.outgoing then
      Out(SettleOutgoing(e, id, if reason.Error? || reason.TooLarge? then Failed else Cancelled, Some(reason)), [], [])
    else if id in e.incoming then Out(SettleIncoming(e, id, e.incoming[id].rec, Cancelled, Some(reason)), [], [])
    else Out(e, [], [])
  }

  function StepAck(e: Engine, id: Id, bytes: int): (r: Out)
    ensures SameReceiver(e, r.engine) && r.files == []
  {
    if id !in e.outgoing then Out(e, [], [])
    else
      var o := e.outgoing[id];
      Out(e.(outgoing := e.outgoing[id := o.(rec := o.rec.(ackedBytes := bytes))]), [], [])
  }

  /** The channel's string and binary listeners; a disposed engine has unsubscribed. */
  function StepDeliver(e: Engine, f: Frame, env: Env): Out {
    if e.disposed then Out(e, [], [])
    else match f
      case TextFrame(_) => Out(e, [], [])
      case StartFrame(_, _, _, _) => StepStart(e, f, env)
      case AcceptFrame(id, accept) => StepAcceptAnswer(e, id, accept)
      case AckFrame(id, bytes) => StepAck(e, id, bytes)
      case CompleteFrame(id) => StepComplete(e, id, env)
      case CancelFrame(id, reason) => StepRemoteCancel(e, id, reason)
      case BinaryFrame(data) => StepBinary(e, data, env)
  }

  // -- both directions --------------------------------------------------------

  function StepCancelLocal(e: Engine, id: Id, reason: Reason, env: Env): Out {
    if id in e.outgoing then
      Out(SettleOutgoing(e, id, Cancelled, Some(reason)), SendFrame(env, CancelFrame(id, reason)), [])
    else if id in e.incoming then
      Out(SettleIncoming(e, id, e.incoming[id].rec, Cancelled, Some(reason)), SendFrame(env, CancelFrame(id, reason)),
          [])
    else Out(e, [], [])
  }

  function StepClosed(e: Engine): Out
  {
    if e.disposed then Out(UnparkAll(e), [], []) else Out(SettleAll(e, Failed, Some(Error)), [], [])
  }

  function StepDispose(e: Engine): Out
  {
    if e.disposed then Out(e, [], [])
    else Out(SettleAll(e, Cancelled, Some(UserCancelled)).(disposed := true), [], [])
  }

  /** The steps of sendFile's coroutines and of the drain signal. */
  function StepSender(e: Engine, ev: Event, env: Env): (r: Out)
    requires ev.Sending()
    ensures SameReceiver(e, r.engine) && r.files == []
  {
    match ev
    case SendFile(id, file) => StepSendFile(e, id, file, env)
    case AcceptTimeout(id) => StepAcceptAnswer(e, id, false)
    case Resume(id) => StepResume(e, id)
    case Read(id, count) => StepRead(e, id, count, env)
    case ReadDone(id) => StepReadDone(e, id, env)
    case ReadFail(id) => StepReadFail(e, id)
    case SendChunk(id) => StepSendChunk(e, id, env)
    case Continue(id) => StepContinue(e, id, env)
    case Drained => Out(UnparkAll(e), [], [])
  }

  function Step(e: Engine, ev: Event, env: Env): Out {
    if ev.Sending() then StepSender(e, ev, env)
    else match ev
      case CancelLocal(id, reason) => StepCancelLocal(e, id, reason, env)
      case Answer(serial, accept) => StepAnswer(e, serial, accept, env)
      case SetConsent(handler) => Out(e.(hasConsent := handler), [], [])
      case Deliver(frame) => StepDeliver(e, frame, env)
      case Closed => StepClosed(e)
      case Dispose => StepDispose(e)
  }
}
