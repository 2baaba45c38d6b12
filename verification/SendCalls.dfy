/**
 * The calls of sendFile as they are: each has a state object of its own, with its `aborted` flag and whatever it is
 * waiting for, and runs on after its transfer has been settled and taken out of the map. Its record object is shared
 * with the history. Settling must therefore wake the call and tell it to stop; TransferSpec, where a settled transfer
 * takes its coroutine with it, is what this comes to once that is done.
 */
module SendCalls {
  import opened Common
  import opened ChunkCodec
  import opened Rechunk
  import opened TransferSpec

  /**
   * One call: `phase` is the await it stands at, until it has returned; `filed` says that its record is in the
   * history.
   */
  datatype Call = Call(
    id: Id, rec: Record, file: File, unread: seq<byte>, phase: Phase, aborted: bool, filed: bool, returned: bool)
  {
    /** In awaitDrain, with no drain, close or cancel since. */
    predicate Parked() { !returned && phase.Draining? && phase.parked }

    /** In waitForAccept, with no answer, timeout or cancel since. */
    predicate Undecided() { !returned && phase.Waiting? }
  }

  /** `base` is everything but the sending half's map, which is `live`: the call each transfer id leads to. */
  datatype Machine = Machine(base: Engine, live: map<Id, nat>, calls: map<nat, Call>)

  function NewMachine(hasConsent: bool, maxBytes: nat): Machine {
    Machine(NewEngine(hasConsent, maxBytes), map[], map[])
  }

  // -- the engine seen from outside ---------------------------------------------------------

  function OutgoingOf(c: Call): Outgoing { Outgoing(c.rec, c.file, c.phase, c.unread) }

  function LiveOutgoing(live: map<Id, nat>, calls: map<nat, Call>): map<Id, Outgoing> {
    map id | id in live && live[id] in calls :: OutgoingOf(calls[live[id]])
  }

  /** The engine of TransferSpec: the transfers still in the map, each with what its call is doing. */
  function Abs(m: Machine): Engine { m.base.(outgoing := LiveOutgoing(m.live, m.calls)) }

  predicate IsLive(m: Machine, s: nat) {
    s in m.calls && m.calls[s].id in m.live && m.live[m.calls[s].id] == s
  }

  // -- settlement ------------------------------------------------------------------------------

  /** settleAccept(false), and every waiter of awaitDrain run. */
  function Woken(p: Phase): Phase {
    match p
    case Waiting => Answered(false)
    case Draining(chunk, rest, last, _) => Draining(chunk, rest, last, false)
    case _ => p
  }

  function SettledCall(c: Call, status: Status, reason: Option<Reason>): Call {
    c.(aborted := status != Complete, phase := Woken(c.phase), rec := Finalise(c.rec, status, reason), filed := true)
  }

  /** settleOutgoing for the state object of call s. */
  function Settle(m: Machine, s: nat, status: Status, reason: Option<Reason>): Machine
    requires s in m.calls
  {
    var c := m.calls[s];
    if c.id !in m.live then m
    else
      var c1 := SettledCall(c, status, reason);
      Machine(m.base.(finished := m.base.finished[(s, c.id) := c1.rec]), m.live - {c.id}, m.calls[s := c1])
  }

  function SettledCalls(live: map<Id, nat>, calls: map<nat, Call>, status: Status, reason: Option<Reason>)
    : map<nat, Call> {
    map s | s in calls ::
      if calls[s].id in live && live[calls[s].id] == s then SettledCall(calls[s], status, reason) else calls[s]
  }

  /** Both teardown loops: every transfer in either map. */
  function SettleEverything(m: Machine, status: Status, reason: Option<Reason>): Machine {
    var out := LiveOutgoing(m.live, m.calls);
    Machine(
      m.base.(incoming := map[],
              finished := m.base.finished + SettledOutgoing(out, status, reason) + SettledIncoming(m.base.incoming,
                  status, reason)),
      map[],
      SettledCalls(m.live, m.calls, status, reason))
  }

  function LeftLive(live: map<Id, nat>, left: set<Id>): map<Id, nat> {
    map id | id in live && id in left :: live[id]
  }

  function LeftCalls(m: Machine, left: set<Id>, status: Status, reason: Option<Reason>): map<nat, Call> {
    map s | s in m.calls :: if IsLive(m, s) && m.calls[s].id !in left then SettledCall(m.calls[s], status, reason)
        else m.calls[s]
  }

  function LeftFiled(m: Machine, left: set<Id>, status: Status, reason: Option<Reason>): map<RecordKey, Record> {
    m.base.finished + SettledOutgoing(LiveOutgoing(m.live, m.calls) - left, status, reason)
  }

  /** The first teardown loop when only the transfers in `left` are still to be settled. */
  function SettleSends(m: Machine, left: set<Id>, status: Status, reason: Option<Reason>): Machine {
    Machine(m.base.(finished := LeftFiled(m, left, status, reason)), LeftLive(m.live, left),
        LeftCalls(m, left, status, reason))
  }

  function LeftIncoming(inc: map<Id, Incoming>, left: set<Id>): map<Id, Incoming> {
    map id | id in inc && id in left :: inc[id]
  }

  /** The second one, likewise. */
  function SettleReceives(m: Machine, left: set<Id>, status: Status, reason: Option<Reason>): Machine {
    m.(base := m.base.(incoming := LeftIncoming(m.base.incoming, left),
                       finished := m.base.finished + SettledIncoming(m.base.incoming - left, status, reason)))
  }

  /** The map leads to calls that go by their ids, and so do the records. */
  ghost predicate LiveLinked(m: Machine) {
    && (forall id :: id in m.live ==> m.live[id] in m.calls && m.calls[m.live[id]].id == id)
    && (forall s :: s in m.calls ==> m.calls[s].rec.serial == s)
  }

  lemma LeftAll(m: Machine, status: Status, reason: Option<Reason>)
    ensures LeftLive(m.live, m.live.Keys) == m.live && LeftCalls(m, m.live.Keys, status, reason) == m.calls
  {
    hide SettledCall;
  }

  lemma NothingSeen(live: map<Id, nat>, calls: map<nat, Call>)
    ensures LiveOutgoing(live, calls) - live.Keys == map[]
  {
  }

  lemma NothingSettled(status: Status, reason: Option<Reason>)
    ensures SettledOutgoing(map[], status, reason) == map[]
  {
  }

  lemma NoneFiled(m: Machine, status: Status, reason: Option<Reason>)
    ensures LeftFiled(m, m.live.Keys, status, reason) == m.base.finished
  {
    hide SettledOutgoing, LiveOutgoing;
    NothingSeen(m.live, m.calls);
    NothingSettled(status, reason);
  }

  lemma SettleSendsNone(m: Machine, status: Status, reason: Option<Reason>)
    ensures SettleSends(m, m.live.Keys, status, reason) == m
  {
    hide LeftLive, LeftCalls, LeftFiled;
    LeftAll(m, status, reason);
    NoneFiled(m, status, reason);
  }

  lemma NoneLeft(m: Machine, status: Status, reason: Option<Reason>)
    ensures LeftLive(m.live, {}) == map[]
    ensures LeftFiled(m, {}, status, reason) == m.base.finished
        + SettledOutgoing(LiveOutgoing(m.live, m.calls), status, reason)
    ensures LeftCalls(m, {}, status, reason) == SettledCalls(m.live, m.calls, status, reason)
  {
    hide SettledOutgoing, SettledCall, LiveOutgoing;
    var out := LiveOutgoing(m.live, m.calls);
    assert out - {} == out;
  }

  lemma ReceivesNone(m: Machine, status: Status, reason: Option<Reason>)
    ensures SettleReceives(m, m.base.incoming.Keys, status, reason) == m
  {
    var inc := m.base.incoming;
    SettledIncomingNone(inc, status, reason);
    assert LeftIncoming(inc, inc.Keys) == inc;
    hide SettledIncoming, LeftIncoming;
  }

  lemma ReceivesStep(m: Machine, left: set<Id>, id: Id, status: Status, reason: Option<Reason>)
    requires id in left && left <= m.base.incoming.Keys
    ensures var n, rec := SettleReceives(m, left, status, reason), m.base.incoming[id].rec;
            SettleReceives(m, left - {id}, status, reason)
            == n.(base := n.base.(incoming := n.base.incoming - {id},
                                  finished := n.base.finished[(rec.serial, id) := Finalise(rec, status, reason)]))
  {
    var inc := m.base.incoming;
    hide SettledIncoming, Finalise;
    SettledIncomingStep(inc, left, id, status, reason);
    UpdateSum(m.base.finished, SettledIncoming(inc - left, status, reason), (inc[id].rec.serial, id),
        Finalise(inc[id].rec, status, reason));
    assert LeftIncoming(inc, left - {id}) == LeftIncoming(inc, left) - {id};
    hide LeftIncoming;
  }

  lemma NoReceivesLeft(m: Machine, status: Status, reason: Option<Reason>)
    ensures LeftIncoming(m.base.incoming, {}) == map[] && m.base.incoming - {} == m.base.incoming
  {
  }

  lemma TeardownInParts(m: Machine, status: Status, reason: Option<Reason>)
    ensures SettleReceives(SettleSends(m, {}, status, reason), {}, status, reason)
        == SettleEverything(m, status, reason)
  {
    hide SettledOutgoing, SettledIncoming, SettledCall, LiveOutgoing, LeftLive, LeftCalls, LeftFiled, LeftIncoming,
        SettledCalls;
    NoneLeft(m, status, reason);
    NoReceivesLeft(m, status, reason);
  }

  lemma CallsStep(m: Machine, left: set<Id>, id: Id, status: Status, reason: Option<Reason>)
    requires LiveLinked(m) && id in left && id in m.live
    ensures var s, n := m.live[id], LeftCalls(m, left, status, reason);
            && s in n && n[s] == m.calls[s]
            && LeftCalls(m, left - {id}, status, reason) == n[s := SettledCall(m.calls[s], status, reason)]
  {
    hide SettledCall;
  }

  lemma FiledStep(m: Machine, left: set<Id>, id: Id, status: Status, reason: Option<Reason>)
    requires LiveLinked(m) && id in left && left <= m.live.Keys
    ensures LeftFiled(m, left - {id}, status, reason)
         == LeftFiled(m, left, status, reason)[(m.live[id], id) := Finalise(m.calls[m.live[id]].rec, status, reason)]
  {
    var out := LiveOutgoing(m.live, m.calls);
    assert id in out && out[id].rec == m.calls[m.live[id]].rec && left <= out.Keys;
    hide SettledOutgoing, LiveOutgoing, Finalise;
    SettledOutgoingStep(out, left, id, status, reason);
    UpdateSum(m.base.finished, SettledOutgoing(out - left, status, reason), (m.live[id], id),
              Finalise(m.calls[m.live[id]].rec, status, reason));
  }

  lemma LiveStep(live: map<Id, nat>, left: set<Id>, id: Id)
    requires id in left && left <= live.Keys
    ensures LeftLive(live, left - {id}) == LeftLive(live, left) - {id}
    ensures id in LeftLive(live, left) && LeftLive(live, left)[id] == live[id]
  {
  }

  lemma SettleSendsStep(m: Machine, left: set<Id>, id: Id, status: Status, reason: Option<Reason>)
    requires LiveLinked(m) && id in left && left <= m.live.Keys
    ensures var n := SettleSends(m, left, status, reason);
            && id in n.live && n.live[id] == m.live[id] && m.live[id] in n.calls
            && Settle(n, m.live[id], status, reason) == SettleSends(m, left - {id}, status, reason)
  {
    hide LeftLive, LeftCalls, LeftFiled, Finalise, Woken;
    CallsStep(m, left, id, status, reason);
    FiledStep(m, left, id, status, reason);
    LiveStep(m.live, left, id);
  }

  // -- one call, from one await to the next ----------------------------------------------------------

  /** What a call's await resolves to. */
  datatype Wake = Timeout | Resume | Read(count: nat) | ReadDone | ReadFail | SendChunk | Continue

  function SetCall(m: Machine, s: nat, c: Call): Machine { m.(calls := m.calls[s := c]) }

  /** A write to a record object shows in the history too, once it is there. */
  function SetRecord(m: Machine, s: nat, rec: Record): Machine
    requires s in m.calls
  {
    var c := m.calls[s].(rec := rec);
    var shared := if c.filed then m.base.(finished := m.base.finished[(s, c.id) := rec]) else m.base;
    Machine(shared, m.live, m.calls[s := c])
  }

  function SetPhase(m: Machine, s: nat, phase: Phase): Machine
    requires s in m.calls
  {
    SetCall(m, s, m.calls[s].(phase := phase))
  }

  function Return(m: Machine, s: nat): Machine
    requires s in m.calls
  {
    SetCall(m, s, m.calls[s].(returned := true))
  }

  /** sendChunk up to its await; an aborted call does not wait for the buffer. */
  function Drain(c: Call, chunk: seq<byte>, rest: seq<byte>, last: bool, env: Env): Phase {
    Draining(chunk, rest, last, !c.aborted && env.buffered > HIGH_WATER)
  }

  /** The rest of the read loop's body with `view` still to be cut, and the head of its next turn. */
  function CutOrRead(m: Machine, s: nat, view: seq<byte>, env: Env): Machine
    requires s in m.calls
  {
    var c := m.calls[s];
    if |view| >= CHUNK_SIZE then SetPhase(m, s, Drain(c, view[..CHUNK_SIZE], view[CHUNK_SIZE..], false, env))
    else if c.aborted then Return(m, s)
    else SetPhase(m, s, Reading(view))
  }

  /** The end of streamFile: nothing if the transfer is gone, else announce completion and settle. */
  function FinishCall(m: Machine, s: nat, env: Env): (Machine, seq<Frame>)
    requires s in m.calls
  {
    var c := m.calls[s];
    if c.aborted then (Return(m, s), [])
    else (Return(Settle(m, s, Complete, None), s), SendFrame(env, CompleteFrame(c.id)))
  }

  /** sendFile once the wait for the answer is over. */
  function ResumeCall(m: Machine, s: nat, accept: bool): Machine
    requires s in m.calls
  {
    var c := m.calls[s];
    if c.aborted then Return(m, s)
    else if !accept then Return(Settle(m, s, Cancelled, Some(Declined)), s)
    else SetPhase(SetRecord(m, s, c.rec.(status := Active)), s, Reading([]))
  }

  function ReadCall(m: Machine, s: nat, carry: seq<byte>, count: nat, env: Env): Machine
    requires s in m.calls
  {
    var c := m.calls[s];
    if count > |c.unread| then m
    else CutOrRead(SetCall(m, s, c.(unread := c.unread[count..])), s, carry + c.unread[..count], env)
  }

  function ReadDoneCall(m: Machine, s: nat, carry: seq<byte>, env: Env): (Machine, seq<Frame>)
    requires s in m.calls
  {
    var c := m.calls[s];
    if c.unread != [] then (m, [])
    else if carry != [] then (SetPhase(m, s, Drain(c, carry, [], true, env)), [])
    else FinishCall(m, s, env)
  }

  /** An exception out of the stream: fails the transfer, unless it is gone already. */
  function ThrowCall(m: Machine, s: nat): Machine
    requires s in m.calls
  {
    if m.calls[s].aborted then Return(m, s) else Return(Settle(m, s, Failed, Some(Error)), s)
  }

  /** sendChunk after its wait. */
  function SendChunkCall(m: Machine, s: nat, chunk: seq<byte>, rest: seq<byte>, last: bool, env: Env)
    : (Machine, seq<Frame>)
    requires s in m.calls
  {
    var c := m.calls[s];
    var sent := TransferSpec.Sent(rest, last);
    if c.aborted then (SetPhase(m, s, sent), [])
    else if !env.open then (SetPhase(Settle(m, s, Failed, Some(Error)), s, sent), [])
    else if !ValidId(c.id) then (ThrowCall(m, s), [])
    else if !env.ok then (SetPhase(Settle(m, s, Failed, Some(Error)), s, sent), [])
    else
      (SetPhase(SetRecord(m, s, c.rec.(bytes := c.rec.bytes + |chunk|)), s, sent), [BinaryFrame(Encode(c.id, chunk))])
  }

  function ContinueCall(m: Machine, s: nat, rest: seq<byte>, last: bool, env: Env): (Machine, seq<Frame>)
    requires s in m.calls
  {
    if m.calls[s].aborted then (Return(m, s), [])
    else if last then FinishCall(m, s, env)
    else (CutOrRead(m, s, rest, env), [])
  }

  /** Whether that await of that call can resolve so. */
  predicate Ready(c: Call, w: Wake) {
    && !c.returned
    && match w
       case Timeout => c.phase.Waiting?
       case Resume => c.phase.Answered?
       case Read(count) => c.phase.Reading? && count <= |c.unread|
       case ReadDone => c.phase.Reading? && c.unread == []
       case ReadFail => c.phase.Reading?
       case SendChunk => c.phase.Draining? && !c.phase.parked
       case Continue => c.phase.Sent?
  }

  /** One stretch of one call; nothing happens at an await that cannot resolve so. */
  function CallStep(m: Machine, s: nat, w: Wake, env: Env): (Machine, seq<Frame>) {
    if s !in m.calls || !Ready(m.calls[s], w) then (m, [])
    else
      var p := m.calls[s].phase;
      match w
      case Timeout => (SetPhase(m, s, Answered(false)), [])
      case Resume => (ResumeCall(m, s, p.accept), [])
      case Read(count) => (ReadCall(m, s, p.carry, count, env), [])
      case ReadDone => ReadDoneCall(m, s, p.carry, env)
      case ReadFail => (ThrowCall(m, s), [])
      case SendChunk => SendChunkCall(m, s, p.chunk, p.rest, p.last, env)
      case Continue => ContinueCall(m, s, p.rest, p.last, env)
  }

  // -- everything else --------------------------------------------------------------------------------

  function StartCall(m: Machine, id: Id, file: File, env: Env): (Machine, seq<Frame>) {
    var s := m.base.next;
    var rec := Record(s, id, Send, file.name, OrDefaultMime(file.mime), file.size, 0, Pending, None, 0);
    var m1 := Machine(m.base.(next := s + 1), m.live[id := s],
        m.calls[s := Call(id, rec, file, file.content, Waiting, false, false, false)]);
    if env.open && env.ok then (m1, [StartFrame(id, rec.name, rec.mime, rec.size)])
    else (Return(Settle(m1, s, Failed, Some(Error)), s), [])
  }

  function UnparkCall(c: Call): Call {
    if c.phase.Draining? then c.(phase := c.phase.(parked := false)) else c
  }

  /** The drain event, or the close: every waiter of every call. */
  function UnparkCalls(m: Machine): Machine {
    m.(calls := map s | s in m.calls :: UnparkCall(m.calls[s]))
  }

  /** A step of the receiving half, which only looks at the keys of the sending half's map. */
  function Rebased(m: Machine, r: Out): Out2 {
    Out2(m.(base := r.engine.(outgoing := map[])), r.sent, r.files)
  }

  datatype Out2 = Out2(m: Machine, sent: seq<Frame>, files: seq<ReceivedFile>)

  function Quiet(m: Machine): Out2 { Out2(m, [], []) }

  function CancelCall(m: Machine, id: Id, reason: Reason, env: Env): Out2 {
    if id in m.live && m.live[id] in m.calls then
      Out2(Settle(m, m.live[id], Cancelled, Some(reason)), SendFrame(env, CancelFrame(id, reason)), [])
    else Rebased(m, StepCancelLocal(Abs(m), id, reason, env))
  }

  function DeliverStep(m: Machine, f: Frame, env: Env): Out2 {
    if m.base.disposed then Quiet(m)
    else match f
      case AcceptFrame(id, accept) =>
        if id in m.live && m.live[id] in m.calls && m.calls[m.live[id]].phase.Waiting?
        then Quiet(SetPhase(m, m.live[id], Answered(accept))) else Quiet(m)
      case AckFrame(id, bytes) =>
        if id in m.live && m.live[id] in m.calls
        then Quiet(SetRecord(m, m.live[id], m.calls[m.live[id]].rec.(ackedBytes := bytes))) else Quiet(m)
      case CancelFrame(id, reason) =>
        if id in m.live && m.live[id] in m.calls
        then Quiet(Settle(m, m.live[id], if reason.Error? || reason.TooLarge? then Failed else Cancelled, Some(reason)))
        else Rebased(m, StepDeliver(Abs(m), f, env))
      case _ => Rebased(m, StepDeliver(Abs(m), f, env))
  }

  /** The channel closes: the engine's listener, unless it has unsubscribed, and the ones awaitDrain armed. */
  function CloseCalls(m: Machine): Machine {
    UnparkCalls(if m.base.disposed then m else SettleEverything(m, Failed, Some(Error)))
  }

  function DisposeCalls(m: Machine): Machine {
    if m.base.disposed then m
    else var n := SettleEverything(m, Cancelled, Some(UserCancelled)); n.(base := n.base.(disposed := true))
  }

  /** What happens: a call goes on, or something from outside that is not one call's own. */
  datatype Happening = Own(s: nat, w: Wake) | Outside(ev: Event)

  function OutsideStep(m: Machine, ev: Event, env: Env): Out2 {
    match ev
    case SendFile(id, file) => var (n, sent) := StartCall(m, id, file, env); Out2(n, sent, [])
    case Drained => Quiet(UnparkCalls(m))
    case CancelLocal(id, reason) => CancelCall(m, id, reason, env)
    case Deliver(f) => DeliverStep(m, f, env)
    case Closed => Quiet(CloseCalls(m))
    case Dispose => Quiet(DisposeCalls(m))
    case Answer(_, _) => Rebased(m, Step(Abs(m), ev, env))
    case SetConsent(_) => Rebased(m, Step(Abs(m), ev, env))
    case _ => Quiet(m)
  }

  function MachineStep(m: Machine, h: Happening, env: Env): Out2 {
    match h
    case Own(s, w) => var (n, sent) := CallStep(m, s, w, env); Out2(n, sent, [])
    case Outside(ev) => OutsideStep(m, ev, env)
  }
}
