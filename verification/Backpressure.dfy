/**
 * Backpressure: the send loops of one engine over one channel buffer. The buffer drains as it likes and, every time it
 * falls to the threshold the engine has set, queues an event that is dispatched at any later time.
 */
module Backpressure {
  import opened Common
  import opened ChunkCodec
  import opened Rechunk
  import opened TransferSpec
  import opened ReceiverInvariant
  import opened TransferViews

  /** One chunk on the wire: CHUNK_SIZE and the header. */
  const FRAME_MAX: nat := 65576

  /**
   * `chunkBytes` and `controlBytes` are queued in the channel. `pending` drain events have been raised and not yet
   * dispatched, and there are never more than `late` of them.
   */
  datatype Pipe = Pipe(
    engine: Engine, chunkBytes: nat, controlBytes: nat, pending: nat, late: nat, closed: bool)
  {
    function Buffered(): nat { chunkBytes + controlBytes }

    /** Draining to that many bytes crosses the threshold. */
    predicate Crosses(bytes: nat) { Buffered() > BUFFERED_LOW >= bytes }
  }

  datatype PipeStep =
    | Run(ev: Event, open: bool, ok: bool, urlOk: bool, controlSize: nat)
    | Drain(chunkBytes: nat, controlBytes: nat)
    | LowEvent

  /** Coroutines inside awaitDrain that may send without looking at the buffer again. */
  function Permits(e: Engine): set<Id> {
    set i | i in e.outgoing && e.outgoing[i].phase.Draining? && !e.outgoing[i].phase.parked
  }

  /** Coroutines waiting to be woken. */
  function Parked(e: Engine): set<Id> {
    set i | i in e.outgoing && e.outgoing[i].phase.Draining? && e.outgoing[i].phase.parked
  }

  function ChunkBytes(sent: seq<Frame>): nat {
    if |sent| == 1 && sent[0].BinaryFrame? then |sent[0].data| else 0
  }

  /** At most n sends run at once, and a closed channel does not open again. */
  predicate Enabled(p: Pipe, n: nat, s: PipeStep) {
    match s
    case Run(ev, open, _, _, _) =>
      && ev != Drained
      && (ev.SendFile? ==> ev.id !in p.engine.outgoing && |p.engine.outgoing| < n)
      && (p.closed ==> !open)
    case Drain(c, k) => c <= p.chunkBytes && k <= p.controlBytes && (p.Crosses(c + k) ==> p.pending < p.late)
    case LowEvent => p.pending > 0
  }

  function Next(p: Pipe, n: nat, s: PipeStep): Pipe {
    if !Enabled(p, n, s) then p
    else match s
      case Run(ev, open, ok, urlOk, controlSize) =>
        var r := Step(p.engine, ev, Env(open, ok, p.Buffered(), urlOk));
        var bytes := ChunkBytes(r.sent);
        Pipe(r.engine, p.chunkBytes + bytes, p.controlBytes + (if r.sent != [] && bytes == 0 then controlSize else 0),
             p.pending, p.late, p.closed || ev.Closed?)
      case Drain(c, k) =>
        p.(chunkBytes := c, controlBytes := k, pending := if p.Crosses(c + k) then p.pending + 1 else p.pending)
      case LowEvent => p.(engine := UnparkAll(p.engine), pending := p.pending - 1)
  }

  /** A drain dispatches its event in the same turn, before any other step. */
  function NextTogether(p: Pipe, n: nat, s: PipeStep): Pipe {
    var p1 := Next(p, n, s);
    if s.Drain? then Next(p1, n, LowEvent) else p1
  }

  // -- what one engine step does to the waiting coroutines ------------------------

  ghost predicate Effect(e: Engine, r: Out, env: Env) {
    || (ChunkBytes(r.sent) == 0 && Permits(r.engine) <= Permits(e))
    || (ChunkBytes(r.sent) == 0 && env.buffered <= HIGH_WATER)
    || (env.open && ChunkBytes(r.sent) <= FRAME_MAX && exists own ::
        own in Permits(e)
        && Permits(r.engine) <= Permits(e) - {own})
  }

  ghost predicate ParkEffect(e: Engine, r: Out, env: Env) {
    Parked(r.engine) <= Parked(e) || env.buffered > HIGH_WATER
  }

  /** Every entry but one is untouched, and that one went from `before` to `after`. */
  lemma UpdateEffect(e: Engine, own: Id, o: Outgoing)
    requires own in e.outgoing
    ensures var e' := e.(outgoing := e.outgoing[own := o]);
            && Permits(e') <= (if o.phase.Draining? && !o.phase.parked then Permits(e) + {own} else Permits(e) - {own})
            && Parked(e') <= (if o.phase.Draining? && o.phase.parked then Parked(e) + {own} else Parked(e) - {own})
            && e'.outgoing.Keys == e.outgoing.Keys
  {
  }

  lemma RemoveEffect(e: Engine, own: Id, status: Status, reason: Option<Reason>)
    ensures var e' := SettleOutgoing(e, own, status, reason);
            && Permits(e') <= Permits(e) && Parked(e') <= Parked(e) && e'.outgoing.Keys <= e.outgoing.Keys
  {
  }

  lemma SendFileEffect(e: Engine, id: Id, file: File, env: Env)
    requires id !in e.outgoing
    ensures var r := StepSendFile(e, id, file, env);
            && Effect(e, r, env) && ParkEffect(e, r, env) && r.engine.outgoing.Keys <= e.outgoing.Keys + {id}
  {
  }

  lemma ReadEffect(e: Engine, id: Id, count: nat, env: Env)
    ensures var r := StepRead(e, id, count, env);
            && Effect(e, r, env) && ParkEffect(e, r, env) && r.engine.outgoing.Keys <= e.outgoing.Keys
  {
    var r := StepRead(e, id, count, env).engine;
    if id in e.outgoing && r != e {
      UpdateEffect(e, id, r.outgoing[id]);
      hide Permits; hide Parked;
    }
  }

  lemma ReadDoneEffect(e: Engine, id: Id, env: Env)
    ensures var r := StepReadDone(e, id, env);
            && Effect(e, r, env) && ParkEffect(e, r, env) && r.engine.outgoing.Keys <= e.outgoing.Keys
  {
    RemoveEffect(e, id, Complete, None);
    var r := StepReadDone(e, id, env).engine;
    if id in r.outgoing && id in e.outgoing {
      UpdateEffect(e, id, r.outgoing[id]);
    }
    hide Permits; hide Parked; hide SettleOutgoing;
  }

  lemma ContinueEffect(e: Engine, id: Id, env: Env)
    ensures var r := StepContinue(e, id, env);
            && Effect(e, r, env) && ParkEffect(e, r, env) && r.engine.outgoing.Keys <= e.outgoing.Keys
  {
    RemoveEffect(e, id, Complete, None);
    var r := StepContinue(e, id, env).engine;
    if id in r.outgoing && id in e.outgoing {
      UpdateEffect(e, id, r.outgoing[id]);
    }
    hide Permits; hide Parked; hide SettleOutgoing;
  }

  lemma SendChunkEffect(e: Engine, id: Id, env: Env)
    requires SenderInv(e)
    ensures var r := StepSendChunk(e, id, env);
            && Effect(e, r, env) && ParkEffect(e, r, env) && r.engine.outgoing.Keys <= e.outgoing.Keys
  {
    RemoveEffect(e, id, Failed, Some(Error));
    if id in e.outgoing && e.outgoing[id].phase.Draining? && !e.outgoing[id].phase.parked {
      var o := e.outgoing[id];
      assert OutOk(o);
      assert id in Permits(e);
      var r := StepSendChunk(e, id, env);
      if id in r.engine.outgoing {
        UpdateEffect(e, id, r.engine.outgoing[id]);
        DecodeEncode(id, o.phase.chunk);
      }
    }
    hide Permits; hide Parked; hide SettleOutgoing; hide ChunkCodec.Encode; hide ChunkCodec.Decode;
  }

  lemma WaitEffect(e: Engine, ev: Event, env: Env)
    requires ev.AcceptTimeout? || ev.Resume? || ev.ReadFail?
    ensures var r := StepSender(e, ev, env);
            && Effect(e, r, env) && ParkEffect(e, r, env) && r.engine.outgoing.Keys <= e.outgoing.Keys
  {
    var id := ev.id;
    RemoveEffect(e, id, Cancelled, Some(Declined));
    RemoveEffect(e, id, Failed, Some(Error));
    var r := StepSender(e, ev, env).engine;
    if id in r.outgoing && id in e.outgoing && r != e {
      UpdateEffect(e, id, r.outgoing[id]);
    }
    hide Permits; hide Parked; hide SettleOutgoing;
  }

  /** Steps of the receiving half and teardowns never wake or park a sender, except a close, which ends all waiting. */
  lemma OtherEffect(e: Engine, ev: Event, env: Env)
    requires !ev.Sending()
    ensures var r := Step(e, ev, env);
            && ChunkBytes(r.sent) == 0 && r.engine.outgoing.Keys <= e.outgoing.Keys
            && Parked(r.engine) <= Parked(e)
            && (Permits(r.engine) <= Permits(e) || ev.Closed?)
  {
    match ev
    case Deliver(f) =>
      if !e.disposed { DeliverEffect(e, f, env); }
    case CancelLocal(id, reason) => RemoveEffect(e, id, Cancelled, Some(reason)); hide SettleOutgoing;
    case Closed =>
    case _ =>
  }

  lemma DeliverEffect(e: Engine, f: Frame, env: Env)
    requires !e.disposed
    ensures var r := StepDeliver(e, f, env);
            && ChunkBytes(r.sent) == 0 && r.engine.outgoing.Keys <= e.outgoing.Keys
            && Parked(r.engine) <= Parked(e) && Permits(r.engine) <= Permits(e)
  {
    hide ChunkCodec.Decode; hide Flatten;
    match f
    case AcceptFrame(id, accept) =>
      if id in e.outgoing { UpdateEffect(e, id, e.outgoing[id].(phase := Answered(accept))); }
      hide Permits; hide Parked;
    case AckFrame(id, bytes) =>
    case CancelFrame(id, reason) =>
      RemoveEffect(e, id, Failed, Some(reason));
      RemoveEffect(e, id, Cancelled, Some(reason));
      hide Permits; hide Parked; hide SettleOutgoing;
    case _ => hide Permits; hide Parked;
  }

  /** All of the above for any step of the engine. */
  lemma StepEffect(e: Engine, ev: Event, env: Env)
    requires SenderInv(e) && ev != Drained && (ev.SendFile? ==> ev.id !in e.outgoing)
    ensures var r := Step(e, ev, env);
            && (Effect(e, r, env) || ev.Closed?) && ParkEffect(e, r, env)
            && r.engine.outgoing.Keys <= e.outgoing.Keys + (if ev.SendFile? then {ev.id} else {})
            && (ev.Closed? ==> ChunkBytes(r.sent) == 0)
  {
    if !ev.Sending() {
      OtherEffect(e, ev, env);
      hide Permits; hide Parked; hide Step;
    } else {
      hide Effect; hide ParkEffect; hide SenderInv;
      hide StepSendFile; hide StepRead; hide StepReadDone; hide StepSendChunk; hide StepContinue;
      hide StepAcceptAnswer; hide StepResume; hide StepReadFail;
      match ev
      case SendFile(id, file) => SendFileEffect(e, id, file, env);
      case Read(id, count) => ReadEffect(e, id, count, env);
      case ReadDone(id) => ReadDoneEffect(e, id, env);
      case SendChunk(id) => SendChunkEffect(e, id, env);
      case Continue(id) => ContinueEffect(e, id, env);
      case _ => WaitEffect(e, ev, env);
    }
  }

  // -- the invariant --------------------------------------------------------------

  /** A disposed engine hears no consent, so nothing it announces ever starts streaming. */
  ghost predicate NothingStreams(e: Engine) { forall i :: i in e.outgoing ==> !Started(e.outgoing[i].phase) }

  ghost predicate EngineOk(e: Engine, closed: bool) {
    && ReceiverInv(e) && SenderInv(e)
    && (e.disposed ==> NothingStreams(e))
    && (closed ==> e.disposed || e.outgoing == map[])
  }

  /** `frames` frames above the high-water mark for each of n sends. */
  function Bound(n: nat, frames: nat): nat { HIGH_WATER + frames * n * FRAME_MAX }

  lemma MoreIsMore(n: nat, fewer: nat, more: nat)
    requires fewer <= more
    ensures Bound(n, fewer) <= Bound(n, more)
    ensures Bound(n, fewer) + n * FRAME_MAX == Bound(n, fewer + 1)
  {
    assert fewer * n <= more * n;
    assert (fewer + 1) * n == fewer * n + n;
  }

  function Load(p: Pipe): nat { p.chunkBytes + |Permits(p.engine)| * FRAME_MAX }

  ghost predicate PipeInv(p: Pipe, n: nat) {
    && EngineOk(p.engine, p.closed)
    && |p.engine.outgoing| <= n
    && p.pending <= p.late
    && Load(p) <= Bound(n, 1 + p.late - p.pending)
    && (Parked(p.engine) != {} ==> p.Buffered() > BUFFERED_LOW || p.pending > 0)
  }

  lemma EngineStepOk(p: Pipe, n: nat, s: PipeStep)
    requires EngineOk(p.engine, p.closed) && s.Run? && Enabled(p, n, s)
    ensures EngineOk(Next(p, n, s).engine, Next(p, n, s).closed)
  {
    var e := p.engine;
    var env := Env(s.open, s.ok, p.Buffered(), s.urlOk);
    var r := Step(e, s.ev, env).engine;
    StepMoves(e, s.ev, env, "");
    StepEffect(e, s.ev, env);
    DisposedStays(e, s.ev, env);
    hide ReceiverInv; hide SenderInv; hide Step; hide Effect; hide ParkEffect; hide SendMove; hide RecvMove;
    hide NothingStreams;
    if p.closed || s.ev.Closed? {
      ClosedStays(e, s.ev, env, p.closed);
    }
  }

  lemma ClosedStays(e: Engine, ev: Event, env: Env, closed: bool)
    requires closed || ev.Closed?
    requires closed ==> !env.open && (e.disposed || e.outgoing == map[])
    requires Step(e, ev, env).engine.outgoing.Keys <= e.outgoing.Keys + (if ev.SendFile? then {ev.id} else {})
    ensures var r := Step(e, ev, env).engine; r.disposed || r.outgoing == map[]
  {
    var r := Step(e, ev, env).engine;
    if e.disposed {
      StaysDisposed(e, ev, env);
    } else if closed && !ev.SendFile? {
      assert e.outgoing.Keys == {};
      hide Step;
    }
  }

  lemma StaysDisposed(e: Engine, ev: Event, env: Env)
    ensures e.disposed ==> Step(e, ev, env).engine.disposed
  {
    hide StepSender;
  }

  lemma DisposedStays(e: Engine, ev: Event, env: Env)
    requires ReceiverInv(e) && SenderInv(e) && (ev.SendFile? ==> ev.id !in e.outgoing)
    requires e.disposed ==> NothingStreams(e)
    ensures var r := Step(e, ev, env).engine; r.disposed ==> NothingStreams(r)
  {
    var r := Step(e, ev, env).engine;
    if r.disposed && !e.disposed {
      BecomesDisposed(e, ev, env);
    } else if r.disposed && !ev.Deliver? {
      forall i | i in r.outgoing ensures !Started(r.outgoing[i].phase) {
        StepMoves(e, ev, env, i);
        assert SV(r, i).Some? && SV(r, i).value.started == Started(r.outgoing[i].phase);
        hide Step; hide RecvMove; hide ReceiverInv; hide SenderInv;
      }
    }
  }

  lemma BecomesDisposed(e: Engine, ev: Event, env: Env)
    requires !e.disposed && Step(e, ev, env).engine.disposed
    ensures Step(e, ev, env).engine.outgoing == map[]
  {
    hide StepSender;
  }

  lemma NoneStreamNoneWait(e: Engine)
    requires NothingStreams(e)
    ensures Permits(e) == {} && Parked(e) == {}
  {
    assert forall i :: i in e.outgoing ==> !e.outgoing[i].phase.Draining?;
  }

  lemma PermitsBound(e: Engine)
    ensures |Permits(e)| <= |e.outgoing|
  {
    SubsetSize(Permits(e), e.outgoing.Keys);
  }

  /** The load after one engine step: unchanged or lower, or computed from a buffer at or below the high-water mark. */
  lemma EffectLoad(e: Engine, r: Out, env: Env, chunkBytes: nat, n: nat)
    requires Effect(e, r, env) && chunkBytes <= env.buffered && |r.engine.outgoing| <= n
    ensures var before, after := chunkBytes + |Permits(e)| * FRAME_MAX,
        chunkBytes + ChunkBytes(r.sent) + |Permits(r.engine)| * FRAME_MAX;
            after <= before || after <= HIGH_WATER + n * FRAME_MAX
  {
    PermitsBound(r.engine);
    if ChunkBytes(r.sent) == 0 && Permits(r.engine) <= Permits(e) {
      SubsetSize(Permits(r.engine), Permits(e));
    } else if ChunkBytes(r.sent) == 0 {
      assert |Permits(r.engine)| * FRAME_MAX <= n * FRAME_MAX;
    } else {
      var own :| own in Permits(e) && Permits(r.engine) <= Permits(e) - {own};
      SubsetSize(Permits(r.engine), Permits(e) - {own});
      assert |Permits(r.engine)| + 1 <= |Permits(e)|;
      hide Permits;
    }
  }

  lemma RunLoad(p: Pipe, n: nat, s: PipeStep)
    requires EngineOk(p.engine, p.closed) && s.Run? && Enabled(p, n, s) && |p.engine.outgoing| <= n
    ensures var p' := Next(p, n, s);
            && |p'.engine.outgoing| <= n
            && (Load(p') <= Load(p) || Load(p') <= Bound(n, 1))
  {
    var e := p.engine;
    var env := Env(s.open, s.ok, p.Buffered(), s.urlOk);
    var r := Step(e, s.ev, env);
    var p' := Next(p, n, s);
    StepEffect(e, s.ev, env);
    EngineStepOk(p, n, s);
    assert p'.engine == r.engine && p'.chunkBytes == p.chunkBytes + ChunkBytes(r.sent) && (s.ev.Closed? ==> p'.closed);
    hide Step; hide EngineOk; hide Permits; hide ParkEffect; hide Next; hide Effect; hide ChunkBytes;
    SizeAfter(e.outgoing, r.engine.outgoing, s.ev, n);
    if s.ev.Closed? {
      ClosedNoWait(p');
    } else {
      EffectLoad(e, r, env, p.chunkBytes, n);
    }
  }

  lemma SizeAfter(before: map<Id, Outgoing>, after: map<Id, Outgoing>, ev: Event, n: nat)
    requires after.Keys <= before.Keys + (if ev.SendFile? then {ev.id} else {})
    requires |before| <= n && (ev.SendFile? ==> |before| < n)
    ensures |after| <= n
  {
    SubsetSize(after.Keys, before.Keys + (if ev.SendFile? then {ev.id} else {}));
  }

  lemma ClosedNoWait(p: Pipe)
    requires EngineOk(p.engine, p.closed) && p.closed
    ensures Permits(p.engine) == {} && Parked(p.engine) == {}
  {
    if p.engine.disposed {
      NoneStreamNoneWait(p.engine);
    }
  }

  lemma NextKeeps(p: Pipe, n: nat, s: PipeStep)
    requires PipeInv(p, n)
    ensures PipeInv(Next(p, n, s), n)
  {
    if Enabled(p, n, s) {
      match s
      case Run(_, _, _, _, _) => hide PipeInv; RunKeeps(p, n, s);
      case Drain(c, k) =>
        PermitsBound(p.engine);
        assert |Permits(p.engine)| * FRAME_MAX <= n * FRAME_MAX;
        MoreIsMore(n, 1, 1 + p.late - (if p.Crosses(c + k) then p.pending + 1 else p.pending));
        hide EngineOk; hide Permits; hide Parked;
      case LowEvent => hide PipeInv; LowEventKeeps(p, n);
    }
  }

  lemma RunKeeps(p: Pipe, n: nat, s: PipeStep)
    requires PipeInv(p, n) && s.Run? && Enabled(p, n, s)
    ensures PipeInv(Next(p, n, s), n)
  {
    hide EngineOk, Load, Step, Parked, Bound, Next, Enabled;
    EngineStepOk(p, n, s);
    RunLoad(p, n, s);
    MoreIsMore(n, 1, 1 + p.late - p.pending);
    RunParks(p, n, s);
  }

  lemma RunParks(p: Pipe, n: nat, s: PipeStep)
    requires EngineOk(p.engine, p.closed) && s.Run? && Enabled(p, n, s)
    ensures var p' := Next(p, n, s);
            && p'.Buffered() >= p.Buffered() && p'.pending == p.pending && p'.late == p.late
            && (Parked(p'.engine) <= Parked(p.engine) || p.Buffered() > HIGH_WATER)
  {
    StepEffect(p.engine, s.ev, Env(s.open, s.ok, p.Buffered(), s.urlOk));
    hide EngineOk, Step, Effect, Parked, ChunkBytes;
  }

  lemma LowEventKeeps(p: Pipe, n: nat)
    requires PipeInv(p, n) && p.pending > 0
    ensures PipeInv(Next(p, n, LowEvent), n)
    ensures Parked(Next(p, n, LowEvent).engine) == {}
    ensures Load(Next(p, n, LowEvent)) <= p.chunkBytes + n * FRAME_MAX
  {
    var e' := UnparkAll(p.engine);
    UnparkFacts(p, n);
    PermitsBound(e');
    assert |Permits(e')| * FRAME_MAX <= n * FRAME_MAX;
    hide EngineOk; hide Permits; hide Parked; hide UnparkAll;
    assert p.chunkBytes <= Load(p);
    MoreIsMore(n, 1 + p.late - p.pending, 2 + p.late - p.pending);
  }

  lemma UnparkFacts(p: Pipe, n: nat)
    requires EngineOk(p.engine, p.closed) && |p.engine.outgoing| <= n
    ensures var e' := UnparkAll(p.engine); EngineOk(e', p.closed) && Parked(e') == {} && |e'.outgoing| <= n
  {
    var e' := UnparkAll(p.engine);
    StepKeepsReceiver(p.engine, Drained, Env(true, true, 0, true));
    UnparkMoves(p.engine, "");
    assert e'.outgoing.Keys == p.engine.outgoing.Keys;
    SubsetSize(e'.outgoing.Keys, p.engine.outgoing.Keys);
    hide ReceiverInv; hide SenderInv;
  }

  // -- whole runs -------------------------------------------------------------------

  function RunPipe(p: Pipe, n: nat, steps: seq<PipeStep>): Pipe
    decreases |steps|
  {
    if steps == [] then p else RunPipe(Next(p, n, steps[0]), n, steps[1..])
  }

  function RunTogether(p: Pipe, n: nat, steps: seq<PipeStep>): Pipe
    decreases |steps|
  {
    if steps == [] then p else RunTogether(NextTogether(p, n, steps[0]), n, steps[1..])
  }

  function NewPipe(hasConsent: bool, maxBytes: nat, late: nat): Pipe {
    Pipe(NewEngine(hasConsent, maxBytes), 0, 0, 0, late, false)
  }

  lemma {:induction false} RunPipeKeeps(p: Pipe, n: nat, steps: seq<PipeStep>)
    requires PipeInv(p, n)
    ensures PipeInv(RunPipe(p, n, steps), n)
    decreases |steps|
  {
    if steps != [] {
      hide PipeInv; hide Next;
      NextKeeps(p, n, steps[0]);
      RunPipeKeeps(Next(p, n, steps[0]), n, steps[1..]);
    }
  }

  /**
   * Bounded queue and no lost wake-up, for every interleaving of at most n concurrent sends with a channel of which at
   * most `late` drain events are ever raised and not yet dispatched: the queued chunk bytes stay within 1 + late frames
   * per send above HIGH_WATER, and a sender is parked only while the buffer is above the threshold or a drain event is
   * on its way to wake it; none is parked once the channel has closed.
   */
  lemma QueueIsBounded(hasConsent: bool, maxBytes: nat, late: nat, n: nat, steps: seq<PipeStep>)
    ensures var p := RunPipe(NewPipe(hasConsent, maxBytes, late), n, steps);
            && p.chunkBytes <= Bound(n, 1 + late)
            && (Parked(p.engine) != {} ==> p.Buffered() > BUFFERED_LOW || p.pending > 0)
            && (p.closed ==> Parked(p.engine) == {})
            && (p.pending > 0 ==> Parked(Next(p, n, LowEvent).engine) == {})
  {
    hide NewPipe, PipeInv, Bound, RunPipe, Next, Parked;
    var p0 := NewPipe(hasConsent, maxBytes, late);
    NewPipeOk(hasConsent, maxBytes, late, n);
    RunPipeKeeps(p0, n, steps);
    LateStays(p0, n, steps);
    InvBounds(RunPipe(p0, n, steps), n);
  }

  lemma {:induction false} LateStays(p: Pipe, n: nat, steps: seq<PipeStep>)
    ensures RunPipe(p, n, steps).late == p.late
    decreases |steps|
  {
    if steps != [] {
      NextLate(p, n, steps[0]);
      hide Next;
      LateStays(Next(p, n, steps[0]), n, steps[1..]);
    }
  }

  lemma NextLate(p: Pipe, n: nat, s: PipeStep)
    ensures Next(p, n, s).late == p.late
  {
    hide Step, UnparkAll;
  }

  lemma NewPipeOk(hasConsent: bool, maxBytes: nat, late: nat, n: nat)
    ensures TightInv(NewPipe(hasConsent, maxBytes, late), n) && NewPipe(hasConsent, maxBytes, late).late == late
  {
    var p0 := NewPipe(hasConsent, maxBytes, late);
    assert Permits(p0.engine) == {} && Parked(p0.engine) == {};
    MoreIsMore(n, 0, 1 + late);
    hide Permits; hide Parked;
  }

  lemma InvBounds(p: Pipe, n: nat)
    requires PipeInv(p, n)
    ensures p.chunkBytes <= Bound(n, 1 + p.late)
    ensures Parked(p.engine) != {} ==> p.Buffered() > BUFFERED_LOW || p.pending > 0
    ensures p.closed ==> Parked(p.engine) == {}
    ensures p.pending > 0 ==> Parked(Next(p, n, LowEvent).engine) == {}
  {
    if p.closed { ClosedNoWait(p); }
    if p.pending > 0 { LowEventKeeps(p, n); }
    MoreIsMore(n, 1 + p.late - p.pending, 1 + p.late);
    hide EngineOk; hide Parked; hide Permits; hide Next; hide Bound;
  }

  ghost predicate TightInv(p: Pipe, n: nat) {
    PipeInv(p, n) && p.pending == 0 && Load(p) <= Bound(n, 1)
  }

  lemma TogetherKeeps(p: Pipe, n: nat, s: PipeStep)
    requires TightInv(p, n)
    ensures TightInv(NextTogether(p, n, s), n)
  {
    var p1 := Next(p, n, s);
    NextKeeps(p, n, s);
    if s.Drain? {
      if p1.pending > 0 {
        assert Enabled(p, n, s) && p1.chunkBytes <= BUFFERED_LOW;
        NextKeeps(p1, n, LowEvent);
        LowEventKeeps(p1, n);
        hide PipeInv; hide Load;
      } else {
        hide PipeInv; hide Permits;
      }
    } else if s.Run? && Enabled(p, n, s) {
      RunLoad(p, n, s);
      hide PipeInv; hide Load; hide Step;
    }
  }

  lemma {:induction false} RunTogetherKeeps(p: Pipe, n: nat, steps: seq<PipeStep>)
    requires TightInv(p, n)
    ensures TightInv(RunTogether(p, n, steps), n)
    decreases |steps|
  {
    if steps != [] {
      hide TightInv; hide NextTogether;
      TogetherKeeps(p, n, steps[0]);
      RunTogetherKeeps(NextTogether(p, n, steps[0]), n, steps[1..]);
    }
  }

  /**
   * With the drain event raised in the event-loop turn that crosses the threshold, one frame per send above the
   * mark is the most there is.
   */
  lemma QueueIsTight(hasConsent: bool, maxBytes: nat, late: nat, n: nat, steps: seq<PipeStep>)
    ensures RunTogether(NewPipe(hasConsent, maxBytes, late), n, steps).chunkBytes <= Bound(n, 1)
  {
    var p0 := NewPipe(hasConsent, maxBytes, late);
    NewPipeOk(hasConsent, maxBytes, late, n);
    hide NewPipe;
    RunTogetherKeeps(p0, n, steps);
    hide PipeInv; hide RunTogether; hide Permits;
  }
}
