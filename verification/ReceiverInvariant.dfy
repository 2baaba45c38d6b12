/** What the receiving half keeps under an arbitrary stream of frames, including reused ids. */
module ReceiverInvariant {
  import opened Common
  import opened ChunkCodec
  import opened TransferSpec

  /** One incoming transfer between two frames. */
  ghost predicate SlotOk(e: Engine, s: Incoming) {
    && (!s.accepted ==> s.chunks == [])
    && s.received == |Flatten(s.chunks)| == s.rec.bytes
    && s.received <= s.rec.size <= e.maxBytes && s.rec.size <= MAX_SAFE_INTEGER
    && s.acked <= s.received < s.acked + ACK_INTERVAL_BYTES
    && s.rec.status == (if s.accepted then Active else Pending)
    && s.rec.serial < e.next
  }

  ghost predicate ReceiverInv(e: Engine) {
    && (forall i :: i in e.incoming ==> SlotOk(e, e.incoming[i]))
    && (forall s :: s in e.prompts ==> s < e.next)
    && (e.disposed ==> e.incoming == map[])
  }

  lemma OfferKeeps(e: Engine, own: Id, s: Incoming)
    requires ReceiverInv(e) && !e.disposed && SlotOk(e.(next := e.next + 1), s)
    ensures ReceiverInv(e.(incoming := e.incoming[own := s], next := e.next + 1))
    ensures forall rec: Record :: rec.serial == e.next ==>
              ReceiverInv(e.(incoming := e.incoming[own := s], next := e.next + 1, prompts :=
                  e.prompts[rec.serial := rec]))
  {
    hide Flatten;
  }

  lemma TurnedDownKeeps(e: Engine, n: Engine)
    requires ReceiverInv(e) && n == e.(next := e.next + 1, finished := n.finished)
    ensures ReceiverInv(n)
  {
    hide Flatten;
  }

  lemma StartKeeps(e: Engine, f: Frame, env: Env)
    requires ReceiverInv(e) && !e.disposed && f.StartFrame?
    ensures ReceiverInv(StepStart(e, f, env).engine)
  {
    var n := StepStart(e, f, env).engine;
    if f.id in e.incoming || f.id in e.outgoing {
    } else if f.id in n.incoming {
      OfferKeeps(e, f.id, n.incoming[f.id]);
      hide ReceiverInv, OrDefaultMime, Finalise;
    } else {
      assert e.incoming[f.id :=
          Incoming(Record(e.next, f.id, Receive, f.name, OrDefaultMime(f.mime), f.size, 0, Pending, None, 0), [], 0,
          0, false)] - {f.id} == e.incoming;
      TurnedDownKeeps(e, n);
      hide ReceiverInv, OrDefaultMime, Finalise;
    }
  }

  lemma BinaryKeeps(e: Engine, data: seq<byte>, env: Env)
    requires ReceiverInv(e) && !e.disposed
    ensures ReceiverInv(StepBinary(e, data, env).engine)
  {
    var d := Decode(data);
    hide ChunkCodec.Decode;
    if d.Some? && d.value.transferId in e.incoming {
      FlattenAppend(e.incoming[d.value.transferId].chunks, d.value.payload);
    }
  }

  lemma AnswerKeeps(e: Engine, serial: nat, accept: bool, env: Env)
    requires ReceiverInv(e)
    ensures ReceiverInv(StepAnswer(e, serial, accept, env).engine)
  {
  }

  lemma DeliverKeeps(e: Engine, f: Frame, env: Env)
    requires ReceiverInv(e)
    ensures ReceiverInv(StepDeliver(e, f, env).engine)
  {
    if !e.disposed {
      match f
      case StartFrame(_, _, _, _) => StartKeeps(e, f, env);
      case BinaryFrame(data) => BinaryKeeps(e, data, env);
      case _ =>
    }
  }

  /** Every step of the engine keeps the receiver's invariant, whatever the peer, the user and the channel do. */
  lemma StepKeepsReceiver(e: Engine, ev: Event, env: Env)
    requires ReceiverInv(e)
    ensures ReceiverInv(Step(e, ev, env).engine)
  {
    hide StepSender;
    if !ev.Sending() {
      match ev
      case Deliver(frame) => DeliverKeeps(e, frame, env);
      case Answer(serial, accept) => AnswerKeeps(e, serial, accept, env);
      case _ =>
    }
  }

  /** The acks a step sends, and what it leaves of the acks sent before. */
  ghost predicate AcksOk(e: Engine, out: Out) {
    && (forall g :: g in out.sent && g.AckFrame? ==>
          && g.id in e.incoming
          && e.incoming[g.id].acked <= e.incoming[g.id].received <= g.bytes <= e.incoming[g.id].rec.size
          && (g.id in out.engine.incoming ==>
              out.engine.incoming[g.id].acked == out.engine.incoming[g.id].received == g.bytes)
          && (g.id !in out.engine.incoming ==> g.bytes == e.incoming[g.id].rec.size))
    && (forall i ::
          i in e.incoming && i in out.engine.incoming
          && e.incoming[i].rec.serial == out.engine.incoming[i].rec.serial ==>
            e.incoming[i].acked <= out.engine.incoming[i].acked)
  }

  lemma StartAcks(e: Engine, f: Frame, env: Env)
    requires ReceiverInv(e) && f.StartFrame?
    ensures AcksOk(e, StepDeliver(e, f, env))
  {
    hide ChunkCodec.Decode; hide Finalise;
  }

  lemma BinaryAcks(e: Engine, f: Frame, env: Env)
    requires ReceiverInv(e) && f.BinaryFrame?
    ensures AcksOk(e, StepDeliver(e, f, env))
  {
    hide ChunkCodec.Decode; hide Finalise;
  }

  /** Acks report what has really arrived, never less than an earlier ack of the same transfer. */
  lemma AcksAreTrue(e: Engine, f: Frame, env: Env)
    requires ReceiverInv(e)
    ensures AcksOk(e, StepDeliver(e, f, env))
  {
    hide ChunkCodec.Decode; hide Finalise;
    match f
    case StartFrame(_, _, _, _) => StartAcks(e, f, env); hide StepDeliver, AcksOk;
    case BinaryFrame(_) => BinaryAcks(e, f, env); hide StepDeliver, AcksOk;
    case _ =>
  }

  // -- consent over whole runs ------------------------------------------------

  /** A run's history: which prompts were answered yes, and which files came out. */
  datatype Trace = Trace(engine: Engine, consented: set<nat>, files: seq<ReceivedFile>)

  function TraceStep(t: Trace, ev: Event, env: Env): Trace {
    var out := Step(t.engine, ev, env);
    Trace(out.engine,
          if ev.Answer? && ev.accept && ev.serial in t.engine.prompts then t.consented + {ev.serial} else t.consented,
          t.files + out.files)
  }

  function Exec(t: Trace, run: seq<(Event, Env)>): Trace
    decreases |run|
  {
    if run == [] then t else Exec(TraceStep(t, run[0].0, run[0].1), run[1..])
  }

  function Begin(hasConsent: bool, maxBytes: nat): Trace { Trace(NewEngine(hasConsent, maxBytes), {}, []) }

  ghost predicate ConsentInv(t: Trace) {
    && ReceiverInv(t.engine)
    && (forall i :: i in t.engine.incoming && t.engine.incoming[i].accepted ==>
        t.engine.incoming[i].rec.serial in t.consented)
    && (forall k :: 0 <= k < |t.files| ==> FileOk(t, t.files[k]))
  }

  ghost predicate FileOk(t: Trace, f: ReceivedFile) {
    |f.data| == f.size <= t.engine.maxBytes && (f.size > 0 ==> f.serial in t.consented)
  }

  /** The file an incoming transfer would be emitted as. */
  function FileOf(e: Engine, i: Id): ReceivedFile
    requires i in e.incoming
  {
    var s := e.incoming[i];
    ReceivedFile(s.rec.serial, i, s.rec.name, s.rec.mime, s.rec.size, Flatten(s.chunks))
  }

  lemma FilesComeFromSlots(e: Engine, ev: Event, env: Env)
    requires ReceiverInv(e)
    ensures var out := Step(e, ev, env);
            && out.engine.maxBytes == e.maxBytes
            && (out.files == [] || exists i ::
                i in e.incoming && out.files == [FileOf(e, i)]
                && e.incoming[i].received == e.incoming[i].rec.size)
  {
    hide ChunkCodec.Decode;
    hide ChunkCodec.Encode;
    hide Flatten;
    hide StepSender;
    match ev
    case Deliver(frame) =>
      if frame.CompleteFrame? && !e.disposed && frame.id in e.incoming {
        assert frame.id in e.incoming;
      }
    case _ =>
  }

  lemma AcceptedStaysOwn(e: Engine, ev: Event, env: Env, i: Id)
    requires i in Step(e, ev, env).engine.incoming && Step(e, ev, env).engine.incoming[i].accepted
    ensures var s := Step(e, ev, env).engine.incoming[i];
            || (i in e.incoming && e.incoming[i].accepted && e.incoming[i].rec.serial == s.rec.serial)
            || (ev.Answer? && ev.accept && ev.serial in e.prompts && ev.serial == s.rec.serial)
  {
    hide StepSender;
    hide StepDeliver;
    match ev
    case Deliver(frame) => AcceptedStaysOnFrame(e, frame, env, i);
    case _ =>
  }

  lemma AcceptedStaysOnFrame(e: Engine, f: Frame, env: Env, i: Id)
    requires i in StepDeliver(e, f, env).engine.incoming && StepDeliver(e, f, env).engine.incoming[i].accepted
    ensures i in e.incoming && e.incoming[i].accepted
        && e.incoming[i].rec.serial == StepDeliver(e, f, env).engine.incoming[i].rec.serial
  {
    hide ChunkCodec.Decode;
    if !e.disposed { match f case _ => }
  }

  lemma TraceStepKeeps(t: Trace, ev: Event, env: Env)
    requires ConsentInv(t)
    ensures ConsentInv(TraceStep(t, ev, env))
  {
    var t' := TraceStep(t, ev, env);
    StepKeepsReceiver(t.engine, ev, env);
    FilesComeFromSlots(t.engine, ev, env);
    forall i | i in t'.engine.incoming && t'.engine.incoming[i].accepted
      ensures t'.engine.incoming[i].rec.serial in t'.consented
    {
      AcceptedStaysOwn(t.engine, ev, env, i);
    }
    hide Step;
    forall k | 0 <= k < |t'.files| ensures FileOk(t', t'.files[k]) {
      if k < |t.files| {
        assert FileOk(t, t.files[k]);
      } else {
        var i :| i in t.engine.incoming && Step(t.engine, ev, env).files == [FileOf(t.engine, i)]
            && t.engine.incoming[i].received == t.engine.incoming[i].rec.size;
        assert SlotOk(t.engine, t.engine.incoming[i]);
      }
    }
  }

  lemma {:induction false} ExecKeeps(t: Trace, run: seq<(Event, Env)>)
    requires ConsentInv(t)
    ensures ConsentInv(Exec(t, run))
    decreases |run|
  {
    if run != [] {
      TraceStepKeeps(t, run[0].0, run[0].1);
      ExecKeeps(TraceStep(t, run[0].0, run[0].1), run[1..]);
    }
  }

  /** Someone starts watching, the peer announces a file of nothing, and completes it without waiting. */
  lemma NothingIsSentUnasked(hasConsent: bool, maxBytes: nat) returns (run: seq<(Event, Env)>)
    ensures UnconsentedFile(Exec(Begin(hasConsent, maxBytes), run), 0, 0)
  {
    var env := Env(true, true, 0, true);
    var watch, offer := (SetConsent(true), env), (Deliver(StartFrame("z", "", "", 0)), env);
    var done := (Deliver(CompleteFrame("z")), env);
    var t0 := Begin(hasConsent, maxBytes);
    var t1 := TraceStep(t0, watch.0, watch.1);
    assert t1 == Begin(true, maxBytes);
    run := [watch] + [offer, done];
    assert run[1..] == [offer, done];
    assert Exec(t0, run) == Exec(t1, run[1..]) by { hide TraceStep; }
    EmptyOfferCompletes(maxBytes, env);
    hide Exec, TraceStep, UnconsentedFile, Begin;
  }

  lemma EmptyOfferCompletes(maxBytes: nat, env: Env)
    requires env == Env(true, true, 0, true)
    ensures UnconsentedFile(Exec(Begin(true, maxBytes),
        [(Deliver(StartFrame("z", "", "", 0)), env), (Deliver(CompleteFrame("z")), env)]), 0, 0)
  {
    var offer, done := (Deliver(StartFrame("z", "", "", 0)), env), (Deliver(CompleteFrame("z")), env);
    var t0 := Begin(true, maxBytes);
    var run := [offer, done];
    var t1 := TraceStep(t0, offer.0, offer.1);
    var t2 := TraceStep(t1, done.0, done.1);
    assert run[1..] == [done] && run[1..][1..] == [];
    assert Exec(t1, run[1..]) == Exec(t2, []);
    assert Exec(t0, run) == t2;
    assert Flatten<byte>([]) == [];
  }

  /**
   * Consent is necessary exactly for non-empty files: some run of a fresh engine, with a consent handler from the start
   * or not, emits a file of size n whose own prompt was never answered yes if and only if n is zero.
   */
  lemma UnconsentedExactlyEmpty(n: int, hasConsent: bool, maxBytes: nat)
    ensures (exists run: seq<(Event, Env)>, k :: UnconsentedFile(Exec(Begin(hasConsent, maxBytes), run), k, n)) <==>
        n == 0
  {
    if run: seq<(Event, Env)>, k :| UnconsentedFile(Exec(Begin(hasConsent, maxBytes), run), k, n) {
      ExecKeeps(Begin(hasConsent, maxBytes), run);
      assert FileOk(Exec(Begin(hasConsent, maxBytes), run), Exec(Begin(hasConsent, maxBytes), run).files[k]);
      assert n == 0;
    }
    if n == 0 {
      var run := NothingIsSentUnasked(hasConsent, maxBytes);
      assert UnconsentedFile(Exec(Begin(hasConsent, maxBytes), run), 0, n);
    }
    hide Exec;
  }

  ghost predicate UnconsentedFile(t: Trace, k: int, n: int) {
    0 <= k < |t.files| && t.files[k].size == n && t.files[k].serial !in t.consented
  }
}
