/** What an engine sends of one file, in any run: the canonical split, in order, as far as it gets. */
module FrameStream {
  import opened Common
  import opened ChunkCodec
  import opened Rechunk
  import opened TransferSpec
  import opened ReceiverInvariant
  import opened TransferViews
  import opened Settlement

  type Steps = seq<(Event, Env)>

  /** The payloads of the binary frames about `id`, as the peer decodes them. */
  function Payloads(sent: seq<Frame>, id: Id): seq<seq<byte>> {
    if sent == [] then []
    else
      var d := if sent[0].BinaryFrame? then Decode(sent[0].data) else None;
      (if d.Some? && d.value.transferId == id then [d.value.payload] else []) + Payloads(sent[1..], id)
  }

  lemma {:induction false} PayloadsAppend(s: seq<Frame>, t: seq<Frame>, id: Id)
    ensures Payloads(s + t, id) == Payloads(s, id) + Payloads(t, id)
  {
    hide ChunkCodec.Decode;
    if s == [] {
      assert s + t == t;
    } else {
      assert (s + t)[0] == s[0] && (s + t)[1..] == s[1..] + t;
      PayloadsAppend(s[1..], t, id);
    }
  }

  /** No id is given to sendFile while it is in the map. */
  predicate NewIds(e: Engine, steps: Steps)
    decreases |steps|
  {
    steps == []
    || ((steps[0].0.SendFile? ==> steps[0].0.id !in e.outgoing)
        && NewIds(Step(e, steps[0].0, steps[0].1).engine, steps[1..]))
  }

  predicate NotSent(steps: Steps, id: Id) {
    forall i :: 0 <= i < |steps| && steps[i].0.SendFile? ==> steps[i].0.id != id
  }

  /** `done` has been sent of `content`; the rest is with the transfer, or will never be sent. */
  ghost predicate Streaming(e: Engine, id: Id, content: seq<byte>, done: seq<seq<byte>>) {
    match SV(e, id)
    case Some(v) => Split(content) == done + Split(v.todo)
    case None => done <= Split(content)
  }

  // -- one step ------------------------------------------------------------------------------

  /** A chunk that goes out is a full one, or the last. */
  lemma ChunkIsNext(e: Engine, ev: Event, env: Env, id: Id)
    requires SenderInv(e) && (ev.SendFile? ==> ev.id !in e.outgoing) && ReceiverInv(e)
    requires var r := Step(e, ev, env);
             SV(e, id).Some? && SV(r.engine, id).Some?
                 && ChunkMove(id, SV(e, id).value, SV(r.engine, id).value, Of(r.sent, id))
    ensures var v, n := SV(e, id).value, SV(Step(e, ev, env).engine, id).value;
            n.bytes - v.bytes == CHUNK_SIZE || (n.bytes - v.bytes == |v.todo| && |v.todo| <= CHUNK_SIZE)
  {
    var r := Step(e, ev, env);
    OnlyChunksSend(e, ev, env);
    hide Step;
    assert r.sent == Of(r.sent, id) && r.sent[0].BinaryFrame?;
    hide ChunkCodec.Decode, ChunkCodec.Encode;
    var own := ev.id;
    var o := e.outgoing[own];
    assert OutOk(o);
    DecodeEncode(own, o.phase.chunk);
  }

  lemma OnlyChunksSend(e: Engine, ev: Event, env: Env)
    ensures var r := Step(e, ev, env);
            r.sent != [] && r.sent[0].BinaryFrame? ==>
              && ev.SendChunk? && ev.id in e.outgoing && e.outgoing[ev.id].phase.Draining? && ValidId(ev.id)
              && r.sent == [BinaryFrame(Encode(ev.id, e.outgoing[ev.id].phase.chunk))]
  {
    hide ChunkCodec.Decode, ChunkCodec.Encode, ChunkCodec.ValidId, Cut, Flatten, OrDefaultMime;
    hide SettleIncoming, SettleOutgoing, SettleAll, UnparkAll;
    if ev.Sending() {
    } else if ev.Deliver? {
      DeliverSendsNoChunk(e, ev.frame, env);
      hide StepDeliver;
    } else {
    }
  }

  lemma DeliverSendsNoChunk(e: Engine, f: Frame, env: Env)
    ensures var r := StepDeliver(e, f, env); r.sent != [] ==> !r.sent[0].BinaryFrame?
  {
    hide ChunkCodec.Decode, Flatten, OrDefaultMime, SettleIncoming, SettleOutgoing;
  }

  lemma SplitHead(s: seq<byte>, k: nat)
    requires 0 < k <= |s| && (k == CHUNK_SIZE || (k == |s| && |s| <= CHUNK_SIZE))
    ensures Split(s) == [s[..k]] + Split(s[k..])
  {
    if k == |s| { assert s[..k] == s && s[k..] == []; }
  }

  /** The payload of a step's frame about `id`, and the payloads of its frames, are the same thing. */
  lemma PayloadsOf(sent: seq<Frame>, id: Id)
    requires |sent| <= 1
    ensures Payloads(sent, id) == Payloads(Of(sent, id), id)
    ensures CompleteFrame(id) in sent <==> CompleteFrame(id) in Of(sent, id)
  {
    hide ChunkCodec.Decode;
    if |sent| == 1 { assert sent[1..] == []; }
  }

  lemma NoDataNoPayloads(s: seq<Frame>, id: Id)
    requires NoUse(s) && |s| <= 1
    ensures Payloads(s, id) == [] && CompleteFrame(id) !in s
  {
    if |s| == 1 { assert s[1..] == []; }
    hide ChunkCodec.Decode;
  }

  /** One step about a file whose sendFile is behind us. */
  lemma StreamStep(e: Engine, ev: Event, env: Env, id: Id, content: seq<byte>, done: seq<seq<byte>>)
    requires ReceiverInv(e) && SenderInv(e) && Streaming(e, id, content, done)
    requires ev.SendFile? ==> ev.id !in e.outgoing && ev.id != id
    ensures var r := Step(e, ev, env);
            && ReceiverInv(r.engine) && SenderInv(r.engine)
            && Streaming(r.engine, id, content, done + Payloads(r.sent, id))
            && (CompleteFrame(id) in r.sent ==> done + Payloads(r.sent, id) == Split(content) && SV(r.engine, id).None?)
            && (SV(e, id).None? ==>
                SV(r.engine, id).None? && Payloads(r.sent, id) == []
                && CompleteFrame(id) !in r.sent)
  {
    var r := Step(e, ev, env);
    StepMoves(e, ev, env, id);
    PayloadsOf(r.sent, id);
    var v, n, s := SV(e, id), SV(r.engine, id), Of(r.sent, id);
    assert |s| <= 1 by { hide Step; }
    hide ReceiverInv, SenderInv, RecvMove, Step, SV, Of, ChunkMove, NoUse;
    if v.Some? && n.Some? && ChunkMove(id, v.value, n.value, s) {
      ChunkIsNext(e, ev, env, id);
      ChunkStreams(id, v.value, n.value, s, content, done);
    } else {
      OtherStreams(id, v, n, s, ev, content, done);
    }
  }

  lemma ChunkStreams(id: Id, v: SendView, n: SendView, s: seq<Frame>, content: seq<byte>, done: seq<seq<byte>>)
    requires ChunkMove(id, v, n, s) && Split(content) == done + Split(v.todo)
    requires n.bytes - v.bytes == CHUNK_SIZE || (n.bytes - v.bytes == |v.todo| && |v.todo| <= CHUNK_SIZE)
    ensures Split(content) == done + Payloads(s, id) + Split(n.todo) && CompleteFrame(id) !in s
  {
    var k := n.bytes - v.bytes;
    SplitHead(v.todo, k);
    assert s[1..] == [];
    assert Payloads(s, id) == [v.todo[..k]] + Payloads([], id);
    assert done + Payloads(s, id) + Split(n.todo) == done + ([v.todo[..k]] + Split(v.todo[k..]));
    hide Split, ChunkCodec.Decode;
  }

  lemma OtherStreams(id: Id, v: Option<SendView>, n: Option<SendView>, s: seq<Frame>, ev: Event, content: seq<byte>,
                     done: seq<seq<byte>>)
    requires SendMove(id, v, n, s, ev) && |s| <= 1 && (ev.SendFile? ==> ev.id != id)
    requires !(v.Some? && n.Some? && ChunkMove(id, v.value, n.value, s))
    requires match v case Some(x) => Split(content) == done + Split(x.todo) case None => done <= Split(content)
    ensures Payloads(s, id) == []
    ensures match n case Some(y) => Split(content) == done + Split(y.todo) case None => done <= Split(content)
    ensures CompleteFrame(id) in s ==> done == Split(content) && n.None?
    ensures v.None? ==> n.None? && CompleteFrame(id) !in s
  {
    if NoUse(s) {
      NoDataNoPayloads(s, id);
    } else {
      assert s == [CompleteFrame(id)] && s[1..] == [];
      assert Split([]) == [];
      assert done + [] == done;
    }
    hide ChunkMove, ChunkCodec.Decode, NoUse;
  }

  // -- whole runs ----------------------------------------------------------------------------

  lemma {:induction false} StreamRun(e: Engine, steps: Steps, id: Id, content: seq<byte>, done: seq<seq<byte>>)
    requires ReceiverInv(e) && SenderInv(e) && Streaming(e, id, content, done)
    requires NewIds(e, steps) && NotSent(steps, id)
    ensures var e', sent := Run(e, steps), EngineSent(e, steps);
            && Streaming(e', id, content, done + Payloads(sent, id))
            && (CompleteFrame(id) in sent ==> done + Payloads(sent, id) == Split(content))
            && (SV(e, id).None? ==> SV(e', id).None? && Payloads(sent, id) == [] && CompleteFrame(id) !in sent)
            && ReceiverInv(e') && SenderInv(e')
    decreases |steps|
  {
    hide ReceiverInv, SenderInv, Streaming, Step, SV, Split, ChunkCodec.Decode;
    if steps == [] {
      assert done + [] == done;
    } else {
      var r := Step(e, steps[0].0, steps[0].1);
      StreamStep(e, steps[0].0, steps[0].1, id, content, done);
      forall i | 0 <= i < |steps[1..]| && steps[1..][i].0.SendFile? ensures steps[1..][i].0.id != id {
        assert steps[1..][i] == steps[i + 1];
      }
      StreamRun(r.engine, steps[1..], id, content, done + Payloads(r.sent, id));
      PayloadsAppend(r.sent, EngineSent(r.engine, steps[1..]), id);
      assert done + Payloads(r.sent, id) + Payloads(EngineSent(r.engine, steps[1..]), id)
        == done + Payloads(EngineSent(e, steps), id);
    }
  }

  lemma Announces(e: Engine, id: Id, file: File, env: Env)
    requires ReceiverInv(e) && SenderInv(e) && SV(e, id).None?
    ensures var r := Step(e, SendFile(id, file), env);
            && ReceiverInv(r.engine) && SenderInv(r.engine) && Streaming(r.engine, id, file.content, [])
            && Payloads(r.sent, id) == [] && CompleteFrame(id) !in r.sent
  {
    var r := Step(e, SendFile(id, file), env);
    StepMoves(e, SendFile(id, file), env, id);
    assert |r.sent| <= 1 && (r.sent != [] ==> r.sent[0].StartFrame? && r.sent[1..] == []) by { hide SettleOutgoing; }
    hide ReceiverInv, SenderInv, RecvMove, Step, Split, OrDefaultMime;
    assert [] + Split(file.content) == Split(file.content);
  }

  lemma {:induction false} RunInParts(e: Engine, s: Steps, t: Steps)
    requires NewIds(e, s + t)
    ensures NewIds(e, s) && NewIds(Run(e, s), t)
    ensures Run(e, s + t) == Run(Run(e, s), t) && EngineSent(e, s + t) == EngineSent(e, s) + EngineSent(Run(e, s), t)
    decreases |s|
  {
    hide Step;
    if s == [] {
      assert s + t == t;
    } else {
      assert (s + t)[0] == s[0] && (s + t)[1..] == s[1..] + t;
      RunInParts(Step(e, s[0].0, s[0].1).engine, s[1..], t);
    }
  }

  lemma OneStep(e: Engine, s: (Event, Env))
    ensures Run(e, [s]) == Step(e, s.0, s.1).engine && EngineSent(e, [s]) == Step(e, s.0, s.1).sent
  {
    assert [s][1..] == [];
    assert Run(Step(e, s.0, s.1).engine, []) == Step(e, s.0, s.1).engine;
    assert EngineSent(Step(e, s.0, s.1).engine, []) == [];
    hide Step;
  }

  /**
   * Whatever the reads, the waits, the channel and everything else do: the binary frames an engine sends of a file in
   * any run decode to the first payloads of the canonical split of that file, in order, and to all of them once it has
   * announced the completion.
   */
  lemma FramesAreTheSplit(hasConsent: bool, maxBytes: nat, before: Steps, id: Id, file: File, env: Env, after: Steps)
    requires NewIds(NewEngine(hasConsent, maxBytes), before + ([(SendFile(id, file), env)] + after))
    requires NotSent(before, id) && NotSent(after, id)
    ensures var sent := EngineSent(NewEngine(hasConsent, maxBytes), before + ([(SendFile(id, file), env)] + after));
            && Payloads(sent, id) <= Split(file.content)
            && (CompleteFrame(id) in sent ==> Payloads(sent, id) == Split(file.content))
  {
    var e0, one := NewEngine(hasConsent, maxBytes), [(SendFile(id, file), env)];
    hide Step, Split, ReceiverInv, SenderInv, NewIds, NotSent, Payloads;
    FreshEngine(hasConsent, maxBytes, id);
    RunInParts(e0, before, one + after);
    var e1 := Run(e0, before);
    RunInParts(e1, one, after);
    StreamRun(e0, before, id, file.content, []);
    OneStep(e1, one[0]);
    Announces(e1, id, file, env);
    var e2 := Run(e1, one);
    StreamRun(e2, after, id, file.content, []);
    PayloadsAppend(EngineSent(e0, before), EngineSent(e1, one + after), id);
    PayloadsAppend(EngineSent(e1, one), EngineSent(e2, after), id);
    var sent := EngineSent(e0, before + (one + after));
    assert Payloads(sent, id) == [] + ([] + Payloads(EngineSent(e2, after), id));
    AsPrefix(e2, after, id, file.content, Payloads(sent, id));
    hide Run, EngineSent, Streaming;
  }

  lemma AsPrefix(e: Engine, after: Steps, id: Id, content: seq<byte>, all: seq<seq<byte>>)
    requires Streaming(Run(e, after), id, content, all)
    ensures all <= Split(content)
  {
    hide Split, Run;
  }

  lemma FreshEngine(hasConsent: bool, maxBytes: nat, id: Id)
    ensures var e := NewEngine(hasConsent, maxBytes);
            ReceiverInv(e) && SenderInv(e) && SV(e, id).None? && forall content :: Streaming(e, id, content, [])
  {
    hide Split;
  }
}
