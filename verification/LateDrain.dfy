/**
 * How tight the bound on the queue is. A drain event once raised stays under way, whatever the buffer does meanwhile;
 * when it is dispatched it wakes everyone parked, and nobody woken looks at the buffer again. So every send may have
 * one frame in hand from a buffer below the mark, and one more for every event that was raised before and comes late.
 */
module LateDrain {
  import opened Common
  import opened ChunkCodec
  import opened Rechunk
  import opened TransferSpec
  import opened Backpressure

  /** Frames that fit below the high-water mark, and frames that, with one more, are above the low one. */
  const BELOW: nat := 63
  const ARMING: nat := 4

  /** What a file needs to have for the run below. */
  function Enough(late: nat): nat { (BELOW + 1 + (ARMING + 1) * late) * CHUNK_SIZE }

  /** A step of the engine on an open channel that takes everything; control frames are not what is counted here. */
  function Do(ev: Event): PipeStep { Run(ev, true, true, true, 0) }

  predicate At(p: Pipe, id: Id, phase: Phase) { id in p.engine.outgoing && p.engine.outgoing[id].phase == phase }

  predicate Same(p: Pipe, q: Pipe) {
    && q.controlBytes == p.controlBytes && q.pending == p.pending && q.late == p.late && q.closed == p.closed
    && q.engine.outgoing.Keys == p.engine.outgoing.Keys && q.engine.disposed == p.engine.disposed
  }

  /** The same pipe but for the senders in `ids` and the bytes they queued. */
  predicate Only(p: Pipe, q: Pipe, ids: set<Id>) {
    Same(p, q) && forall i :: i in p.engine.outgoing && i !in ids ==> q.engine.outgoing[i] == p.engine.outgoing[i]
  }

  lemma OnlyTwice(p: Pipe, q: Pipe, r: Pipe, s: set<Id>, t: set<Id>, u: set<Id>)
    requires Only(p, q, s) && Only(q, r, t) && s <= u && t <= u
    ensures Only(p, r, u)
  {
  }

  // -- one step of one sender ------------------------------------------------------------------

  lemma ReadStep(p: Pipe, n: nat, id: Id, c: seq<byte>)
    requires At(p, id, Reading([])) && p.engine.outgoing[id].unread == c && |c| >= CHUNK_SIZE && !p.closed
    ensures var q := Next(p, n, Do(Read(id, |c|)));
            Only(p, q, {id}) && q.chunkBytes == p.chunkBytes
            && At(q, id, Draining(c[..CHUNK_SIZE], c[CHUNK_SIZE..], false, p.Buffered() > HIGH_WATER))
  {
    assert [] + c[..|c|] == c;
  }

  lemma ContinueStep(p: Pipe, n: nat, id: Id, rest: seq<byte>)
    requires At(p, id, Sent(rest, false)) && |rest| >= CHUNK_SIZE && !p.closed
    ensures var q := Next(p, n, Do(Continue(id)));
            Only(p, q, {id}) && q.chunkBytes == p.chunkBytes
            && At(q, id, Draining(rest[..CHUNK_SIZE], rest[CHUNK_SIZE..], false, p.Buffered() > HIGH_WATER))
  {
  }

  lemma SendStep(p: Pipe, n: nat, id: Id, chunk: seq<byte>, rest: seq<byte>)
    requires At(p, id, Draining(chunk, rest, false, false)) && |chunk| == CHUNK_SIZE && ValidId(id) && !p.closed
    ensures var q := Next(p, n, Do(SendChunk(id)));
            Only(p, q, {id}) && q.chunkBytes == p.chunkBytes + FRAME_MAX && At(q, id, Sent(rest, false))
  {
    DecodeEncode(id, chunk);
    hide ChunkCodec.Encode, ChunkCodec.Decode;
  }

  // -- runs ----------------------------------------------------------------------------------------

  lemma {:induction false} RunAppend(p: Pipe, n: nat, s: seq<PipeStep>, t: seq<PipeStep>)
    ensures RunPipe(p, n, s + t) == RunPipe(RunPipe(p, n, s), n, t)
    decreases |s|
  {
    hide Next;
    if s == [] {
      assert s + t == t;
    } else {
      assert (s + t)[0] == s[0] && (s + t)[1..] == s[1..] + t;
      RunAppend(Next(p, n, s[0]), n, s[1..], t);
    }
  }

  lemma RunFirst(p: Pipe, n: nat, s: PipeStep, t: seq<PipeStep>)
    ensures RunPipe(p, n, [s] + t) == RunPipe(Next(p, n, s), n, t)
  {
    assert ([s] + t)[1..] == t;
    hide Next;
  }

  /** k more frames of one sender. */
  function Burst(id: Id, k: nat): seq<PipeStep> {
    if k == 0 then [] else [Do(Continue(id))] + ([Do(SendChunk(id))] + Burst(id, k - 1))
  }

  lemma {:induction false} BurstSends(p: Pipe, n: nat, id: Id, rest: seq<byte>, k: nat)
    requires At(p, id, Sent(rest, false)) && |rest| >= k * CHUNK_SIZE && ValidId(id) && !p.closed
    requires k > 0 ==> p.Buffered() + (k - 1) * FRAME_MAX <= HIGH_WATER
    ensures var q := RunPipe(p, n, Burst(id, k));
            Only(p, q, {id}) && q.chunkBytes == p.chunkBytes + k * FRAME_MAX
                && At(q, id, Sent(rest[k * CHUNK_SIZE..], false))
    decreases k
  {
    hide Next, Only, RunPipe;
    if k > 0 {
      BurstTurn(p, n, id, rest);
      var p2 := Next(Next(p, n, Do(Continue(id))), n, Do(SendChunk(id)));
      SameBytes(p, p2, {id});
      BurstSends(p2, n, id, rest[CHUNK_SIZE..], k - 1);
      OnlyTwice(p, p2, RunPipe(p2, n, Burst(id, k - 1)), {id}, {id}, {id});
      RunFirst(p, n, Do(Continue(id)), [Do(SendChunk(id))] + Burst(id, k - 1));
      RunFirst(Next(p, n, Do(Continue(id))), n, Do(SendChunk(id)), Burst(id, k - 1));
      assert rest[CHUNK_SIZE..][(k - 1) * CHUNK_SIZE..] == rest[k * CHUNK_SIZE..];
    } else {
      assert rest[0..] == rest;
      NothingRuns(p, n, {id});
    }
  }

  lemma NothingRuns(p: Pipe, n: nat, ids: set<Id>)
    ensures RunPipe(p, n, []) == p && Only(p, p, ids)
  {
  }

  lemma SameBytes(p: Pipe, q: Pipe, ids: set<Id>)
    requires Only(p, q, ids)
    ensures q.controlBytes == p.controlBytes && q.closed == p.closed && q.pending == p.pending && q.late == p.late
    ensures q.engine.outgoing.Keys == p.engine.outgoing.Keys && q.engine.disposed == p.engine.disposed
  {
  }

  lemma BurstTurn(p: Pipe, n: nat, id: Id, rest: seq<byte>)
    requires At(p, id, Sent(rest, false)) && |rest| >= CHUNK_SIZE && ValidId(id) && !p.closed
        && p.Buffered() <= HIGH_WATER
    ensures var q := Next(Next(p, n, Do(Continue(id))), n, Do(SendChunk(id)));
            Only(p, q, {id}) && q.chunkBytes == p.chunkBytes + FRAME_MAX && At(q, id, Sent(rest[CHUNK_SIZE..], false))
  {
    hide Next, ValidId;
    var p1 := Next(p, n, Do(Continue(id)));
    ContinueStep(p, n, id, rest);
    SendStep(p1, n, id, rest[..CHUNK_SIZE], rest[CHUNK_SIZE..]);
    OnlyTwice(p, p1, Next(p1, n, Do(SendChunk(id))), {id}, {id}, {id});
  }

  // -- one step of every sender -----------------------------------------------------------------------

  predicate Distinct(ids: seq<Id>) { forall i, j :: 0 <= i < j < |ids| ==> ids[i] != ids[j] }

  /** In sendChunk with a full chunk, about to send it or waiting to. */
  predicate Loaded(p: Pipe, id: Id, parked: bool) {
    && id in p.engine.outgoing && p.engine.outgoing[id].phase.Draining?
    && p.engine.outgoing[id].phase.parked == parked && !p.engine.outgoing[id].phase.last
    && |p.engine.outgoing[id].phase.chunk| == CHUNK_SIZE
  }

  /** Back from sendChunk with at least `size` bytes more to cut. */
  predicate Holding(p: Pipe, id: Id, size: nat) {
    && id in p.engine.outgoing && p.engine.outgoing[id].phase.Sent? && !p.engine.outgoing[id].phase.last
    && |p.engine.outgoing[id].phase.rest| >= size
  }

  function Sends(ids: seq<Id>): seq<PipeStep> {
    if ids == [] then [] else [Do(SendChunk(ids[0]))] + Sends(ids[1..])
  }

  function Continues(ids: seq<Id>): seq<PipeStep> {
    if ids == [] then [] else [Do(Continue(ids[0]))] + Continues(ids[1..])
  }

  function Reads(ids: seq<Id>, size: nat): seq<PipeStep> {
    if ids == [] then [] else [Do(Read(ids[0], size))] + Reads(ids[1..], size)
  }

  function Ids(ids: seq<Id>): set<Id> { set id | id in ids }

  lemma IdsSplit(ids: seq<Id>)
    requires ids != [] && Distinct(ids)
    ensures Ids(ids) == {ids[0]} + Ids(ids[1..]) && ids[0] !in Ids(ids[1..]) && Distinct(ids[1..])
  {
  }

  /** Bytes still to be cut after the chunk in hand. */
  function RestOf(p: Pipe, id: Id): nat {
    if id in p.engine.outgoing && p.engine.outgoing[id].phase.Draining? then |p.engine.outgoing[id].phase.rest| else 0
  }

  lemma LoadedSends(p: Pipe, n: nat, id: Id, size: nat)
    requires Loaded(p, id, false) && RestOf(p, id) >= size && ValidId(id) && !p.closed
    ensures var q := Next(p, n, Do(SendChunk(id)));
            Only(p, q, {id}) && q.chunkBytes == p.chunkBytes + FRAME_MAX && Holding(q, id, size)
  {
    hide Next, ValidId, Only;
    var f := p.engine.outgoing[id].phase;
    SendStep(p, n, id, f.chunk, f.rest);
  }

  lemma {:induction false} AllSend(p: Pipe, n: nat, ids: seq<Id>, size: nat)
    requires Distinct(ids) && !p.closed
    requires forall id :: id in ids ==> ValidId(id) && Loaded(p, id, false) && RestOf(p, id) >= size
    ensures var q := RunPipe(p, n, Sends(ids));
            && Only(p, q, Ids(ids)) && q.chunkBytes == p.chunkBytes + |ids| * FRAME_MAX
            && forall id :: id in ids ==> Holding(q, id, size)
    decreases |ids|
  {
    hide Next, ValidId, RunPipe;
    if ids == [] {
      NothingRuns(p, n, Ids(ids));
    } else {
      var id, q := ids[0], Next(p, n, Do(SendChunk(ids[0])));
      IdsSplit(ids);
      LoadedSends(p, n, id, size);
      RunFirst(p, n, Do(SendChunk(id)), Sends(ids[1..]));
      forall i | i in ids[1..] ensures Loaded(q, i, false) && RestOf(q, i) >= size && ValidId(i) {
        assert i in Ids(ids[1..]) && Loaded(p, i, false);
      }
      AllSend(q, n, ids[1..], size);
      OnlyTwice(p, q, RunPipe(q, n, Sends(ids[1..])), {id}, Ids(ids[1..]), Ids(ids));
      assert Holding(RunPipe(q, n, Sends(ids[1..])), id, size);
      hide Only, Holding, Loaded;
    }
  }

  lemma HoldingLoads(p: Pipe, n: nat, id: Id, size: nat)
    requires Holding(p, id, CHUNK_SIZE + size) && !p.closed
    ensures var q := Next(p, n, Do(Continue(id)));
            Only(p, q, {id}) && q.chunkBytes == p.chunkBytes
            && Loaded(q, id, p.Buffered() > HIGH_WATER) && RestOf(q, id) >= size
  {
    hide Next, Only;
    ContinueStep(p, n, id, p.engine.outgoing[id].phase.rest);
  }

  lemma {:induction false} AllContinue(p: Pipe, n: nat, ids: seq<Id>, size: nat)
    requires Distinct(ids) && !p.closed
    requires forall id :: id in ids ==> Holding(p, id, CHUNK_SIZE + size)
    ensures var q := RunPipe(p, n, Continues(ids));
            && Only(p, q, Ids(ids)) && q.chunkBytes == p.chunkBytes
            && forall id :: id in ids ==> Loaded(q, id, p.Buffered() > HIGH_WATER) && RestOf(q, id) >= size
    decreases |ids|
  {
    hide Next, RunPipe;
    if ids == [] {
      NothingRuns(p, n, Ids(ids));
    } else {
      var id, q := ids[0], Next(p, n, Do(Continue(ids[0])));
      IdsSplit(ids);
      HoldingLoads(p, n, id, size);
      RunFirst(p, n, Do(Continue(id)), Continues(ids[1..]));
      forall i | i in ids[1..] ensures Holding(q, i, CHUNK_SIZE + size) {
        assert i in Ids(ids[1..]) && Holding(p, i, CHUNK_SIZE + size);
      }
      AllContinue(q, n, ids[1..], size);
      OnlyTwice(p, q, RunPipe(q, n, Continues(ids[1..])), {id}, Ids(ids[1..]), Ids(ids));
      assert Loaded(RunPipe(q, n, Continues(ids[1..])), id, p.Buffered() > HIGH_WATER);
      assert RestOf(RunPipe(q, n, Continues(ids[1..])), id) >= size;
      hide Only, Holding, Loaded;
    }
  }

  /** Accepted and about to read all of c. */
  predicate Opened(p: Pipe, id: Id, c: seq<byte>) { At(p, id, Reading([])) && p.engine.outgoing[id].unread == c }

  lemma OpenedLoads(p: Pipe, n: nat, id: Id, c: seq<byte>)
    requires Opened(p, id, c) && |c| >= CHUNK_SIZE && !p.closed && p.Buffered() <= HIGH_WATER
    ensures var q := Next(p, n, Do(Read(id, |c|)));
            Only(p, q, {id}) && q.chunkBytes == p.chunkBytes && Loaded(q, id, false)
                && RestOf(q, id) == |c| - CHUNK_SIZE
  {
    hide Next, Only;
    ReadStep(p, n, id, c);
  }

  lemma {:induction false} AllRead(p: Pipe, n: nat, ids: seq<Id>, c: seq<byte>)
    requires Distinct(ids) && !p.closed && |c| >= CHUNK_SIZE && p.Buffered() <= HIGH_WATER
    requires forall id :: id in ids ==> Opened(p, id, c)
    ensures var q := RunPipe(p, n, Reads(ids, |c|));
            && Only(p, q, Ids(ids)) && q.chunkBytes == p.chunkBytes
            && forall id :: id in ids ==> Loaded(q, id, false) && RestOf(q, id) == |c| - CHUNK_SIZE
    decreases |ids|
  {
    hide Next, RunPipe;
    if ids == [] {
      NothingRuns(p, n, Ids(ids));
    } else {
      var id, q := ids[0], Next(p, n, Do(Read(ids[0], |c|)));
      IdsSplit(ids);
      OpenedLoads(p, n, id, c);
      RunFirst(p, n, Do(Read(id, |c|)), Reads(ids[1..], |c|));
      forall i | i in ids[1..] ensures Opened(q, i, c) {
        assert i in Ids(ids[1..]) && Opened(p, i, c);
      }
      AllRead(q, n, ids[1..], c);
      OnlyTwice(p, q, RunPipe(q, n, Reads(ids[1..], |c|)), {id}, Ids(ids[1..]), Ids(ids));
      assert Loaded(RunPipe(q, n, Reads(ids[1..], |c|)), id, false);
      assert RestOf(RunPipe(q, n, Reads(ids[1..], |c|)), id) == |c| - CHUNK_SIZE;
      hide Only, Opened, Loaded;
    }
  }

  // -- the run -----------------------------------------------------------------------------------------

  function OpenOne(id: Id, f: File): seq<PipeStep> {
    [Do(SendFile(id, f))] + ([Do(Deliver(AcceptFrame(id, true)))] + ([Do(Resume(id))] + []))
  }

  /** Every send announced, accepted and about to read. */
  function Opening(ids: seq<Id>, f: File): seq<PipeStep> {
    if ids == [] then [] else OpenOne(ids[0], f) + Opening(ids[1..], f)
  }

  predicate Idle(p: Pipe) { !p.closed && !p.engine.disposed && p.controlBytes == 0 && p.pending == 0 }

  /** As before, with one transfer more, or the same one further on. */
  predicate Grown(p: Pipe, q: Pipe, ids: set<Id>) {
    && Idle(q) && q.chunkBytes == p.chunkBytes && q.late == p.late
    && q.engine.outgoing.Keys == p.engine.outgoing.Keys + ids
    && forall i :: i in p.engine.outgoing && i !in ids ==> q.engine.outgoing[i] == p.engine.outgoing[i]
  }

  lemma GrownTwice(p: Pipe, q: Pipe, r: Pipe, s: set<Id>, t: set<Id>)
    requires Grown(p, q, s) && Grown(q, r, t)
    ensures Grown(p, r, s + t)
  {
  }

  lemma Begins(e: Engine, id: Id, f: File, env: Env)
    requires env.open && env.ok
    ensures var r := Step(e, SendFile(id, f), env);
            && |r.sent| == 1 && !r.sent[0].BinaryFrame? && r.engine.disposed == e.disposed
            && r.engine.outgoing.Keys == e.outgoing.Keys + {id}
            && (forall i :: i in e.outgoing && i != id ==> r.engine.outgoing[i] == e.outgoing[i])
            && r.engine.outgoing[id].phase == Waiting && r.engine.outgoing[id].unread == f.content
  {
    hide OrDefaultMime;
  }

  /** A step that sends a control frame; what it weighs is not counted here. */
  lemma ControlSent(p: Pipe, n: nat, ev: Event)
    requires Enabled(p, n, Do(ev))
    requires var sent := Step(p.engine, ev, Env(true, true, p.Buffered(), true)).sent;
             |sent| == 1 && !sent[0].BinaryFrame?
    ensures Next(p, n, Do(ev)) == p.(engine := Step(p.engine, ev, Env(true, true, p.Buffered(), true)).engine,
                                     closed := p.closed || ev.Closed?)
  {
    hide Step, UnparkAll, Enabled;
  }

  lemma IdleEnabled(p: Pipe, n: nat, id: Id, f: File)
    requires Idle(p) && id !in p.engine.outgoing && |p.engine.outgoing| < n
    ensures Enabled(p, n, Do(SendFile(id, f)))
  {
  }

  lemma Announces(p: Pipe, n: nat, id: Id, f: File)
    requires Idle(p) && id !in p.engine.outgoing && |p.engine.outgoing| < n
    ensures var q := Next(p, n, Do(SendFile(id, f)));
            Grown(p, q, {id}) && At(q, id, Waiting) && q.engine.outgoing[id].unread == f.content
  {
    hide Next, Step, Enabled;
    assert Enabled(p, n, Do(SendFile(id, f))) by { IdleEnabled(p, n, id, f); }
    Begins(p.engine, id, f, Env(true, true, p.Buffered(), true));
    ControlSent(p, n, SendFile(id, f));
  }

  lemma Accepts(p: Pipe, n: nat, id: Id)
    requires Idle(p) && At(p, id, Waiting)
    ensures var q := Next(p, n, Do(Deliver(AcceptFrame(id, true))));
            Grown(p, q, {id}) && At(q, id, Answered(true))
                && q.engine.outgoing[id].unread == p.engine.outgoing[id].unread
  {
  }

  lemma Resumes(p: Pipe, n: nat, id: Id)
    requires Idle(p) && At(p, id, Answered(true))
    ensures var q := Next(p, n, Do(Resume(id)));
            Grown(p, q, {id}) && At(q, id, Reading([])) && q.engine.outgoing[id].unread == p.engine.outgoing[id].unread
  {
  }

  lemma OneOpens(p: Pipe, n: nat, id: Id, f: File)
    requires Idle(p) && id !in p.engine.outgoing && |p.engine.outgoing| < n
    ensures var q := RunPipe(p, n, OpenOne(id, f)); Grown(p, q, {id}) && Opened(q, id, f.content)
  {
    hide Next, RunPipe, Grown;
    var p1 := Next(p, n, Do(SendFile(id, f)));
    var p2 := Next(p1, n, Do(Deliver(AcceptFrame(id, true))));
    var p3 := Next(p2, n, Do(Resume(id)));
    Announces(p, n, id, f);
    GrownIdle(p, p1, {id});
    Accepts(p1, n, id);
    GrownIdle(p1, p2, {id});
    Resumes(p2, n, id);
    GrownTwice(p, p1, p2, {id}, {id});
    GrownTwice(p, p2, p3, {id} + {id}, {id});
    assert {id} + {id} + {id} == {id};
    RunFirst(p, n, Do(SendFile(id, f)), [Do(Deliver(AcceptFrame(id, true)))] + ([Do(Resume(id))] + []));
    RunFirst(p1, n, Do(Deliver(AcceptFrame(id, true))), [Do(Resume(id))] + []);
    RunFirst(p2, n, Do(Resume(id)), []);
    NothingRuns(p3, n, {id});
  }

  lemma GrownIdle(p: Pipe, q: Pipe, ids: set<Id>)
    requires Grown(p, q, ids)
    ensures Idle(q) && q.chunkBytes == p.chunkBytes && q.late == p.late
    ensures q.engine.outgoing.Keys == p.engine.outgoing.Keys + ids
  {
  }

  lemma {:induction false} AllOpen(p: Pipe, n: nat, ids: seq<Id>, f: File)
    requires Idle(p) && Distinct(ids) && |p.engine.outgoing| + |ids| <= n
    requires forall id :: id in ids ==> id !in p.engine.outgoing
    ensures var q := RunPipe(p, n, Opening(ids, f));
            Grown(p, q, Ids(ids)) && forall id :: id in ids ==> Opened(q, id, f.content)
    decreases |ids|
  {
    hide RunPipe, OpenOne;
    if ids == [] {
      NothingRuns(p, n, {});
    } else {
      var id, q := ids[0], RunPipe(p, n, OpenOne(ids[0], f));
      IdsSplit(ids);
      OneOpens(p, n, id, f);
      RunAppend(p, n, OpenOne(id, f), Opening(ids[1..], f));
      OneMore(p.engine.outgoing.Keys, id);
      assert |q.engine.outgoing| == |q.engine.outgoing.Keys| == |p.engine.outgoing| + 1;
      forall i | i in ids[1..] ensures i !in q.engine.outgoing { assert i in Ids(ids[1..]) && i in ids; }
      AllOpen(q, n, ids[1..], f);
      var r := RunPipe(q, n, Opening(ids[1..], f));
      GrownTwice(p, q, r, {id}, Ids(ids[1..]));
      assert Opened(r, id, f.content);
      hide Grown, Opened;
    }
  }

  lemma OneMore(s: set<Id>, id: Id)
    requires id !in s
    ensures |s + {id}| == |s| + 1
  {
  }

  // -- raising the events ---------------------------------------------------------------------------------

  /** One event more: some frames into the buffer, which drains to one frame before anyone parks. */
  function Arm(id: Id): seq<PipeStep> { Burst(id, ARMING) + ([Drain(FRAME_MAX, 0)] + []) }

  function Arms(id: Id, k: nat): seq<PipeStep> { if k == 0 then [] else Arm(id) + Arms(id, k - 1) }

  /** One frame in the buffer and k events more under way; nobody but `id` has moved. */
  predicate Armed(p: Pipe, q: Pipe, id: Id, k: nat, size: nat) {
    && q.chunkBytes == FRAME_MAX && q.controlBytes == 0 && !q.closed && Holding(q, id, size)
    && q.pending == p.pending + k && q.late == p.late
    && q.engine.outgoing.Keys == p.engine.outgoing.Keys
    && forall i :: i in p.engine.outgoing && i != id ==> q.engine.outgoing[i] == p.engine.outgoing[i]
  }

  lemma ArmedTwice(p: Pipe, q: Pipe, r: Pipe, id: Id, j: nat, k: nat, s: nat, t: nat)
    requires Armed(p, q, id, j, s) && Armed(q, r, id, k, t)
    ensures Armed(p, r, id, j + k, t)
  {
  }

  lemma Drains(p: Pipe, q: Pipe, n: nat, id: Id, size: nat)
    requires Only(p, q, {id}) && q.chunkBytes == (1 + ARMING) * FRAME_MAX && q.controlBytes == 0 && !q.closed
    requires Holding(q, id, size) && q.pending < q.late
    ensures Armed(p, Next(q, n, Drain(FRAME_MAX, 0)), id, 1, size)
  {
  }

  lemma ArmsOnce(p: Pipe, n: nat, id: Id, size: nat)
    requires Armed(p, p, id, 0, ARMING * CHUNK_SIZE + size) && p.pending < p.late && ValidId(id)
    ensures Armed(p, RunPipe(p, n, Arm(id)), id, 1, size)
  {
    hide Next, RunPipe, ValidId, Only, Burst;
    var rest := p.engine.outgoing[id].phase.rest;
    BurstSends(p, n, id, rest, ARMING);
    var q := RunPipe(p, n, Burst(id, ARMING));
    SameBytes(p, q, {id});
    assert Holding(q, id, size);
    Drains(p, q, n, id, size);
    RunAppend(p, n, Burst(id, ARMING), [Drain(FRAME_MAX, 0)] + []);
    RunFirst(q, n, Drain(FRAME_MAX, 0), []);
    NothingRuns(Next(q, n, Drain(FRAME_MAX, 0)), n, {});
  }

  lemma {:induction false} ArmsAll(p: Pipe, n: nat, id: Id, k: nat, size: nat)
    requires Armed(p, p, id, 0, k * ARMING * CHUNK_SIZE + size) && p.pending + k <= p.late && ValidId(id)
    ensures Armed(p, RunPipe(p, n, Arms(id, k)), id, k, size)
    decreases k
  {
    hide RunPipe, ValidId, Arm;
    if k == 0 {
      NothingRuns(p, n, {});
    } else {
      var less := (k - 1) * ARMING * CHUNK_SIZE + size;
      var q := RunPipe(p, n, Arm(id));
      ArmsOnce(p, n, id, less);
      ArmsAll(q, n, id, k - 1, size);
      ArmedTwice(p, q, RunPipe(q, n, Arms(id, k - 1)), id, 1, k - 1, less, size);
      RunAppend(p, n, Arm(id), Arms(id, k - 1));
      hide Armed;
    }
  }

  /** One send starts, and raises k events. */
  function Arming(id: Id, size: nat, k: nat): seq<PipeStep> {
    [Do(Read(id, size))] + ([Do(SendChunk(id))] + Arms(id, k))
  }

  lemma FirstFrame(p: Pipe, n: nat, id: Id, c: seq<byte>)
    requires Opened(p, id, c) && |c| >= CHUNK_SIZE && !p.closed && p.Buffered() <= HIGH_WATER && ValidId(id)
    ensures var q := Next(Next(p, n, Do(Read(id, |c|))), n, Do(SendChunk(id)));
            Only(p, q, {id}) && q.chunkBytes == p.chunkBytes + FRAME_MAX && At(q, id, Sent(c[CHUNK_SIZE..], false))
  {
    hide Next, ValidId;
    var p1 := Next(p, n, Do(Read(id, |c|)));
    ReadStep(p, n, id, c);
    SendStep(p1, n, id, c[..CHUNK_SIZE], c[CHUNK_SIZE..]);
    OnlyTwice(p, p1, Next(p1, n, Do(SendChunk(id))), {id}, {id}, {id});
  }

  lemma Starts(p: Pipe, n: nat, id: Id, c: seq<byte>)
    requires Idle(p) && p.chunkBytes == 0 && Opened(p, id, c) && |c| >= Enough(p.late) && ValidId(id)
    ensures Armed(p, RunPipe(p, n, Arming(id, |c|, p.late)), id, p.late, (BELOW + p.late) * CHUNK_SIZE)
  {
    hide Next, RunPipe, ValidId, Arms;
    var late, size := p.late, (BELOW + p.late) * CHUNK_SIZE;
    var p1 := Next(p, n, Do(Read(id, |c|)));
    var p2 := Next(p1, n, Do(SendChunk(id)));
    FirstFrame(p, n, id, c);
    assert Armed(p, p2, id, 0, late * ARMING * CHUNK_SIZE + size);
    assert Armed(p2, p2, id, 0, late * ARMING * CHUNK_SIZE + size);
    ArmsAll(p2, n, id, late, size);
    ArmedTwice(p, p2, RunPipe(p2, n, Arms(id, late)), id, 0, late, late * ARMING * CHUNK_SIZE + size, size);
    RunFirst(p, n, Do(Read(id, |c|)), [Do(SendChunk(id))] + Arms(id, late));
    RunFirst(p1, n, Do(SendChunk(id)), Arms(id, late));
    hide Armed, Only;
  }

  // -- filling the buffer ---------------------------------------------------------------------------------

  /** The first send fills the buffer to just below the mark, and everybody takes a chunk in hand. */
  function Filling(ids: seq<Id>, size: nat): seq<PipeStep>
    requires ids != []
  {
    Burst(ids[0], BELOW - 1) + ([Do(Continue(ids[0]))] + Reads(ids[1..], size))
  }

  lemma Fills(p: Pipe, n: nat, ids: seq<Id>, c: seq<byte>)
    requires ids != [] && Distinct(ids) && p.chunkBytes == FRAME_MAX && p.controlBytes == 0 && !p.closed
    requires Holding(p, ids[0], (BELOW + p.late) * CHUNK_SIZE) && ValidId(ids[0]) && |c| >= (1 + p.late) * CHUNK_SIZE
    requires forall id :: id in ids[1..] ==> Opened(p, id, c)
    ensures var q := RunPipe(p, n, Filling(ids, |c|));
            && Same(p, q) && q.chunkBytes == BELOW * FRAME_MAX
            && forall id :: id in ids ==> Loaded(q, id, false) && RestOf(q, id) >= p.late * CHUNK_SIZE
  {
    hide Next, RunPipe, ValidId;
    var id, rest := ids[0], p.engine.outgoing[ids[0]].phase.rest;
    var p1 := RunPipe(p, n, Burst(id, BELOW - 1));
    var p2 := Next(p1, n, Do(Continue(id)));
    var q := RunPipe(p2, n, Reads(ids[1..], |c|));
    IdsSplit(ids);
    BurstSends(p, n, id, rest, BELOW - 1);
    assert Holding(p1, id, CHUNK_SIZE + p.late * CHUNK_SIZE);
    HoldingLoads(p1, n, id, p.late * CHUNK_SIZE);
    OnlyTwice(p, p1, p2, {id}, {id}, {id});
    forall i | i in ids[1..] ensures Opened(p2, i, c) { assert i in Ids(ids[1..]) && Opened(p, i, c); }
    AllRead(p2, n, ids[1..], c);
    assert Loaded(q, id, false) && RestOf(q, id) >= p.late * CHUNK_SIZE;
    RunAppend(p, n, Burst(id, BELOW - 1), [Do(Continue(id))] + Reads(ids[1..], |c|));
    RunFirst(p1, n, Do(Continue(id)), Reads(ids[1..], |c|));
    hide Holding, Opened, Burst, Reads;
  }

  // -- over it ---------------------------------------------------------------------------------------------

  /** Everybody parks, is woken by one of the events, and sends. */
  function Wave(ids: seq<Id>): seq<PipeStep> { Continues(ids) + ([LowEvent] + Sends(ids)) }

  function Waves(ids: seq<Id>, k: nat): seq<PipeStep> { if k == 0 then [] else Wave(ids) + Waves(ids, k - 1) }

  lemma Wakes(p: Pipe, n: nat, id: Id)
    requires Loaded(p, id, true) && p.pending > 0
    ensures Loaded(Next(p, n, LowEvent), id, false) && RestOf(Next(p, n, LowEvent), id) == RestOf(p, id)
  {
  }

  lemma EventKeeps(p: Pipe, n: nat)
    requires p.pending > 0
    ensures var q := Next(p, n, LowEvent);
            q.chunkBytes == p.chunkBytes && q.closed == p.closed && q.pending == p.pending - 1
  {
    hide UnparkAll;
  }

  lemma WaveSends(p: Pipe, n: nat, ids: seq<Id>, size: nat)
    requires Distinct(ids) && p.pending > 0 && !p.closed && p.chunkBytes > HIGH_WATER
    requires forall id :: id in ids ==> ValidId(id) && Holding(p, id, CHUNK_SIZE + size)
    ensures var q := RunPipe(p, n, Wave(ids));
            && q.chunkBytes == p.chunkBytes + |ids| * FRAME_MAX && q.pending == p.pending - 1 && !q.closed
            && forall id :: id in ids ==> Holding(q, id, size)
  {
    hide Next, RunPipe, ValidId, Loaded, Holding, RestOf, Only, Distinct;
    AllContinue(p, n, ids, size);
    var p1 := RunPipe(p, n, Continues(ids));
    SameBytes(p, p1, Ids(ids));
    var p2 := Next(p1, n, LowEvent);
    EventKeeps(p1, n);
    forall id | id in ids ensures Loaded(p2, id, false) && RestOf(p2, id) >= size && ValidId(id) {
      assert Loaded(p1, id, true);
      Wakes(p1, n, id);
    }
    AllSend(p2, n, ids, size);
    SameBytes(p2, RunPipe(p2, n, Sends(ids)), Ids(ids));
    RunAppend(p, n, Continues(ids), [LowEvent] + Sends(ids));
    RunFirst(p1, n, LowEvent, Sends(ids));
  }

  lemma {:induction false} WavesSend(p: Pipe, n: nat, ids: seq<Id>, k: nat)
    requires Distinct(ids) && p.pending >= k && !p.closed && p.chunkBytes > HIGH_WATER
    requires forall id :: id in ids ==> ValidId(id) && Holding(p, id, k * CHUNK_SIZE)
    ensures RunPipe(p, n, Waves(ids, k)).chunkBytes == p.chunkBytes + k * |ids| * FRAME_MAX
    decreases k
  {
    hide Next, RunPipe, ValidId, Holding, Distinct, Wave;
    if k == 0 {
      NothingRuns(p, n, {});
    } else {
      var q := RunPipe(p, n, Wave(ids));
      assert CHUNK_SIZE + (k - 1) * CHUNK_SIZE == k * CHUNK_SIZE;
      WaveSends(p, n, ids, (k - 1) * CHUNK_SIZE);
      WavesSend(q, n, ids, k - 1);
      RunAppend(p, n, Wave(ids), Waves(ids, k - 1));
      assert k * |ids| == (k - 1) * |ids| + |ids|;
    }
  }

  lemma Overflows(p: Pipe, n: nat, ids: seq<Id>)
    requires Distinct(ids) && ids != [] && p.pending == p.late && !p.closed && p.chunkBytes == BELOW * FRAME_MAX
    requires forall id :: id in ids ==> ValidId(id) && Loaded(p, id, false) && RestOf(p, id) >= p.late * CHUNK_SIZE
    ensures RunPipe(p, n, Sends(ids) + Waves(ids, p.late)).chunkBytes == (BELOW + (1 + p.late) * |ids|) * FRAME_MAX
  {
    hide Next, RunPipe, ValidId, Loaded, Holding, RestOf, Only, Distinct;
    AllSend(p, n, ids, p.late * CHUNK_SIZE);
    var q := RunPipe(p, n, Sends(ids));
    SameBytes(p, q, Ids(ids));
    WavesSend(q, n, ids, p.late);
    RunAppend(p, n, Sends(ids), Waves(ids, p.late));
    assert (1 + p.late) * |ids| == |ids| + p.late * |ids|;
  }

  function Overtaken(ids: seq<Id>, f: File, late: nat): seq<PipeStep>
    requires ids != []
  {
    Opening(ids, f)
    + (Arming(ids[0], |f.content|, late) + (Filling(ids, |f.content|) + (Sends(ids) + Waves(ids, late))))
  }

  lemma OpenOverflows(p: Pipe, n: nat, ids: seq<Id>, c: seq<byte>)
    requires ids != [] && Distinct(ids) && Idle(p) && p.chunkBytes == 0 && |c| >= Enough(p.late)
    requires forall id :: id in ids ==> ValidId(id) && Opened(p, id, c)
    ensures var steps := Arming(ids[0], |c|, p.late) + (Filling(ids, |c|) + (Sends(ids) + Waves(ids, p.late)));
            RunPipe(p, n, steps).chunkBytes == (BELOW + (1 + p.late) * |ids|) * FRAME_MAX
  {
    hide Next, RunPipe, ValidId, Distinct, Opened, Holding, Loaded, RestOf, Arming, Filling;
    var late := p.late;
    Starts(p, n, ids[0], c);
    var p1 := RunPipe(p, n, Arming(ids[0], |c|, late));
    StillOpen(p, p1, ids, c);
    Fills(p1, n, ids, c);
    var p2 := RunPipe(p1, n, Filling(ids, |c|));
    Overflows(p2, n, ids);
    RunAppend(p, n, Arming(ids[0], |c|, late), Filling(ids, |c|) + (Sends(ids) + Waves(ids, late)));
    RunAppend(p1, n, Filling(ids, |c|), Sends(ids) + Waves(ids, late));
  }

  lemma OvertakenQueues(hasConsent: bool, maxBytes: nat, late: nat, ids: seq<Id>, f: File)
    requires ids != [] && Distinct(ids) && |f.content| >= Enough(late) && forall id :: id in ids ==> ValidId(id)
    ensures RunPipe(NewPipe(hasConsent, maxBytes, late), |ids|, Overtaken(ids, f, late)).chunkBytes
        == (BELOW + (1 + late) * |ids|) * FRAME_MAX
  {
    hide Next, RunPipe, ValidId, Distinct, NewPipe, Opened, Arming, Filling, Enough, Opening, Sends, Waves, Grown;
    var n, size, p0 := |ids|, |f.content|, NewPipe(hasConsent, maxBytes, late);
    Fresh(hasConsent, maxBytes, late);
    AllOpen(p0, n, ids, f);
    var p1 := RunPipe(p0, n, Opening(ids, f));
    GrownIdle(p0, p1, Ids(ids));
    OpenOverflows(p1, n, ids, f.content);
    RunAppend(p0, n, Opening(ids, f),
              Arming(ids[0], size, late) + (Filling(ids, size) + (Sends(ids) + Waves(ids, late))));
  }

  lemma Fresh(hasConsent: bool, maxBytes: nat, late: nat)
    ensures var p := NewPipe(hasConsent, maxBytes, late);
            Idle(p) && p.chunkBytes == 0 && p.late == late && p.engine.outgoing == map[]
  {
  }

  lemma StillOpen(p: Pipe, q: Pipe, ids: seq<Id>, c: seq<byte>)
    requires ids != [] && Distinct(ids) && Armed(p, q, ids[0], p.late, (BELOW + p.late) * CHUNK_SIZE)
    requires forall id :: id in ids ==> Opened(p, id, c)
    ensures forall id :: id in ids[1..] ==> Opened(q, id, c)
  {
    IdsSplit(ids);
    forall id | id in ids[1..] ensures Opened(q, id, c) { assert id in Ids(ids[1..]) && Opened(p, id, c); }
  }

  // -- the exact bounds -----------------------------------------------------------------------------------

  function SomeFile(late: nat): File { File("", "", Enough(late), seq(Enough(late), _ => 0)) }

  /**
   * If at most `late` drain events can be under way at once, k frames above the high-water mark are enough for every
   * run of at most n sends exactly when k is at least (1 + late) * n: QueueIsBounded is tight.
   */
  lemma LateBoundIsExact(hasConsent: bool, maxBytes: nat, late: nat, ids: seq<Id>, k: nat)
    requires Distinct(ids) && forall id :: id in ids ==> ValidId(id)
    ensures (forall steps ::
               RunPipe(NewPipe(hasConsent, maxBytes, late), |ids|, steps).chunkBytes <= HIGH_WATER + k * FRAME_MAX)
            <==> k >= (1 + late) * |ids|
  {
    hide RunPipe, NewPipe, ValidId;
    var n, p := |ids|, NewPipe(hasConsent, maxBytes, late);
    if k >= (1 + late) * n {
      forall steps ensures RunPipe(p, n, steps).chunkBytes <= HIGH_WATER + k * FRAME_MAX {
        QueueIsBounded(hasConsent, maxBytes, late, n, steps);
        assert (1 + late) * n * FRAME_MAX <= k * FRAME_MAX;
      }
    } else {
      if n == 0 { assert false; }
      OvertakenQueues(hasConsent, maxBytes, late, ids, SomeFile(late));
      assert (BELOW + (1 + late) * n) * FRAME_MAX > HIGH_WATER + k * FRAME_MAX;
      hide SomeFile, Overtaken;
    }
  }

  /** In particular one frame per send is enough exactly when nothing is sent or no event comes late. */
  lemma LateEventOverflows(hasConsent: bool, maxBytes: nat, late: nat, ids: seq<Id>)
    requires Distinct(ids) && forall id :: id in ids ==> ValidId(id)
    ensures (forall steps ::
               RunPipe(NewPipe(hasConsent, maxBytes, late), |ids|, steps).chunkBytes
               <= HIGH_WATER + |ids| * FRAME_MAX)
            <==> |ids| == 0 || late == 0
  {
    hide RunPipe, NewPipe, ValidId, Distinct;
    LateBoundIsExact(hasConsent, maxBytes, late, ids, |ids|);
    assert late > 0 && |ids| > 0 ==> (1 + late) * |ids| > |ids|;
  }

  /** And if any number of events may be under way, no number of frames is enough, not even for one send. */
  lemma LateEventsHaveNoBound(hasConsent: bool, maxBytes: nat, ids: seq<Id>, k: nat)
    requires Distinct(ids) && forall id :: id in ids ==> ValidId(id)
    ensures (forall late, steps ::
               RunPipe(NewPipe(hasConsent, maxBytes, late), |ids|, steps).chunkBytes <= HIGH_WATER + k * FRAME_MAX)
            <==> |ids| == 0
  {
    hide RunPipe, NewPipe, ValidId, Distinct;
    if |ids| == 0 {
      forall late: nat ensures forall steps ::
          RunPipe(NewPipe(hasConsent, maxBytes, late), |ids|, steps).chunkBytes <= HIGH_WATER + k * FRAME_MAX {
        LateBoundIsExact(hasConsent, maxBytes, late, ids, k);
      }
    } else {
      LateBoundIsExact(hasConsent, maxBytes, k, ids, k);
      assert (1 + k) * |ids| > k;
    }
  }
}
