/**
 * Two transfer engines over one ordered channel that may lose its undelivered tail:
 * whatever file comes out at one end is, byte for byte, the file put in at the other.
 */
module TransferNet {
  import opened Common
  import opened ChunkCodec
  import opened Rechunk
  import opened TransferSpec
  import opened ReceiverInvariant
  import opened TransferViews

  // -- one transfer, seen at both ends ----------------------------------------

  /** The frames of a queue that concern `id`, in order. */
  function Proj(q: seq<Frame>, id: Id): seq<Frame> {
    if q == [] then [] else (if FrameId(q[0]) == Some(id) then [q[0]] else []) + Proj(q[1..], id)
  }

  /** The payload bytes of a transfer's frames. */
  function Inflight(p: seq<Frame>): seq<byte> {
    if p == [] then []
    else
      (if p[0].BinaryFrame? && Decode(p[0].data).Some? then Decode(p[0].data).value.payload else [])
      + Inflight(p[1..])
  }

  /**
   * One transfer: the file its sender was given, the sender's view of it, the frames about it still under way,
   * the receiver's view, the prompts open for it, the frames under way back, and the files emitted for it.
   */
  datatype Line = Line(
    file: Option<File>, o: Option<SendView>, p: seq<Frame>, alive: bool,
    r: Option<RecvView>, pr: set<nat>, bp: seq<Frame>, em: seq<ReceivedFile>)

  predicate NoStart(p: seq<Frame>) { forall i :: 0 <= i < |p| ==> !p[i].StartFrame? }
  predicate NoData(p: seq<Frame>) { forall i :: 0 <= i < |p| ==> !Data(p[i]) }
  predicate NoComplete(p: seq<Frame>) { forall i :: 0 <= i < |p| ==> !p[i].CompleteFrame? }

  /** A completion is the last word: nothing but control frames follows it. */
  predicate CompleteLast(p: seq<Frame>) { forall i, j :: 0 <= i < j < |p| && p[i].CompleteFrame? ==> !Data(p[j]) }

  /** At most one announcement, and it carries the file's own name, type and size. */
  predicate OneStart(p: seq<Frame>, id: Id, f: File) {
    && (forall i :: 0 <= i < |p| && p[i].StartFrame? ==> p[i] == StartOf(id, f))
    && (forall i, j :: 0 <= i < j < |p| && p[i].StartFrame? ==> !p[j].StartFrame?)
  }

  /** The receiver's human has said yes, or the receiver is done with the transfer. */
  predicate Opened(v: Line) { NoStart(v.p) && (v.r.Some? ==> v.r.value.accepted) }

  predicate SendOk(f: File, o: SendView) {
    o.file == f && o.bytes <= |f.content| && o.todo == f.content[o.bytes..] && (!o.started ==> o.bytes == 0)
  }

  predicate RecvOk(f: File, v: Line)
    requires v.r.Some?
  {
    var r := v.r.value;
    && r.name == f.name && r.mime == OrDefaultMime(f.mime) && r.size == f.size
    && (forall s :: s in v.pr ==> s == r.serial)
    && v.em == []
    && (!r.accepted ==> r.data == [])
    && (r.accepted ==> Piped(f, v, r.data + Inflight(v.p)))
  }

  /** Received plus under way: a prefix of the file, all of it once completion is announced. */
  predicate Piped(f: File, v: Line, d: seq<byte>) {
    && d <= f.content
    && (!NoComplete(v.p) ==> d == f.content)
    && (v.alive && v.o.Some? ==> d == f.content[..if v.o.value.bytes <= |f.content| then v.o.value.bytes else 0])
  }

  predicate EmittedOk(id: Id, f: File, v: Line) {
    v.em == [] || (v.r.None? && |v.em| == 1 && IsFile(id, f, v.em[0]))
  }

  /** The emitted file is the sent one. */
  predicate IsFile(id: Id, f: File, x: ReceivedFile) {
    x.id == id && x.name == f.name && x.mime == OrDefaultMime(f.mime) && x.data == f.content
        && |f.content| == f.size == x.size
  }

  /** What every run keeps about every transfer of one direction. */
  predicate Rel(id: Id, v: Line) {
    if v.file.None? then v.o.None? && v.r.None? && v.pr == {} && NoUse(v.p) && NoYes(v.bp) && v.em == []
    else
      var f := v.file.value;
      && (v.o.Some? ==> SendOk(f, v.o.value))
      && (v.o.Some? && v.o.value.started ==> Opened(v))
      && (!NoYes(v.bp) ==> Opened(v))
      && (!NoData(v.p) ==> Opened(v))
      && OneStart(v.p, id, f)
      && (!NoStart(v.p) ==> v.r.None? && v.pr == {} && v.em == [])
      && (v.r.Some? ==> RecvOk(f, v))
      && CompleteLast(v.p)
      && (!NoComplete(v.p) ==> v.o.None?)
      && EmittedOk(id, f, v)
  }

  // -- the queue ----------------------------------------------------------------

  lemma {:induction false} ProjAppend(q: seq<Frame>, f: Frame, id: Id)
    ensures Proj(q + [f], id) == Proj(q, id) + (if FrameId(f) == Some(id) then [f] else [])
  {
    hide FrameId;
    if q == [] {
      assert q + [f] == [f] && [f][1..] == [];
    } else {
      var first := if FrameId(q[0]) == Some(id) then [q[0]] else [];
      var tail := Proj(q[1..], id);
      assert (q + [f])[1..] == q[1..] + [f] && (q + [f])[0] == q[0];
      ProjAppend(q[1..], f, id);
      assert Proj(q + [f], id) == first + Proj(q[1..] + [f], id);
      assert Proj(q, id) == first + tail;
      hide Proj;
    }
  }

  lemma ProjSent(q: seq<Frame>, sent: seq<Frame>, id: Id)
    requires |sent| <= 1
    ensures Proj(q + sent, id) == Proj(q, id) + Of(sent, id)
  {
    if sent == [] {
      assert q + sent == q;
    } else {
      assert sent == [sent[0]];
      ProjAppend(q, sent[0], id);
    }
  }

  lemma {:induction false} ProjPrefix(q: seq<Frame>, k: nat, id: Id)
    requires k <= |q|
    ensures Proj(q[..k], id) <= Proj(q, id)
  {
    hide FrameId;
    if k > 0 {
      assert q[..k][0] == q[0] && q[..k][1..] == q[1..][..k - 1];
      ProjPrefix(q[1..], k - 1, id);
    }
  }

  lemma {:induction false} ProjIds(q: seq<Frame>, id: Id)
    ensures forall i :: 0 <= i < |Proj(q, id)| ==> FrameId(Proj(q, id)[i]) == Some(id)
  {
    hide FrameId;
    if q != [] {
      ProjIds(q[1..], id);
    }
  }

  lemma {:induction false} InflightAppend(p: seq<Frame>, s: seq<Frame>)
    ensures Inflight(p + s) == Inflight(p) + Inflight(s)
  {
    hide ChunkCodec.Decode;
    if p == [] {
      assert p + s == s;
    } else {
      assert (p + s)[1..] == p[1..] + s;
      InflightAppend(p[1..], s);
    }
  }

  lemma InflightOne(f: Frame)
    ensures Inflight([f]) == if f.BinaryFrame? && Decode(f.data).Some? then Decode(f.data).value.payload else []
  {
    assert [f][1..] == [];
  }

  lemma {:induction false} InflightQuiet(p: seq<Frame>)
    requires NoData(p)
    ensures Inflight(p) == []
  {
    if p != [] {
      forall i | 0 <= i < |p[1..]| ensures !Data(p[1..][i]) { assert p[1..][i] == p[i + 1]; }
      InflightQuiet(p[1..]);
    }
  }

  /** A queue cut short carries a prefix of the payload, and all of it if the completion survived. */
  lemma InflightPrefix(p: seq<Frame>, p': seq<Frame>)
    requires p' <= p && CompleteLast(p)
    ensures Inflight(p') <= Inflight(p)
    ensures !NoComplete(p') ==> Inflight(p') == Inflight(p)
  {
    var rest := p[|p'|..];
    assert p == p' + rest;
    InflightAppend(p', rest);
    if i :| 0 <= i < |p'| && p'[i].CompleteFrame? {
      forall j | 0 <= j < |rest| ensures !Data(rest[j]) {
        assert p[i].CompleteFrame? && rest[j] == p[|p'| + j];
      }
      InflightQuiet(rest);
    }
  }

  /** Control frames change nothing that the relation reads. */
  lemma QuietAppend(p: seq<Frame>, s: seq<Frame>, id: Id, f: File)
    requires NoUse(s)
    ensures NoStart(p + s) == NoStart(p) && NoData(p + s) == NoData(p) && NoComplete(p + s) == NoComplete(p)
    ensures CompleteLast(p) ==> CompleteLast(p + s)
    ensures OneStart(p, id, f) ==> OneStart(p + s, id, f)
    ensures Inflight(p + s) == Inflight(p)
  {
    InflightAppend(p, s);
    InflightQuiet(s);
    forall i | 0 <= i < |p| ensures p[i] == (p + s)[i] {}
  }

  /** A chunk after an opened, uncompleted stream. */
  lemma ChunkAppend(p: seq<Frame>, x: Frame, id: Id, f: File)
    requires x.BinaryFrame?
    ensures NoStart(p + [x]) == NoStart(p) && NoComplete(p + [x]) == NoComplete(p)
    ensures NoComplete(p) ==> CompleteLast(p + [x])
    ensures OneStart(p, id, f) ==> OneStart(p + [x], id, f)
  {
    forall i | 0 <= i < |p| ensures p[i] == (p + [x])[i] {}
  }

  lemma YesPop(bp: seq<Frame>, bp': seq<Frame>)
    requires bp' == bp || (bp != [] && bp' == bp[1..])
    ensures NoYes(bp) ==> NoYes(bp')
  {
    forall i | 0 <= i < |bp'| ensures NoYes(bp) ==> !IsYes(bp'[i]) {
      assert bp'[i] == bp[i] || bp'[i] == bp[i + 1];
    }
  }

  // -- moves of the sender keep the relation ------------------------------------

  ghost predicate SendStep(id: Id, v: Line, v': Line, s: seq<Frame>, ev: Event) {
    && SendMove(id, v.o, v'.o, s, ev)
    && (if ev.SendFile? && ev.id == id then v.file.None? && v'.file == Some(ev.file) else v'.file == v.file)
    && v'.p == (if v.alive then v.p + s else v.p)
    && v'.alive == v.alive && v'.r == v.r && v'.pr == v.pr && v'.em == v.em
    && (v'.bp == v.bp || (v.bp != [] && v'.bp == v.bp[1..]))
    && (ev == Deliver(AcceptFrame(id, true)) ==> v.bp != [] && v.bp[0] == AcceptFrame(id, true))
  }

  lemma SendQuietKeeps(id: Id, v: Line, v': Line, s: seq<Frame>, ev: Event)
    requires Rel(id, v) && SendStep(id, v, v', s, ev) && NoUse(s)
    requires v'.o == v.o || v'.o.None?
        || (v.o.Some? && v'.o == Some(v.o.value.(started := true)) && ev == Deliver(AcceptFrame(id, true)))
    ensures Rel(id, v')
  {
    var f := if v.file.Some? then v.file.value else if ev.SendFile? then ev.file else File("", "", 0, []);
    QuietAppend(v.p, s, id, f);
    hide Inflight, StartOf, IsFile, OrDefaultMime, ChunkCodec.Decode;
    if ev == Deliver(AcceptFrame(id, true)) {
      assert !NoYes(v.bp) by { assert IsYes(v.bp[0]); }
    }
    YesPop(v.bp, v'.bp);
  }

  lemma SendStartKeeps(id: Id, v: Line, v': Line, s: seq<Frame>, ev: Event)
    requires Rel(id, v) && SendStep(id, v, v', s, ev) && v.o.None? && v'.o.Some?
    ensures Rel(id, v')
  {
    assert v.file.None?;
    YesPop(v.bp, v'.bp);
    forall i | 0 <= i < |v'.p| ensures !Data(v'.p[i])
        && (v'.p[i].StartFrame? ==> i == |v.p| && v'.p[i] == StartOf(id, ev.file)) {
      assert i < |v.p| ==> v'.p[i] == v.p[i];
    }
  }

  lemma FinishAppend(p: seq<Frame>, id: Id, f: File)
    requires NoStart(p) && NoComplete(p) && CompleteLast(p)
    ensures NoStart(p + [CompleteFrame(id)]) && OneStart(p + [CompleteFrame(id)], id, f)
        && CompleteLast(p + [CompleteFrame(id)])
    ensures Inflight(p + [CompleteFrame(id)]) == Inflight(p)
  {
    InflightAppend(p, [CompleteFrame(id)]);
    InflightOne(CompleteFrame(id));
    hide Inflight, StartOf;
  }

  lemma SendFinishKeeps(id: Id, v: Line, v': Line, s: seq<Frame>, ev: Event)
    requires Rel(id, v) && SendStep(id, v, v', s, ev)
    requires v.o.Some? && v'.o.None? && s == [CompleteFrame(id)] && v.o.value.todo == [] && v.o.value.started
    ensures Rel(id, v')
  {
    var f := v.file.value;
    assert f.content[..v.o.value.bytes] == f.content;
    FinishAppend(v.p, id, f);
    YesPop(v.bp, v'.bp);
    hide Inflight; hide StartOf; hide SendMove; hide IsFile; hide OrDefaultMime; hide IsYes; hide OneStart;
    hide CompleteLast; hide NoStart;
  }

  lemma CutContent(c: seq<byte>, i: nat, k: nat)
    requires i + k <= |c|
    ensures c[i..][k..] == c[i + k..] && c[..i] + c[i..][..k] == c[..i + k]
  {
  }

  lemma DataMore(c: seq<byte>, d: seq<byte>, inflight: seq<byte>, i: nat, k: nat)
    requires i + k <= |c| && d + inflight == c[..i]
    ensures d + (inflight + c[i..][..k]) == c[..i + k]
  {
    CutContent(c, i, k);
    assert d + (inflight + c[i..][..k]) == (d + inflight) + c[i..][..k];
  }

  lemma PipeMore(id: Id, f: File, v: Line, v': Line, s: seq<Frame>, d: seq<byte>)
    requires v.o.Some? && SendOk(f, v.o.value) && Piped(f, v, d + Inflight(v.p))
    requires v'.o.Some? && ChunkMove(id, v.o.value, v'.o.value, s) && NoComplete(v'.p) && NoComplete(v.p)
    requires v'.alive == v.alive && v'.p == if v.alive then v.p + s else v.p
    ensures Piped(f, v', d + Inflight(v'.p))
  {
    var o, n := v.o.value, v'.o.value;
    if v.alive {
      PayloadSent(id, o, n, s, v.p);
      DataMore(f.content, d, Inflight(v.p), o.bytes, n.bytes - o.bytes);
    }
    hide Inflight, ChunkCodec.Decode, NoComplete;
  }

  lemma PayloadSent(id: Id, o: SendView, n: SendView, s: seq<Frame>, p: seq<Frame>)
    requires ChunkMove(id, o, n, s)
    ensures o.bytes <= n.bytes && n.bytes - o.bytes <= |o.todo|
        && Inflight(p + s) == Inflight(p) + o.todo[..n.bytes - o.bytes]
  {
    assert s == [s[0]];
    InflightAppend(p, s);
    InflightOne(s[0]);
    hide Inflight, ChunkCodec.Decode;
  }

  lemma SendChunkPiped(id: Id, v: Line, v': Line, s: seq<Frame>, ev: Event)
    requires Rel(id, v) && SendStep(id, v, v', s, ev)
    requires v.o.Some? && v'.o.Some? && v.o.value.started && ChunkMove(id, v.o.value, v'.o.value, s)
    requires v.r.Some? && NoComplete(v'.p) && NoComplete(v.p)
    ensures RecvOk(v.file.value, v')
  {
    PipeMore(id, v.file.value, v, v', s, v.r.value.data);
    hide Inflight, ChunkCodec.Decode, StartOf, SendMove, IsFile, OrDefaultMime, OneStart, CompleteLast, NoStart,
        NoYes, Piped, ChunkMove;
  }

  lemma SendChunkKeeps(id: Id, v: Line, v': Line, s: seq<Frame>, ev: Event)
    requires Rel(id, v) && SendStep(id, v, v', s, ev)
    requires v.o.Some? && v'.o.Some? && v.o.value.started && ChunkMove(id, v.o.value, v'.o.value, s)
    ensures Rel(id, v')
  {
    var f, o, n := v.file.value, v.o.value, v'.o.value;
    CutContent(f.content, o.bytes, n.bytes - o.bytes);
    ChunkAppend(v.p, s[0], id, f);
    YesPop(v.bp, v'.bp);
    assert s == [s[0]];
    if v.r.Some? { SendChunkPiped(id, v, v', s, ev); }
    hide Inflight, ChunkCodec.Decode, StartOf, SendMove, IsFile, OrDefaultMime, OneStart, CompleteLast, NoStart,
        NoYes, NoComplete, NoData, RecvOk;
  }

  /** Whatever the sender does to one transfer keeps the relation. */
  lemma SendKeeps(id: Id, v: Line, v': Line, s: seq<Frame>, ev: Event)
    requires Rel(id, v) && SendStep(id, v, v', s, ev)
    ensures Rel(id, v')
  {
    if v.o.None? && v'.o.Some? {
      SendStartKeeps(id, v, v', s, ev);
    } else if v.o.Some? && v'.o.None? && !NoUse(s) {
      SendFinishKeeps(id, v, v', s, ev);
    } else if v.o.Some? && v'.o.Some? && v.o.value.started && ChunkMove(id, v.o.value, v'.o.value, s) {
      SendChunkKeeps(id, v, v', s, ev);
    } else {
      hide Rel;
      SendQuietKeeps(id, v, v', s, ev);
    }
  }

  // -- moves of the receiver keep the relation ----------------------------------

  ghost predicate RecvStep(id: Id, v: Line, v': Line, s: seq<Frame>, files: seq<ReceivedFile>, ev: Event,
      backAlive: bool) {
    && RecvMove(id, v.r, v'.r, v.pr, v'.pr, s, files, ev)
    && (if ev.Deliver? && FrameId(ev.frame) == Some(id) then v.p != [] && v.p[0] == ev.frame && v'.p == v.p[1..]
        else v'.p == v.p)
    && v'.alive == v.alive && v'.o == v.o && v'.file == v.file && v'.em == v.em + files
    && v'.bp == (if backAlive then v.bp + s else v.bp)
  }

  lemma PopFacts(p: seq<Frame>, id: Id, f: File)
    requires p != []
    ensures NoStart(p) ==> NoStart(p[1..])
    ensures NoData(p) ==> NoData(p[1..])
    ensures NoComplete(p) ==> NoComplete(p[1..])
    ensures CompleteLast(p) ==> CompleteLast(p[1..])
    ensures OneStart(p, id, f) ==> OneStart(p[1..], id, f)
    ensures OneStart(p, id, f) && p[0].StartFrame? ==> NoStart(p[1..])
    ensures !p[0].StartFrame? && NoStart(p[1..]) ==> NoStart(p)
    ensures !p[0].CompleteFrame? && NoComplete(p[1..]) ==> NoComplete(p)
    ensures CompleteLast(p) && p[0].CompleteFrame? ==> NoData(p[1..]) && NoComplete(p[1..])
    ensures !p[0].BinaryFrame? ==> Inflight(p) == Inflight(p[1..])
  {
    hide ChunkCodec.Decode;
    forall i | 0 <= i < |p[1..]| ensures p[1..][i] == p[i + 1] {}
    forall i | 0 < i < |p| ensures p[i] == p[1..][i - 1] {}
    assert [] + Inflight(p[1..]) == Inflight(p[1..]);
  }

  lemma YesAppend(bp: seq<Frame>, s: seq<Frame>)
    ensures NoYes(bp + s) <==> NoYes(bp) && NoYes(s)
  {
    if NoYes(bp + s) {
      forall i | 0 <= i < |bp| ensures !IsYes(bp[i]) { assert bp[i] == (bp + s)[i]; }
      forall i | 0 <= i < |s| ensures !IsYes(s[i]) { assert s[i] == (bp + s)[|bp| + i]; }
    }
  }

  lemma RecvOfferKeeps(id: Id, v: Line, v': Line, s: seq<Frame>, files: seq<ReceivedFile>, ev: Event, backAlive: bool)
    requires Rel(id, v) && RecvStep(id, v, v', s, files, ev, backAlive) && v.r.None? && v'.r.Some?
    ensures Rel(id, v')
  {
    assert v.p[0].StartFrame?;
    assert v.file.Some?;
    PopFacts(v.p, id, v.file.value);
    YesAppend(v.bp, s);
    assert NoYes(v.bp) && NoData(v.p);
    hide Inflight;
  }

  lemma RecvChunkPiped(id: Id, v: Line, v': Line, s: seq<Frame>, files: seq<ReceivedFile>, ev: Event, backAlive: bool)
    requires Rel(id, v) && RecvStep(id, v, v', s, files, ev, backAlive)
    requires v.r.Some? && v'.r.Some? && ev.Deliver? && ev.frame.BinaryFrame? && FrameId(ev.frame) == Some(id)
    ensures v.file.Some? && RecvOk(v.file.value, v') && NoYes(v'.bp) == (NoYes(v.bp) && NoYes(s)) && v'.em == v.em
        && Opened(v)
  {
    PopFacts(v.p, id, v.file.value);
    YesAppend(v.bp, s);
    assert Data(v.p[0]);
    var payload := Decode(ev.frame.data).value.payload;
    var d := v.r.value.data;
    assert Inflight(v.p) == payload + Inflight(v.p[1..]);
    assert d + (payload + Inflight(v.p[1..])) == d + payload + Inflight(v.p[1..]);
    hide Inflight; hide ChunkCodec.Decode; hide StartOf; hide IsFile; hide OrDefaultMime; hide SendOk;
    assert v'.em == v.em;
  }

  lemma RecvChunkKeeps(id: Id, v: Line, v': Line, s: seq<Frame>, files: seq<ReceivedFile>, ev: Event, backAlive: bool)
    requires Rel(id, v) && RecvStep(id, v, v', s, files, ev, backAlive)
    requires v.r.Some? && v'.r.Some? && ev.Deliver? && ev.frame.BinaryFrame? && FrameId(ev.frame) == Some(id)
    ensures Rel(id, v')
  {
    RecvChunkPiped(id, v, v', s, files, ev, backAlive);
    PopFacts(v.p, id, v.file.value);
    assert v'.r.value.accepted;
    hide Inflight; hide ChunkCodec.Decode; hide StartOf; hide IsFile; hide OrDefaultMime; hide SendOk; hide RecvOk;
    hide NoYes; hide NoData; hide NoComplete; hide CompleteLast; hide OneStart;
  }

  lemma RecvCompleteKeeps(id: Id, v: Line, v': Line, s: seq<Frame>, files: seq<ReceivedFile>, ev: Event,
      backAlive: bool)
    requires Rel(id, v) && RecvStep(id, v, v', s, files, ev, backAlive)
    requires v.r.Some? && v'.r.None? && files != []
    ensures Rel(id, v')
    ensures v'.em == [AsFile(id, v.r.value)] && IsFile(id, v.file.value, v'.em[0])
  {
    var f := v.file.value;
    PopFacts(v.p, id, f);
    YesAppend(v.bp, s);
    assert Data(v.p[0]) && v.p[0].CompleteFrame?;
    InflightQuiet(v.p[1..]);
    hide Inflight;
    assert v.r.value.data + [] == v.r.value.data;
    assert v'.em == files;
  }

  lemma RecvQuietKeeps(id: Id, v: Line, v': Line, s: seq<Frame>, files: seq<ReceivedFile>, ev: Event, backAlive: bool)
    requires Rel(id, v) && RecvStep(id, v, v', s, files, ev, backAlive) && files == []
    requires v.r.None? ==> v'.r.None?
    requires v.r.Some? && v'.r.Some? ==> !(ev.Deliver? && ev.frame.BinaryFrame? && FrameId(ev.frame) == Some(id))
    ensures Rel(id, v')
  {
    YesAppend(v.bp, s);
    assert v'.em == v.em;
    if v'.p == v.p {
      if v.r.Some? && !v.r.value.accepted {
        InflightQuiet(v.p);
      }
      hide Inflight;
    } else {
      var f := if v.file.Some? then v.file.value else File("", "", 0, []);
      PopFacts(v.p, id, f);
      if v.r.Some? && !v.r.value.accepted && NoData(v.p) {
        InflightQuiet(v.p);
      }
      hide Inflight;
      forall i | 0 <= i < |v'.p| ensures v'.p[i] == v.p[i + 1] {}
    }
  }

  /** Whatever the receiver does to one transfer keeps the relation, and what it emits is the file. */
  lemma RecvKeeps(id: Id, v: Line, v': Line, s: seq<Frame>, files: seq<ReceivedFile>, ev: Event, backAlive: bool)
    requires Rel(id, v) && RecvStep(id, v, v', s, files, ev, backAlive)
    ensures Rel(id, v')
  {
    if v.r.None? && v'.r.Some? {
      RecvOfferKeeps(id, v, v', s, files, ev, backAlive);
    } else if v.r.Some? && v'.r.Some? && ev.Deliver? && ev.frame.BinaryFrame? && FrameId(ev.frame) == Some(id) {
      RecvChunkKeeps(id, v, v', s, files, ev, backAlive);
    } else if v.r.Some? && v'.r.None? && files != [] {
      RecvCompleteKeeps(id, v, v', s, files, ev, backAlive);
    } else {
      hide Rel;
      RecvQuietKeeps(id, v, v', s, files, ev, backAlive);
    }
  }

  /** Losing the undelivered tail of either queue keeps the relation. */
  lemma LossKeeps(id: Id, v: Line, v': Line)
    requires Rel(id, v)
    requires v'.p <= v.p && v'.bp <= v.bp && ((v'.p == v.p && v'.alive == v.alive) || !v'.alive)
    requires v' == v.(p := v'.p, bp := v'.bp, alive := v'.alive)
    ensures Rel(id, v')
  {
    forall i | 0 <= i < |v'.p| ensures v'.p[i] == v.p[i] {}
    forall i | 0 <= i < |v'.bp| ensures v'.bp[i] == v.bp[i] {}
    if v.file.Some? {
      InflightPrefix(v.p, v'.p);
    }
    hide Inflight;
  }

  // -- two engines and their channel ----------------------------------------------

  datatype Link = Link(q: seq<Frame>, alive: bool)

  /** An engine, the files its sendFile was given, and the files it has emitted. */
  datatype Node = Node(engine: Engine, files: map<Id, File>, got: seq<ReceivedFile>)

  datatype Net = Net(a: Node, b: Node, ab: Link, ba: Link)

  /** A local step, the arrival of the next frame, or the loss of whatever the actor's queue holds beyond k. */
  datatype Act = Local(ev: Event, env: Env) | Arrive(env: Env) | LoseTail(k: nat)

  function Push(l: Link, sent: seq<Frame>): Link {
    if l.alive then l.(q := l.q + sent) else l
  }

  /** The id factory never repeats an id, on either side. */
  predicate Fresh(n: Net, ev: Event) {
    ev.SendFile? ==> ev.id !in n.a.files && ev.id !in n.b.files
  }

  function ActA(n: Net, act: Act): Net {
    match act
    case Local(ev, env) =>
      if ev.Deliver? || !Fresh(n, ev) then n
      else
        var r := Step(n.a.engine, ev, env);
        var files := if ev.SendFile? then n.a.files[ev.id := ev.file] else n.a.files;
        n.(a := Node(r.engine, files, n.a.got + r.files), ab := Push(n.ab, r.sent))
    case Arrive(env) =>
      if n.ba.q == [] then n
      else
        var r := Step(n.a.engine, Deliver(n.ba.q[0]), env);
        n.(a := Node(r.engine, n.a.files, n.a.got + r.files), ab := Push(n.ab, r.sent), ba := n.ba.(q := n.ba.q[1..]))
    case LoseTail(k) =>
      if k <= |n.ab.q| then n.(ab := Link(n.ab.q[..k], false)) else n
  }

  function Swap(n: Net): Net { Net(n.b, n.a, n.ba, n.ab) }

  function ActOn(n: Net, left: bool, act: Act): Net {
    if left then ActA(n, act) else Swap(ActA(Swap(n), act))
  }

  function RunNet(n: Net, acts: seq<(bool, Act)>): Net
    decreases |acts|
  {
    if acts == [] then n else RunNet(ActOn(n, acts[0].0, acts[0].1), acts[1..])
  }

  /** Two fresh engines, each with its own consent handler and memory ceiling. */
  function NewNet(a: Engine, b: Engine): Net {
    Net(Node(a, map[], []), Node(b, map[], []), Link([], true), Link([], true))
  }

  predicate IsNew(e: Engine) { e == NewEngine(e.hasConsent, e.maxBytes) }

  // -- the invariant ------------------------------------------------------------

  function EmittedFor(got: seq<ReceivedFile>, id: Id): seq<ReceivedFile> {
    if got == [] then [] else (if got[0].id == id then [got[0]] else []) + EmittedFor(got[1..], id)
  }

  /** The transfer `id` from the left engine to the right one. */
  function LineOf(n: Net, id: Id): Line {
    Line(if id in n.a.files then Some(n.a.files[id]) else None,
         SV(n.a.engine, id), Proj(n.ab.q, id), n.ab.alive,
         RV(n.b.engine, id), Prompts(n.b.engine, id), Proj(n.ba.q, id), EmittedFor(n.b.got, id))
  }

  ghost predicate LeftToRight(n: Net) { forall id :: Rel(id, LineOf(n, id)) }

  ghost predicate NetInv(n: Net) {
    && ReceiverInv(n.a.engine) && SenderInv(n.a.engine)
    && ReceiverInv(n.b.engine) && SenderInv(n.b.engine)
    && n.a.files.Keys !! n.b.files.Keys
    && LeftToRight(n) && LeftToRight(Swap(n))
  }

  lemma {:induction false} EmittedAppend(got: seq<ReceivedFile>, f: ReceivedFile, id: Id)
    ensures EmittedFor(got + [f], id) == EmittedFor(got, id) + (if f.id == id then [f] else [])
  {
    if got == [] {
      assert got + [f] == [f] && [f][1..] == [];
    } else {
      var first := if got[0].id == id then [got[0]] else [];
      var tail := EmittedFor(got[1..], id);
      assert (got + [f])[1..] == got[1..] + [f] && (got + [f])[0] == got[0];
      EmittedAppend(got[1..], f, id);
      assert EmittedFor(got + [f], id) == first + EmittedFor(got[1..] + [f], id);
      assert EmittedFor(got, id) == first + tail;
      hide EmittedFor;
    }
  }

  lemma EmittedSent(got: seq<ReceivedFile>, files: seq<ReceivedFile>, id: Id)
    requires |files| <= 1
    ensures EmittedFor(got + files, id) == EmittedFor(got, id) + FilesOf(files, id)
  {
    if files == [] {
      assert got + files == got;
    } else {
      assert files == [files[0]];
      EmittedAppend(got, files[0], id);
    }
  }

  /** The part of a step that the left engine's own direction and the opposite one both need. */
  lemma ActorMoves(n: Net, ev: Event, env: Env, id: Id)
    requires NetInv(n) && Fresh(n, ev)
    ensures var e, r := n.a.engine, Step(n.a.engine, ev, env);
            && ReceiverInv(r.engine) && SenderInv(r.engine) && |r.sent| <= 1 && |r.files| <= 1
            && SendMove(id, SV(e, id), SV(r.engine, id), Of(r.sent, id), ev)
            && RecvMove(id, RV(e, id), RV(r.engine, id), Prompts(e, id), Prompts(r.engine, id), Of(r.sent, id),
                FilesOf(r.files, id), ev)
  {
    var e := n.a.engine;
    if ev.SendFile? {
      assert Rel(ev.id, LineOf(n, ev.id));
    }
    assert Rel(id, LineOf(n, id));
    assert Rel(id, LineOf(Swap(n), id));
    hide Proj; hide Inflight; hide Step; hide EmittedFor;
    if id in e.incoming {
      assert RV(e, id).Some?;
      assert id in n.b.files && id !in n.a.files;
      assert SV(e, id).None?;
      forall s | s in e.prompts && e.prompts[s].id == id ensures s == e.incoming[id].rec.serial {
        assert s in Prompts(e, id);
      }
    }
    StepMoves(e, ev, env, id);
  }

  lemma LocalSends(n: Net, ev: Event, env: Env, id: Id)
    requires NetInv(n) && !ev.Deliver? && Fresh(n, ev)
    ensures Rel(id, LineOf(ActA(n, Local(ev, env)), id))
  {
    hide Step;
    var r := Step(n.a.engine, ev, env);
    var n' := ActA(n, Local(ev, env));
    ActorMoves(n, ev, env, id);
    assert Rel(id, LineOf(n, id));
    ProjSent(n.ab.q, r.sent, id);
    hide Proj; hide SV; hide RV; hide Prompts; hide EmittedFor; hide Rel; hide SendMove; hide RecvMove; hide Of;
    hide FilesOf;
    SendKeeps(id, LineOf(n, id), LineOf(n', id), Of(r.sent, id), ev);
  }

  lemma LocalReceives(n: Net, ev: Event, env: Env, id: Id)
    requires NetInv(n) && !ev.Deliver? && Fresh(n, ev)
    ensures Rel(id, LineOf(Swap(ActA(n, Local(ev, env))), id))
  {
    var r := Step(n.a.engine, ev, env);
    var n' := ActA(n, Local(ev, env));
    ActorMoves(n, ev, env, id);
    assert Rel(id, LineOf(Swap(n), id));
    ProjSent(n.ab.q, r.sent, id);
    EmittedSent(n.a.got, r.files, id);
    hide Proj; hide Step; hide SV; hide RV; hide Prompts; hide EmittedFor; hide Rel; hide SendMove; hide RecvMove;
    hide Of; hide FilesOf;
    RecvKeeps(id, LineOf(Swap(n), id), LineOf(Swap(n'), id), Of(r.sent, id), FilesOf(r.files, id), ev, n.ab.alive);
  }

  lemma LocalKeepsOne(n: Net, ev: Event, env: Env, id: Id)
    requires NetInv(n) && !ev.Deliver? && Fresh(n, ev)
    ensures var n' := ActA(n, Local(ev, env)); Rel(id, LineOf(n', id)) && Rel(id, LineOf(Swap(n'), id))
  {
    LocalSends(n, ev, env, id);
    LocalReceives(n, ev, env, id);
    hide Rel; hide LineOf; hide ActA; hide NetInv;
  }

  lemma ReceiveKeepsOne(n: Net, env: Env, id: Id)
    requires NetInv(n) && n.ba.q != []
    ensures var n' := ActA(n, Arrive(env)); Rel(id, LineOf(n', id)) && Rel(id, LineOf(Swap(n'), id))
  {
    var f := n.ba.q[0];
    var ev := Deliver(f);
    var r := Step(n.a.engine, ev, env);
    var n' := ActA(n, Arrive(env));
    ActorMoves(n, ev, env, id);
    var v, v', w, w' := LineOf(n, id), LineOf(n', id), LineOf(Swap(n), id), LineOf(Swap(n'), id);
    assert Rel(id, v) && Rel(id, w);
    ProjSent(n.ab.q, r.sent, id);
    EmittedSent(n.a.got, r.files, id);
    assert Proj(n.ba.q, id) == (if FrameId(f) == Some(id) then [f] else []) + Proj(n.ba.q[1..], id);
    if FrameId(f) == Some(id) {
      assert Proj(n.ba.q, id)[1..] == Proj(n.ba.q[1..], id);
    } else {
      assert Proj(n.ba.q, id) == Proj(n.ba.q[1..], id);
    }
    hide Proj; hide Step; hide SV; hide RV; hide Prompts; hide EmittedFor; hide Rel; hide SendMove; hide RecvMove;
    hide Of; hide FilesOf;
    assert SendStep(id, v, v', Of(r.sent, id), ev);
    SendKeeps(id, v, v', Of(r.sent, id), ev);
    assert RecvStep(id, w, w', Of(r.sent, id), FilesOf(r.files, id), ev, n.ab.alive);
    RecvKeeps(id, w, w', Of(r.sent, id), FilesOf(r.files, id), ev, n.ab.alive);
  }

  lemma LoseKeepsOne(n: Net, k: nat, id: Id)
    requires NetInv(n) && k <= |n.ab.q|
    ensures var n' := ActA(n, LoseTail(k)); Rel(id, LineOf(n', id)) && Rel(id, LineOf(Swap(n'), id))
  {
    var n' := ActA(n, LoseTail(k));
    ProjPrefix(n.ab.q, k, id);
    assert Rel(id, LineOf(n, id)) && Rel(id, LineOf(Swap(n), id));
    hide Proj; hide SV; hide RV; hide Prompts; hide EmittedFor; hide Rel;
    LossKeeps(id, LineOf(n, id), LineOf(n', id));
    LossKeeps(id, LineOf(Swap(n), id), LineOf(Swap(n'), id));
  }

  lemma ActAKeeps(n: Net, act: Act)
    requires NetInv(n)
    ensures NetInv(ActA(n, act))
  {
    var n' := ActA(n, act);
    if act.Local? && !act.ev.Deliver? && Fresh(n, act.ev) {
      ActorMoves(n, act.ev, act.env, "");
    } else if act.Arrive? && n.ba.q != [] {
      ActorMoves(n, Deliver(n.ba.q[0]), act.env, "");
    }
    hide Rel; hide Step; hide LineOf; hide ReceiverInv; hide SenderInv; hide SendMove; hide RecvMove;
    if n' != n {
      forall id ensures Rel(id, LineOf(n', id)) && Rel(id, LineOf(Swap(n'), id)) {
        match act
        case Local(ev, env) => LocalKeepsOne(n, ev, env, id);
        case Arrive(env) => ReceiveKeepsOne(n, env, id);
        case LoseTail(k) => LoseKeepsOne(n, k, id);
      }
    }
  }

  /** Every act at either end keeps the invariant. */
  lemma ActKeeps(n: Net, left: bool, act: Act)
    requires NetInv(n)
    ensures NetInv(ActOn(n, left, act))
  {
    hide Rel; hide ActA;
    assert Swap(Swap(n)) == n;
    if left {
      ActAKeeps(n, act);
    } else {
      ActAKeeps(Swap(n), act);
      assert Swap(Swap(ActA(Swap(n), act))) == ActA(Swap(n), act);
    }
  }

  lemma {:induction false} RunKeeps(n: Net, acts: seq<(bool, Act)>)
    requires NetInv(n)
    ensures NetInv(RunNet(n, acts))
    decreases |acts|
  {
    if acts != [] {
      hide NetInv; hide ActOn;
      ActKeeps(n, acts[0].0, acts[0].1);
      RunKeeps(ActOn(n, acts[0].0, acts[0].1), acts[1..]);
    }
  }

  lemma NewNetOk(a: Engine, b: Engine)
    requires IsNew(a) && IsNew(b)
    ensures NetInv(NewNet(a, b))
  {
  }

  // -- what every run guarantees ------------------------------------------------

  lemma {:induction false} EmittedHas(got: seq<ReceivedFile>, k: nat)
    requires k < |got|
    ensures got[k] in EmittedFor(got, got[k].id)
    ensures forall j :: 0 <= j < |got| && j != k && got[j].id == got[k].id ==> |EmittedFor(got, got[k].id)| >= 2
  {
    var id := got[k].id;
    EmittedLength(got, id, k);
    if k == 0 {
      if j :| 0 < j < |got| && got[j].id == id {
        EmittedLength(got[1..], id, j - 1);
      }
    } else {
      EmittedHas(got[1..], k - 1);
      forall j | 0 <= j < |got| && j != k && got[j].id == id ensures |EmittedFor(got, id)| >= 2 {
        if j > 0 {
          assert got[1..][j - 1].id == id;
        }
      }
    }
  }

  lemma {:induction false} EmittedLength(got: seq<ReceivedFile>, id: Id, k: nat)
    requires k < |got| && got[k].id == id
    ensures |EmittedFor(got, id)| >= 1
  {
    if k > 0 {
      EmittedLength(got[1..], id, k - 1);
    }
  }

  /** Files at the right-hand end, in any state that satisfies the invariant. */
  lemma RightFilesAreSent(n: Net)
    requires NetInv(n)
    ensures forall k :: 0 <= k < |n.b.got| ==>
        n.b.got[k].id in n.a.files
        && IsFile(n.b.got[k].id, n.a.files[n.b.got[k].id], n.b.got[k])
    ensures forall j, k :: 0 <= j < k < |n.b.got| ==> n.b.got[j].id != n.b.got[k].id
  {
    forall k | 0 <= k < |n.b.got|
      ensures n.b.got[k].id in n.a.files && IsFile(n.b.got[k].id, n.a.files[n.b.got[k].id], n.b.got[k])
      ensures forall j :: 0 <= j < |n.b.got| && j != k ==> n.b.got[j].id != n.b.got[k].id
    {
      var id := n.b.got[k].id;
      EmittedHas(n.b.got, k);
      assert Rel(id, LineOf(n, id));
      hide Proj; hide Inflight; hide SV; hide RV;
    }
  }

  /**
   * Delivery. In every run of two fresh engines, with any number of transfers both ways, refusals, cancels,
   * closes, failed writes and lost tails: each emitted file carries an id the other side's sendFile used,
   * with exactly that file's name, type, size and bytes, and no id is emitted twice.
   */
  lemma EmittedFilesAreTheSentFiles(a: Engine, b: Engine, acts: seq<(bool, Act)>)
    requires IsNew(a) && IsNew(b)
    ensures var n := RunNet(NewNet(a, b), acts);
            && (forall k :: 0 <= k < |n.b.got| ==>
                  n.b.got[k].id in n.a.files && IsFile(n.b.got[k].id, n.a.files[n.b.got[k].id], n.b.got[k]))
            && (forall k :: 0 <= k < |n.a.got| ==>
                  n.a.got[k].id in n.b.files && IsFile(n.a.got[k].id, n.b.files[n.a.got[k].id], n.a.got[k]))
            && (forall j, k :: 0 <= j < k < |n.b.got| ==> n.b.got[j].id != n.b.got[k].id)
            && (forall j, k :: 0 <= j < k < |n.a.got| ==> n.a.got[j].id != n.a.got[k].id)
  {
    NewNetOk(a, b);
    RunKeeps(NewNet(a, b), acts);
    var n := RunNet(NewNet(a, b), acts);
    assert Swap(Swap(n)) == n;
    hide Rel; hide RunNet;
    RightFilesAreSent(n);
    RightFilesAreSent(Swap(n));
  }

  /** The next frame for the right-hand engine is a chunk of a transfer it still holds. */
  predicate ChunkArrives(n: Net, id: Id) {
    n.ab.q != [] && n.ab.q[0].BinaryFrame? && FrameId(n.ab.q[0]) == Some(id) && id in n.b.engine.incoming
  }

  /** The next frame for the right-hand engine completes a transfer it still holds. */
  predicate CompletionArrives(n: Net, id: Id) {
    n.ab.q != [] && n.ab.q[0] == CompleteFrame(id) && id in n.b.engine.incoming
  }

  lemma ArrivalFacts(n: Net, id: Id)
    requires NetInv(n) && (ChunkArrives(n, id) || CompletionArrives(n, id))
    ensures id in n.a.files && !n.b.engine.disposed && id !in n.b.engine.outgoing
    ensures var s, f := n.b.engine.incoming[id], n.a.files[id];
            && s.accepted && s.rec.size == f.size
            && (ChunkArrives(n, id) ==> Flatten(s.chunks) + Decode(n.ab.q[0].data).value.payload <= f.content)
            && (CompletionArrives(n, id) ==> Flatten(s.chunks) == f.content)
  {
    var v := LineOf(n, id);
    assert Rel(id, v);
    assert Rel(id, LineOf(Swap(n), id));
    var head := n.ab.q[0];
    assert v.p == [head] + Proj(n.ab.q[1..], id);
    assert v.p[0] == head && Data(v.p[0]);
    var f := v.file.value;
    PopFacts(v.p, id, f);
    var d := v.r.value.data;
    if head.BinaryFrame? {
      var payload := Decode(head.data).value.payload;
      assert Inflight(v.p) == payload + Inflight(v.p[1..]);
      assert d + (payload + Inflight(v.p[1..])) == (d + payload) + Inflight(v.p[1..]);
    } else {
      InflightQuiet(v.p[1..]);
      assert d + [] == d;
    }
  }

  /**
   * No chunk is lost and no honest transfer is failed. In every reachable state: a chunk that arrives for a transfer
   * still held is appended, unless the stream yields more bytes than the file declared; a completion that arrives finds
   * every byte of the stream there, so it is failed exactly when the stream's length is not the declared size.
   */
  lemma ArrivalsAreTaken(a: Engine, b: Engine, acts: seq<(bool, Act)>, env: Env, id: Id)
    requires IsNew(a) && IsNew(b)
    ensures var n := RunNet(NewNet(a, b), acts);
            && (ChunkArrives(n, id) || CompletionArrives(n, id) ==> id in n.a.files)
            && (ChunkArrives(n, id) && |n.a.files[id].content| <= n.a.files[id].size ==>
                  var s, r := n.b.engine.incoming[id], StepDeliver(n.b.engine, n.ab.q[0], env);
                  && id in r.engine.incoming && r.engine.dropped == n.b.engine.dropped
                  && r.engine.incoming[id].chunks == s.chunks + [Decode(n.ab.q[0].data).value.payload])
            && (CompletionArrives(n, id) ==>
                  var s, r := n.b.engine.incoming[id], StepDeliver(n.b.engine, n.ab.q[0], env);
                  && s.received == |n.a.files[id].content|
                  && (env.urlOk ==> (r.files == [] <==> |n.a.files[id].content| != n.a.files[id].size)))
  {
    NewNetOk(a, b);
    RunKeeps(NewNet(a, b), acts);
    var n := RunNet(NewNet(a, b), acts);
    hide RunNet;
    if ChunkArrives(n, id) || CompletionArrives(n, id) {
      ArrivalFacts(n, id);
      assert SlotOk(n.b.engine, n.b.engine.incoming[id]);
      hide NetInv; hide ChunkCodec.Decode;
    }
  }
}
