/**
 * The calls of sendFile over one channel buffer: what Backpressure proves of the engine's transfers, for the calls
 * themselves, those of transfers already settled included.
 */
module CallPipe {
  import opened Common
  import opened TransferSpec
  import opened SendCalls
  import opened CallRefinement
  import opened CallRuns
  import Settlement
  import B = Backpressure

  /**
   * `chunkBytes` and `controlBytes` are queued in the channel; `pending` drain events are under way, of at most `late`.
   */
  datatype Channel = Channel(
    m: Machine, chunkBytes: nat, controlBytes: nat, pending: nat, late: nat, closed: bool)
  {
    function Buffered(): nat { chunkBytes + controlBytes }

    predicate Crosses(bytes: nat) { Buffered() > BUFFERED_LOW >= bytes }
  }

  datatype ChannelStep =
    | Happens(h: Happening, open: bool, ok: bool, urlOk: bool, controlSize: nat)
    | Drain(chunkBytes: nat, controlBytes: nat)
    | LowEvent

  /** At most n transfers are being sent at once, and a closed channel does not open again. */
  predicate Enabled(p: Channel, n: nat, s: ChannelStep) {
    match s
    case Happens(h, open, _, _, _) =>
      && h != Outside(Drained)
      && (h.Outside? && h.ev.SendFile? ==> h.ev.id !in p.m.live && |p.m.live| < n)
      && (p.closed ==> !open)
    case Drain(c, k) => c <= p.chunkBytes && k <= p.controlBytes && (p.Crosses(c + k) ==> p.pending < p.late)
    case LowEvent => p.pending > 0
  }

  function EnvOf(p: Channel, s: ChannelStep): Env
    requires s.Happens?
  {
    Env(s.open, s.ok, p.Buffered(), s.urlOk)
  }

  function Next(p: Channel, n: nat, s: ChannelStep): Channel {
    if !Enabled(p, n, s) then p
    else match s
      case Happens(h, open, ok, urlOk, controlSize) =>
        var r := MachineStep(p.m, h, EnvOf(p, s));
        var bytes := B.ChunkBytes(r.sent);
        Channel(r.m, p.chunkBytes + bytes, p.controlBytes + (if r.sent != [] && bytes == 0 then controlSize else 0),
                p.pending, p.late, p.closed || h == Outside(Closed))
      case Drain(c, k) =>
        p.(chunkBytes := c, controlBytes := k, pending := if p.Crosses(c + k) then p.pending + 1 else p.pending)
      case LowEvent => p.(m := UnparkCalls(p.m), pending := p.pending - 1)
  }

  function NewChannel(hasConsent: bool, maxBytes: nat, late: nat): Channel {
    Channel(NewMachine(hasConsent, maxBytes), 0, 0, 0, late, false)
  }

  function RunChannel(p: Channel, n: nat, steps: seq<ChannelStep>): Channel
    decreases |steps|
  {
    if steps == [] then p else RunChannel(Next(p, n, steps[0]), n, steps[1..])
  }

  // -- the pipe of the engine ---------------------------------------------------------------

  function View(p: Channel): B.Pipe {
    B.Pipe(Abs(p.m), p.chunkBytes, p.controlBytes, p.pending, p.late, p.closed)
  }

  /** What the engine sees of one step: nothing, when a settled call goes on. */
  function SeenStep(p: Channel, s: ChannelStep): seq<B.PipeStep> {
    match s
    case Happens(h, open, ok, urlOk, size) =>
      var seen := Seen(p.m, h, EnvOf(p, s));
      if seen == [] then [] else [B.Run(seen[0].0, open, ok, urlOk, size)]
    case Drain(c, k) => [B.Drain(c, k)]
    case LowEvent => [B.LowEvent]
  }

  function SeenSteps(p: Channel, n: nat, steps: seq<ChannelStep>): seq<B.PipeStep>
    decreases |steps|
  {
    if steps == [] then []
    else
      (if Enabled(p, n, steps[0]) then SeenStep(p, steps[0]) else [])
      + SeenSteps(Next(p, n, steps[0]), n, steps[1..])
  }

  lemma SameSize(m: Machine)
    requires Inv(m)
    ensures Abs(m).outgoing.Keys == m.live.Keys && |Abs(m).outgoing| == |m.live|
  {
    assert Abs(m).outgoing.Keys == m.live.Keys;
    hide CallOk;
  }

  lemma OneSeen(p: B.Pipe, n: nat, s: B.PipeStep)
    ensures B.RunPipe(p, n, [s]) == B.Next(p, n, s) && B.RunPipe(p, n, []) == p
  {
    assert [s][1..] == [];
    hide B.Next;
  }

  lemma SeenIsEnabled(p: Channel, n: nat, s: ChannelStep)
    requires Inv(p.m) && Enabled(p, n, s)
    ensures forall t :: t in SeenStep(p, s) ==> B.Enabled(View(p), n, t)
  {
    SameSize(p.m);
    hide Abs, Inv;
  }

  /** What one happening does to the engine, if anything. */
  lemma HappeningSeen(m: Machine, h: Happening, env: Env)
    requires Inv(m) && Fresh(m, h)
    ensures var r, seen := MachineStep(m, h, env), Seen(m, h, env);
            && Inv(r.m)
            && if seen == [] then Abs(r.m) == Abs(m) && r.sent == [] && h != Outside(Closed)
               else |seen| == 1 && (seen[0].0.Closed? <==> h == Outside(Closed))
                    && Abs(r.m) == Step(Abs(m), seen[0].0, env).engine && r.sent == Step(Abs(m), seen[0].0, env).sent
  {
    var seen := Seen(m, h, env);
    StepKeeps(m, h, env);
    if seen == [] {
      NothingSeen(m, h, env);
    } else {
      SeenCloses(m, h, env);
      OneStep(Abs(m), seen[0].0, env);
      assert seen == [(seen[0].0, env)];
    }
    hide Inv, Abs, MachineStep, Step, Seen;
  }

  lemma HappensSeen(p: Channel, n: nat, s: ChannelStep)
    requires Inv(p.m) && s.Happens? && Enabled(p, n, s)
    ensures Inv(Next(p, n, s).m)
    ensures View(Next(p, n, s)) == B.RunPipe(View(p), n, SeenStep(p, s))
  {
    hide Inv, Abs, MachineStep, Step, B.ChunkBytes, B.Enabled, Seen, Enabled, B.RunPipe;
    var env := EnvOf(p, s);
    var seen := Seen(p.m, s.h, env);
    HappeningFits(p, n, s);
    HappeningSeen(p.m, s.h, env);
    SeenIsEnabled(p, n, s);
    if seen == [] {
      NothingQueued();
      OneSeen(View(p), n, B.LowEvent);
    } else {
      var t := B.Run(seen[0].0, s.open, s.ok, s.urlOk, s.controlSize);
      assert SeenStep(p, s) == [t] && t in SeenStep(p, s);
      OneSeen(View(p), n, t);
    }
  }

  lemma HappeningFits(p: Channel, n: nat, s: ChannelStep)
    requires s.Happens? && Enabled(p, n, s)
    ensures Fresh(p.m, s.h)
  {
  }

  lemma NothingQueued()
    ensures B.ChunkBytes([]) == 0
  {
  }

  lemma NothingSeen(m: Machine, h: Happening, env: Env)
    requires Seen(m, h, env) == []
    ensures h != Outside(Closed)
    ensures Settlement.Run(Abs(m), []) == Abs(m) && Settlement.EngineSent(Abs(m), []) == []
  {
    hide Abs;
  }

  lemma SeenCloses(m: Machine, h: Happening, env: Env)
    requires Seen(m, h, env) != []
    ensures |Seen(m, h, env)| == 1 && Seen(m, h, env)[0].1 == env
    ensures Seen(m, h, env)[0].0.Closed? <==> h == Outside(Closed)
  {
  }

  lemma NextSeen(p: Channel, n: nat, s: ChannelStep)
    requires Inv(p.m)
    ensures Inv(Next(p, n, s).m)
    ensures View(Next(p, n, s)) == B.RunPipe(View(p), n, if Enabled(p, n, s) then SeenStep(p, s) else [])
  {
    if Enabled(p, n, s) {
      match s
      case Happens(_, _, _, _, _) => HappensSeen(p, n, s); hide Next, SeenStep, View, Inv, B.RunPipe, Enabled;
      case Drain(c, k) => OneSeen(View(p), n, B.Drain(c, k)); hide Abs, Inv, B.RunPipe;
      case LowEvent =>
        OneSeen(View(p), n, B.LowEvent);
        UnparkRefines(p.m);
        hide Abs, Inv, B.RunPipe, UnparkCalls, UnparkAll;
    }
  }

  lemma {:induction false} PipeAppend(p: B.Pipe, n: nat, s: seq<B.PipeStep>, t: seq<B.PipeStep>)
    ensures B.RunPipe(p, n, s + t) == B.RunPipe(B.RunPipe(p, n, s), n, t)
    decreases |s|
  {
    hide B.Next;
    if s == [] {
      assert s + t == t;
    } else {
      assert (s + t)[0] == s[0] && (s + t)[1..] == s[1..] + t;
      PipeAppend(B.Next(p, n, s[0]), n, s[1..], t);
    }
  }

  lemma {:induction false} RunSeen(p: Channel, n: nat, steps: seq<ChannelStep>)
    requires Inv(p.m)
    ensures Inv(RunChannel(p, n, steps).m)
    ensures View(RunChannel(p, n, steps)) == B.RunPipe(View(p), n, SeenSteps(p, n, steps))
    decreases |steps|
  {
    hide Inv, Next, SeenStep, View, Enabled;
    if steps == [] {
      assert B.RunPipe(View(p), n, []) == View(p);
    } else {
      var q := Next(p, n, steps[0]);
      var first := if Enabled(p, n, steps[0]) then SeenStep(p, steps[0]) else [];
      NextSeen(p, n, steps[0]);
      RunSeen(q, n, steps[1..]);
      PipeAppend(View(p), n, first, SeenSteps(q, n, steps[1..]));
    }
  }

  // -- no call waits in vain ------------------------------------------------------------------

  lemma ParkedIsSeen(m: Machine, s: nat)
    requires Inv(m) && s in m.calls && m.calls[s].Parked()
    ensures IsLive(m, s) && m.calls[s].id in B.Parked(Abs(m))
  {
    assert CallOk(m, s);
    LiveCallSeen(m, s);
    hide Inv, Abs;
  }

  /**
   * No lost wake-up, call by call, in every run of any number of calls over a channel that raises its drain events at
   * any later time: a call is parked only while its transfer is live and either the buffer is above the threshold or
   * an event that wakes it is on its way; the event, and a close, leave none parked, and settling a transfer wakes
   * its own. The bytes queued stay within the bound of the transfers being sent, whatever settled calls still run.
   */
  lemma NoCallWaitsInVain(hasConsent: bool, maxBytes: nat, late: nat, n: nat, steps: seq<ChannelStep>)
    ensures var p := RunChannel(NewChannel(hasConsent, maxBytes, late), n, steps);
            && p.chunkBytes <= B.Bound(n, 1 + late)
            && (forall s :: s in p.m.calls && p.m.calls[s].Parked() ==>
                  IsLive(p.m, s) && !p.closed && (p.Buffered() > BUFFERED_LOW || p.pending > 0))
            && (forall s :: s in UnparkCalls(p.m).calls ==> !UnparkCalls(p.m).calls[s].Parked())
  {
    var p0 := NewChannel(hasConsent, maxBytes, late);
    NewIsOk(hasConsent, maxBytes);
    RunSeen(p0, n, steps);
    var p := RunChannel(p0, n, steps);
    assert View(p0) == B.NewPipe(hasConsent, maxBytes, late);
    B.QueueIsBounded(hasConsent, maxBytes, late, n, SeenSteps(p0, n, steps));
    UnparkRefines(p.m);
    hide Inv, UnparkCalls, RunChannel, B.RunPipe, NewChannel, IsLive, B.Next, SeenSteps, B.Parked, B.Bound;
    forall s | s in p.m.calls && p.m.calls[s].Parked()
      ensures IsLive(p.m, s) && !p.closed && (p.Buffered() > BUFFERED_LOW || p.pending > 0)
    {
      ParkedIsSeen(p.m, s);
    }
  }
}
