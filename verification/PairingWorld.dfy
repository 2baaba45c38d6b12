/**
 * Any number of daemons pairing with one another: every pending set, every trust store, every attempt and the
 * frames of its socket. Humans, timers, dying sockets and forgetting interleave in any order.
 */
module PairingWorld {
  import opened Common
  import opened PairingCode
  import opened PairingSpec
  import opened PairingInvariant

  /** One attempt: the end that dialled, the end that answered, and the frames under way to each. */
  datatype Attempt = Attempt(d: End, r: End, toR: seq<Frame>, toD: seq<Frame>)

  /** Whose pending set or trust store, and about which device. */
  type Key = (Id, Id)

  /** Which end of which attempt; true for the responder. */
  type Place = (nat, bool)

  datatype World = World(attempts: seq<Attempt>, pending: map<Key, Place>, trust: map<Key, Token>)

  const NOBODY := World([], map[], map[])

  function EndAt(a: Attempt, side: bool): End { if side then a.r else a.d }

  function InboxAt(a: Attempt, side: bool): seq<Frame> { if side then a.toR else a.toD }

  function KeyOf(e: End): Key { (e.owner, e.device) }

  function SetEnd(a: Attempt, side: bool, e: End): Attempt { if side then a.(r := e) else a.(d := e) }

  function Apply(a: Attempt, side: bool, x: Effect): Attempt
    requires x.took ==> InboxAt(a, side) != []
  {
    var rest := if x.took then InboxAt(a, side)[1..] else InboxAt(a, side);
    if side then Attempt(a.d, x.e, rest, a.toD + x.sent) else Attempt(x.e, a.r, a.toR + x.sent, rest)
  }

  datatype Event =
    | StartPairing(owner: Id, device: Id, answering: Id)  // the user picks a device; `answering` holds its address
    | TokenDial(owner: Id, device: Id, answering: Id)     // a reconnect with a token the far side may have forgotten
    | Step(i: nat, side: bool, m: Move)
    | Confirm(owner: Id, device: Id, decision: Decision)
    | Cancel(owner: Id, device: Id)                       // Forget: a pairing in flight is told to stop,
    | Remove(owner: Id, device: Id)                       // and later the device is taken out of the store
    | Die(i: nat, side: bool, keep: nat)                  // the socket dies at one end; what it had not read is cut

  function PendingAt(w: World, k: Key): Option<Place> {
    if k in w.pending then Some(w.pending[k]) else None
  }

  /** What one end's step does, given what the pending sets say. */
  function StepEffect(h: Hash, w: World, i: nat, side: bool, m: Move): Effect
    requires i < |w.attempts|
  {
    var e := EndAt(w.attempts[i], side);
    var inbox := InboxAt(w.attempts[i], side);
    Act(h, e, if inbox == [] then None else Some(inbox[0]), m, x => (e.owner, x) !in w.pending,
        PendingAt(w, KeyOf(e)) == Some((i, side)))
  }

  /** beginPairing on the answering side, endPairing on either. */
  function PendingAfter(pending: map<Key, Place>, p: Place, e: End, n: End): map<Key, Place> {
    if e.stage.Waiting? && n.stage.Opening? then pending[KeyOf(n) := p]
    else if !e.done && n.done && KeyOf(n) in pending && pending[KeyOf(n)] == p then pending - {KeyOf(n)}
    else pending
  }

  function TrustAfter(trust: map<Key, Token>, e: End, n: End): map<Key, Token> {
    if e.stored.None? && n.stored.Some? then trust[KeyOf(n) := n.stored.value] else trust
  }

  function Moved(h: Hash, w: World, i: nat, side: bool, m: Move): World
    requires i < |w.attempts|
  {
    var e := EndAt(w.attempts[i], side);
    var x := StepEffect(h, w, i, side, m);
    World(w.attempts[i := Apply(w.attempts[i], side, x)],
          PendingAfter(w.pending, (i, side), e, x.e), TrustAfter(w.trust, e, x.e))
  }

  function SetEndAt(w: World, p: Place, e: End): World
    requires p.0 < |w.attempts|
  {
    w.(attempts := w.attempts[p.0 := SetEnd(w.attempts[p.0], p.1, e)])
  }

  function Started(w: World, owner: Id, device: Id, answering: Id): World {
    if device == "" || device == owner || (owner, device) in w.pending then w
    else World(w.attempts + [Attempt(NewDialer(owner, device), NewResponder(answering), [], [])],
               w.pending[(owner, device) := (|w.attempts|, false)], w.trust)
  }

  function Knocked(w: World, owner: Id, device: Id, answering: Id): World {
    w.(attempts := w.attempts + [Attempt(TokenDialer(owner, device), NewResponder(answering), [Hello(owner)], [])])
  }

  function Confirmed(w: World, k: Key, d: Decision): World {
    if k.1 == "" || k !in w.pending || w.pending[k].0 >= |w.attempts| then w
    else SetEndAt(w, w.pending[k], Answer(EndAt(w.attempts[w.pending[k].0], w.pending[k].1), d).0)
  }

  /** Whatever pairing with the device is pending is told to stop. */
  function Cancelled(w: World, k: Key): World {
    if k.1 == "" || k !in w.pending || w.pending[k].0 >= |w.attempts| then w
    else SetEndAt(w, w.pending[k], Push(EndAt(w.attempts[w.pending[k].0], w.pending[k].1), EvCancelled(DECLINED)))
  }

  function Removed(w: World, k: Key): World { if k.1 == "" then w else w.(trust := w.trust - {k}) }

  function Died(a: Attempt, side: bool, keep: nat): Attempt {
    var q := InboxAt(a, side);
    var left := if keep < |q| then q[..keep] else q;
    if side then a.(r := a.r.(alive := false), toR := left) else a.(d := a.d.(alive := false), toD := left)
  }

  function Next(h: Hash, w: World, ev: Event): World {
    match ev
    case StartPairing(o, x, answering) => Started(w, o, x, answering)
    case TokenDial(o, x, answering) => Knocked(w, o, x, answering)
    case Step(i, side, m) => if i < |w.attempts| then Moved(h, w, i, side, m) else w
    case Confirm(o, x, d) => Confirmed(w, (o, x), d)
    case Cancel(o, x) => Cancelled(w, (o, x))
    case Remove(o, x) => Removed(w, (o, x))
    case Die(i, side, keep) =>
      if i < |w.attempts| then w.(attempts := w.attempts[i := Died(w.attempts[i], side, keep)]) else w
  }

  function Run(h: Hash, evs: seq<Event>): World {
    if evs == [] then NOBODY else Next(h, Run(h, evs[..|evs| - 1]), evs[|evs| - 1])
  }

  // -- attempts ------------------------------------------------------------------------

  predicate AttemptInv(a: Attempt) {
    && !a.d.responder && a.r.responder
    && EndInv(a.d) && EndInv(a.r)
    && Agrees(a.d, a.toD, a.r) && Agrees(a.r, a.toR, a.d)
  }

  lemma ReadyAt(a: Attempt, side: bool)
    requires AttemptInv(a)
    ensures Ready(EndAt(a, side), EndAt(a, !side)) && InboxOk(InboxAt(a, side), EndAt(a, !side))
  {
    hide EndInv, InboxOk, EventsOk, BeliefOk;
  }

  lemma InboxAppend(q: seq<Frame>, more: seq<Frame>, other: End)
    requires InboxOk(q, other) && forall i :: 0 <= i < |more| ==> FrameOk(more[i], other)
    ensures InboxOk(q + more, other)
  {
    hide FrameOk;
  }

  lemma InboxSlice(q: seq<Frame>, i: nat, j: nat, other: End)
    requires InboxOk(q, other) && i <= j <= |q|
    ensures InboxOk(q[i..j], other)
  {
    hide FrameOk;
  }

  lemma ApplyKeeps(a: Attempt, side: bool, x: Effect)
    requires AttemptInv(a) && Keeps(EndAt(a, side), x, EndAt(a, !side)) && (x.took ==> InboxAt(a, side) != [])
    ensures AttemptInv(Apply(a, side, x))
  {
    var inbox := InboxAt(a, side);
    InboxSlice(inbox, if x.took then 1 else 0, |inbox|, EndAt(a, !side));
    assert inbox[0..] == inbox;
    AgreesGrows(EndAt(a, !side), InboxAt(a, !side), EndAt(a, side), x.e);
    InboxAppend(InboxAt(a, !side), x.sent, x.e);
    assert x.e.responder == EndAt(a, side).responder;
    hide EndInv, InboxOk, EventsOk, BeliefOk, FrameOk, Grows;
  }

  lemma SwapKeeps(a: Attempt, side: bool, n: End)
    requires AttemptInv(a)
    requires n == EndAt(a, side).(decision := n.decision, events := n.events, alive := n.alive)
    requires EventsOk(n.events, EndAt(a, !side))
    ensures AttemptInv(SetEnd(a, side, n))
  {
    ReadyAt(a, side);
    BuffersKeep(EndAt(a, side), n, EndAt(a, !side));
    AgreesGrows(EndAt(a, !side), InboxAt(a, !side), EndAt(a, side), n);
    assert n.responder == EndAt(a, side).responder;
    hide EndInv, InboxOk, EventsOk, BeliefOk, FrameOk, Grows;
  }

  lemma DiedKeeps(a: Attempt, side: bool, keep: nat)
    requires AttemptInv(a)
    ensures AttemptInv(Died(a, side, keep))
  {
    var q := InboxAt(a, side);
    ReadyAt(a, side);
    var n := EndAt(a, side).(alive := false);
    assert EventsOk(n.events, EndAt(a, !side));
    SwapKeeps(a, side, n);
    InboxSlice(q, 0, if keep < |q| then keep else |q|, EndAt(a, !side));
    assert q[0..|q|] == q && (keep < |q| ==> q[0..keep] == q[..keep]);
    hide EndInv, InboxOk, EventsOk, BeliefOk, FrameOk;
  }

  lemma BornKeeps(owner: Id, device: Id, answering: Id)
    ensures AttemptInv(Attempt(NewDialer(owner, device), NewResponder(answering), [], []))
    ensures AttemptInv(Attempt(TokenDialer(owner, device), NewResponder(answering), [Hello(owner)], []))
  {
    hide ValidCodeFormat, ValidTokenFormat;
  }

  // -- the pending sets -------------------------------------------------------------------

  /** Between beginPairing and endPairing. */
  predicate Live(e: End) { !e.done && !e.stage.Waiting? }

  /** Each pending set holds exactly the live ends, each under its own device. */
  predicate PendingInv(w: World) {
    && (forall k :: k in w.pending ==> PendingOk(w, k, w.pending[k]))
    && (forall i, side :: 0 <= i < |w.attempts| && Live(EndAt(w.attempts[i], side)) ==> Listed(w, i, side))
  }

  predicate PendingOk(w: World, k: Key, p: Place) {
    p.0 < |w.attempts| && Live(EndAt(w.attempts[p.0], p.1)) && KeyOf(EndAt(w.attempts[p.0], p.1)) == k
  }

  predicate Listed(w: World, i: nat, side: bool)
    requires i < |w.attempts|
  {
    var k := KeyOf(EndAt(w.attempts[i], side));
    k in w.pending && w.pending[k] == (i, side)
  }

  /** How reading a hello changes an end's place in the pending sets. */
  predicate BirthOk(e: End, n: End, free: Id -> bool) {
    || n == e
    || (n.stage.Refused? && n.done)
    || (n.stage.Opening? && !n.done && free(n.device))
  }

  lemma HelloBirth(h: Hash, e: End, f: Frame, gate: Gate, free: Id -> bool)
    requires !e.done
    ensures BirthOk(e, TakeHello(h, e, f, gate, free).0, free)
  {
    hide Code, Refuse;
  }

  lemma WaitingBirth(h: Hash, e: End, head: Option<Frame>, m: Move, free: Id -> bool, mine: bool)
    requires EndInv(e) && e.stage.Waiting?
    ensures BirthOk(e, Act(h, e, head, m, free, mine).e, free)
  {
    assert e.shown.None? && !e.done;
    match m
    case First(gate) => if head.Some? { HelloBirth(h, e, head.value, gate, free); } hide EndInv, TakeHello, BirthOk;
    case _ => hide EndInv;
  }

  // -- the trust stores ---------------------------------------------------------------------

  /** A trust entry is the token some attempt of that daemon with that device stored. */
  predicate Earned(w: World, k: Key, t: Token, i: nat, side: bool) {
    i < |w.attempts| && KeyOf(EndAt(w.attempts[i], side)) == k && EndAt(w.attempts[i], side).stored == Some(t)
  }

  ghost predicate TrustInv(w: World) {
    forall k :: k in w.trust ==> exists i, side :: Earned(w, k, w.trust[k], i, side)
  }

  ghost predicate WorldInv(w: World) {
    (forall i :: 0 <= i < |w.attempts| ==> AttemptInv(w.attempts[i])) && PendingInv(w) && TrustInv(w)
  }

  // -- one event -------------------------------------------------------------------------------

  /** Two worlds with the same ends, up to what an end's own buffers and socket hold. */
  predicate Alike(e: End, n: End) {
    n == e.(decision := n.decision, events := n.events, alive := n.alive)
  }

  lemma AlikePending(w: World, v: World)
    requires PendingInv(w) && v.pending == w.pending && |v.attempts| == |w.attempts|
    requires forall i, side :: 0 <= i < |w.attempts| ==> Alike(EndAt(w.attempts[i], side), EndAt(v.attempts[i], side))
    ensures PendingInv(v)
  {
    forall k | k in v.pending ensures PendingOk(v, k, v.pending[k]) { assert PendingOk(w, k, w.pending[k]); }
    forall i, side | 0 <= i < |v.attempts| && Live(EndAt(v.attempts[i], side)) ensures Listed(v, i, side) {
      assert Live(EndAt(w.attempts[i], side)) && Listed(w, i, side);
    }
    hide PendingInv;
  }

  /** Stored tokens stay where they are, so what was earned stays earned. */
  lemma TrustStays(w: World, v: World)
    requires TrustInv(w) && |v.attempts| >= |w.attempts|
    requires forall k :: k in v.trust ==> k in w.trust && v.trust[k] == w.trust[k]
    requires forall i, side :: 0 <= i < |w.attempts| && EndAt(w.attempts[i], side).stored.Some? ==>
               EndAt(v.attempts[i], side).stored == EndAt(w.attempts[i], side).stored
               && KeyOf(EndAt(v.attempts[i], side)) == KeyOf(EndAt(w.attempts[i], side))
    ensures TrustInv(v)
  {
    forall k | k in v.trust ensures exists i, side :: Earned(v, k, v.trust[k], i, side) {
      var i, side :| Earned(w, k, w.trust[k], i, side);
      assert Earned(v, k, v.trust[k], i, side);
    }
  }

  lemma SetEndKeeps(w: World, p: Place, n: End)
    requires WorldInv(w) && p.0 < |w.attempts| && Alike(EndAt(w.attempts[p.0], p.1), n)
    requires EventsOk(n.events, EndAt(w.attempts[p.0], !p.1))
    ensures WorldInv(SetEndAt(w, p, n))
  {
    var v := SetEndAt(w, p, n);
    SwapKeeps(w.attempts[p.0], p.1, n);
    assert forall i, side :: 0 <= i < |w.attempts| ==> Alike(EndAt(w.attempts[i], side), EndAt(v.attempts[i], side));
    AlikePending(w, v);
    TrustStays(w, v);
    hide AttemptInv, PendingInv, TrustInv;
  }

  lemma EventsAt(w: World, i: nat, side: bool)
    requires WorldInv(w) && i < |w.attempts|
    ensures EventsOk(EndAt(w.attempts[i], side).events, EndAt(w.attempts[i], !side))
  {
    ReadyAt(w.attempts[i], side);
  }

  lemma ConfirmedKeeps(w: World, k: Key, d: Decision)
    requires WorldInv(w)
    ensures WorldInv(Confirmed(w, k, d))
  {
    if k in w.pending && w.pending[k].0 < |w.attempts| {
      var p := w.pending[k];
      var e := EndAt(w.attempts[p.0], p.1);
      EventsAt(w, p.0, p.1);
      SetEndKeeps(w, p, Answer(e, d).0);
    }
    hide WorldInv;
  }

  lemma RemovedKeeps(w: World, k: Key)
    requires WorldInv(w)
    ensures WorldInv(Removed(w, k))
  {
    var v := Removed(w, k);
    TrustStays(w, v);
    AlikePending(w, v);
    hide AttemptInv, PendingInv, TrustInv;
  }

  lemma PushAlike(e: End, ev: PairEvent, other: End)
    requires EventsOk(e.events, other) && EventOk(ev, other)
    ensures Alike(e, Push(e, ev)) && EventsOk(Push(e, ev).events, other)
  {
    PushedOk(e.events, ev, other);
    hide EventsOk, EventOk;
  }

  lemma CancelledKeeps(w: World, k: Key)
    requires WorldInv(w)
    ensures WorldInv(Cancelled(w, k))
  {
    if k.1 != "" && k in w.pending && w.pending[k].0 < |w.attempts| {
      var p := w.pending[k];
      var e := EndAt(w.attempts[p.0], p.1);
      EventsAt(w, p.0, p.1);
      PushAlike(e, EvCancelled(DECLINED), EndAt(w.attempts[p.0], !p.1));
      SetEndKeeps(w, p, Push(e, EvCancelled(DECLINED)));
    }
    hide WorldInv, EventsOk, Push;
  }

  lemma DieKeeps(w: World, i: nat, side: bool, keep: nat)
    requires WorldInv(w) && i < |w.attempts|
    ensures WorldInv(w.(attempts := w.attempts[i := Died(w.attempts[i], side, keep)]))
  {
    var v := w.(attempts := w.attempts[i := Died(w.attempts[i], side, keep)]);
    DiedKeeps(w.attempts[i], side, keep);
    assert forall j, s :: 0 <= j < |w.attempts| ==> Alike(EndAt(w.attempts[j], s), EndAt(v.attempts[j], s));
    AlikePending(w, v);
    TrustStays(w, v);
    hide AttemptInv, PendingInv, TrustInv;
  }

  lemma BornPending(w: World, a: Attempt, pending: map<Key, Place>)
    requires PendingInv(w)
    requires a.r.stage.Waiting?
    requires if Live(a.d) then KeyOf(a.d) !in w.pending && pending == w.pending[KeyOf(a.d) := (|w.attempts|, false)]
        else pending == w.pending
    ensures PendingInv(World(w.attempts + [a], pending, w.trust))
  {
    var v := World(w.attempts + [a], pending, w.trust);
    forall k | k in v.pending ensures PendingOk(v, k, v.pending[k]) {
      if k in w.pending { assert PendingOk(w, k, w.pending[k]); }
    }
    forall i, side | 0 <= i < |v.attempts| && Live(EndAt(v.attempts[i], side)) ensures Listed(v, i, side) {
      if i < |w.attempts| { assert Live(EndAt(w.attempts[i], side)) && Listed(w, i, side); }
    }
    hide PendingInv, PendingOk;
  }

  lemma BornWorld(w: World, a: Attempt, pending: map<Key, Place>)
    requires WorldInv(w) && AttemptInv(a)
    requires a.r.stage.Waiting?
    requires if Live(a.d) then KeyOf(a.d) !in w.pending && pending == w.pending[KeyOf(a.d) := (|w.attempts|, false)]
        else pending == w.pending
    ensures WorldInv(World(w.attempts + [a], pending, w.trust))
  {
    BornPending(w, a, pending);
    TrustStays(w, World(w.attempts + [a], pending, w.trust));
    hide AttemptInv, PendingInv, TrustInv;
  }

  lemma StartedKeeps(w: World, owner: Id, device: Id, answering: Id)
    requires WorldInv(w)
    ensures WorldInv(Started(w, owner, device, answering))
    ensures WorldInv(Knocked(w, owner, device, answering))
  {
    BornKeeps(owner, device, answering);
    if (owner, device) !in w.pending {
      BornWorld(w, Attempt(NewDialer(owner, device), NewResponder(answering), [], []),
          w.pending[(owner, device) := (|w.attempts|, false)]);
    }
    BornWorld(w, Attempt(TokenDialer(owner, device), NewResponder(answering), [Hello(owner)], []), w.pending);
    hide WorldInv, AttemptInv;
  }

  // -- a step of an end ---------------------------------------------------------------------------

  /** What a step of the end at (i, side) does to it, as far as the pending sets and trust stores are concerned. */
  predicate Advance(w: World, i: nat, side: bool, n: End)
    requires i < |w.attempts|
  {
    var e := EndAt(w.attempts[i], side);
    Grows(e, n) && (e.stage.Waiting? ==> BirthOk(e, n, x => (e.owner, x) !in w.pending))
  }

  /** The rest of the world as it was, the pending sets as one step of the end at (i, side) leaves them. */
  predicate Advanced(w: World, v: World, i: nat, side: bool) {
    && i < |w.attempts| && |v.attempts| == |w.attempts|
    && (forall j, s :: 0 <= j < |w.attempts| && (j, s) != (i, side) ==>
        EndAt(v.attempts[j], s) == EndAt(w.attempts[j], s))
    && Advance(w, i, side, EndAt(v.attempts[i], side))
    && (EndAt(w.attempts[i], side).stage.Waiting? ==> !EndAt(w.attempts[i], side).done)
    && v.pending == PendingAfter(w.pending, (i, side), EndAt(w.attempts[i], side), EndAt(v.attempts[i], side))
  }

  lemma AdvanceOk(w: World, v: World, i: nat, side: bool, k: Key)
    requires PendingInv(w) && Advanced(w, v, i, side) && k in v.pending
    ensures PendingOk(v, k, v.pending[k])
  {
    if k in w.pending { assert PendingOk(w, k, w.pending[k]); }
  }

  lemma AdvanceListed(w: World, v: World, i: nat, side: bool, j: nat, s: bool)
    requires PendingInv(w) && Advanced(w, v, i, side) && j < |v.attempts| && Live(EndAt(v.attempts[j], s))
    ensures Listed(v, j, s)
  {
    if Live(EndAt(w.attempts[j], s)) { assert Listed(w, j, s); }
  }

  lemma AdvancePending(w: World, v: World, i: nat, side: bool)
    requires PendingInv(w) && Advanced(w, v, i, side)
    ensures PendingInv(v)
  {
    forall k | k in v.pending ensures PendingOk(v, k, v.pending[k]) { AdvanceOk(w, v, i, side, k); }
    forall j, s | 0 <= j < |v.attempts| && Live(EndAt(v.attempts[j], s)) ensures Listed(v, j, s) {
      AdvanceListed(w, v, i, side, j, s);
    }
    hide Advanced, PendingOk, Listed, Live;
  }

  /** A token an end stores enters its trust store; what others stored stays. */
  lemma AdvanceTrust(w: World, v: World, i: nat, side: bool)
    requires TrustInv(w) && Advanced(w, v, i, side)
    requires forall j, s :: 0 <= j < |w.attempts| ==> EndAt(w.attempts[j], s).stored.Some? ==>
        !EndAt(w.attempts[j], s).stage.Waiting?
    requires v.trust == TrustAfter(w.trust, EndAt(w.attempts[i], side), EndAt(v.attempts[i], side))
    ensures TrustInv(v)
  {
    var e, n := EndAt(w.attempts[i], side), EndAt(v.attempts[i], side);
    forall k | k in v.trust ensures exists j, s :: Earned(v, k, v.trust[k], j, s) {
      if e.stored.None? && n.stored.Some? && k == KeyOf(n) {
        assert Earned(v, k, v.trust[k], i, side);
      } else {
        var j, s :| Earned(w, k, w.trust[k], j, s);
        assert Earned(v, k, v.trust[k], j, s);
      }
    }
  }

  lemma StoredAfterHello(w: World)
    requires WorldInv(w)
    ensures forall j, s :: 0 <= j < |w.attempts| && EndAt(w.attempts[j], s).stored.Some? ==>
        !EndAt(w.attempts[j], s).stage.Waiting?
  {
    forall j, s | 0 <= j < |w.attempts| && EndAt(w.attempts[j], s).stored.Some?
        ensures !EndAt(w.attempts[j], s).stage.Waiting? {
      ReadyAt(w.attempts[j], s);
    }
    hide AttemptInv, PendingInv, TrustInv;
  }

  lemma EffectKeeps(h: Hash, w: World, i: nat, side: bool, m: Move)
    requires WorldInv(w) && i < |w.attempts|
    ensures Keeps(EndAt(w.attempts[i], side), StepEffect(h, w, i, side, m), EndAt(w.attempts[i], !side))
  {
    ReadyAt(w.attempts[i], side);
    ActKeeps(h, EndAt(w.attempts[i], side), InboxAt(w.attempts[i], side), m, x =>
        (EndAt(w.attempts[i], side).owner, x) !in w.pending,
             PendingAt(w, KeyOf(EndAt(w.attempts[i], side))) == Some((i, side)), EndAt(w.attempts[i], !side));
    hide Keeps, WorldInv, Act, Ready, InboxOk;
  }

  lemma EffectAdvances(h: Hash, w: World, i: nat, side: bool, m: Move)
    requires WorldInv(w) && i < |w.attempts|
    ensures Advance(w, i, side, StepEffect(h, w, i, side, m).e)
  {
    EffectKeeps(h, w, i, side, m);
    var e, inbox := EndAt(w.attempts[i], side), InboxAt(w.attempts[i], side);
    if e.stage.Waiting? {
      ReadyAt(w.attempts[i], side);
      WaitingBirth(h, e, if inbox == [] then None else Some(inbox[0]), m, x =>
          (e.owner, x) !in w.pending, PendingAt(w, KeyOf(e)) == Some((i, side)));
    }
    hide WorldInv, Act, EndInv, Grows, BirthOk, EventsOk, BeliefOk, InboxOk;
  }

  lemma WaitingIsNew(w: World, i: nat, side: bool)
    requires WorldInv(w) && i < |w.attempts|
    ensures EndAt(w.attempts[i], side).stage.Waiting? ==> !EndAt(w.attempts[i], side).done
  {
    ReadyAt(w.attempts[i], side);
    hide WorldInv, AttemptInv, BeliefOk, EventsOk, ResultOk, StoreOk, ConsentOk, ScreenOk;
  }

  lemma MovedAdvances(h: Hash, w: World, i: nat, side: bool, m: Move)
    requires WorldInv(w) && i < |w.attempts|
    ensures Advanced(w, Moved(h, w, i, side, m), i, side)
  {
    EffectAdvances(h, w, i, side, m);
    WaitingIsNew(w, i, side);
    hide WorldInv, Grows, BirthOk, Act, PendingAfter, TrustAfter;
  }

  lemma MovedAttempt(h: Hash, w: World, i: nat, side: bool, m: Move)
    requires WorldInv(w) && i < |w.attempts|
    ensures AttemptInv(Moved(h, w, i, side, m).attempts[i])
  {
    EffectKeeps(h, w, i, side, m);
    ApplyKeeps(w.attempts[i], side, StepEffect(h, w, i, side, m));
    hide AttemptInv, PendingInv, TrustInv, Keeps, Act, PendingAfter, TrustAfter;
  }

  lemma MovedKeeps(h: Hash, w: World, i: nat, side: bool, m: Move)
    requires WorldInv(w) && i < |w.attempts|
    ensures WorldInv(Moved(h, w, i, side, m))
  {
    var v := Moved(h, w, i, side, m);
    MovedAdvances(h, w, i, side, m);
    MovedAttempt(h, w, i, side, m);
    AdvancePending(w, v, i, side);
    StoredAfterHello(w);
    AdvanceTrust(w, v, i, side);
    hide AttemptInv, PendingInv, TrustInv, Advanced;
  }

  lemma NextKeeps(h: Hash, w: World, ev: Event)
    requires WorldInv(w)
    ensures WorldInv(Next(h, w, ev))
  {
    match ev
    case StartPairing(o, x, answering) => StartedKeeps(w, o, x, answering); hide WorldInv;
    case TokenDial(o, x, answering) => StartedKeeps(w, o, x, answering); hide WorldInv;
    case Step(i, side, m) => if i < |w.attempts| { MovedKeeps(h, w, i, side, m); } hide WorldInv, Moved;
    case Confirm(o, x, d) => ConfirmedKeeps(w, (o, x), d); hide WorldInv;
    case Cancel(o, x) => CancelledKeeps(w, (o, x)); hide WorldInv;
    case Remove(o, x) => RemovedKeeps(w, (o, x)); hide WorldInv;
    case Die(i, side, keep) => if i < |w.attempts| { DieKeeps(w, i, side, keep); } hide WorldInv;
  }

  lemma {:induction false} RunKeeps(h: Hash, evs: seq<Event>)
    ensures WorldInv(Run(h, evs))
  {
    if evs != [] {
      RunKeeps(h, evs[..|evs| - 1]);
      NextKeeps(h, Run(h, evs[..|evs| - 1]), evs[|evs| - 1]);
      hide WorldInv, Next;
    }
  }
}
