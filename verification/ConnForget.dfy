/**
 * What is left of a device once Forget is through with it: a socket that had shown a token before, and had not been
 * registered yet, still becomes the live one.
 */
module ConnForget {
  import opened Common
  import PairingCode
  import P = PairingSpec
  import T = PairingTheorems
  import opened Registry
  import opened ConnLife

  /** The device has a live socket that is not closed. */
  predicate Usable(w: World, id: Id) {
    id in w.conns && Has(w, w.conns[id]) && w.socks[w.conns[id]].Alive()
  }

  /** A socket that has shown the device's token, or stored one for it, and has still to be filed. */
  predicate OnTheWay(s: Sock, id: Id) {
    s.Alive()
    && match s.role
       case Verified(_) => s.id == id && !s.returned && !s.filed
       case Asking => s.id == id
       case Recognised => s.id == id && !s.returned && !s.filed
       case Pairing(e) => e.device == id && e.stage.Stored?
       case _ => false
  }

  // -- one step of one socket --------------------------------------------------------------------------------

  /** No step brings a socket on the way that was not, nor back to life once it was marked paired. */
  predicate NoNearer(w: World, n: World, s: Sock, m: Sock, id: Id) {
    && (id !in w.trust && id !in n.trust && OnTheWay(m, id) ==> OnTheWay(s, id))
    && (s.Paired() && m.Alive() ==> s.Alive())
  }

  lemma StoredStep(h: PairingCode.Hash, e: P.End, head: Option<P.Frame>, m: P.Move, free: Id -> bool, mine: bool)
    requires EndOk(e)
    ensures var n := P.Act(h, e, head, m, free, mine).e;
            && (n.stage.Stored? && n.stored == e.stored ==> e.stage.Stored? && (n.alive ==> e.alive))
            && (n.paired && !e.paired ==> e.stage.Stored? && (n.alive ==> e.alive))
            && (e.paired && n.alive ==> e.alive)
  {
    var n := P.Act(h, e, head, m, free, mine).e;
    ActGoes(h, e, head, m, free, mine);
    if e.stored.Some? {
      T.OnlyTheRest(h, e, T.Input(head, m, free, mine));
      hide P.Act, P.Finish, P.ReadFrame;
      match m
      case Proceed(ok) => DecidedFinish(e, ok);
      case Loop => if head.Some? { ReadAlive(e, head.value, mine); }
      case _ =>
    }
    hide P.Act;
  }

  lemma DecidedFinish(e: P.End, ok: bool)
    requires Decided(e.stage)
    ensures var n := P.Finish(e, ok).0;
            !n.stage.Stored? && (n.alive ==> e.alive) && (n.paired && !e.paired ==> e.stage.Stored?)
  {
    if e.stage.Stored? { StoredFinish(e, ok); }
    else if e.stage.Failing? || e.stage.Closed? { FailureFinish(e, ok); }
    else { LastFinish(e, ok); }
    hide P.Finish;
  }

  lemma StoredFinish(e: P.End, ok: bool)
    requires e.stage.Stored?
    ensures var n := P.Finish(e, ok).0; n.stage.Announced? && (n.alive ==> e.alive)
  {
    var m := e.(paired := true, stage := P.Announced);
    assert P.Finish(e, ok).0 == m || P.Finish(e, ok).0 == m.(alive := false);
  }

  /** Nothing promoted, and no socket brought back to life. */
  predicate NoBetter(e: P.End, n: P.End) { !n.stage.Stored? && (n.alive ==> e.alive) && n.paired == e.paired }

  lemma FailureFinish(e: P.End, ok: bool)
    requires e.stage.Failing? || e.stage.Closed?
    ensures NoBetter(e, P.Finish(e, ok).0)
  {
    match e.stage
    case Failing(r, _) => assert P.Finish(e, ok).0 == e.(stage := P.Closed(r), alive := false);
    case Closed(r) => assert P.Finish(e, ok).0 == e.(stage := P.Reported, results := e.results + [P.Failure(r)]);
  }

  lemma LastFinish(e: P.End, ok: bool)
    requires e.stage.Announced? || e.stage.Reported?
    ensures NoBetter(e, P.Finish(e, ok).0)
  {
    match e.stage
    case Announced => assert P.Finish(e, ok).0 == e.(stage := P.Reported, results := e.results + [P.Success]);
    case Reported => assert P.Finish(e, ok).0 == e.(done := true);
  }

  lemma ReadAlive(e: P.End, f: P.Frame, mine: bool)
    ensures var n := P.ReadFrame(e, f, mine);
            n.stage == e.stage && n.paired == e.paired && n.device == e.device && (n.alive ==> e.alive)
  {
    hide P.EventFor;
  }

  lemma PairNoNearer(h: PairingCode.Hash, w: World, i: nat, head: Option<P.Frame>, move: P.Move, free: bool, mine: bool,
      id: Id)
    requires Inv(w) && Has(w, i) && w.socks[i].role.Pairing?
    ensures var n := Paired(h, w, i, head, move, free, mine); NoNearer(w, n, w.socks[i], n.socks[i], id)
  {
    var s := w.socks[i];
    assert SockOk(s);
    StoredStep(h, s.role.e, head, move, _ => free, mine);
    ActGoes(h, s.role.e, head, move, _ => free, mine);
    hide P.Act, Inv, Registered;
  }

  lemma HelloNoNearer(h: PairingCode.Hash, w: World, s: Sock, hello: Option<(Id, Token)>, gate: P.Gate, free: bool,
      id: Id)
    requires s.role.Reading?
    ensures NoNearer(w, w, s, Greeted(h, w, s, hello, gate, free), id)
  {
    if hello.Some? { HelloStage(h, P.NewResponder(w.self), P.Hello(hello.value.0), gate, _ => free); }
    hide P.TakeHello;
  }

  lemma HelloStage(h: PairingCode.Hash, e: P.End, f: P.Frame, gate: P.Gate, free: Id -> bool)
    ensures var n := P.TakeHello(h, e, f, gate, free).0; n.stage.Refused? || n.stage.Opening?
  {
    hide PairingCode.Code;
  }

  lemma OwnNoNearer(h: PairingCode.Hash, w: World, step: Step, i: nat, id: Id)
    requires Inv(w) && Has(w, i) && (step.Pair? || step.ReadHello? || step.Confirm? || step.Cancel?)
    ensures var n := Next(h, w, step); Has(n, i) && NoNearer(w, n, w.socks[i], n.socks[i], id)
  {
    hide Inv, P.Act, P.Answer, P.Push, Greeted, NoNearer;
    SameNoNearer(w, Next(h, w, step), w.socks[i], w.socks[i], id);
    match step
    case Pair(k, head, move, free, mine) =>
      if Has(w, k) && w.socks[k].role.Pairing? { PairNoNearer(h, w, k, head, move, free, mine, id); }
    case ReadHello(k, hello, gate, free) =>
      if Has(w, k) && w.socks[k].role.Reading? {
        HelloNoNearer(h, w, w.socks[k], hello, gate, free, id);
        TrustOnly(w, Next(h, w, step), w.socks[k], Greeted(h, w, w.socks[k], hello, gate, free), id);
      }
    case Confirm(k, d) =>
      if Has(w, k) && w.socks[k].role.Pairing? {
        BuffersOnly(w.socks[k].role.e, d);
        BufferNoNearer(w, Next(h, w, step), w.socks[k], P.Answer(w.socks[k].role.e, d).0, id);
      }
    case Cancel(k) =>
      if Has(w, k) && w.socks[k].role.Pairing? {
        BuffersOnly(w.socks[k].role.e, P.Decision(true, ""));
        BufferNoNearer(w, Next(h, w, step), w.socks[k], P.Push(w.socks[k].role.e, P.EvCancelled(P.DECLINED)), id);
      }
  }

  lemma BuffersOnly(e: P.End, d: P.Decision)
    ensures var n := P.Answer(e, d).0; n == e.(decision := n.decision, events := n.events)
    ensures var n := P.Push(e, P.EvCancelled(P.DECLINED)); n == e.(decision := n.decision, events := n.events)
  {
    hide P.DECLINED;
  }

  lemma TrustOnly(w: World, n: World, s: Sock, m: Sock, id: Id)
    requires NoNearer(w, w, s, m, id) && n.trust == w.trust
    ensures NoNearer(w, n, s, m, id)
  {
  }

  /** The same socket, or one that is further gone. */
  predicate NoMore(s: Sock, m: Sock) {
    && m.id == s.id && m.role == s.role && (m.open ==> s.open) && (s.filed ==> m.filed) && (s.returned ==> m.returned)
  }

  lemma SameNoNearer(w: World, n: World, s: Sock, m: Sock, id: Id)
    requires NoMore(s, m)
    ensures NoNearer(w, n, s, m, id)
  {
  }

  lemma BufferNoNearer(w: World, n: World, s: Sock, e: P.End, id: Id)
    requires s.role.Pairing? && e == s.role.e.(decision := e.decision, events := e.events)
    ensures NoNearer(w, n, s, s.(role := Pairing(e)), id)
  {
  }

  lemma ShutNoNearer(w: World, n: World, s: Sock, m: Sock, id: Id)
    requires m == s || m == Shut(s) || m == Shut(s).(torn := true)
    ensures NoNearer(w, n, s, m, id)
  {
  }

  lemma PoppedNoNearer(w: World, n: World, s: Sock, m: Sock, id: Id)
    requires s.defers != []
    requires var p := s.(defers := s.defers[..|s.defers| - 1]);
             m == s || m == p || m == p.(slot := false) || m == Shut(p).(torn := true)
    ensures NoNearer(w, n, s, m, id)
  {
    var p := s.(defers := s.defers[..|s.defers| - 1]);
    ShutNoNearer(w, n, p, Shut(p).(torn := true), id);
    assert OnTheWay(p, id) == OnTheWay(s, id) && p.Paired() == s.Paired() && p.Alive() == s.Alive();
    hide Shut;
  }

  lemma CloseNoNearer(h: PairingCode.Hash, w: World, step: Step, i: nat, id: Id)
    requires Has(w, i) && (step.Unwind? || step.Drop? || step.Dies?)
    ensures var n := Next(h, w, step); Has(n, i) && NoNearer(w, n, w.socks[i], n.socks[i], id)
  {
    hide Shut, NoNearer, Unwound, Unregistered;
    var n := Next(h, w, step);
    ShutNoNearer(w, n, w.socks[i], w.socks[i], id);
    ShutNoNearer(w, n, w.socks[i], Shut(w.socks[i]), id);
    match step
    case Unwind(k) =>
      if Has(w, k) && w.socks[k].returned && w.socks[k].defers != [] {
        UnwoundSock(w, k);
        if k == i { PoppedNoNearer(w, n, w.socks[i], n.socks[i], id); }
      }
    case Drop(_) =>
    case Dies(_) =>
  }

  lemma RoleNoNearer(h: PairingCode.Hash, w: World, step: Step, i: nat, id: Id)
    requires Inv(w) && Has(w, i) && (step.Upgrade? || step.Ready? || step.Recognise?)
    ensures var n := Next(h, w, step); Has(n, i) && NoNearer(w, n, w.socks[i], n.socks[i], id)
  {
    assert SockOk(w.socks[i]);
    hide Inv;
  }

  lemma SockNoNearer(h: PairingCode.Hash, w: World, step: Step, i: nat, id: Id)
    requires Inv(w) && Has(w, i)
    ensures var n := Next(h, w, step); Has(n, i) && NoNearer(w, n, w.socks[i], n.socks[i], id)
  {
    hide Inv, NoNearer, Next;
    if step.Pair? || step.ReadHello? || step.Confirm? || step.Cancel? {
      OwnNoNearer(h, w, step, i, id);
    } else if step.Unwind? || step.Drop? || step.Dies? {
      CloseNoNearer(h, w, step, i, id);
    } else if step.Upgrade? || step.Ready? || step.Recognise? {
      RoleNoNearer(h, w, step, i, id);
    } else {
      PlainNoMore(h, w, step, i);
      SameNoNearer(w, Next(h, w, step), w.socks[i], Next(h, w, step).socks[i], id);
    }
  }

  lemma PlainNoMore(h: PairingCode.Hash, w: World, step: Step, i: nat)
    requires Has(w, i) && !step.Unwind? && !step.Drop? && !step.Dies? && !step.Pair? && !step.ReadHello?
    requires !step.Confirm? && !step.Cancel? && !step.Upgrade? && !step.Ready? && !step.Recognise?
    ensures Has(Next(h, w, step), i) && NoMore(w.socks[i], Next(h, w, step).socks[i])
  {
    hide Registered;
  }

  lemma NewNotOnTheWay(h: PairingCode.Hash, w: World, step: Step, i: nat, id: Id)
    requires !Has(w, i) && Has(Next(h, w, step), i) && id !in w.trust
    ensures !OnTheWay(Next(h, w, step).socks[i], id)
  {
    if !step.Acquire? && !step.StartPairing? && !step.Ask? { NoneAdded(h, w, step); }
    hide P.Act, P.TakeHello, P.Answer, P.Push, Shut, Unregistered, Paired, Greeted, Unwound, Dropped, Looked, Slotless;
  }

  lemma NoneAdded(h: PairingCode.Hash, w: World, step: Step)
    requires !step.Acquire? && !step.StartPairing? && !step.Ask?
    ensures |Next(h, w, step).socks| == |w.socks|
  {
    hide P.Act, P.Answer, P.Push, Shut, Unregistered, Registered, Greeted;
  }

  // -- one step of the world ---------------------------------------------------------------------------------

  /** The device is not trusted, has no usable socket, and none is on the way. */
  predicate Cut(w: World, id: Id) {
    id !in w.trust && !Usable(w, id) && forall i :: 0 <= i < |w.socks| ==> !OnTheWay(w.socks[i], id)
  }

  /** Under `id` the same socket is filed as before, or none any more, or the one this step files there. */
  predicate FiledOrNot(h: PairingCode.Hash, w: World, step: Step, id: Id) {
    var n := Next(h, w, step);
    id in n.conns ==>
      (id in w.conns && n.conns[id] == w.conns[id]) || FiledBy(h, w, step, id) == Some(n.conns[id])
  }

  lemma UnwindFiles(h: PairingCode.Hash, w: World, k: nat, id: Id)
    ensures FiledOrNot(h, w, Unwind(k), id)
  {
    hide Shut;
  }

  lemma PairFiles(h: PairingCode.Hash, w: World, step: Step, id: Id)
    requires step.Pair?
    ensures FiledOrNot(h, w, step, id)
  {
    hide P.Act;
  }

  lemma MapFiles(h: PairingCode.Hash, w: World, step: Step, id: Id)
    requires step.Drop? || step.Lookup? || step.Register?
    ensures FiledOrNot(h, w, step, id)
  {
    hide Shut;
  }

  lemma OthersFile(h: PairingCode.Hash, w: World, step: Step)
    requires !step.Unwind? && !step.Pair? && !step.Drop? && !step.Lookup? && !step.Register?
    ensures Next(h, w, step).conns == w.conns
  {
    hide Shut, Greeted, P.Answer, P.Push;
  }

  lemma FiledNow(h: PairingCode.Hash, w: World, step: Step, id: Id)
    ensures FiledOrNot(h, w, step, id)
  {
    if step.Unwind? { UnwindFiles(h, w, step.i, id); }
    else if step.Pair? { PairFiles(h, w, step, id); }
    else if step.Drop? || step.Lookup? || step.Register? { MapFiles(h, w, step, id); }
    else { OthersFile(h, w, step); }
    hide Next, FiledBy;
  }

  lemma WasUsable(h: PairingCode.Hash, w: World, step: Step, id: Id)
    requires Inv(w) && id in w.conns && Usable(Next(h, w, step), id) && Next(h, w, step).conns[id] == w.conns[id]
    ensures Usable(w, id)
  {
    var i := w.conns[id];
    assert Has(w, i) && w.socks[i].Paired() by { hide Slots, SockOk; }
    hide Inv, Next, NoNearer;
    SockNoNearer(h, w, step, i, id);
    UseNoNearer(w, Next(h, w, step), w.socks[i], Next(h, w, step).socks[i], id);
  }

  lemma FiledWasOnTheWay(h: PairingCode.Hash, w: World, step: Step, id: Id)
    requires Inv(w) && FiledBy(h, w, step, id).Some?
    ensures var i, n := FiledBy(h, w, step, id).value, Next(h, w, step);
            Has(w, i) && Has(n, i) && (n.socks[i].Alive() ==> OnTheWay(w.socks[i], id))
  {
    hide Inv, P.Act, Registered;
    var i := FiledBy(h, w, step, id).value;
    if step.Pair? {
      var e := w.socks[i].role.e;
      assert SockOk(w.socks[i]) by { HasSock(w, i); }
      StoredStep(h, e, step.head, step.move, _ => step.free, step.mine);
      ActGoes(h, e, step.head, step.move, _ => step.free, step.mine);
    }
  }

  lemma HasSock(w: World, i: nat)
    requires Inv(w) && Has(w, i)
    ensures SockOk(w.socks[i])
  {
  }

  lemma CutStays(h: PairingCode.Hash, w: World, step: Step, id: Id)
    requires Inv(w) && Cut(w, id) && id !in Next(h, w, step).trust
    ensures Cut(Next(h, w, step), id)
  {
    var n := Next(h, w, step);
    NextKeeps(h, w, step);
    hide Next, OnTheWay, NoNearer, SockOk, Slots, FiledBy;
    forall i | 0 <= i < |n.socks| ensures !OnTheWay(n.socks[i], id) {
      if Has(w, i) { SockNoNearer(h, w, step, i, id); UseNoNearer(w, n, w.socks[i], n.socks[i], id); }
      else { NewNotOnTheWay(h, w, step, i, id); }
    }
    if Usable(n, id) {
      var i := n.conns[id];
      FiledNow(h, w, step, id);
      if FiledBy(h, w, step, id) == Some(i) { FiledWasOnTheWay(h, w, step, id); } else { WasUsable(h, w, step, id); }
    }
  }

  lemma UseNoNearer(w: World, n: World, s: Sock, m: Sock, id: Id)
    requires NoNearer(w, n, s, m, id)
    ensures id !in w.trust && id !in n.trust && OnTheWay(m, id) ==> OnTheWay(s, id)
    ensures s.Paired() && m.Alive() ==> s.Alive()
  {
  }

  // -- after a Forget ----------------------------------------------------------------------------------------

  function Onward(h: PairingCode.Hash, w: World, more: seq<Step>): World
    decreases |more|
  {
    if more == [] then w else Onward(h, Next(h, w, more[0]), more[1..])
  }

  /** Steps in which no token is stored for the device. */
  predicate Untrusted(h: PairingCode.Hash, w: World, more: seq<Step>, id: Id)
    decreases |more|
  {
    more == [] || (id !in Next(h, w, more[0]).trust && Untrusted(h, Next(h, w, more[0]), more[1..], id))
  }

  /** The device can have a live socket again without being trusted again. */
  ghost predicate MayComeBack(h: PairingCode.Hash, w: World, id: Id) {
    exists more :: Untrusted(h, w, more, id) && Usable(Onward(h, w, more), id)
  }

  lemma {:induction false} CutRuns(h: PairingCode.Hash, w: World, more: seq<Step>, id: Id)
    requires Inv(w) && Cut(w, id) && Untrusted(h, w, more, id)
    ensures !Usable(Onward(h, w, more), id)
    decreases |more|
  {
    hide Inv, Next;
    if more != [] {
      NextKeeps(h, w, more[0]);
      CutStays(h, w, more[0], id);
      CutRuns(h, Next(h, w, more[0]), more[1..], id);
    }
    hide Usable;
  }

  lemma OnwardFirst(h: PairingCode.Hash, w: World, step: Step, more: seq<Step>, id: Id)
    ensures Onward(h, w, [step] + more) == Onward(h, Next(h, w, step), more)
    ensures Untrusted(h, w, [step] + more, id)
            <==> id !in Next(h, w, step).trust && Untrusted(h, Next(h, w, step), more, id)
  {
    assert ([step] + more)[0] == step && ([step] + more)[1..] == more;
    hide Next;
  }

  lemma Registers(h: PairingCode.Hash, w: World, i: nat, id: Id)
    requires Has(w, i) && MayRegister(w.socks[i]) && w.socks[i].id == id != "" && w.socks[i].open
    ensures var n := Next(h, w, Register(i)); Usable(n, id) && n.trust == w.trust
  {
  }

  lemma OneStepBack(h: PairingCode.Hash, w: World, step: Step, id: Id)
    requires Usable(Next(h, w, step), id) && id !in Next(h, w, step).trust
    ensures MayComeBack(h, w, id)
  {
    OnwardFirst(h, w, step, [], id);
    hide Next, Usable;
    assert Untrusted(h, w, [step] + [], id) && Usable(Onward(h, w, [step] + []), id);
  }

  lemma TwoStepsBack(h: PairingCode.Hash, w: World, step: Step, i: nat, id: Id)
    requires var n := Next(h, w, step);
             id !in n.trust && Has(n, i) && MayRegister(n.socks[i]) && n.socks[i].id == id != "" && n.socks[i].open
    ensures MayComeBack(h, w, id)
  {
    var n := Next(h, w, step);
    Registers(h, n, i, id);
    OnwardFirst(h, w, step, [Register(i)] + [], id);
    OnwardFirst(h, n, Register(i), [], id);
    hide Next, Usable, MayRegister;
    assert Untrusted(h, w, [step] + ([Register(i)] + []), id)
           && Usable(Onward(h, w, [step] + ([Register(i)] + [])), id);
  }

  lemma ComesBack(h: PairingCode.Hash, w: World, i: nat, id: Id)
    requires Inv(w) && id != "" && id !in w.trust && Has(w, i) && OnTheWay(w.socks[i], id)
    ensures MayComeBack(h, w, id)
  {
    var s := w.socks[i];
    HasSock(w, i);
    hide Inv, MayComeBack;
    match s.role
    case Verified(ready) =>
      if ready {
        Registers(h, w, i, id);
        OneStepBack(h, w, Register(i), id);
      } else {
        TwoStepsBack(h, w, Ready(i, true), i, id);
      }
    case Asking =>
      AskedIsUnfiled(w, i);
      TwoStepsBack(h, w, Recognise(i), i, id);
    case Recognised =>
      Registers(h, w, i, id);
      OneStepBack(h, w, Register(i), id);
    case Pairing(e) =>
      PromotesNow(h, w, i, id);
      OneStepBack(h, w, Pair(i, None, P.Proceed(true), true, true), id);
  }

  /** Only a socket that has been answered and marked paired is ever filed after a token. */
  lemma AskedIsUnfiled(w: World, i: nat)
    requires Inv(w) && Has(w, i) && w.socks[i].role.Asking?
    ensures !w.socks[i].filed && !w.socks[i].returned
  {
    HasSock(w, i);
  }

  lemma PromotesNow(h: PairingCode.Hash, w: World, i: nat, id: Id)
    requires Inv(w) && id != "" && Has(w, i) && OnTheWay(w.socks[i], id) && w.socks[i].role.Pairing?
    ensures var n := Next(h, w, Pair(i, None, P.Proceed(true), true, true)); Usable(n, id) && n.trust == w.trust
  {
    HasSock(w, i);
    var e := w.socks[i].role.e;
    var m := e.(paired := true, stage := P.Announced);
    assert P.Act(h, e, None, P.Proceed(true), _ => true, true).e == m;
    hide P.Act, Inv;
  }

  /**
   * Forgetting closes a device's connection for good exactly when no socket of it was on the way. From every reachable
   * state in which the device is neither trusted nor live, which is how Forget leaves it, it can have a live socket
   * again without being trusted again if and only if there is a socket that has shown its token, or stored one, before.
   */
  lemma ForgetLeavesSockets(h: PairingCode.Hash, self: Id, trust: map<Id, Token>, steps: seq<Step>, id: Id)
    requires var w := Run(h, Start(self, trust), steps); id != "" && id !in w.trust && id !in w.conns
    ensures var w := Run(h, Start(self, trust), steps);
            MayComeBack(h, w, id) <==> exists i :: 0 <= i < |w.socks| && OnTheWay(w.socks[i], id)
  {
    var w := Run(h, Start(self, trust), steps);
    RunKeeps(h, self, trust, steps);
    hide Inv, Run, OnTheWay;
    if i :| 0 <= i < |w.socks| && OnTheWay(w.socks[i], id) {
      ComesBack(h, w, i, id);
    } else {
      assert Cut(w, id);
      hide Untrusted, Onward, Usable, Cut;
      forall more | Untrusted(h, w, more, id) ensures !Usable(Onward(h, w, more), id) { CutRuns(h, w, more, id); }
    }
  }

  // -- a live socket and the store ---------------------------------------------------------------------------

  /** Step j takes the device out of the store, and nothing has put it back since. */
  predicate ForgottenAt(h: PairingCode.Hash, w0: World, steps: seq<Step>, id: Id, j: nat) {
    && j < |steps| && steps[j] == Remove(id)
    && forall k :: j < k <= |steps| ==> id !in Run(h, w0, steps[..k]).trust
  }

  lemma OnlyRemoved(h: PairingCode.Hash, w: World, step: Step, id: Id)
    requires id in w.trust && id !in Next(h, w, step).trust
    ensures step == Remove(id)
  {
    hide P.Act, P.Answer, P.Push, Greeted, Shut, Registered, Unregistered;
  }

  lemma ForgottenOn(h: PairingCode.Hash, w0: World, steps: seq<Step>, id: Id, j: nat)
    requires steps != [] && ForgottenAt(h, w0, steps[..|steps| - 1], id, j) && id !in Run(h, w0, steps).trust
    ensures ForgottenAt(h, w0, steps, id, j)
  {
    var front := steps[..|steps| - 1];
    forall k | j < k <= |steps| ensures id !in Run(h, w0, steps[..k]).trust {
      if k == |steps| { assert steps[..k] == steps; } else { assert steps[..k] == front[..k]; }
    }
    hide Run;
  }

  /** A device that has been in the store and is not has been forgotten since. */
  lemma {:induction false} WasForgotten(h: PairingCode.Hash, w0: World, steps: seq<Step>, id: Id, before: nat)
      returns (j: nat)
    requires before <= |steps| && id in Run(h, w0, steps[..before]).trust && id !in Run(h, w0, steps).trust
    ensures before <= j && ForgottenAt(h, w0, steps, id, j)
  {
    hide Run, Next, ForgottenAt;
    assert steps[..|steps|] == steps;
    var front := steps[..|steps| - 1];
    assert front[..before] == steps[..before];
    LastStep(h, w0, steps);
    if id in Run(h, w0, front).trust {
      j := |steps| - 1;
      OnlyRemoved(h, Run(h, w0, front), steps[j], id);
      ForgottenNow(h, w0, steps, id);
    } else {
      j := WasForgotten(h, w0, front, id, before);
      ForgottenOn(h, w0, steps, id, j);
    }
  }

  lemma LastStep(h: PairingCode.Hash, w0: World, steps: seq<Step>)
    requires steps != []
    ensures Run(h, w0, steps) == Next(h, Run(h, w0, steps[..|steps| - 1]), steps[|steps| - 1])
  {
    hide Next;
  }

  lemma ForgottenNow(h: PairingCode.Hash, w0: World, steps: seq<Step>, id: Id)
    requires steps != [] && steps[|steps| - 1] == Remove(id) && id !in Run(h, w0, steps).trust
    ensures ForgottenAt(h, w0, steps, id, |steps| - 1)
  {
    assert steps[..|steps|] == steps;
    hide Run;
  }

  /** Some step from `start` on files that socket under `id`. */
  ghost predicate FiledSince(h: PairingCode.Hash, w0: World, steps: seq<Step>, id: Id, i: nat, start: nat) {
    exists k :: start <= k < |steps| && FiledBy(h, Run(h, w0, steps[..k]), steps[k], id) == Some(i)
  }

  lemma FiledSinceOn(h: PairingCode.Hash, w0: World, steps: seq<Step>, id: Id, i: nat, start: nat)
    requires steps != [] && FiledSince(h, w0, steps[..|steps| - 1], id, i, start)
    ensures FiledSince(h, w0, steps, id, i, start)
  {
    var front := steps[..|steps| - 1];
    var k :| start <= k < |front| && FiledBy(h, Run(h, w0, front[..k]), front[k], id) == Some(i);
    assert steps[..k] == front[..k] && steps[k] == front[k];
    hide Run, FiledBy;
  }

  lemma {:induction false} WasFiled(h: PairingCode.Hash, w0: World, steps: seq<Step>, id: Id, start: nat)
    requires start <= |steps| && id !in Run(h, w0, steps[..start]).conns && id in Run(h, w0, steps).conns
    ensures FiledSince(h, w0, steps, id, Run(h, w0, steps).conns[id], start)
  {
    hide Run, Next, FiledBy, FiledSince;
    assert steps[..|steps|] == steps;
    var front, last := steps[..|steps| - 1], steps[|steps| - 1];
    var w, i := Run(h, w0, front), Run(h, w0, steps).conns[id];
    assert front[..start] == steps[..start];
    LastStep(h, w0, steps);
    FiledNow(h, w, last, id);
    if FiledBy(h, w, last, id) == Some(i) {
      FiledLast(h, w0, steps, id, i, start);
    } else {
      WasFiled(h, w0, front, id, start);
      FiledSinceOn(h, w0, steps, id, i, start);
    }
  }

  lemma FiledLast(h: PairingCode.Hash, w0: World, steps: seq<Step>, id: Id, i: nat, start: nat)
    requires start < |steps|
    requires FiledBy(h, Run(h, w0, steps[..|steps| - 1]), steps[|steps| - 1], id) == Some(i)
    ensures FiledSince(h, w0, steps, id, i, start)
  {
    hide Run, FiledBy;
  }

  lemma DropsIt(h: PairingCode.Hash, w: World, id: Id)
    requires Inv(w) && id != ""
    ensures id !in Next(h, w, Drop(id)).conns
  {
    hide Slots, SockOk, DialsOk, Shut;
  }

  /**
   * Exactly when a live socket's device is no longer in the store, in every run: it has been forgotten, and not paired
   * again since.
   */
  lemma TrustedUnlessForgotten(h: PairingCode.Hash, self: Id, trust: map<Id, Token>, steps: seq<Step>, id: Id)
    requires id in Run(h, Start(self, trust), steps).conns
    ensures id !in Run(h, Start(self, trust), steps).trust
            <==> exists j :: ForgottenAt(h, Start(self, trust), steps, id, j)
  {
    var w0 := Start(self, trust);
    FiledSocketsHaveShownIt(h, self, trust, steps, id);
    assert steps[..|steps|] == steps;
    if id !in Run(h, w0, steps).trust {
      var before :| 0 <= before <= |steps| && id in Run(h, w0, steps[..before]).trust;
      var j := WasForgotten(h, w0, steps, id, before);
    }
    hide Run;
  }

  /**
   * And then what the socket stands on is older than that Forget, which has not yet come to closing what is live; or it
   * was filed after Forget had closed it.
   */
  lemma LiveThoughForgotten(h: PairingCode.Hash, self: Id, trust: map<Id, Token>, steps: seq<Step>, id: Id, j: nat,
      drop: nat)
    requires id in Run(h, Start(self, trust), steps).conns && ForgottenAt(h, Start(self, trust), steps, id, j)
    ensures var w := Run(h, Start(self, trust), steps);
            && Has(w, w.conns[id]) && w.socks[w.conns[id]].Claim().Some?
            && Held(h, Start(self, trust), steps[..j], w.socks[w.conns[id]].Claim().value)
            && (j < drop < |steps| && steps[drop] == Drop(id) ==>
                  FiledSince(h, Start(self, trust), steps, id, w.conns[id], drop + 1))
  {
    hide Run, FiledSince, Next, ForgottenAt, Held;
    FiledSocketsHaveShownIt(h, self, trust, steps, id);
    var w0 := Start(self, trust);
    var w := Run(h, w0, steps);
    HeldBefore(h, w0, steps, w.socks[w.conns[id]].Claim().value, j);
    if j < drop < |steps| && steps[drop] == Drop(id) {
      FiledUnderName(h, self, trust, steps, id);
      FiledAfterDrop(h, self, trust, steps, id, drop);
    }
  }

  lemma HeldBefore(h: PairingCode.Hash, w0: World, steps: seq<Step>, claim: (Id, Token), j: nat)
    requires Held(h, w0, steps, claim) && ForgottenAt(h, w0, steps, claim.0, j)
    ensures Held(h, w0, steps[..j], claim)
  {
    var k :| 0 <= k <= |steps| && InTrust(Run(h, w0, steps[..k]), claim);
    assert k <= j && steps[..j][..k] == steps[..k];
    hide Run;
  }

  lemma FiledAfterDrop(h: PairingCode.Hash, self: Id, trust: map<Id, Token>, steps: seq<Step>, id: Id, drop: nat)
    requires id != "" && id in Run(h, Start(self, trust), steps).conns && drop < |steps| && steps[drop] == Drop(id)
    ensures var w0 := Start(self, trust);
            FiledSince(h, w0, steps, id, Run(h, w0, steps).conns[id], drop + 1)
  {
    hide Run, FiledSince, Next, Inv;
    RunKeeps(h, self, trust, steps[..drop]);
    DropsIt(h, Run(h, Start(self, trust), steps[..drop]), id);
    StepOf(h, Start(self, trust), steps, drop);
    WasFiled(h, Start(self, trust), steps, id, drop + 1);
  }

  lemma FiledUnderName(h: PairingCode.Hash, self: Id, trust: map<Id, Token>, steps: seq<Step>, id: Id)
    requires id in Run(h, Start(self, trust), steps).conns
    ensures id != ""
  {
    RunKeeps(h, self, trust, steps);
    hide Run, SocksOk, CountOk, DialsOk;
  }

  lemma StepOf(h: PairingCode.Hash, w0: World, steps: seq<Step>, k: nat)
    requires k < |steps|
    ensures Run(h, w0, steps[..k + 1]) == Next(h, Run(h, w0, steps[..k]), steps[k])
  {
    assert steps[..k + 1][..k] == steps[..k] && steps[..k + 1][k] == steps[k];
    hide Next;
  }

  // -- a run in which it happens -----------------------------------------------------------------------------

  /** A socket of a paired device shows its token; the device is forgotten; the handler goes on and registers it. */
  function Overtaken(id: Id, t: Token): seq<Step> {
    [] + [Acquire] + [Upgrade(0, true)] + [ReadHello(0, Some((id, t)), P.Open(""), true)] + [Remove(id)] + [Drop(id)]
    + [Ready(0, true)] + [Register(0)]
  }

  lemma RunAnd(h: PairingCode.Hash, w0: World, steps: seq<Step>, step: Step)
    ensures Run(h, w0, steps + [step]) == Next(h, Run(h, w0, steps), step)
  {
    assert (steps + [step])[..|steps|] == steps;
    hide Next;
  }

  /**
   * Forget does not always close what a forgotten peer has: a socket verified before it and registered after it is
   * live, for a device that is no longer trusted.
   */
  lemma ForgottenStaysLive(h: PairingCode.Hash, self: Id, id: Id, t: Token)
    requires id != "" && id != self
    ensures var w := Run(h, Start(self, map[id := t]), Overtaken(id, t)); Usable(w, id) && id !in w.trust
  {
    hide Run, Next, Usable;
    var w0 := Start(self, map[id := t]);
    var none: seq<Step> := [];
    var steps := none + [Acquire] + [Upgrade(0, true)] + [ReadHello(0, Some((id, t)), P.Open(""), true)];
    UpToVerified(h, self, id, t);
    RunAnd(h, w0, steps, Remove(id));
    RunAnd(h, w0, steps + [Remove(id)], Drop(id));
    RunAnd(h, w0, steps + [Remove(id)] + [Drop(id)], Ready(0, true));
    RunAnd(h, w0, steps + [Remove(id)] + [Drop(id)] + [Ready(0, true)], Register(0));
    OvertakesForget(h, Run(h, w0, steps), id);
  }

  lemma OvertakesForget(h: PairingCode.Hash, w: World, id: Id)
    requires id != "" && id !in w.conns && Has(w, 0)
    requires var s := w.socks[0]; s.id == id && s.role == Verified(false) && s.open && !s.filed && !s.returned
    ensures var n := Next(h, Next(h, Next(h, Next(h, w, Remove(id)), Drop(id)), Ready(0, true)), Register(0));
            Usable(n, id) && id !in n.trust
  {
    hide P.Act, Usable;
    var w1 := w.(trust := w.trust - {id});
    var w2 := w1.(socks := w1.socks[0 := w.socks[0].(role := Verified(true))]);
    assert Next(h, w, Remove(id)) == w1;
    assert Next(h, w1, Drop(id)) == w1;
    assert Next(h, w1, Ready(0, true)) == w2;
    hide Next;
    Registers(h, w2, 0, id);
  }

  lemma UpToVerified(h: PairingCode.Hash, self: Id, id: Id, t: Token)
    requires id != "" && id != self
    ensures var w0 := Start(self, map[id := t]);
            var v := New(Verified(false)).(id := id, token := t, open := true, slot := true,
                                           defers := [TearDown, ReleaseSlot]);
            Run(h, w0, [] + [Acquire] + [Upgrade(0, true)] + [ReadHello(0, Some((id, t)), P.Open(""), true)])
            == w0.(handshakes := 1, socks := [v])
  {
    var w0 := Start(self, map[id := t]);
    var none: seq<Step> := [];
    var u := New(Upgrading).(slot := true);
    var s := New(Reading).(open := true, slot := true, defers := [TearDown, ReleaseSlot]);
    assert Run(h, w0, none) == w0;
    RunAnd(h, w0, none, Acquire);
    RunAnd(h, w0, none + [Acquire], Upgrade(0, true));
    RunAnd(h, w0, none + [Acquire] + [Upgrade(0, true)], ReadHello(0, Some((id, t)), P.Open(""), true));
    hide Run;
    assert Next(h, w0, Acquire) == w0.(handshakes := 1, socks := [u]) by { hide P.Act; }
    assert Next(h, w0.(handshakes := 1, socks := [u]), Upgrade(0, true)) == w0.(handshakes := 1, socks := [s]) by {
      hide P.Act;
    }
    assert Next(h, w0.(handshakes := 1, socks := [s]), ReadHello(0, Some((id, t)), P.Open(""), true))
        == w0.(handshakes := 1, socks := [s.(id := id, token := t, role := Verified(false))]) by {
      hide P.Act, P.TakeHello;
    }
    hide Next;
  }
}
