/** The pairing driver and the pending set as the objects they are, proved against PairingSpec. */
module PairingManager {
  import opened Common
  import opened PairingCode
  import opened PairingSpec
  import opened PairingInvariant
  import opened PairingTheorems
  import opened PairingDriver

  class Pairing {
    const owner: Id
    const deviceID: Id
    const responder: bool
    const asked: bool
    const nonce: string
    const code: string
    var decision: Option<Decision>
    var remote: seq<PairEvent>
    var localAccepted: bool
    var remoteAccepted: bool
    var stage: Stage
    var results: seq<Verdict>
    var stored: Option<Token>
    var saved: bool
    var alive: bool
    var paired: bool
    var done: bool

    ghost function Abs(): End
      reads this
    {
      End(owner, deviceID, responder, asked, nonce, code, Some(code), decision, remote, localAccepted, remoteAccepted,
          stage, results, stored, saved, true, alive, paired, done)
    }

    /** A pairing whose socket is up and whose code has just been shown, at the head of its driver. */
    constructor (owner: Id, deviceID: Id, responder: bool, nonce: string, code: string, decision: Option<Decision>)
      ensures Abs() == NewDialer(owner, deviceID).(responder := responder, asked := !responder, nonce := nonce,
          code := code,
                         shown := Some(code), decision := decision, stage := Driving, linked := true, alive := true)
    {
      this.owner, this.deviceID, this.responder, this.asked := owner, deviceID, responder, !responder;
      this.nonce, this.code, this.decision, this.remote := nonce, code, decision, [];
      localAccepted, remoteAccepted, stage, results := false, false, Driving, [];
      stored, saved, alive, paired, done := None, false, true, false, false;
    }

    method FailPairing(reason: Reason, notify: bool)
      modifies this`stage
      ensures stage == Failing(OrDeclined(reason), notify)
    {
      var why := reason;
      if why == "" {
        why := DECLINED;
      }
      stage := Failing(why, notify);
    }

    /** After an accept from either side: mint once both are in. */
    method MintIfAgreed(mint: Option<Token>)
      modifies this`stage
      ensures Abs() == AfterSelect(old(Abs()), mint)
    {
      if responder && localAccepted && remoteAccepted {
        if mint.None? {
          FailPairing(INTERNAL, true);
        } else {
          stage := Completing(mint.value);
        }
      }
    }

    method TakeDecision(ok: bool, mint: Option<Token>) returns (sent: seq<Frame>)
      modifies this`decision, this`localAccepted, this`stage, this`alive
      ensures (Abs(), sent) == Select(old(Abs()), Choice.TakeDecision(ok, mint))
    {
      sent := [];
      if decision.None? { return; }
      var d := decision.value;
      decision := None;
      if !d.accept {
        FailPairing(d.reason, true);
        return;
      }
      if localAccepted { return; }
      localAccepted := true;
      if !alive || !ok {
        alive := false;
        FailPairing(UNREACHABLE, false);
        return;
      }
      sent := [Accept(owner)];
      MintIfAgreed(mint);
    }

    method TakeEvent(mint: Option<Token>)
      modifies this`remote, this`remoteAccepted, this`stage
      ensures Abs() == Select(old(Abs()), Choice.TakeEvent(mint)).0
    {
      if remote == [] { return; }
      var ev := remote[0];
      remote := remote[1..];
      match ev
      case EvAccept =>
        remoteAccepted := true;
        MintIfAgreed(mint);
      case EvReject(r) => FailPairing(r, false);
      case EvCancelled(r) => FailPairing(r, true);
      case EvPaired(t) =>
        if responder {
          FailPairing(INTERNAL, true);
        } else if !localAccepted {
          FailPairing(INTERNAL, true);
        } else {
          stage := Completing(t);
        }
      hide OrDeclined, AfterSelect;
    }

    /** One firing of the select; which arms are ready is the world's business. */
    method FireArm(c: Choice) returns (sent: seq<Frame>)
      modifies this
      ensures (Abs(), sent) == Select(old(Abs()), c)
    {
      sent := [];
      match c
      case ContextDone => FailPairing(INTERNAL, true);
      case SocketDone => if !alive { FailPairing(UNREACHABLE, false); }
      case TimerFired => FailPairing(TIMEOUT, true);
      case TakeDecision(ok, mint) => sent := TakeDecision(ok, mint);
      case TakeEvent(mint) => TakeEvent(mint);
    }

    method PushEvent(ev: PairEvent)
      modifies this`remote
      ensures Abs() == Push(old(Abs()), ev)
    {
      if |remote| < EVENT_CAPACITY {
        remote := remote + [ev];
      }
    }

    /** Confirm, once it has found the pairing: the buffer takes one answer. */
    method Decide(d: Decision) returns (ok: bool)
      modifies this`decision
      ensures (Abs(), ok) == PairingSpec.Answer(old(Abs()), d)
    {
      if done { return false; }
      if decision.Some? { return false; }
      decision := Some(d);
      return true;
    }

    method FailureAction(ok: bool) returns (sent: seq<Frame>)
      requires stage.Failing? || stage.Closed?
      modifies this`stage, this`alive, this`results
      ensures (Abs(), sent) == Finish(old(Abs()), ok)
    {
      sent := [];
      if stage.Failing? {
        if stage.notify && alive && ok {
          sent := [Reject(stage.reason)];
        }
        alive := false;
        stage := Closed(stage.reason);
      } else {
        results := results + [Failure(stage.reason)];
        stage := Reported;
      }
    }

    method StoreAction(ok: bool)
      requires stage.Completing?
      modifies this`stage, this`stored, this`saved
      ensures (Abs(), []) == Finish(old(Abs()), ok)
    {
      var wellFormed := ValidLowerHex(stage.token, TOKEN_HEX_LEN);
      if !wellFormed {
        FailPairing(INTERNAL, true);
        return;
      }
      stored := Some(stage.token);
      saved := ok;
      if ok {
        stage := Stored(stage.token);
      } else {
        FailPairing(INTERNAL, true);
      }
      hide AllLowerHex;
    }

    method SuccessAction(ok: bool) returns (sent: seq<Frame>)
      requires stage.Stored? || stage.Announced? || stage.Reported?
      modifies this`stage, this`alive, this`results, this`paired, this`done
      ensures (Abs(), sent) == Finish(old(Abs()), ok)
    {
      sent := [];
      if stage.Stored? {
        paired := true;
        if responder {
          if alive && ok {
            sent := [Paired(stage.token)];
          } else {
            alive := false;
          }
        }
        stage := Announced;
      } else if stage.Announced? {
        results := results + [Success];
        stage := Reported;
      } else {
        done := true;
      }
    }

    method NextAction(ok: bool) returns (sent: seq<Frame>)
      requires Chosen(Abs())
      modifies this
      ensures (Abs(), sent) == Finish(old(Abs()), ok)
    {
      sent := [];
      if stage.Failing? || stage.Closed? {
        sent := FailureAction(ok);
      } else if stage.Completing? {
        StoreAction(ok);
      } else {
        sent := SuccessAction(ok);
      }
      hide Finish;
    }

    method TakeTurn(t: Turn) returns (sent: seq<Frame>)
      modifies this
      ensures (Abs(), sent) == PairingDriver.TakeTurn(old(Abs()), t)
    {
      sent := [];
      match t
      case Fire(c) => sent := FireArm(c); hide Select;
      case Incoming(ev) => PushEvent(ev); hide Push;
      case Human(d) => var _ := Decide(d); hide PairingSpec.Answer;
    }

    /** runPairing: select until an arm chooses the outcome, then see it through. */
    method RunPairing(turns: seq<Turn>, answers: Stage -> bool) returns (sent: seq<Frame>)
      modifies this
      ensures Abs() == Conclude(Drive(old(Abs()), turns).0, answers).0
      ensures sent == Drive(old(Abs()), turns).1 + Conclude(Drive(old(Abs()), turns).0, answers).1
    {
      sent := SelectLoop(turns);
      var last := Wind(answers);
      sent := sent + last;
      hide Drive, Conclude;
    }

    method SelectLoop(turns: seq<Turn>) returns (sent: seq<Frame>)
      modifies this
      ensures Abs() == Drive(old(Abs()), turns).0 && sent == Drive(old(Abs()), turns).1
    {
      hide PairingDriver.TakeTurn;
      ghost var start := Abs();
      sent := [];
      var i := 0;
      while i < |turns| && stage.Driving?
        invariant i <= |turns|
        invariant Drive(start, turns).0 == Drive(Abs(), turns[i..]).0
        invariant Drive(start, turns).1 == sent + Drive(Abs(), turns[i..]).1
      {
        assert turns[i..][0] == turns[i] && turns[i..][1..] == turns[i + 1..];
        var now := TakeTurn(turns[i]);
        sent := sent + now;
        i := i + 1;
      }
      assert Drive(Abs(), turns[i..]) == (Abs(), []);
    }

    /** completePairing or failPairing, then the deferred endPairing. */
    method Wind(answers: Stage -> bool) returns (sent: seq<Frame>)
      modifies this
      ensures Abs() == Conclude(old(Abs()), answers).0 && sent == Conclude(old(Abs()), answers).1
    {
      hide Finish, Rank, Late;
      ghost var start := Abs();
      sent := [];
      while !Early(stage) && !stage.Driving? && !(stage.Reported? && done)
        invariant Conclude(start, answers).0 == Conclude(Abs(), answers).0
        invariant Conclude(start, answers).1 == sent + Conclude(Abs(), answers).1
        decreases Rank(Abs())
      {
        ghost var before := Abs();
        var ok := answers(stage);
        LateFinish(before, ok, None);
        var now := NextAction(ok);
        sent := sent + now;
      }
      assert Conclude(Abs(), answers) == (Abs(), []);
    }
  }

  class Manager {
    const self: Id
    var pending: map<Id, Pairing>

    constructor (self: Id)
      ensures this.self == self && pending == map[]
    {
      this.self, pending := self, map[];
    }

    /** beginPairing: a second pairing with the same device is refused. */
    method BeginPairing(p: Pairing) returns (ok: bool)
      modifies this`pending
      ensures ok <==> p.deviceID !in old(pending)
      ensures pending == if ok then old(pending)[p.deviceID := p] else old(pending)
    {
      if p.deviceID in pending { return false; }
      pending := pending[p.deviceID := p];
      return true;
    }

    /** endPairing: removes p and nothing else, even when another pairing has taken its device since. */
    method EndPairing(p: Pairing)
      modifies this`pending, p`done
      ensures pending == if p.deviceID in old(pending) && old(pending)[p.deviceID] == p
          then old(pending) - {p.deviceID} else old(pending)
      ensures p.done
    {
      if p.deviceID in pending && pending[p.deviceID] == p {
        pending := pending - {p.deviceID};
      }
      p.done := true;
    }

    /**
     * Confirm: the answer reaches the pairing pending for that device, if there is one and it has room, and no
     * other.
     */
    method Confirm(deviceID: Id, d: Decision) returns (ok: bool)
      modifies if deviceID in pending then {pending[deviceID]} else {}
      ensures pending == old(pending)
      ensures ok <==>
          deviceID != "" && deviceID in pending && !old(pending[deviceID].done)
          && old(pending[deviceID].decision).None?
      ensures deviceID in pending ==>
                pending[deviceID].Abs() == if ok then old(pending[deviceID].Abs()).(decision := Some(d))
                    else old(pending[deviceID].Abs())
    {
      if deviceID == "" || deviceID !in pending { return false; }
      ok := pending[deviceID].Decide(d);
    }

    /** handlePairingFrame: whether the socket of `p` may go on, and what its driver learns. */
    method HandlePairingFrame(p: Pairing, f: Frame) returns (goOn: bool)
      requires !p.paired
      modifies p`remote, p`alive
      ensures pending == old(pending)
      ensures p.Abs() == ReadFrame(old(p.Abs()), f, p.deviceID in pending && pending[p.deviceID] == p)
      ensures goOn <==> p.deviceID in pending && pending[p.deviceID] == p && EventFor(p.deviceID, f).Some?
    {
      if p.deviceID !in pending || pending[p.deviceID] != p {
        p.alive := false;
        return false;
      }
      var wellFormed := true;
      match f {
        case Accept(id) =>
          if id == "" || id != p.deviceID {
            wellFormed := false;
          } else {
            p.PushEvent(EvAccept);
          }
        case Paired(token) =>
          wellFormed := ValidLowerHex(token, TOKEN_HEX_LEN);
          if wellFormed { p.PushEvent(EvPaired(token)); }
        case Reject(reason) => p.PushEvent(EvReject(if reason == "" then DECLINED else reason));
        case _ => wellFormed := false;
      }
      if !wellFormed { p.alive := false; }
      return wellFormed;
    }
  }
}
