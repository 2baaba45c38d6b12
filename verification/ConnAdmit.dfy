/** Who gets in: a device that is trusted and shows its token becomes live, from wherever the manager stands. */
module ConnAdmit {
  import opened Common
  import PairingCode
  import P = PairingSpec
  import opened Registry
  import opened ConnLife
  import opened ConnForget

  /** A slot is there for the asking exactly while fewer than 64 are held. */
  lemma SlotsAreGranted(h: PairingCode.Hash, w: World)
    requires Inv(w)
    ensures var n := Next(h, w, Acquire);
            if Slots(w.socks) < 64 then
              && |n.socks| == |w.socks| + 1 && n.socks[|w.socks|].slot && n.socks[|w.socks|].role.Upgrading?
              && n == w.(socks := n.socks, handshakes := w.handshakes + 1)
            else n == w
  {
    hide SocksOk, FiledOk, DialsOk, Slots;
  }

  /** The socket of an inbound device that has got as far as its hello. */
  predicate Greeting(w: World, i: nat) {
    Has(w, i) && w.socks[i].role.Reading? && w.socks[i].open && !w.socks[i].returned && !w.socks[i].filed
  }

  lemma HelloVerifies(h: PairingCode.Hash, w: World, i: nat, id: Id, gate: P.Gate, free: bool)
    requires Greeting(w, i) && id != "" && id != w.self && id in w.trust && !gate.Unreadable? && !gate.WrongVersion?
    ensures var n := Next(h, w, ReadHello(i, Some((id, w.trust[id])), gate, free));
            n == SetSock(w, i, w.socks[i].(id := id, token := w.trust[id], role := Verified(false)))
  {
    hide P.TakeHello;
  }

  lemma ReadyMarks(h: PairingCode.Hash, w: World, i: nat)
    requires Has(w, i) && w.socks[i].role == Verified(false) && w.socks[i].open && !w.socks[i].returned
    ensures Next(h, w, Ready(i, true)) == SetSock(w, i, w.socks[i].(role := Verified(true)))
  {
    hide P.TakeHello;
  }

  /**
   * A trusted device that shows the token this daemon has stored for it is let in: verified, marked paired, and the
   * live socket of its id, whatever else is going on and whoever held that place before.
   */
  lemma TokenIsAdmitted(h: PairingCode.Hash, w: World, i: nat, id: Id, gate: P.Gate, free: bool)
    requires Greeting(w, i) && id != "" && id != w.self && id in w.trust && !gate.Unreadable? && !gate.WrongVersion?
    ensures var v := Next(h, Next(h, Next(h, w, ReadHello(i, Some((id, w.trust[id])), gate, free)), Ready(i, true)),
                          Register(i));
            id in v.conns && v.conns[id] == i && v.socks[i].Paired() && Usable(v, id)
  {
    HelloVerifies(h, w, i, id, gate, free);
    var w1 := Next(h, w, ReadHello(i, Some((id, w.trust[id])), gate, free));
    ReadyMarks(h, w1, i);
    var w2 := Next(h, w1, Ready(i, true));
    hide Next;
    Filed(h, w2, i, id);
  }

  lemma Filed(h: PairingCode.Hash, w: World, i: nat, id: Id)
    requires Has(w, i) && w.socks[i].id == id != "" && w.socks[i].open && MayRegister(w.socks[i])
    ensures var v := Next(h, w, Register(i));
            id in v.conns && v.conns[id] == i && Has(v, i) && v.socks[i].Paired() && Usable(v, id)
  {
    hide P.TakeHello;
  }

  /** Any other first frame changes neither the registry nor the store, and is no way into them by itself. */
  lemma WrongTokenIsAStranger(h: PairingCode.Hash, w: World, i: nat, hello: Option<(Id, Token)>, gate: P.Gate,
                              free: bool)
    requires Greeting(w, i) && (hello.Some? ==> hello.value.0 !in w.trust || w.trust[hello.value.0] != hello.value.1)
    ensures var n := Next(h, w, ReadHello(i, hello, gate, free));
            && n.conns == w.conns && n.trust == w.trust
            && (n.socks[i].role.Gone? || n.socks[i].role.Pairing?) && !n.socks[i].Paired()
  {
    if hello.Some? { StrangerPairs(h, w, hello.value.0, gate, free); }
    hide P.TakeHello;
  }

  lemma StrangerPairs(h: PairingCode.Hash, w: World, id: Id, gate: P.Gate, free: bool)
    ensures !P.TakeHello(h, P.NewResponder(w.self), P.Hello(id), gate, _ => free).0.paired
  {
    hide PairingCode.Code;
  }

  /** A dial of the device, up to its answer. */
  function Dialled(h: PairingCode.Hash, w: World, id: Id): World {
    var asked := Next(h, Next(h, w, BeginDial(id)), Ask(|w.dials|));
    Next(h, asked, Recognise(|w.socks|))
  }

  lemma DialAsks(h: PairingCode.Hash, w: World, id: Id)
    requires id != "" && id in w.trust && id !in w.dialing
    ensures Next(h, Next(h, w, BeginDial(id)), Ask(|w.dials|))
         == w.(dialing := w.dialing[id := |w.dials|], dials := w.dials + [Dial(id, true)],
               socks := w.socks + [New(Asking).(id := id, token := w.trust[id], open := true)])
  {
    hide P.TakeHello;
    assert Next(h, w, BeginDial(id)) == w.(dialing := w.dialing[id := |w.dials|], dials := w.dials + [Dial(id, true)]);
  }

  lemma DialIsAnswered(h: PairingCode.Hash, w: World, id: Id)
    requires id != "" && id in w.trust && id !in w.dialing
    ensures var n := Dialled(h, w, id);
            && |n.socks| == |w.socks| + 1
            && n.socks[|w.socks|]
               == New(Recognised).(id := id, token := w.trust[id], open := true, defers := [TearDown])
  {
    DialAsks(h, w, id);
    hide P.TakeHello;
  }

  /** And out: a trusted device nobody is dialling yet is dialled, and is live once it answers. */
  lemma TrustedIsDialled(h: PairingCode.Hash, w: World, id: Id)
    requires id != "" && id in w.trust && id !in w.dialing
    ensures var i, v := |w.socks|, Next(h, Dialled(h, w, id), Register(|w.socks|));
            && id in v.conns && v.conns[id] == i && Has(v, i) && v.socks[i].Paired() && Usable(v, id)
  {
    DialIsAnswered(h, w, id);
    hide Next, Dialled;
    Filed(h, Dialled(h, w, id), |w.socks|, id);
  }

  /** When a dial ends its device is free for the next one, and no other's is. */
  lemma DialsEnd(h: PairingCode.Hash, w: World, k: nat)
    requires Inv(w) && k < |w.dials| && w.dials[k].running
    ensures var n := Next(h, w, EndDial(k));
            && n.dialing == w.dialing - {w.dials[k].device} && !n.dials[k].running
            && Next(h, n, BeginDial(w.dials[k].device)).dialing.Keys == w.dialing.Keys
  {
    hide SocksOk, FiledOk, CountOk, P.TakeHello;
    assert w.dials[k].device in w.dialing && w.dials[k].device != "";
    var n := Next(h, w, EndDial(k));
    assert n.dialing == w.dialing - {w.dials[k].device};
  }
}
