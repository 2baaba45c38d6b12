/**
 * The engine as the objects it is made of, updated in place: what each stretch of code between two awaits does to
 * them is what SendCalls says it does to the values they stand for.
 */
module TransferEngineModule {
  import opened Common
  import opened ChunkCodec
  import opened Rechunk
  import opened TransferSpec
  import opened TransferObjects
  import S = SendCalls

  class TransferEngine {
    const maxInMemoryBytes: nat
    var outgoing: map<Id, OutgoingState>
    var incoming: map<Id, IncomingState>
    var finished: seq<TransferRecord>
    /** The calls of handleStart still waiting for their human, each with the state object it was started with. */
    var prompts: map<nat, IncomingState>
    var nextSerial: nat
    var droppedFrames: nat
    var disposed: bool
    var hasConsent: bool
    /** What awaitDrain has subscribed to the channel's drain event and to its close. */
    var lowListeners: set<Waiter>
    var closeListeners: set<Waiter>

    /** Every record, every call of sendFile and every incoming state there has been, by serial. */
    ghost var records: map<nat, TransferRecord>
    ghost var calls: map<nat, OutgoingState>
    ghost var receiving: map<nat, IncomingState>

    // -- which objects lead to which ----------------------------------------------------------

    ghost predicate Known(r: TransferRecord)
      reads this
    {
      r.serial in records && records[r.serial] == r
    }

    ghost predicate IsCall(c: OutgoingState)
      reads this
    {
      c.record.serial in calls && calls[c.record.serial] == c
    }

    ghost predicate IsReceiving(r: IncomingState)
      reads this
    {
      r.record.serial in receiving && receiving[r.record.serial] == r
    }

    ghost predicate CallsLinked()
      reads this
    {
      && (forall s :: s in records ==> records[s].serial == s && s < nextSerial)
      && (forall s :: s in calls ==> calls[s].record.serial == s && Known(calls[s].record))
      && (forall id :: id in outgoing ==> outgoing[id].record.id == id && IsCall(outgoing[id]))
      && (forall r :: r in finished ==> Known(r))
    }

    ghost predicate ReceivingLinked()
      reads this
    {
      && (forall s :: s in receiving ==> s !in calls && receiving[s].record.serial == s && Known(receiving[s].record))
      && (forall id :: id in incoming ==>
            incoming[id].record.id == id && IsReceiving(incoming[id]) && incoming[id].record !in finished)
      && (forall s :: s in prompts ==> prompts[s].record.serial == s && IsReceiving(prompts[s]))
    }

    ghost predicate Linked()
      reads this
    {
      CallsLinked() && ReceivingLinked()
    }

    /** A call waits at most once, and its waiter is subscribed to the channel as long as it does. */
    ghost predicate WaitersRight()
      reads this, calls.Values
    {
      && lowListeners == closeListeners
      && (forall s :: s in calls ==> calls[s].WaitsRight())
      && (forall s, w :: s in calls && w in calls[s].drainWaiters ==> w in lowListeners && w.state == calls[s])
      && (forall w :: w in lowListeners ==> IsCall(w.state) && w.state.drainWaiters == {w})
    }

    /** Until its human has answered, an incoming transfer is as it was announced, or it is over. */
    ghost predicate PromptsRight()
      requires ReceivingLinked()
      reads this, records.Values, receiving.Values
    {
      forall s :: s in prompts ==>
        !prompts[s].accepted && (prompts[s].record in finished || prompts[s].record.Value()
            == prompts[s].record.Initial())
    }

    ghost predicate Valid()
      reads this, records.Values, calls.Values, receiving.Values
    {
      Linked() && WaitersRight() && PromptsRight()
    }

    // -- what the objects stand for --------------------------------------------------------

    ghost function CallValue(c: OutgoingState): S.Call
      reads this, c, c.record
    {
      S.Call(c.record.id, c.record.Value(), c.file, c.unread, c.at, c.aborted, c.record in finished, c.returned)
    }

    ghost function Calls(): map<nat, S.Call>
      requires CallsLinked()
      reads this, records.Values, calls.Values
    {
      map s | s in calls :: CallValue(calls[s])
    }

    ghost function Live(): map<Id, nat>
      reads this
    {
      map id | id in outgoing :: outgoing[id].record.serial
    }

    ghost function Incomings(): map<Id, Incoming>
      requires ReceivingLinked()
      reads this, records.Values, receiving.Values
    {
      map id | id in incoming :: incoming[id].Value()
    }

    /** The history, by record: a record filed twice is one record. */
    ghost function History(): map<RecordKey, Record>
      reads this, records.Values
    {
      map s | s in records && records[s] in finished :: (s, records[s].id) := records[s].Value()
    }

    ghost function Prompts(): map<nat, Record>
      reads this
    {
      map s | s in prompts :: prompts[s].record.Initial()
    }

    ghost function Base(): Engine
      requires ReceivingLinked()
      reads this, records.Values, receiving.Values
    {
      Engine(map[], Incomings(), History(), Prompts(), nextSerial, droppedFrames, disposed, hasConsent,
          maxInMemoryBytes)
    }

    ghost function Abs(): S.Machine
      requires Linked()
      reads this, records.Values, calls.Values, receiving.Values
    {
      S.Machine(Base(), Live(), Calls())
    }

    constructor (hasConsent: bool, maxInMemoryBytes: nat)
      ensures Valid() && Abs() == S.NewMachine(hasConsent, maxInMemoryBytes)
    {
      this.maxInMemoryBytes, this.hasConsent := maxInMemoryBytes, hasConsent;
      outgoing, incoming, finished, prompts := map[], map[], [], map[];
      nextSerial, droppedFrames, disposed := 0, 0, false;
      lowListeners, closeListeners := {}, {};
      records, calls, receiving := map[], map[], map[];
    }

    // -- one call ----------------------------------------------------------------------------

    /** Nothing but the map of transfers being sent, and who listens to the channel, has changed among the fields. */
    twostate predicate SameButOutgoing()
      reads this
    {
      && unchanged(this`incoming, this`finished, this`prompts, this`nextSerial, this`droppedFrames)
      && unchanged(this`disposed, this`hasConsent, this`records, this`calls, this`receiving)
    }

    twostate predicate SameFields()
      reads this
    {
      SameButOutgoing() && unchanged(this`outgoing)
    }

    twostate predicate SameRecords()
      reads this, records.Values
    {
      && unchanged(this`records)
      && (forall s :: s in records ==> unchanged(records[s]))
    }

    twostate predicate SameReceiving()
      reads this, receiving.Values
    {
      && unchanged(this`receiving)
      && (forall s :: s in receiving ==> unchanged(receiving[s]))
    }

    twostate predicate SameCalls(c: OutgoingState)
      reads this, calls.Values
    {
      && unchanged(this`calls)
      && (forall s :: s in calls && calls[s] != c ==> unchanged(calls[s]))
    }

    twostate lemma LinksKept()
      requires old(Linked()) && SameFields()
      ensures Linked() && Live() == old(Live())
    {
    }

    twostate lemma BaseKept()
      requires old(Linked()) && Linked() && SameButOutgoing() && SameRecords() && SameReceiving()
      ensures Base() == old(Base())
    {
      assert History() == old(History());
      assert Incomings() == old(Incomings()) by { hide History; }
      hide Linked, CallsLinked;
      assert Prompts() == old(Prompts());
    }

    twostate lemma PromptsKept()
      requires old(Linked()) && Linked() && SameButOutgoing() && SameRecords() && SameReceiving()
      ensures old(PromptsRight()) ==> PromptsRight()
    {
    }

    twostate lemma CallsKept(c: OutgoingState)
      requires old(Linked()) && SameFields() && SameRecords() && SameCalls(c) && old(IsCall(c))
      ensures Linked() && Calls() == old(Calls())[c.record.serial := CallValue(c)]
    {
      LinksKept();
      hide ReceivingLinked;
    }

    twostate lemma WaitersKept(c: OutgoingState)
      requires old(Linked()) && old(WaitersRight()) && SameFields() && SameCalls(c) && old(IsCall(c)) && c.WaitsRight()
      requires unchanged(this`lowListeners, this`closeListeners, c`drainWaiters)
      ensures WaitersRight()
    {
      hide ReceivingLinked;
    }

    lemma CallSeen(c: OutgoingState)
      requires Linked() && IsCall(c)
      ensures c.record.serial in Abs().calls && Abs().calls[c.record.serial] == CallValue(c)
    {
      hide ReceivingLinked;
    }

    lemma CallFields(c: OutgoingState)
      requires Linked() && IsCall(c)
      ensures c.record.serial in Abs().calls
      ensures var v := Abs().calls[c.record.serial];
              && v.id == c.record.id && v.rec == c.record.Value() && v.phase == c.at && v.unread == c.unread
              && v.aborted == c.aborted && v.returned == c.returned
    {
      CallSeen(c);
      hide Abs, Linked;
    }

    /** The engine with one call changed and nothing else, who listens to the channel apart. */
    twostate lemma CallMoved(c: OutgoingState)
      requires old(Valid()) && old(IsCall(c)) && WaitersRight()
      requires SameFields() && SameRecords() && SameReceiving() && SameCalls(c)
      ensures Valid() && Abs() == S.SetCall(old(Abs()), c.record.serial, CallValue(c))
    {
      hide CallsLinked, ReceivingLinked, WaitersRight, PromptsRight, Calls, History, Incomings, Prompts, Live, Base;
      LinksKept();
      BaseKept();
      PromptsKept();
      CallsKept(c);
    }

    /** The coroutine goes on to another await that needs nobody to resolve it. */
    method MoveTo(c: OutgoingState, p: Phase)
      requires Valid() && IsCall(c) && !c.at.Waiting? && !c.Parked() && !p.Waiting? && !(p.Draining? && p.parked)
      modifies c`at
      ensures Valid() && c.at == p && c.record.serial in old(Abs()).calls
      ensures Abs() == S.SetPhase(old(Abs()), c.record.serial, p)
    {
      CallSeen(c);
      assert c.WaitsRight();
      hide CallsLinked, ReceivingLinked, WaitersRight, PromptsRight, Abs;
      c.at := p;
      assert SameFields() && SameRecords() && SameReceiving() && SameCalls(c);
      hide SameFields, SameRecords, SameReceiving, SameCalls;
      WaitersKept(c);
      CallMoved(c);
    }

    /** settleAccept: resolves the wait for the answer, once. */
    method SettleAccept(c: OutgoingState, accept: bool)
      requires Valid() && IsCall(c)
      modifies c`at, c`settleAccept
      ensures Valid() && c.at == if old(c.at).Waiting? then Answered(accept) else old(c.at)
      ensures Abs() == if old(c.at.Waiting?) then S.SetPhase(old(Abs()), c.record.serial, Answered(accept))
          else old(Abs())
    {
      CallSeen(c);
      assert c.WaitsRight();
      hide CallsLinked, ReceivingLinked, WaitersRight, PromptsRight, Abs;
      if c.settleAccept {
        c.settleAccept := false;
        c.at := Answered(accept);
        assert SameFields() && SameRecords() && SameReceiving() && SameCalls(c);
        hide SameFields, SameRecords, SameReceiving, SameCalls;
        WaitersKept(c);
        CallMoved(c);
      }
    }

    twostate lemma WaiterGone(w: Waiter)
      requires old(Linked()) && old(WaitersRight()) && SameFields() && SameCalls(w.state)
      requires w in old(lowListeners) && lowListeners == closeListeners == old(lowListeners) - {w}
      requires w.state.WaitsRight() && w.state.drainWaiters == {}
      ensures WaitersRight()
    {
      hide ReceivingLinked;
    }

    lemma WaiterSeen(w: Waiter)
      requires Valid()
      ensures w in lowListeners ==> IsCall(w.state) && w.state.WaitsRight() && w.state.drainWaiters == {w}
      ensures lowListeners == closeListeners
    {
      if w in lowListeners { assert w.state.WaitsRight(); }
      hide CallsLinked, ReceivingLinked, PromptsRight;
    }

    /** The body of a waiter: it takes itself off all three lists and resolves the await. */
    method Finish(w: Waiter)
      requires Valid() && w in lowListeners
      modifies this`lowListeners, this`closeListeners, w.state`drainWaiters, w.state`at
      ensures WaitersRight() && lowListeners == closeListeners == old(lowListeners) - {w}
      ensures SameFields() && SameRecords() && SameReceiving() && SameCalls(w.state)
      ensures w.state.drainWaiters == {} && old(w.state.Parked()) && w.state.at == S.Woken(old(w.state.at))
    {
      WaiterSeen(w);
      hide CallsLinked, ReceivingLinked, WaitersRight, PromptsRight, Abs;
      var c := w.state;
      lowListeners := lowListeners - {w};
      closeListeners := closeListeners - {w};
      c.drainWaiters := c.drainWaiters - {w};
      c.at := c.at.(parked := false);
      WaiterGone(w);
    }

    /** One waiter of awaitDrain runs; the second time, nothing happens. */
    method RunWaiter(w: Waiter)
      requires Valid()
      modifies this`lowListeners, this`closeListeners, w.state`drainWaiters, w.state`at
      ensures Valid() && lowListeners == closeListeners == old(lowListeners) - {w}
      ensures if w !in old(lowListeners) then Abs() == old(Abs()) && unchanged(w.state)
              else IsCall(w.state) && old(w.state.Parked()) && w.state.drainWaiters == {}
                   && w.state.at == S.Woken(old(w.state.at))
                   && Abs() == S.SetPhase(old(Abs()), w.state.record.serial, S.Woken(old(w.state.at)))
    {
      WaiterSeen(w);
      hide CallsLinked, ReceivingLinked, WaitersRight, PromptsRight, Abs;
      if w !in closeListeners { return; }
      CallSeen(w.state);
      Finish(w);
      hide SameFields, SameRecords, SameReceiving, SameCalls;
      CallMoved(w.state);
    }

    twostate lemma WaiterCame(c: OutgoingState, new w: Waiter)
      requires old(Linked()) && old(WaitersRight()) && SameFields() && old(IsCall(c)) && SameCalls(c) && w.state == c
      requires w !in old(lowListeners) && lowListeners == closeListeners == old(lowListeners) + {w}
      requires c.WaitsRight() && c.drainWaiters == {w} && old(c.drainWaiters) == {}
      ensures WaitersRight()
    {
      hide ReceivingLinked;
    }

    /** The slow half of awaitDrain: one waiter, on the drain event, on the close and on the call itself. */
    method Subscribe(c: OutgoingState, chunk: seq<byte>, rest: seq<byte>, last: bool)
      requires Valid() && IsCall(c) && !c.at.Waiting? && !c.Parked()
      modifies this`lowListeners, this`closeListeners, c`drainWaiters, c`at
      ensures WaitersRight() && c.at == Draining(chunk, rest, last, true)
      ensures SameFields() && SameRecords() && SameReceiving() && SameCalls(c)
    {
      assert c.WaitsRight() && lowListeners == closeListeners;
      hide CallsLinked, ReceivingLinked, WaitersRight, PromptsRight, Abs;
      var w := new Waiter(c);
      lowListeners := lowListeners + {w};
      closeListeners := closeListeners + {w};
      c.drainWaiters := c.drainWaiters + {w};
      c.at := Draining(chunk, rest, last, true);
      WaiterCame(c, w);
    }

    method Park(c: OutgoingState, chunk: seq<byte>, rest: seq<byte>, last: bool)
      requires Valid() && IsCall(c) && !c.at.Waiting? && !c.Parked()
      modifies this`lowListeners, this`closeListeners, c`drainWaiters, c`at
      ensures Valid()
      ensures Abs() == S.SetPhase(old(Abs()), c.record.serial, Draining(chunk, rest, last, true))
    {
      CallSeen(c);
      hide CallsLinked, ReceivingLinked, WaitersRight, PromptsRight, Abs;
      Subscribe(c, chunk, rest, last);
      hide SameFields, SameRecords, SameReceiving, SameCalls;
      CallMoved(c);
    }

    // -- settling a call --------------------------------------------------------------------------

    lemma WaiterOf(c: OutgoingState, w: Waiter)
      requires Valid() && IsCall(c) && w in c.drainWaiters
      ensures w in lowListeners && w.state == c && c.drainWaiters == {w} && c.Parked()
    {
      WaiterSeen(w);
      assert c.WaitsRight();
      hide CallsLinked, ReceivingLinked, PromptsRight;
    }

    lemma NotParkedAlone(c: OutgoingState)
      requires Valid() && IsCall(c)
      ensures c.drainWaiters == {} <==> !c.Parked()
    {
      assert c.WaitsRight();
      hide ReceivingLinked, PromptsRight;
    }

    /** Every waiter of one call runs, which leaves its set empty. */
    method WakeOwn(c: OutgoingState)
      requires Valid() && IsCall(c)
      modifies this`lowListeners, this`closeListeners, c`drainWaiters, c`at
      ensures Valid() && lowListeners <= old(lowListeners)
      ensures c.at == if old(c.Parked()) then S.Woken(old(c.at)) else old(c.at)
      ensures Abs() == if old(c.Parked()) then S.SetPhase(old(Abs()), c.record.serial, S.Woken(old(c.at)))
          else old(Abs())
    {
      hide CallsLinked, ReceivingLinked, WaitersRight, PromptsRight, Abs, S.SetPhase;
      NotParkedAlone(c);
      CallSeen(c);
      var ws := c.drainWaiters;
      while ws != {}
        invariant Valid() && ws <= old(c.drainWaiters) && lowListeners <= old(lowListeners)
        invariant ws == c.drainWaiters
        invariant if ws == {} && old(c.Parked()) then
                    c.at == S.Woken(old(c.at)) && Abs() == S.SetPhase(old(Abs()), c.record.serial, S.Woken(old(c.at)))
                  else c.at == old(c.at) && Abs() == old(Abs())
        decreases ws
      {
        var w :| w in ws;
        WaiterOf(c, w);
        ws := ws - {w};
        RunWaiter(w);
        assert ws == {};
      }
    }

    /** aborted, which the coroutine looks at after every await. */
    method SetAborted(c: OutgoingState, aborted: bool)
      requires Valid() && IsCall(c)
      modifies c`aborted
      ensures Valid()
      ensures var m := old(Abs());
              && c.record.serial in m.calls
              && Abs() == S.SetCall(m, c.record.serial, m.calls[c.record.serial].(aborted := aborted))
    {
      CallSeen(c);
      assert c.WaitsRight();
      hide CallsLinked, ReceivingLinked, WaitersRight, PromptsRight, Abs;
      c.aborted := aborted;
      assert SameFields() && SameRecords() && SameReceiving() && SameCalls(c);
      hide SameFields, SameRecords, SameReceiving, SameCalls;
      WaitersKept(c);
      CallMoved(c);
    }

    /** The coroutine is over. */
    method Return(c: OutgoingState)
      requires Valid() && IsCall(c)
      modifies c`returned
      ensures Valid()
      ensures c.record.serial in old(Abs()).calls && Abs() == S.Return(old(Abs()), c.record.serial)
    {
      CallSeen(c);
      assert c.WaitsRight();
      hide CallsLinked, ReceivingLinked, WaitersRight, PromptsRight, Abs;
      c.returned := true;
      assert SameFields() && SameRecords() && SameReceiving() && SameCalls(c);
      hide SameFields, SameRecords, SameReceiving, SameCalls;
      WaitersKept(c);
      CallMoved(c);
    }

    /** reader.read() yields the next bytes of the file. */
    method TakeRead(c: OutgoingState, count: nat) returns (bytes: seq<byte>)
      requires Valid() && IsCall(c) && count <= |c.unread|
      modifies c`unread
      ensures Valid() && bytes == old(c.unread)[..count]
      ensures var m := old(Abs());
              && c.record.serial in m.calls
              && Abs() == S.SetCall(m, c.record.serial, m.calls[c.record.serial].(unread := old(c.unread)[count..]))
    {
      CallSeen(c);
      assert c.WaitsRight();
      hide CallsLinked, ReceivingLinked, WaitersRight, PromptsRight, Abs;
      bytes := c.unread[..count];
      c.unread := c.unread[count..];
      assert SameFields() && SameRecords() && SameReceiving() && SameCalls(c);
      hide SameFields, SameRecords, SameReceiving, SameCalls;
      WaitersKept(c);
      CallMoved(c);
    }

    // -- records, which the history shares ------------------------------------------------------------

    twostate predicate SameRecordsBut(r: TransferRecord)
      reads this, records.Values
    {
      && unchanged(this`records)
      && (forall s :: s in records && records[s] != r ==> unchanged(records[s]))
    }

    twostate predicate SameStates()
      reads this, calls.Values, receiving.Values
    {
      && unchanged(this`calls, this`receiving)
      && (forall s :: s in calls ==> unchanged(calls[s]))
      && (forall s :: s in receiving ==> unchanged(receiving[s]))
    }

    /** A call's record has been written to, here and wherever the history shows it. */
    twostate lemma HistoryWritten(r: TransferRecord)
      requires old(CallsLinked()) && SameFields() && SameRecordsBut(r) && old(Known(r))
      ensures History() == if r in finished then old(History())[(r.serial, r.id) := r.Value()] else old(History())
    {
    }

    twostate lemma CallsWritten(c: OutgoingState)
      requires old(Linked()) && SameFields() && SameRecordsBut(c.record) && SameStates() && old(IsCall(c))
      ensures Linked() && Calls() == old(Calls())[c.record.serial := CallValue(c)]
    {
      LinksKept();
      hide ReceivingLinked;
    }

    twostate lemma IncomingsKept(c: OutgoingState)
      requires old(Linked()) && SameFields() && SameRecordsBut(c.record) && SameStates() && old(IsCall(c))
      ensures Linked() && Incomings() == old(Incomings()) && (old(PromptsRight()) ==> PromptsRight())
    {
      LinksKept();
      forall s | s in receiving ensures receiving[s].record != c.record
          && receiving[s].Value() == old(receiving[s].Value()) {
        assert s !in calls;
      }
    }

    twostate lemma WaitersSame()
      requires old(Linked()) && old(WaitersRight()) && SameStates()
      requires unchanged(this`calls, this`receiving, this`lowListeners, this`closeListeners)
      ensures WaitersRight()
    {
      hide ReceivingLinked;
    }

    /** The engine with one call's record written to and nothing else. */
    twostate lemma RecordWritten(c: OutgoingState)
      requires old(Valid()) && old(IsCall(c)) && SameFields() && SameRecordsBut(c.record) && SameStates()
      requires unchanged(this`lowListeners, this`closeListeners)
      ensures Valid() && c.record.serial in old(Abs()).calls
      ensures Abs() == S.SetRecord(old(Abs()), c.record.serial, c.record.Value())
    {
      assert old(Known(c.record));
      hide CallsLinked, ReceivingLinked, WaitersRight, PromptsRight, Calls, History, Incomings, Live, SameRecordsBut,
          SameStates;
      LinksKept();
      HistoryWritten(c.record);
      CallsWritten(c);
      IncomingsKept(c);
      WaitersSame();
      CallSeen(c);
    }

    /** `finished` has a record more in front, and nothing else has changed. */
    twostate predicate Filed(r: TransferRecord)
      reads this, records.Values, calls.Values, receiving.Values
    {
      && unchanged(this`outgoing, this`incoming, this`prompts, this`nextSerial, this`droppedFrames)
      && unchanged(this`disposed, this`hasConsent, this`records, this`calls, this`receiving)
      && SameRecords() && SameStates()
      && finished == [r] + old(finished)
    }

    ghost predicate NotIncoming(r: TransferRecord)
      reads this
    {
      forall id :: id in incoming ==> incoming[id].record != r
    }

    twostate lemma HistoryFiled(r: TransferRecord)
      requires old(CallsLinked()) && old(Known(r)) && Filed(r)
      ensures History() == old(History())[(r.serial, r.id) := r.Value()]
    {
    }

    twostate lemma LinksFiled(r: TransferRecord)
      requires old(Linked()) && old(Known(r)) && Filed(r) && old(NotIncoming(r))
      ensures Linked() && Live() == old(Live()) && Prompts() == old(Prompts())
    {
    }

    twostate lemma PromptsFiled(r: TransferRecord)
      requires old(Linked()) && Linked() && Filed(r) && old(PromptsRight())
      ensures PromptsRight()
    {
      forall s | s in prompts
        ensures !prompts[s].accepted && (prompts[s].record in finished || prompts[s].record.Value()
            == prompts[s].record.Initial())
      {
        assert records[s] == prompts[s].record && receiving[s] == prompts[s];
      }
    }

    twostate lemma IncomingsFiled(r: TransferRecord)
      requires old(Linked()) && Linked() && Filed(r)
      ensures Incomings() == old(Incomings())
    {
    }

    twostate lemma CallFiled(c: OutgoingState)
      requires old(Linked()) && Linked() && Filed(c.record) && old(IsCall(c))
      ensures Calls() == old(Calls())[c.record.serial := CallValue(c)]
    {
      hide ReceivingLinked;
    }

    lemma CallNotIncoming(c: OutgoingState)
      requires Linked() && IsCall(c)
      ensures Known(c.record) && NotIncoming(c.record)
    {
    }

    /** A call's record joins the history. */
    method FileCall(c: OutgoingState)
      requires Valid() && IsCall(c)
      modifies this`finished
      ensures Valid()
      ensures var m, s := old(Abs()), c.record.serial;
              && s in m.calls
              && Abs() == S.Machine(m.base.(finished := m.base.finished[(s, c.record.id) := m.calls[s].rec]), m.live,
                                    m.calls[s := m.calls[s].(filed := true)])
    {
      CallNotIncoming(c);
      CallSeen(c);
      hide CallsLinked, ReceivingLinked, WaitersRight, PromptsRight, Calls, History, Incomings, Live, Prompts,
          NotIncoming;
      finished := [c.record] + finished;
      assert Filed(c.record);
      hide Filed;
      LinksFiled(c.record);
      PromptsFiled(c.record);
      HistoryFiled(c.record);
      IncomingsFiled(c.record);
      CallFiled(c);
      WaitersSame();
    }

    method WriteStatus(r: TransferRecord, status: Status, reason: Option<Reason>)
      modifies r
      ensures r.Value() == Finalise(old(r.Value()), status, reason)
    {
      r.status := status;
      if reason.Some? { r.reason := reason; }
    }

    method WriteOutcome(c: OutgoingState, status: Status, reason: Option<Reason>)
      requires Valid() && IsCall(c)
      modifies c.record
      ensures Valid() && c.record.serial in old(Abs()).calls
      ensures var m, s := old(Abs()), c.record.serial;
              Abs() == S.SetRecord(m, s, Finalise(m.calls[s].rec, status, reason))
    {
      CallSeen(c);
      hide Valid, Abs, Linked, WaitersRight, S.SetRecord, Finalise;
      WriteStatus(c.record, status, reason);
      assert SameFields() && SameRecordsBut(c.record) && SameStates();
      hide SameFields, SameRecordsBut, SameStates;
      RecordWritten(c);
    }

    /** Writing a record and then filing it leaves it in the history as written. */
    static lemma WrittenThenFiled(m: S.Machine, s: nat, id: Id, rec: Record)
      requires s in m.calls && m.calls[s].id == id
      ensures var w := S.SetRecord(m, s, rec);
              && s in w.calls && w.live == m.live && w.calls[s] == m.calls[s].(rec := rec)
              && w.base.(finished := w.base.finished[(s, id) := rec])
                  == m.base.(finished := m.base.finished[(s, id) := rec])
              && w.calls[s := w.calls[s].(filed := true)] == m.calls[s := m.calls[s].(rec := rec, filed := true)]
    {
    }

    /** finalise, for a call. */
    method FinaliseCall(c: OutgoingState, status: Status, reason: Option<Reason>)
      requires Valid() && IsCall(c)
      modifies this`finished, c.record
      ensures Valid()
      ensures var m, s := old(Abs()), c.record.serial;
              && s in m.calls
              && var rec := Finalise(m.calls[s].rec, status, reason);
                 Abs() == S.Machine(m.base.(finished := m.base.finished[(s, c.record.id) := rec]), m.live,
                                    m.calls[s := m.calls[s].(rec := rec, filed := true)])
    {
      CallSeen(c);
      hide Valid, Abs, Finalise, S.SetRecord;
      WrittenThenFiled(Abs(), c.record.serial, c.record.id, Finalise(Abs().calls[c.record.serial].rec, status, reason));
      WriteOutcome(c, status, reason);
      FileCall(c);
    }

    twostate lemma LinksLeft()
      requires old(Linked()) && SameButOutgoing()
      requires forall id :: id in outgoing ==> outgoing[id].record.id == id && IsCall(outgoing[id])
      ensures Linked()
    {
    }

    twostate lemma CallsLeft()
      requires old(Linked()) && Linked() && SameButOutgoing() && SameRecords() && SameStates()
      ensures Calls() == old(Calls())
    {
      hide ReceivingLinked;
    }

    lemma LiveLess(id: Id)
      requires CallsLinked()
      ensures (map i | i in outgoing - {id} :: (outgoing - {id})[i].record.serial) == Live() - {id}
    {
    }

    /** this.outgoing.delete(id). */
    method Leave(id: Id)
      requires Valid()
      modifies this`outgoing
      ensures Valid() && outgoing == old(outgoing) - {id}
      ensures Abs() == S.Machine(old(Abs()).base, old(Abs()).live - {id}, old(Abs()).calls)
    {
      LiveLess(id);
      assert forall i :: i in outgoing - {id} ==> outgoing[i].record.id == i && IsCall(outgoing[i]);
      hide CallsLinked, ReceivingLinked, WaitersRight, PromptsRight, Calls, Base;
      outgoing := outgoing - {id};
      assert SameButOutgoing() && SameRecords() && SameStates() && SameReceiving();
      hide SameButOutgoing, SameRecords, SameStates, SameReceiving;
      LinksLeft();
      WaitersSame();
      BaseKept();
      PromptsKept();
      CallsLeft();
    }

    static ghost function Stopping(m: S.Machine, s: nat, aborted: bool): S.Machine
      requires s in m.calls
    {
      S.SetCall(m, s, m.calls[s].(aborted := aborted, phase := S.Woken(m.calls[s].phase)))
    }

    static lemma StopInParts(m: S.Machine, s: nat, aborted: bool)
      requires s in m.calls
      ensures var p := m.calls[s].phase;
              var m1 := S.SetCall(m, s, m.calls[s].(aborted := aborted));
              s in m1.calls
              && Stopping(m, s, aborted)
                 == if p.Waiting? then S.SetPhase(m1, s, Answered(false))
                    else if p.Draining? && p.parked then S.SetPhase(m1, s, S.Woken(p)) else m1
    {
    }

    lemma StopPlan(c: OutgoingState, aborted: bool)
      requires Valid() && IsCall(c)
      ensures var m, s, p := Abs(), c.record.serial, c.at;
              && s in m.calls
              && var m1 := S.SetCall(m, s, m.calls[s].(aborted := aborted));
                 s in m1.calls
                 && Stopping(m, s, aborted)
                    == if p.Waiting? then S.SetPhase(m1, s, Answered(false))
                       else if c.Parked() then S.SetPhase(m1, s, S.Woken(p)) else m1
    {
      CallSeen(c);
      StopInParts(Abs(), c.record.serial, aborted);
      hide Valid, Linked, Abs, S.SetCall, S.SetPhase, Stopping;
    }

    /** First half of settleOutgoing: tell the call to stop, and resolve whatever it waits for. */
    method StopCall(c: OutgoingState, aborted: bool)
      requires Valid() && IsCall(c)
      modifies this`lowListeners, this`closeListeners, c`aborted, c`settleAccept, c`drainWaiters, c`at
      ensures Valid() && lowListeners <= old(lowListeners) && c.at == S.Woken(old(c.at))
      ensures c.record.serial in old(Abs()).calls && Abs() == Stopping(old(Abs()), c.record.serial, aborted)
    {
      hide Valid, Abs, Linked, S.SetCall, S.SetPhase, Stopping, IsCall;
      StopPlan(c, aborted);
      SetAborted(c, aborted);
      SettleAccept(c, false);
      WakeOwn(c);
    }

    /** Second half: out of the map and into the history. */
    method FileAway(c: OutgoingState, status: Status, reason: Option<Reason>)
      requires Valid() && IsCall(c)
      modifies this`outgoing, this`finished, c.record
      ensures Valid() && outgoing == old(outgoing) - {c.record.id}
      ensures c.record.serial in old(Abs()).calls
          && Abs() == Filing(old(Abs()), c.record.serial, c.record.id, status, reason)
    {
      CallSeen(c);
      hide Valid, Abs, Linked, Finalise, CallValue, Known;
      Leave(c.record.id);
      assert IsCall(c);
      FinaliseCall(c, status, reason);
    }

    static ghost function Filing(m: S.Machine, s: nat, id: Id, status: Status, reason: Option<Reason>): S.Machine
      requires s in m.calls
    {
      var rec := Finalise(m.calls[s].rec, status, reason);
      S.Machine(m.base.(finished := m.base.finished[(s, id) := rec]), m.live - {id},
                m.calls[s := m.calls[s].(rec := rec, filed := true)])
    }

    static lemma SettledInParts(m: S.Machine, s: nat, status: Status, reason: Option<Reason>)
      requires s in m.calls
      ensures var c := m.calls[s];
              var stopped := S.SetCall(m, s, c.(aborted := status != Complete, phase := S.Woken(c.phase)));
              S.Settle(m, s, status, reason) == if c.id in m.live then Filing(stopped, s, c.id, status, reason) else m
    {
      hide S.Woken, Finalise;
    }

    lemma SettlePlan(c: OutgoingState, status: Status, reason: Option<Reason>)
      requires Valid() && IsCall(c)
      ensures var m, s := Abs(), c.record.serial;
              s in m.calls
              && S.Settle(m, s, status, reason)
                 == if c.record.id in outgoing then Filing(Stopping(m, s, status != Complete), s, c.record.id, status,
                     reason)
                    else m
    {
      CallSeen(c);
      SettledInParts(Abs(), c.record.serial, status, reason);
      hide S.Settle, Filing, Calls, Base, S.Woken, CallsLinked, ReceivingLinked, WaitersRight, PromptsRight;
    }

    /** settleOutgoing: membership is tested by id. */
    method SettleOutgoing(c: OutgoingState, status: Status, reason: Option<Reason>)
      requires Valid() && IsCall(c)
      modifies this`outgoing, this`finished, this`lowListeners, this`closeListeners, c, c.record
      ensures Valid() && lowListeners <= old(lowListeners) && outgoing == old(outgoing) - {c.record.id}
      ensures c.at == if c.record.id in old(outgoing) then S.Woken(old(c.at)) else old(c.at)
      ensures c.record.serial in old(Abs()).calls
      ensures Abs() == S.Settle(old(Abs()), c.record.serial, status, reason)
    {
      hide Valid, Abs, Linked, S.Settle, Stopping, Filing;
      SettlePlan(c, status, reason);
      if c.record.id in outgoing {
        StopCall(c, status != Complete);
        FileAway(c, status, reason);
      }
    }

    /** The objects of the transfers being sent, and of those being received. */
    ghost function SendStates(): set<OutgoingState>
      reads this`outgoing
    {
      set id | id in outgoing :: outgoing[id]
    }

    ghost function SendRecords(): set<TransferRecord>
      reads this`outgoing
    {
      set id | id in outgoing :: outgoing[id].record
    }

    ghost function ReceiveStates(): set<IncomingState>
      reads this`incoming
    {
      set id | id in incoming :: incoming[id]
    }

    ghost function ReceiveRecords(): set<TransferRecord>
      reads this`incoming
    {
      set id | id in incoming :: incoming[id].record
    }

    lemma LinkedValues()
      requires Valid()
      ensures S.LiveLinked(Abs()) && Abs().live.Keys == outgoing.Keys
      ensures forall id :: id in outgoing ==> IsCall(outgoing[id]) && outgoing[id].record.id == id
      ensures forall id :: id in outgoing ==> Abs().live[id] == outgoing[id].record.serial
    {
      hide ReceivingLinked, WaitersRight, PromptsRight;
    }

    /** First loop of a teardown: every transfer this side sends. */
    method SettleEveryOutgoing(status: Status, reason: Option<Reason>)
      requires Valid()
      modifies this`outgoing, this`finished, this`lowListeners, this`closeListeners
      modifies SendStates(), SendRecords()
      ensures Valid() && lowListeners <= old(lowListeners)
      ensures Abs() == S.SettleSends(old(Abs()), {}, status, reason)
    {
      ghost var m := Abs();
      hide Valid, Abs, Linked, S.SettleSends, S.LiveLinked, S.Settle;
      LinkedValues();
      S.SettleSendsNone(m, status, reason);
      var ids := outgoing.Keys;
      while ids != {}
        invariant Valid() && lowListeners <= old(lowListeners)
        invariant outgoing.Keys == ids <= old(outgoing).Keys && forall i :: i in ids ==> outgoing[i] == old(outgoing)[i]
        invariant Abs() == S.SettleSends(m, ids, status, reason)
        decreases ids
      {
        var id :| id in ids;
        S.SettleSendsStep(m, ids, id, status, reason);
        LinkedValues();
        SettleOutgoing(outgoing[id], status, reason);
        ids := ids - {id};
      }
    }

    // -- the channel's events ---------------------------------------------------------------------

    lemma NobodyParked()
      requires Valid() && lowListeners == {}
      ensures S.UnparkCalls(Abs()) == Abs()
    {
      forall s | s in calls ensures S.UnparkCall(CallValue(calls[s])) == CallValue(calls[s]) {
        NotParkedAlone(calls[s]);
      }
      hide ReceivingLinked, PromptsRight;
    }

    static lemma WokenThenUnparked(m: S.Machine, s: nat)
      requires s in m.calls && m.calls[s].phase.Draining?
      ensures S.UnparkCalls(S.SetPhase(m, s, S.Woken(m.calls[s].phase))) == S.UnparkCalls(m)
    {
    }

    /** Waiters run, those that still wait: every one there is, when the event was for all. */
    method RunWaiters(listeners: set<Waiter>)
      requires Valid() && lowListeners <= listeners
      modifies this`lowListeners, this`closeListeners, set w | w in listeners :: w.state
      ensures Valid() && Abs() == S.UnparkCalls(old(Abs()))
    {
      ghost var m := Abs();
      hide Valid, Abs, Linked, S.UnparkCalls, S.SetPhase;
      var ws := listeners;
      while ws != {}
        invariant Valid() && lowListeners <= ws <= listeners
        invariant S.UnparkCalls(Abs()) == S.UnparkCalls(m)
        decreases ws
      {
        var w :| w in ws;
        ws := ws - {w};
        ParkedCallSeen(w);
        RunWaiter(w);
      }
      NobodyParked();
    }

    lemma ParkedCallSeen(w: Waiter)
      requires Valid()
      ensures w in lowListeners ==>
                var s := w.state.record.serial;
                && s in Abs().calls
                && S.UnparkCalls(S.SetPhase(Abs(), s, S.Woken(w.state.at))) == S.UnparkCalls(Abs())
    {
      WaiterSeen(w);
      if w in lowListeners {
        CallSeen(w.state);
        WokenThenUnparked(Abs(), w.state.record.serial);
      }
      hide Linked, WaitersRight, PromptsRight, Abs, S.UnparkCalls, S.SetPhase;
    }

    /** bufferedamountlow. */
    method HandleDrained()
      requires Valid()
      modifies this`lowListeners, this`closeListeners, ListeningCalls()
      ensures Valid() && Abs() == S.UnparkCalls(old(Abs()))
    {
      RunWaiters(lowListeners);
    }

    // -- sendFile, from one await to the next ------------------------------------------------------------

    /** awaitDrain: a call told to stop, and one that finds the buffer at or below the mark, does not wait. */
    method AwaitDrain(c: OutgoingState, chunk: seq<byte>, rest: seq<byte>, last: bool, env: Env)
      requires Valid() && IsCall(c) && !c.at.Waiting? && !c.Parked()
      modifies this`lowListeners, this`closeListeners, c`drainWaiters, c`at
      ensures Valid() && c.record.serial in old(Abs()).calls
      ensures var m, s := old(Abs()), c.record.serial;
      Abs() == S.SetPhase(m, s, S.Drain(m.calls[s], chunk, rest, last, env))
    {
      CallSeen(c);
      hide Valid, Abs, Linked, S.SetPhase;
      if !c.aborted && env.buffered > HIGH_WATER {
        Park(c, chunk, rest, last);
      } else {
        MoveTo(c, Draining(chunk, rest, last, false));
      }
    }

    /** The chunk loop with `view` to cut, and the head of the read loop after it. */
    method CutOrRead(c: OutgoingState, view: seq<byte>, env: Env)
      requires Valid() && IsCall(c) && !c.at.Waiting? && !c.Parked()
      modifies this`lowListeners, this`closeListeners, c`drainWaiters, c`at, c`returned
      ensures Valid() && c.record.serial in old(Abs()).calls
      ensures Abs() == S.CutOrRead(old(Abs()), c.record.serial, view, env)
    {
      CallSeen(c);
      hide Valid, Abs, Linked, S.SetPhase, S.Return, S.Drain;
      if |view| >= CHUNK_SIZE {
        AwaitDrain(c, view[..CHUNK_SIZE], view[CHUNK_SIZE..], false, env);
      } else if c.aborted {
        Return(c);
      } else {
        MoveTo(c, Reading(view));
      }
    }

    method SettleAndReturn(c: OutgoingState, status: Status, reason: Option<Reason>)
      requires Valid() && IsCall(c)
      modifies this`outgoing, this`finished, this`lowListeners, this`closeListeners, c, c.record
      ensures Valid() && c.record.serial in S.Settle(old(Abs()), c.record.serial, status, reason).calls
      ensures Abs() == S.Return(S.Settle(old(Abs()), c.record.serial, status, reason), c.record.serial)
    {
      hide Valid, Abs, Linked, S.Settle, S.Return;
      SettleOutgoing(c, status, reason);
      Return(c);
    }

    twostate lemma WrittenInPlace(c: OutgoingState)
      requires old(Valid()) && old(IsCall(c)) && WroteOnly(c.record)
      ensures Valid() && c.record.serial in old(Abs()).calls
      ensures Abs() == S.SetRecord(old(Abs()), c.record.serial, c.record.Value())
    {
      hide Valid, Abs, Linked, S.SetRecord;
      RecordWritten(c);
    }

    /** A write to one record object. */
    twostate predicate WroteOnly(r: TransferRecord)
      reads this, records.Values, calls.Values, receiving.Values
    {
      SameFields() && SameRecordsBut(r) && SameStates() && unchanged(this`lowListeners, this`closeListeners)
    }

    /** sendFile after its wait. */
    method ResumeSendFile(c: OutgoingState)
      requires Valid() && IsCall(c) && c.at.Answered?
      modifies this`outgoing, this`finished, this`lowListeners, this`closeListeners, c, c.record
      ensures Valid() && c.record.serial in old(Abs()).calls
      ensures Abs() == S.ResumeCall(old(Abs()), c.record.serial, old(c.at.accept))
    {
      CallSeen(c);
      hide Valid, Abs, Linked, S.Settle, S.Return, S.SetPhase, S.SetRecord;
      if c.aborted {
        Return(c);
      } else if !c.at.accept {
        SettleAndReturn(c, Cancelled, Some(Declined));
      } else {
        c.record.status := Active;
        assert WroteOnly(c.record);
        hide WroteOnly;
        WrittenInPlace(c);
        MoveTo(c, Reading([]));
      }
    }

    /** One read, with the carry in front, cut as far as the next await. */
    method StreamRead(c: OutgoingState, count: nat, env: Env)
      requires Valid() && IsCall(c) && c.at.Reading? && count <= |c.unread|
      modifies this`lowListeners, this`closeListeners, c
      ensures Valid() && c.record.serial in old(Abs()).calls
      ensures Abs() == S.ReadCall(old(Abs()), c.record.serial, old(c.at.carry), count, env)
    {
      CallSeen(c);
      hide Valid, Abs, Linked, S.CutOrRead;
      var view := TakeRead(c, count);
      if c.at.carry != [] {
        view := c.at.carry + view;
      }
      assert view == old(c.at.carry) + old(c.unread)[..count];
      CutOrRead(c, view, env);
    }

    /** The end of streamFile. */
    method FinishStream(c: OutgoingState, env: Env) returns (sent: seq<Frame>)
      requires Valid() && IsCall(c)
      modifies this`outgoing, this`finished, this`lowListeners, this`closeListeners, c, c.record
      ensures Valid() && c.record.serial in old(Abs()).calls
      ensures (Abs(), sent) == S.FinishCall(old(Abs()), c.record.serial, env)
    {
      CallSeen(c);
      hide Valid, Abs, Linked, S.Settle, S.Return;
      if c.aborted {
        Return(c);
        return [];
      }
      sent := SendFrame(env, CompleteFrame(c.record.id));
      SettleAndReturn(c, Complete, None);
    }

    method StreamReadDone(c: OutgoingState, env: Env) returns (sent: seq<Frame>)
      requires Valid() && IsCall(c) && c.at.Reading? && c.unread == []
      modifies this`outgoing, this`finished, this`lowListeners, this`closeListeners, c, c.record
      ensures Valid() && c.record.serial in old(Abs()).calls
      ensures (Abs(), sent) == S.ReadDoneCall(old(Abs()), c.record.serial, old(c.at.carry), env)
    {
      CallSeen(c);
      hide Valid, Abs, Linked, S.FinishCall, S.SetPhase, S.Drain;
      if c.at.carry != [] {
        AwaitDrain(c, c.at.carry, [], true, env);
        return [];
      }
      sent := FinishStream(c, env);
    }

    /** The catch around streamFile: an exception fails the transfer unless it is gone already. */
    method StreamThrow(c: OutgoingState)
      requires Valid() && IsCall(c)
      modifies this`outgoing, this`finished, this`lowListeners, this`closeListeners, c, c.record
      ensures Valid() && c.record.serial in old(Abs()).calls
      ensures Abs() == S.ThrowCall(old(Abs()), c.record.serial)
    {
      CallSeen(c);
      hide Valid, Abs, Linked, S.Settle, S.Return;
      if c.aborted {
        Return(c);
      } else {
        SettleAndReturn(c, Failed, Some(Error));
      }
    }

    method FailChunk(c: OutgoingState, rest: seq<byte>, last: bool)
      requires Valid() && IsCall(c) && c.at.Draining? && !c.at.parked
      modifies this`outgoing, this`finished, this`lowListeners, this`closeListeners, c, c.record
      ensures Valid() && c.record.serial in S.Settle(old(Abs()), c.record.serial, Failed, Some(Error)).calls
      ensures var s := c.record.serial;
      Abs() == S.SetPhase(S.Settle(old(Abs()), s, Failed, Some(Error)), s, Sent(rest, last))
    {
      hide Valid, Abs, Linked, S.Settle, S.SetPhase;
      SettleOutgoing(c, Failed, Some(Error));
      MoveTo(c, Sent(rest, last));
    }

    static ghost function Counted(m: S.Machine, s: nat, count: nat): S.Machine
      requires s in m.calls
    {
      S.SetRecord(m, s, WithMoreBytes(m.calls[s].rec, count))
    }

    method CountBytes(c: OutgoingState, count: nat)
      requires Valid() && IsCall(c)
      modifies c.record
      ensures Valid() && c.record.serial in old(Abs()).calls
      ensures Abs() == Counted(old(Abs()), c.record.serial, count)
    {
      CallFields(c);
      hide Valid, Abs, Linked, S.SetRecord, WithMoreBytes;
      c.record.AddBytes(count);
      assert SameFields() && SameRecordsBut(c.record) && SameStates();
      hide SameFields, SameRecordsBut, SameStates;
      RecordWritten(c);
    }

    /** The write went through: count it. */
    method CountChunk(c: OutgoingState, count: nat, rest: seq<byte>, last: bool)
      requires Valid() && IsCall(c) && c.at.Draining? && !c.at.parked
      modifies c.record, c`at
      ensures Valid() && c.record.serial in old(Abs()).calls
          && c.record.serial in Counted(old(Abs()), c.record.serial, count).calls
      ensures Abs() == S.SetPhase(Counted(old(Abs()), c.record.serial, count), c.record.serial, Sent(rest, last))
    {
      hide Valid, Abs, Linked, S.SetPhase, Counted;
      CountBytes(c, count);
      MoveTo(c, Sent(rest, last));
    }

    lemma ChunkPlan(c: OutgoingState, env: Env)
      requires Valid() && IsCall(c) && c.at.Draining?
      ensures var m, s, p, id := Abs(), c.record.serial, c.at, c.record.id;
              var sent := Sent(p.rest, p.last);
              && s in m.calls && s in S.Settle(m, s, Failed, Some(Error)).calls && s in Counted(m, s, |p.chunk|).calls
              && S.SendChunkCall(m, s, p.chunk, p.rest, p.last, env)
                 == if c.aborted then (S.SetPhase(m, s, sent), [])
                    else if !env.open || (ValidId(id) && !env.ok)
                        then (S.SetPhase(S.Settle(m, s, Failed, Some(Error)), s, sent), [])
                    else if !ValidId(id) then (S.ThrowCall(m, s), [])
                    else (S.SetPhase(Counted(m, s, |p.chunk|), s, sent), [BinaryFrame(Encode(id, p.chunk))])
    {
      CallFields(c);
      ChunkParts(Abs(), c.record.serial);
      hide Valid, Abs, Linked, S.SetPhase, S.Settle, S.SetRecord, S.ThrowCall, ValidId, ChunkCodec.Encode;
    }

    static lemma ChunkParts(m: S.Machine, s: nat)
      requires s in m.calls
      ensures s in S.Settle(m, s, Failed, Some(Error)).calls
    {
    }

    /** sendChunk once its wait is over. */
    method StreamSendChunk(c: OutgoingState, env: Env) returns (sent: seq<Frame>)
      requires Valid() && IsCall(c) && c.at.Draining? && !c.at.parked
      modifies this`outgoing, this`finished, this`lowListeners, this`closeListeners, c, c.record
      ensures Valid() && c.record.serial in old(Abs()).calls
      ensures var p := old(c.at);
              (Abs(), sent) == S.SendChunkCall(old(Abs()), c.record.serial, p.chunk, p.rest, p.last, env)
    {
      hide Valid, Abs, Linked, S.Settle, S.SetPhase, Counted, S.ThrowCall, S.SendChunkCall, ValidId, ChunkCodec.Encode;
      ChunkPlan(c, env);
      sent := [];
      var chunk, rest, last := c.at.chunk, c.at.rest, c.at.last;
      if c.aborted {
        MoveTo(c, Sent(rest, last));
        return;
      }
      if !env.open {
        FailChunk(c, rest, last);
        return;
      }
      var frame := EncodeChunk(c.record.id, chunk);
      if frame.Err? {
        StreamThrow(c);
        return;
      }
      if !env.ok {
        FailChunk(c, rest, last);
        return;
      }
      CountChunk(c, |chunk|, rest, last);
      sent := [BinaryFrame(frame.value)];
    }

    /** From one resolved sendChunk to the next await. */
    method StreamContinue(c: OutgoingState, env: Env) returns (sent: seq<Frame>)
      requires Valid() && IsCall(c) && c.at.Sent?
      modifies this`outgoing, this`finished, this`lowListeners, this`closeListeners, c, c.record
      ensures Valid() && c.record.serial in old(Abs()).calls
      ensures (Abs(), sent) == S.ContinueCall(old(Abs()), c.record.serial, old(c.at.rest), old(c.at.last), env)
    {
      CallFields(c);
      hide Valid, Abs, Linked, S.FinishCall, S.CutOrRead, S.Return;
      sent := [];
      if c.aborted {
        Return(c);
      } else if c.at.last {
        sent := FinishStream(c, env);
      } else {
        CutOrRead(c, c.at.rest, env);
      }
    }

    ghost predicate CanGoOn(c: OutgoingState, w: S.Wake)
      reads c
    {
      && !c.returned
      && match w
         case Timeout => c.at.Waiting?
         case Resume => c.at.Answered?
         case Read(count) => c.at.Reading? && count <= |c.unread|
         case ReadDone => c.at.Reading? && c.unread == []
         case ReadFail => c.at.Reading?
         case SendChunk => c.at.Draining? && !c.at.parked
         case Continue => c.at.Sent?
    }

    lemma GoPlan(c: OutgoingState, w: S.Wake)
      requires Valid() && IsCall(c)
      ensures c.record.serial in Abs().calls
      ensures Abs().calls[c.record.serial].phase == c.at
      ensures S.Ready(Abs().calls[c.record.serial], w) <==> CanGoOn(c, w)
    {
      CallFields(c);
      hide Abs, Valid, Linked;
    }

    /** A call goes on from where it stands, if what it awaits can resolve so. */
    method GoOn(c: OutgoingState, w: S.Wake, env: Env) returns (sent: seq<Frame>)
      requires Valid() && IsCall(c)
      modifies this`outgoing, this`finished, this`lowListeners, this`closeListeners, c, c.record
      ensures Valid()
      ensures (Abs(), sent) == S.CallStep(old(Abs()), c.record.serial, w, env)
    {
      hide Valid, Abs, Linked, IsCall, S.Ready;
      hide S.SetPhase, S.ResumeCall, S.ReadCall, S.ReadDoneCall, S.ThrowCall, S.SendChunkCall, S.ContinueCall;
      GoPlan(c, w);
      sent := [];
      if c.returned { return; }
      match w
      case Timeout => if c.at.Waiting? { SettleAccept(c, false); }
      case Resume => if c.at.Answered? { ResumeSendFile(c); }
      case Read(count) => if c.at.Reading? && count <= |c.unread| { StreamRead(c, count, env); }
      case ReadDone => if c.at.Reading? && c.unread == [] { sent := StreamReadDone(c, env); }
      case ReadFail => if c.at.Reading? { StreamThrow(c); }
      case SendChunk => if c.at.Draining? && !c.at.parked { sent := StreamSendChunk(c, env); }
      case Continue => if c.at.Sent? { sent := StreamContinue(c, env); }
    }

    // -- a new call ---------------------------------------------------------------------------------

    /** The objects a call starts with have joined the rest. */
    twostate predicate Joined(new c: OutgoingState)
      reads this, records.Values, calls.Values, receiving.Values
    {
      && unchanged(this`incoming, this`finished, this`prompts, this`droppedFrames, this`disposed, this`hasConsent,
          this`receiving)
      && unchanged(this`lowListeners, this`closeListeners)
      && c.record.serial == old(nextSerial) && nextSerial == old(nextSerial) + 1
      && records == old(records)[c.record.serial := c.record]
      && calls == old(calls)[c.record.serial := c]
      && outgoing == old(outgoing)[c.record.id := c]
    }

    twostate lemma LinksJoined(new c: OutgoingState)
      requires old(Linked()) && Joined(c)
      ensures Linked() && IsCall(c) && Known(c.record)
    {
    }

    twostate lemma HistoryJoined(new r: TransferRecord)
      requires old(CallsLinked()) && unchanged(this`finished) && r !in finished
      requires records == old(records)[old(nextSerial) := r]
      requires forall t :: t in old(records) ==> unchanged(old(records)[t])
      ensures History() == old(History())
    {
    }

    twostate lemma IncomingsSame()
      requires old(Linked()) && Linked() && unchanged(this`incoming)
      requires forall t :: t in old(records) ==> unchanged(old(records)[t])
      requires forall t :: t in old(receiving) ==> unchanged(old(receiving)[t])
      ensures Incomings() == old(Incomings())
    {
      hide CallsLinked;
    }

    twostate lemma BaseJoined(new c: OutgoingState)
      requires old(Linked()) && Linked() && Joined(c) && c.record !in finished
      requires forall t :: t in old(records) ==> unchanged(old(records)[t])
      requires forall t :: t in old(receiving) ==> unchanged(old(receiving)[t])
      ensures Base() == old(Base()).(next := nextSerial)
    {
      hide CallsLinked, ReceivingLinked, History, Incomings;
      HistoryJoined(c.record);
      IncomingsSame();
      assert Prompts() == old(Prompts());
    }

    twostate lemma PromptsJoined(new c: OutgoingState)
      requires old(Linked()) && Linked() && Joined(c) && old(PromptsRight())
      requires forall t :: t in old(records) ==> unchanged(old(records)[t])
      requires forall t :: t in old(receiving) ==> unchanged(old(receiving)[t])
      ensures PromptsRight()
    {
      hide CallsLinked;
    }

    twostate lemma CallsJoined(new c: OutgoingState)
      requires old(Linked()) && Linked() && Joined(c)
      requires forall t :: t in old(records) ==> unchanged(old(records)[t])
      requires forall t :: t in old(calls) ==> unchanged(old(calls)[t])
      ensures Calls() == old(Calls())[c.record.serial := CallValue(c)]
      ensures Live() == old(Live())[c.record.id := c.record.serial]
    {
      hide ReceivingLinked;
    }

    twostate lemma WaitersJoined(new c: OutgoingState)
      requires old(Linked()) && Linked() && old(WaitersRight()) && Joined(c) && c.WaitsRight() && c.drainWaiters == {}
      requires forall t :: t in old(calls) ==> unchanged(old(calls)[t])
      ensures WaitersRight()
    {
      hide ReceivingLinked;
    }

    lemma NextSerial()
      requires Linked()
      ensures Base().next == nextSerial
    {
    }

    /** The objects of one call: its record, its state, its place in the map. */
    method NewCall(id: Id, file: File) returns (c: OutgoingState)
      requires Valid()
      modifies this`outgoing, this`nextSerial, this`records, this`calls
      ensures Valid() && IsCall(c) && fresh(c) && fresh(c.record) && c.record.id == id && c.file == file
      ensures c.record.serial == old(nextSerial) && !c.at.Waiting? && !c.Parked()
      ensures c.record.name == file.name && c.record.mime == OrDefaultMime(file.mime) && c.record.size == file.size
      ensures old(nextSerial) == old(Abs()).base.next && Abs() == Started(old(Abs()), id, file)
    {
      hide CallsLinked, ReceivingLinked, WaitersRight, PromptsRight, Calls, Base, Live, OrDefaultMime;
      assert Base().next == nextSerial by { NextSerial(); }
      var record := new TransferRecord(nextSerial, id, Send, file.name, OrDefaultMime(file.mime), file.size);
      c := new OutgoingState(record, file);
      records := records[nextSerial := record];
      calls := calls[nextSerial := c];
      outgoing := outgoing[id := c];
      nextSerial := nextSerial + 1;
      assert record !in finished;
      LinksJoined(c);
      BaseJoined(c);
      PromptsJoined(c);
      CallsJoined(c);
      WaitersJoined(c);
      hide Joined;
    }

    /** waitForAccept: from here on an answer, the timer or a settlement resolves the wait. */
    method WaitForAccept(c: OutgoingState)
      requires Valid() && IsCall(c) && !c.Parked()
      modifies c`settleAccept, c`at
      ensures Valid() && c.record.serial in old(Abs()).calls
      ensures Abs() == S.SetPhase(old(Abs()), c.record.serial, Waiting)
    {
      CallSeen(c);
      assert c.WaitsRight();
      hide CallsLinked, ReceivingLinked, WaitersRight, PromptsRight, Abs;
      c.settleAccept := true;
      c.at := Waiting;
      assert SameFields() && SameRecords() && SameReceiving() && SameCalls(c);
      hide SameFields, SameRecords, SameReceiving, SameCalls;
      WaitersKept(c);
      CallMoved(c);
    }

    /** A call as sendFile makes it, not waiting for anything yet. */
    static ghost function Started(m: S.Machine, id: Id, file: File): S.Machine {
      var s := m.base.next;
      var rec := Record(s, id, Send, file.name, OrDefaultMime(file.mime), file.size, 0, Pending, None, 0);
      var call := S.Call(id, rec, file, file.content, Answered(false), false, false, false);
      S.Machine(m.base.(next := s + 1), m.live[id := s], m.calls[s := call])
    }

    static lemma StartPlan(m: S.Machine, id: Id, file: File, env: Env)
      ensures var s, n := m.base.next, Started(m, id, file);
              && s in n.calls && s in S.Settle(n, s, Failed, Some(Error)).calls
              && S.StartCall(m, id, file, env)
                 == if env.open && env.ok then
                      (S.SetPhase(n, s, Waiting), [StartFrame(id, file.name, OrDefaultMime(file.mime), file.size)])
                    else (S.Return(S.Settle(n, s, Failed, Some(Error)), s), [])
    {
      hide OrDefaultMime;
      var s, n := m.base.next, Started(m, id, file);
      var waiting := n.calls[s].(phase := Waiting);
      assert n.calls[s := waiting] == m.calls[s := waiting];
      SettleWaiting(n, s);
      ChunkParts(n, s);
      hide S.Settle;
    }

    /** Settling a call that nobody can answer yet is settling it with the answer no. */
    static lemma SettleWaiting(m: S.Machine, s: nat)
      requires s in m.calls && m.calls[s].phase == Answered(false)
      ensures S.Settle(m, s, Failed, Some(Error)) == S.Settle(S.SetPhase(m, s, Waiting), s, Failed, Some(Error))
              || m.calls[s].id !in m.live
    {
      var c := m.calls[s];
      var w := c.(phase := Waiting);
      var c1 := S.SettledCall(c, Failed, Some(Error));
      assert S.SettledCall(w, Failed, Some(Error)) == c1;
      assert m.calls[s := w][s := c1] == m.calls[s := c1];
      hide S.SettledCall;
    }

    /** The announcement of a call, or its failure. */
    method Announce(c: OutgoingState, env: Env) returns (sent: seq<Frame>)
      requires Valid() && IsCall(c) && !c.at.Waiting? && !c.Parked()
      modifies this`outgoing, this`finished, this`lowListeners, this`closeListeners, c, c.record
      ensures Valid() && c.record.serial in old(Abs()).calls
      ensures env.open && env.ok ==>
                Abs() == S.SetPhase(old(Abs()), c.record.serial, Waiting)
                && sent == [StartFrame(c.record.id, c.record.name, c.record.mime, c.record.size)]
      ensures !(env.open && env.ok) ==>
                c.record.serial in S.Settle(old(Abs()), c.record.serial, Failed, Some(Error)).calls && sent == []
                && Abs() == S.Return(S.Settle(old(Abs()), c.record.serial, Failed, Some(Error)), c.record.serial)
    {
      CallSeen(c);
      hide Valid, Abs, Linked, S.SetPhase, S.Settle, S.Return;
      if !env.open {
        SettleAndReturn(c, Failed, Some(Error));
        return [];
      }
      sent := SendFrame(env, StartFrame(c.record.id, c.record.name, c.record.mime, c.record.size));
      if sent == [] {
        SettleAndReturn(c, Failed, Some(Error));
        return;
      }
      WaitForAccept(c);
    }

    /** sendFile up to its first await. */
    method SendFile(id: Id, file: File, env: Env) returns (sent: seq<Frame>)
      requires Valid()
      modifies this
      ensures Valid() && (Abs(), sent) == S.StartCall(old(Abs()), id, file, env)
    {
      StartPlan(Abs(), id, file, env);
      hide Valid, Abs, Linked, Started, S.StartCall, S.SetPhase, S.Settle, S.Return, OrDefaultMime;
      var c := NewCall(id, file);
      sent := Announce(c, env);
    }

    // -- receiving: what stays as it is ------------------------------------------------------------

    /** No call, no call's record and no listener has changed, nor which of them are in the history. */
    twostate predicate SendsUntouched()
      reads this, calls.Values, set s | s in calls :: calls[s].record
    {
      && unchanged(this`outgoing, this`calls, this`lowListeners, this`closeListeners)
      && (forall s :: s in calls ==> unchanged(calls[s]) && unchanged(calls[s].record)
                                     && (calls[s].record in finished <==> calls[s].record in old(finished)))
    }

    twostate lemma SendsSame()
      requires old(Linked()) && Linked() && SendsUntouched()
      ensures Calls() == old(Calls()) && Live() == old(Live()) && (old(WaitersRight()) ==> WaitersRight())
    {
      hide ReceivingLinked;
      assert old(WaitersRight()) ==> WaitersRight() by { hide Calls, CallValue; }
      hide WaitersRight;
    }

    // -- settling what is received -----------------------------------------------------------------

    lemma ReceivingSeen(st: IncomingState)
      requires Linked() && IsReceiving(st)
      ensures Known(st.record) && forall s :: s in calls ==> calls[s].record != st.record
    {
    }

    twostate lemma LinksFinal(st: IncomingState)
      requires old(Linked()) && old(IsReceiving(st)) && old(NotIncoming(st.record)) && SameButFinished()
      requires finished == [st.record] + old(finished)
      ensures Linked() && Prompts() == old(Prompts())
    {
    }

    twostate predicate SameButFinished()
      reads this
    {
      && unchanged(this`outgoing, this`incoming, this`prompts, this`nextSerial, this`droppedFrames)
      && unchanged(this`disposed, this`hasConsent, this`records, this`calls, this`receiving)
    }

    twostate lemma HistoryFinal(r: TransferRecord)
      requires old(CallsLinked()) && old(Known(r)) && SameRecordsBut(r)
      requires finished == [r] + old(finished)
      ensures History() == old(History())[(r.serial, r.id) := r.Value()]
    {
    }

    twostate lemma IncomingsFinal(st: IncomingState)
      requires old(Linked()) && Linked() && old(IsReceiving(st)) && old(NotIncoming(st.record)) && SameButFinished()
      requires SameRecordsBut(st.record)
      requires forall t :: t in receiving && receiving[t] != st ==> unchanged(receiving[t])
      ensures Incomings() == old(Incomings())
    {
      hide CallsLinked;
    }

    twostate lemma PromptsFinal(st: IncomingState)
      requires old(Linked()) && Linked() && old(IsReceiving(st)) && SameButFinished() && SameRecordsBut(st.record)
      requires forall t :: t in receiving && receiving[t] != st ==> unchanged(receiving[t])
      requires finished == [st.record] + old(finished) && st.accepted == old(st.accepted)
      ensures old(PromptsRight()) ==> PromptsRight()
    {
      hide CallsLinked;
    }

    /** finalise, for a transfer received: its record, wherever it is shown, and the history. */
    method FinaliseIncoming(st: IncomingState, status: Status, reason: Option<Reason>)
      requires Valid() && IsReceiving(st) && NotIncoming(st.record)
      modifies this`finished, st.record, st`chunks
      ensures Valid()
      ensures var m, key := old(Abs()), (st.record.serial, st.record.id);
              Abs() == m.(base := m.base.(finished :=
                  m.base.finished[key := Finalise(old(st.record.Value()), status, reason)]))
    {
      ReceivingSeen(st);
      hide CallsLinked, ReceivingLinked, WaitersRight, PromptsRight, Calls, History, Incomings, Live, Prompts,
          Finalise, NotIncoming;
      st.chunks := [];
      WriteStatus(st.record, status, reason);
      finished := [st.record] + finished;
      assert SameButFinished() && SameRecordsBut(st.record) && SendsUntouched();
      hide SameButFinished, SameRecordsBut, SendsUntouched;
      LinksFinal(st);
      HistoryFinal(st.record);
      IncomingsFinal(st);
      PromptsFinal(st);
      SendsSame();
    }

    twostate predicate SameButIncoming()
      reads this
    {
      && unchanged(this`outgoing, this`finished, this`prompts, this`nextSerial, this`droppedFrames)
      && unchanged(this`disposed, this`hasConsent, this`records, this`calls, this`receiving)
    }

    twostate lemma LinksLess(id: Id)
      requires old(Linked()) && SameButIncoming() && incoming == old(incoming) - {id}
      ensures Linked() && Prompts() == old(Prompts())
    {
    }

    twostate lemma IncomingsLess(id: Id)
      requires old(Linked()) && Linked() && SameButIncoming() && SameRecords() && SameReceiving()
      requires incoming == old(incoming) - {id}
      ensures Incomings() == old(Incomings()) - {id}
    {
      hide CallsLinked;
    }

    /** What does not depend on the map of transfers being received. */
    twostate lemma HistoryAndPromptsSame()
      requires old(Linked()) && Linked() && SameRecords() && SameReceiving() && unchanged(this`finished, this`prompts)
      ensures History() == old(History()) && (old(PromptsRight()) ==> PromptsRight())
    {
      hide CallsLinked;
    }

    /** this.incoming.delete(id). */
    method LeaveIncoming(id: Id)
      requires Valid()
      modifies this`incoming
      ensures Valid() && incoming == old(incoming) - {id}
      ensures var m := old(Abs()); Abs() == m.(base := m.base.(incoming := m.base.incoming - {id}))
    {
      hide CallsLinked, ReceivingLinked, WaitersRight, PromptsRight, Calls, History, Incomings, Live, Prompts;
      incoming := incoming - {id};
      assert SameButIncoming() && SameRecords() && SameReceiving() && SendsUntouched();
      hide SameRecords, SameReceiving, SendsUntouched;
      LinksLess(id);
      IncomingsLess(id);
      HistoryAndPromptsSame();
      SendsSame();
    }

    lemma NotIncomingElsewhere(st: IncomingState)
      requires Valid()
      ensures st.record.id !in incoming ==> NotIncoming(st.record)
    {
    }

    lemma IdIncoming(id: Id)
      requires Valid()
      ensures Linked()
      ensures id in Abs().base.incoming <==> id in incoming
      ensures id in incoming ==>
          IsReceiving(incoming[id]) && incoming[id].record.id == id
          && Abs().base.incoming[id] == incoming[id].Value()
    {
    }

    static ghost function SettlingIncoming(m: S.Machine, id: Id, rec: Record, status: Status,
        reason: Option<Reason>): S.Machine {
      m.(base := TransferSpec.SettleIncoming(m.base, id, rec, status, reason))
    }

    static lemma SettlingInParts(m: S.Machine, id: Id, rec: Record, status: Status, reason: Option<Reason>)
      requires id in m.base.incoming
      ensures var n := m.(base := m.base.(incoming := m.base.incoming - {id}));
              SettlingIncoming(m, id, rec, status, reason)
              == n.(base := n.base.(finished := n.base.finished[(rec.serial, id) := Finalise(rec, status, reason)]))
    {
      hide Finalise;
    }

    lemma SettlingPlan(st: IncomingState, status: Status, reason: Option<Reason>)
      requires Valid() && IsReceiving(st)
      ensures var m, id, rec := Abs(), st.record.id, st.record.Value();
              SettlingIncoming(m, id, rec, status, reason)
              == if id !in incoming then m
                 else
                   var n := m.(base := m.base.(incoming := m.base.incoming - {id}));
                   n.(base := n.base.(finished := n.base.finished[(rec.serial, id) := Finalise(rec, status, reason)]))
    {
      IdIncoming(st.record.id);
      hide Valid, Abs, Linked, Finalise;
      if st.record.id in incoming {
        SettlingInParts(Abs(), st.record.id, st.record.Value(), status, reason);
        hide SettlingIncoming;
      }
    }

    /** settleIncoming: membership is tested by id, and the state object settled is the one passed in. */
    method SettleIncoming(st: IncomingState, status: Status, reason: Option<Reason>)
      requires Valid() && IsReceiving(st)
      modifies this`incoming, this`finished, st.record, st`chunks
      ensures Valid() && incoming == old(incoming) - {st.record.id}
      ensures Abs() == SettlingIncoming(old(Abs()), st.record.id, old(st.record.Value()), status, reason)
    {
      hide Valid, Abs, Linked, SettlingIncoming, Finalise;
      SettlingPlan(st, status, reason);
      if st.record.id !in incoming { return; }
      LeaveIncoming(st.record.id);
      NotIncomingElsewhere(st);
      hide NotIncoming;
      FinaliseIncoming(st, status, reason);
    }

    static lemma ReceivesStep(m: S.Machine, left: set<Id>, id: Id, status: Status, reason: Option<Reason>)
      requires id in left && left <= m.base.incoming.Keys
      ensures SettlingIncoming(S.SettleReceives(m, left, status, reason), id, m.base.incoming[id].rec, status, reason)
              == S.SettleReceives(m, left - {id}, status, reason)
      ensures id in S.SettleReceives(m, left, status, reason).base.incoming
      ensures S.SettleReceives(m, left, status, reason).base.incoming[id] == m.base.incoming[id]
    {
      S.ReceivesStep(m, left, id, status, reason);
      hide Finalise, TransferSpec.SettledIncoming;
    }

    lemma IncomingKeys()
      requires Valid()
      ensures Abs().base.incoming.Keys == incoming.Keys
    {
      hide CallsLinked, WaitersRight, PromptsRight;
    }

    /** Second loop of a teardown: every transfer this side receives. */
    method SettleEveryIncoming(status: Status, reason: Option<Reason>)
      requires Valid()
      modifies this`incoming, this`finished, ReceiveStates(), ReceiveRecords()
      ensures Valid() && Abs() == S.SettleReceives(old(Abs()), {}, status, reason)
    {
      ghost var m := Abs();
      hide Valid, Abs, Linked, S.SettleReceives, SettlingIncoming;
      IncomingKeys();
      S.ReceivesNone(m, status, reason);
      var ids := incoming.Keys;
      while ids != {}
        invariant Valid()
        invariant incoming.Keys == ids <= old(incoming).Keys && forall i :: i in ids ==> incoming[i] == old(incoming)[i]
        invariant Abs() == S.SettleReceives(m, ids, status, reason)
        decreases ids
      {
        var id :| id in ids;
        ReceivesStep(m, ids, id, status, reason);
        IdIncoming(id);
        assert incoming[id].record.Value() == m.base.incoming[id].rec;
        SettleIncoming(incoming[id], status, reason);
        ids := ids - {id};
      }
    }

    lemma TeardownPlan(status: Status, reason: Option<Reason>)
      requires Valid()
      ensures S.SettleReceives(S.SettleSends(Abs(), {}, status, reason), {}, status, reason)
           == S.SettleEverything(Abs(), status, reason)
    {
      S.TeardownInParts(Abs(), status, reason);
      hide Linked, Abs, S.SettleReceives, S.SettleSends, S.SettleEverything;
    }

    /** Both loops. */
    method SettleEverything(status: Status, reason: Option<Reason>)
      requires Valid()
      modifies this, SendStates(), SendRecords(), ReceiveStates(), ReceiveRecords()
      ensures Valid() && lowListeners <= old(lowListeners)
      ensures unchanged(this`disposed, this`records, this`calls, this`receiving)
      ensures Abs() == S.SettleEverything(old(Abs()), status, reason)
    {
      hide Valid, Abs, Linked, S.SettleReceives, S.SettleSends, S.SettleEverything, SendStates, SendRecords,
          ReceiveStates, ReceiveRecords;
      TeardownPlan(status, reason);
      SettleEveryOutgoing(status, reason);
      SettleEveryIncoming(status, reason);
    }

    /** The channel closes: the engine's own listener, unless it has unsubscribed, and then those of the calls. */
    method HandleChannelClose()
      requires Valid()
      modifies this, SendStates(), SendRecords(), ReceiveStates(), ReceiveRecords(), ListeningCalls()
      ensures Valid() && Abs() == S.CloseCalls(old(Abs()))
    {
      DisposedSeen();
      hide Valid, Abs, Linked, S.SettleEverything, S.UnparkCalls, SendStates, SendRecords, ReceiveStates,
          ReceiveRecords;
      var listeners := lowListeners;
      if !disposed {
        SettleEverything(Failed, Some(Error));
      }
      RunWaiters(listeners);
    }

    lemma DisposedSeen()
      requires Valid()
      ensures Linked() && Abs().base.disposed == disposed && lowListeners == closeListeners
    {
    }

    /** Only a flag has changed. */
    twostate lemma FlagSet()
      requires old(Valid()) && SameRecords() && SameReceiving() && SendsUntouched()
      requires unchanged(this`incoming, this`finished, this`prompts, this`nextSerial, this`droppedFrames,
          this`records, this`receiving)
      ensures Valid()
      ensures Abs() == old(Abs()).(base := old(Base()).(disposed := disposed, hasConsent := hasConsent))
    {
      FlagLinks();
      hide CallsLinked, ReceivingLinked, WaitersRight, PromptsRight, Calls, History, Incomings, Live, SendsUntouched,
          SameRecords, SameReceiving;
      assert SameRecords() && SameReceiving();
      HistoryAndPromptsSame();
      SendsSame();
      FlagIncomings();
    }

    twostate lemma FlagLinks()
      requires old(Linked()) && unchanged(this`incoming, this`finished, this`prompts, this`nextSerial, this`records,
          this`receiving)
      requires unchanged(this`outgoing, this`calls)
      ensures Linked() && Prompts() == old(Prompts())
    {
    }

    twostate lemma FlagIncomings()
      requires old(Linked()) && Linked() && SameRecords() && SameReceiving() && unchanged(this`incoming)
      ensures Incomings() == old(Incomings())
    {
      hide CallsLinked;
    }

    method SetDisposed()
      requires Valid()
      modifies this`disposed
      ensures Valid() && Abs() == old(Abs()).(base := old(Abs()).base.(disposed := true))
    {
      hide CallsLinked, ReceivingLinked, WaitersRight, PromptsRight, Calls, History, Incomings, Live, Prompts;
      disposed := true;
      assert SameRecords() && SameReceiving() && SendsUntouched();
      hide SameRecords, SameReceiving, SendsUntouched;
      FlagSet();
    }

    static lemma DisposePlan(m: S.Machine)
      ensures S.DisposeCalls(m)
              == if m.base.disposed then m
                 else S.SettleEverything(m.(base := m.base.(disposed := true)), Cancelled, Some(UserCancelled))
    {
      hide TransferSpec.SettledOutgoing, TransferSpec.SettledIncoming, S.SettledCalls, S.LiveOutgoing;
    }

    /** Once disposed, the engine hears neither frames nor the close. */
    method DisposeEngine()
      requires Valid()
      modifies this, SendStates(), SendRecords(), ReceiveStates(), ReceiveRecords()
      ensures Valid() && Abs() == S.DisposeCalls(old(Abs()))
    {
      DisposedSeen();
      DisposePlan(Abs());
      hide Valid, Abs, Linked, S.SettleEverything, S.DisposeCalls, SendStates, SendRecords, ReceiveStates,
          ReceiveRecords;
      if disposed { return; }
      SetDisposed();
      SettleEverything(Cancelled, Some(UserCancelled));
    }

    method SetConsentHandler(handler: bool)
      requires Valid()
      modifies this`hasConsent
      ensures Valid()
      ensures Abs() == old(Abs()).(base := old(Abs()).base.(hasConsent := handler))
    {
      hide CallsLinked, ReceivingLinked, WaitersRight, PromptsRight, Calls, History, Incomings, Live, Prompts;
      hasConsent := handler;
      assert SameRecords() && SameReceiving() && SendsUntouched();
      hide SameRecords, SameReceiving, SendsUntouched;
      FlagSet();
    }

    // -- a new record, with or without a transfer to go with it ------------------------------------

    twostate lemma NewRecordLinks(new r: TransferRecord)
      requires old(Linked()) && r.serial == old(nextSerial) && nextSerial == old(nextSerial) + 1
      requires records == old(records)[r.serial := r]
      requires unchanged(this`outgoing, this`incoming, this`prompts, this`calls, this`receiving)
      requires finished == old(finished) || (finished == [r] + old(finished) && old(nextSerial) !in receiving)
      requires forall s :: s in old(records) ==> old(records)[s] != r
      ensures Linked()
    {
    }

    twostate lemma NewRecordHistory(new r: TransferRecord)
      requires old(CallsLinked()) && r.serial == old(nextSerial) && finished == [r] + old(finished)
      requires records == old(records)[r.serial := r]
      requires forall t :: t in old(records) ==> old(records)[t] != r && unchanged(old(records)[t])
      ensures History() == old(History())[(r.serial, r.id) := r.Value()]
    {
      assert r.serial !in old(records);
      assert forall s :: s in old(records) ==>
        records[s] == old(records)[s] && (records[s] in finished <==> records[s] in old(finished));
      hide CallsLinked;
    }

    twostate lemma SendsSameBeside()
      requires old(Linked()) && Linked() && unchanged(this`outgoing, this`calls, this`lowListeners, this`closeListeners)
      requires forall t :: t in old(records) ==>
                 unchanged(old(records)[t]) && (old(records)[t] in finished <==> old(records)[t] in old(finished))
      requires forall t :: t in old(calls) ==> unchanged(old(calls)[t])
      ensures Calls() == old(Calls()) && Live() == old(Live()) && (old(WaitersRight()) ==> WaitersRight())
    {
      hide ReceivingLinked;
      assert old(WaitersRight()) ==> WaitersRight() by { hide Calls, CallValue; }
      hide WaitersRight;
    }

    twostate lemma PromptsSameBeside()
      requires old(Linked()) && Linked() && unchanged(this`prompts) && old(PromptsRight())
      requires forall t :: t in old(records) ==> unchanged(old(records)[t])
      requires forall t :: t in old(receiving) ==> unchanged(old(receiving)[t])
      requires forall r :: r in old(finished) ==> r in finished
      ensures PromptsRight() && Prompts() == old(Prompts())
    {
      hide CallsLinked;
    }

    /** refuse: told to the peer, and on record as failed, without ever having been a transfer. */
    method RefuseOffer(f: Frame, reason: Reason, env: Env) returns (sent: seq<Frame>)
      requires Valid() && f.StartFrame?
      modifies this`finished, this`nextSerial, this`records
      ensures Valid()
      ensures (Abs(), sent) == RebasedOnto(old(Abs()), Refuse(old(Abs()).base, f, reason, env))
    {
      hide CallsLinked, ReceivingLinked, WaitersRight, PromptsRight, Calls, History, Incomings, Live, Prompts,
          OrDefaultMime;
      sent := SendFrame(env, CancelFrame(f.id, reason));
      var r := new TransferRecord(nextSerial, f.id, Receive, f.name, OrDefaultMime(f.mime), f.size);
      r.status, r.reason := Failed, Some(reason);
      NextSerialFree();
      records := records[nextSerial := r];
      finished := [r] + finished;
      nextSerial := nextSerial + 1;
      NewRecordLinks(r);
      NewRecordHistory(r);
      IncomingsSame();
      SendsSameBeside();
      PromptsSameBeside();
    }

    lemma NextSerialFree()
      requires Linked()
      ensures nextSerial !in records && nextSerial !in calls && nextSerial !in receiving
    {
    }

    /** The machine after a step of the receiving half, and what it sent. */
    static ghost function RebasedOnto(m: S.Machine, r: Out): (S.Machine, seq<Frame>) {
      (m.(base := r.engine.(outgoing := map[])), r.sent)
    }

    twostate lemma IncomingCame(new st: IncomingState)
      requires old(Linked()) && old(nextSerial) !in old(receiving) && old(nextSerial) !in old(calls)
      requires st.record.serial == old(nextSerial) && nextSerial == old(nextSerial) + 1
      requires records == old(records)[st.record.serial := st.record]
          && receiving == old(receiving)[st.record.serial := st]
      requires unchanged(this`outgoing, this`finished, this`prompts, this`calls)
      requires incoming == old(incoming)[st.record.id := st] && st.record !in finished
      ensures Linked() && IsReceiving(st)
    {
    }

    twostate lemma IncomingsMore(new st: IncomingState)
      requires old(Linked()) && Linked() && incoming == old(incoming)[st.record.id := st]
      requires forall t :: t in old(records) ==> unchanged(old(records)[t])
      requires forall t :: t in old(receiving) ==> unchanged(old(receiving)[t])
      ensures Incomings() == old(Incomings())[st.record.id := st.Value()]
    {
      hide CallsLinked;
    }

    static ghost function WithOffer(m: S.Machine, f: Frame): S.Machine
      requires f.StartFrame?
    {
      var rec := Record(m.base.next, f.id, Receive, f.name, OrDefaultMime(f.mime), f.size, 0, Pending, None, 0);
      m.(base := m.base.(incoming := m.base.incoming[f.id := Incoming(rec, [], 0, 0, false)], next := m.base.next + 1))
    }

    /** The objects of one incoming transfer, and its place in the map. */
    method NewIncoming(f: Frame) returns (st: IncomingState)
      requires Valid() && f.StartFrame?
      modifies this`incoming, this`nextSerial, this`records, this`receiving
      ensures Valid() && IsReceiving(st) && fresh(st) && fresh(st.record) && st.record.id == f.id && !st.accepted
      ensures st.record.serial == old(nextSerial) && incoming == old(incoming)[f.id := st] && st.record !in finished
      ensures var rec := Record(old(nextSerial), f.id, Receive, f.name, OrDefaultMime(f.mime), f.size, 0, Pending,
          None, 0);
              st.record.Value() == st.record.Initial() == rec
      ensures Abs() == WithOffer(old(Abs()), f)
    {
      hide CallsLinked, ReceivingLinked, WaitersRight, PromptsRight, Calls, History, Incomings, Live, Prompts,
          OrDefaultMime;
      var r := new TransferRecord(nextSerial, f.id, Receive, f.name, OrDefaultMime(f.mime), f.size);
      st := new IncomingState(r);
      assert r !in finished;
      NextSerialFree();
      records := records[nextSerial := r];
      receiving := receiving[nextSerial := st];
      incoming := incoming[f.id := st];
      nextSerial := nextSerial + 1;
      IncomingCame(st);
      IncomingsMore(st);
      HistoryJoined(r);
      SendsSameBeside();
      PromptsSameBeside();
    }

    // -- consent -------------------------------------------------------------------------------------

    twostate predicate SameButPrompts()
      reads this
    {
      && unchanged(this`outgoing, this`incoming, this`finished, this`nextSerial, this`droppedFrames)
      && unchanged(this`disposed, this`hasConsent, this`records, this`calls, this`receiving)
    }

    twostate lemma PromptAsked(st: IncomingState)
      requires old(Linked()) && SameButPrompts() && IsReceiving(st) && prompts == old(prompts)[st.record.serial := st]
      ensures Linked() && Prompts() == old(Prompts())[st.record.serial := st.record.Initial()]
    {
    }

    twostate lemma PromptTaken(serial: nat)
      requires old(Linked()) && SameButPrompts() && prompts == old(prompts) - {serial}
      ensures Linked() && Prompts() == old(Prompts()) - {serial}
    {
    }

    twostate lemma PromptsStillRight(st: IncomingState)
      requires old(Linked()) && Linked() && SameButPrompts() && SameRecords() && SameReceiving() && old(PromptsRight())
      requires !st.accepted && st.record.Value() == st.record.Initial()
      requires forall s :: s in prompts ==> (s in old(prompts) && prompts[s] == old(prompts)[s]) || prompts[s] == st
      ensures PromptsRight()
    {
      hide CallsLinked;
    }

    twostate lemma FewerPromptsRight()
      requires old(Linked()) && Linked() && SameButPrompts() && SameRecords() && SameReceiving() && old(PromptsRight())
      requires forall s :: s in prompts ==> s in old(prompts) && prompts[s] == old(prompts)[s]
      ensures PromptsRight()
    {
      hide CallsLinked;
    }

    /** What does not depend on the open questions. */
    twostate lemma HistoryAndIncomingsSame()
      requires old(Linked()) && Linked() && SameRecords() && SameReceiving() && unchanged(this`finished, this`incoming)
      ensures History() == old(History()) && Incomings() == old(Incomings())
    {
      hide CallsLinked;
    }

    /** The human is asked about a transfer just announced. */
    method Ask(st: IncomingState)
      requires Valid() && IsReceiving(st) && !st.accepted && st.record.Value() == st.record.Initial()
      modifies this`prompts
      ensures Valid()
      ensures var m := old(Abs());
              Abs() == m.(base := m.base.(prompts := m.base.prompts[st.record.serial := st.record.Initial()]))
    {
      hide CallsLinked, ReceivingLinked, WaitersRight, PromptsRight, Calls, History, Incomings, Live, Prompts;
      prompts := prompts[st.record.serial := st];
      assert SameRecords() && SameReceiving() && SendsUntouched();
      hide SameRecords, SameReceiving, SendsUntouched;
      PromptAsked(st);
      PromptsStillRight(st);
      HistoryAndIncomingsSame();
      SendsSame();
    }

    static ghost function Asked(m: S.Machine, serial: nat): S.Machine {
      m.(base := m.base.(prompts := m.base.prompts - {serial}))
    }

    /** The human has answered, or the question failed. */
    method TakeAnswer(serial: nat)
      requires Valid()
      modifies this`prompts
      ensures Valid() && prompts == old(prompts) - {serial}
      ensures Abs() == Asked(old(Abs()), serial)
    {
      hide CallsLinked, ReceivingLinked, WaitersRight, PromptsRight, Calls, History, Incomings, Live, Prompts;
      prompts := prompts - {serial};
      assert SameRecords() && SameReceiving() && SendsUntouched();
      hide SameRecords, SameReceiving, SendsUntouched;
      PromptTaken(serial);
      FewerPromptsRight();
      HistoryAndIncomingsSame();
      SendsSame();
    }

    // -- a transfer received, and its record, written to -----------------------------------------------

    twostate predicate OthersUntouched(st: IncomingState)
      reads this, receiving.Values
    {
      && unchanged(this`receiving)
      && (forall t :: t in receiving && receiving[t] != st ==> unchanged(receiving[t]))
    }

    ghost predicate Current(st: IncomingState)
      reads this
    {
      st.record.id in incoming && incoming[st.record.id] == st
    }

    twostate lemma IncomingsWritten(st: IncomingState)
      requires old(Linked()) && Linked() && old(IsReceiving(st)) && SameFields() && SameRecordsBut(st.record)
          && OthersUntouched(st)
      ensures Incomings() == if Current(st) then old(Incomings())[st.record.id := st.Value()] else old(Incomings())
    {
      hide CallsLinked;
    }

    twostate lemma PromptsWritten(st: IncomingState)
      requires old(Linked()) && Linked() && old(IsReceiving(st)) && SameFields() && SameRecordsBut(st.record)
          && OthersUntouched(st)
      requires st.record.serial !in prompts && old(PromptsRight())
      ensures PromptsRight()
    {
      hide CallsLinked;
    }

    /** The engine with one incoming transfer written to, wherever it shows. */
    twostate lemma IncomingWritten(st: IncomingState)
      requires old(Valid()) && old(IsReceiving(st)) && SameFields() && SameRecordsBut(st.record) && OthersUntouched(st)
      requires SendsUntouched() && st.record.serial !in prompts
      ensures Valid()
      ensures var m, id := old(Abs()), st.record.id;
              Abs() == m.(base := m.base.(
                incoming := if Current(st) then m.base.incoming[id := st.Value()] else m.base.incoming,
                finished := if st.record in finished then m.base.finished[(st.record.serial, id) := st.record.Value()]
                            else m.base.finished))
    {
      assert old(Known(st.record)) && old(Linked());
      hide CallsLinked, ReceivingLinked, WaitersRight, PromptsRight, Calls, History, Incomings, Live, SameRecordsBut,
          SendsUntouched;
      LinksKept();
      HistoryWritten(st.record);
      IncomingsWritten(st);
      PromptsWritten(st);
      SendsSame();
    }

    // -- the handlers of the receiving half -----------------------------------------------------------

    lemma BaseSeen()
      requires Valid()
      ensures Linked()
      ensures var b := Abs().base;
              && b.outgoing == map[] && b.next == nextSerial && b.disposed == disposed && b.hasConsent == hasConsent
              && b.maxBytes == maxInMemoryBytes && b.dropped == droppedFrames && b.incoming.Keys == incoming.Keys
      ensures S.Abs(Abs()).outgoing.Keys == outgoing.Keys
    {
      IncomingKeys();
      LinkedValues();
      assert forall id :: id in S.Abs(Abs()).outgoing <==> id in outgoing;
      hide CallsLinked, ReceivingLinked, WaitersRight, PromptsRight, Calls, History, Incomings, Live, Prompts;
    }

    static ghost function WithPrompt(m: S.Machine, serial: nat, f: Frame): S.Machine
      requires f.StartFrame?
    {
      var rec := Record(serial, f.id, Receive, f.name, OrDefaultMime(f.mime), f.size, 0, Pending, None, 0);
      m.(base := m.base.(prompts := m.base.prompts[serial := rec]))
    }

    static ghost function WithoutConsent(m: S.Machine, serial: nat, f: Frame): S.Machine
      requires f.StartFrame?
    {
      var rec := Record(serial, f.id, Receive, f.name, OrDefaultMime(f.mime), f.size, 0, Pending, None, 0);
      SettlingIncoming(m, f.id, rec, Cancelled, Some(Declined))
    }

    static lemma StartInParts(m: S.Machine, f: Frame, env: Env)
      requires f.StartFrame? && m.base.outgoing == map[]
      ensures RebasedOnto(m, StepStart(S.Abs(m), f, env))
              == if f.id in m.base.incoming || f.id in S.Abs(m).outgoing then (m, [])
                 else if f.size < 0 || f.size > MAX_SAFE_INTEGER then RebasedOnto(m, Refuse(m.base, f, Error, env))
                 else if f.size > m.base.maxBytes then RebasedOnto(m, Refuse(m.base, f, TooLarge, env))
                 else if m.base.hasConsent then (WithPrompt(WithOffer(m, f), m.base.next, f), [])
                 else (WithoutConsent(WithOffer(m, f), m.base.next, f), SendFrame(env, AcceptFrame(f.id, false)))
    {
      hide OrDefaultMime, Finalise, Refuse;
      RefuseInParts(m, f, Error, env);
      RefuseInParts(m, f, TooLarge, env);
    }

    static lemma RefuseInParts(m: S.Machine, f: Frame, reason: Reason, env: Env)
      requires f.StartFrame?
      ensures RebasedOnto(m, Refuse(S.Abs(m), f, reason, env)) == RebasedOnto(m, Refuse(m.base, f, reason, env))
    {
      hide OrDefaultMime;
    }

    lemma OfferPlan(f: Frame, env: Env)
      requires Valid() && f.StartFrame?
      ensures Linked()
      ensures RebasedOnto(Abs(), StepStart(S.Abs(Abs()), f, env))
              == if f.id in incoming || f.id in outgoing then (Abs(), [])
                 else if f.size < 0 || f.size > MAX_SAFE_INTEGER
                     then RebasedOnto(Abs(), Refuse(Abs().base, f, Error, env))
                 else if f.size > maxInMemoryBytes then RebasedOnto(Abs(), Refuse(Abs().base, f, TooLarge, env))
                 else if hasConsent then (WithPrompt(WithOffer(Abs(), f), nextSerial, f), [])
                 else (WithoutConsent(WithOffer(Abs(), f), nextSerial, f), SendFrame(env, AcceptFrame(f.id, false)))
    {
      BaseSeen();
      StartInParts(Abs(), f, env);
      hide Linked, Abs, RebasedOnto, WithPrompt, WithOffer, WithoutConsent, StepStart, Refuse;
    }

    /** An announcement, up to the question to the human. */
    method HandleStart(f: Frame, env: Env) returns (sent: seq<Frame>)
      requires Valid() && f.StartFrame?
      modifies this`incoming, this`finished, this`prompts, this`nextSerial, this`records, this`receiving
      ensures Valid()
      ensures (Abs(), sent) == RebasedOnto(old(Abs()), StepStart(S.Abs(old(Abs())), f, env))
    {
      hide Linked, WaitersRight, PromptsRight, Abs, RebasedOnto, WithPrompt, WithOffer, WithoutConsent, StepStart,
          Refuse, OrDefaultMime;
      OfferPlan(f, env);
      if f.id in incoming || f.id in outgoing { return []; }
      if f.size < 0 || f.size > MAX_SAFE_INTEGER {
        sent := RefuseOffer(f, Error, env);
        return;
      }
      if f.size > maxInMemoryBytes {
        sent := RefuseOffer(f, TooLarge, env);
        return;
      }
      sent := Offer(f, env);
    }

    method Offer(f: Frame, env: Env) returns (sent: seq<Frame>)
      requires Valid() && f.StartFrame?
      modifies this`incoming, this`finished, this`prompts, this`nextSerial, this`records, this`receiving
      ensures Valid()
      ensures (Abs(), sent)
              == if hasConsent then (WithPrompt(WithOffer(old(Abs()), f), old(nextSerial), f), [])
                 else (WithoutConsent(WithOffer(old(Abs()), f), old(nextSerial), f),
                     SendFrame(env, AcceptFrame(f.id, false)))
    {
      hide Valid, Abs, WithOffer, OrDefaultMime, SettlingIncoming;
      var st := NewIncoming(f);
      if hasConsent {
        Ask(st);
        return [];
      }
      sent := SendFrame(env, AcceptFrame(f.id, false));
      SettleIncoming(st, Cancelled, Some(Declined));
    }

    lemma FiledSeen(r: TransferRecord)
      requires Valid() && Known(r)
      ensures Linked()
      ensures (r.serial, r.id) in Abs().base.finished <==> r in finished
      ensures r in finished ==> Abs().base.finished[(r.serial, r.id)] == r.Value()
    {
      if r in finished { assert (r.serial, records[r.serial].id) in History(); }
      hide ReceivingLinked, WaitersRight, PromptsRight, Calls, Incomings, Live, Prompts;
    }

    lemma CurrentSeen(st: IncomingState)
      requires Valid() && IsReceiving(st)
      ensures Linked() && Known(st.record)
      ensures st.record.id in Abs().base.incoming <==> st.record.id in incoming
      ensures st.record.id in incoming ==>
          (Abs().base.incoming[st.record.id].rec.serial == st.record.serial <==> Current(st))
      ensures Current(st) ==> Abs().base.incoming[st.record.id] == st.Value() && st.record !in finished
    {
      IdIncoming(st.record.id);
      hide WaitersRight, PromptsRight, Abs;
    }

    lemma PromptSeen(serial: nat)
      requires Valid()
      ensures Linked() && (serial in Abs().base.prompts <==> serial in prompts)
      ensures serial in prompts ==>
                var st := prompts[serial];
                && IsReceiving(st) && st.record.serial == serial && Abs().base.prompts[serial] == st.record.Initial()
                && st.record.Initial().id == st.record.id
                && (st.record in finished || st.record.Value() == st.record.Initial())
    {
      hide WaitersRight, Calls, Incomings, History, Live;
    }

    /** What GoActive does, on values. */
    static ghost function Activated(m: S.Machine, serial: nat, id: Id, current: bool, rec: Record): S.Machine {
      var active := rec.(status := Active);
      m.(base := m.base.(
        incoming := if current && id in m.base.incoming
                    then m.base.incoming[id := m.base.incoming[id].(accepted := true, rec := active)]
                        else m.base.incoming,
        finished := if (serial, id) in m.base.finished then m.base.finished[(serial, id) := active]
            else m.base.finished))
    }

    static lemma AnswerInParts(m: S.Machine, serial: nat, id: Id, rec: Record, accept: bool, env: Env)
      requires m.base.outgoing == map[] && serial in m.base.prompts && m.base.prompts[serial].id == id
      requires var e := m.base;
               var current := id in e.incoming && e.incoming[id].rec.serial == serial;
               && (current ==> e.incoming[id].rec == rec && (serial, id) !in e.finished)
               && ((serial, id) in e.finished ==> e.finished[(serial, id)] == rec)
               && (!current && (serial, id) !in e.finished ==> e.prompts[serial] == rec)
      ensures RebasedOnto(m, StepAnswer(S.Abs(m), serial, accept, env))
              == var n := Asked(m, serial);
                 if id !in m.base.incoming then (n, [])
                 else if !accept then
                   (SettlingIncoming(n, id, rec, Cancelled, Some(Declined)), SendFrame(env, AcceptFrame(id, false)))
                 else (Activated(n, serial, id, m.base.incoming[id].rec.serial == serial, rec),
                     SendFrame(env, AcceptFrame(id, true)))
    {
      hide Finalise, SendFrame;
    }

    lemma ActivePlan(st: IncomingState)
      requires Valid() && IsReceiving(st)
      ensures Linked()
      ensures var m, id, rec := Abs(), st.record.id, st.record.Value().(status := Active);
              Activated(m, st.record.serial, id, Current(st), st.record.Value())
              == m.(base := m.base.(
                   incoming := if Current(st) then m.base.incoming[id := st.Value().(accepted := true, rec := rec)]
                       else m.base.incoming,
                   finished := if st.record in finished then m.base.finished[(st.record.serial, id) := rec]
                       else m.base.finished))
    {
      CurrentSeen(st);
      FiledSeen(st.record);
      hide Valid, Abs, Linked, Known;
    }

    lemma RecordApart(st: IncomingState)
      requires Valid() && IsReceiving(st)
      ensures Known(st.record) && forall s :: s in calls ==> calls[s].record != st.record
    {
      ReceivingSeen(st);
      hide Linked;
    }

    /** state.accepted and record.status. */
    method WriteActive(st: IncomingState)
      requires Valid() && IsReceiving(st)
      modifies st`accepted, st.record`status
      ensures st.record.Value() == old(st.record.Value()).(status := Active)
      ensures st.Value() == old(st.Value()).(accepted := true, rec := st.record.Value())
      ensures SameFields() && SameRecordsBut(st.record) && OthersUntouched(st) && SendsUntouched()
    {
      RecordApart(st);
      hide Valid, Linked;
      st.accepted := true;
      st.record.status := Active;
    }

    /** The object the human was asked about goes active, wherever it now shows. */
    method GoActive(st: IncomingState)
      requires Valid() && IsReceiving(st) && st.record.serial !in prompts
      modifies st`accepted, st.record`status
      ensures Valid()
      ensures Abs() == Activated(old(Abs()), st.record.serial, st.record.id, Current(st), old(st.record.Value()))
    {
      hide Valid, Linked, Abs, Activated, SameFields, SameRecordsBut, OthersUntouched, SendsUntouched;
      ActivePlan(st);
      WriteActive(st);
      IncomingWritten(st);
    }

    lemma AnswerPlan(serial: nat, accept: bool, env: Env)
      requires Valid() && serial in prompts
      ensures Linked() && IsReceiving(prompts[serial]) && prompts[serial].record.serial == serial
      ensures var m, st := Abs(), prompts[serial];
              var n, id, rec := Asked(m, serial), st.record.id, st.record.Value();
              RebasedOnto(m, StepAnswer(S.Abs(m), serial, accept, env))
              == if id !in incoming then (n, [])
                 else if !accept then
                   (SettlingIncoming(n, id, rec, Cancelled, Some(Declined)), SendFrame(env, AcceptFrame(id, false)))
                 else (Activated(n, serial, id, Current(st), rec), SendFrame(env, AcceptFrame(id, true)))
    {
      PromptSeen(serial);
      var st := prompts[serial];
      CurrentSeen(st);
      FiledSeen(st.record);
      BaseSeen();
      hide Valid, Abs, Linked, StepAnswer, Asked, SettlingIncoming, Activated, RebasedOnto;
      AnswerInParts(Abs(), serial, st.record.id, st.record.Value(), accept, env);
    }

    lemma NoSuchPrompt(serial: nat, accept: bool, env: Env)
      requires Valid() && serial !in prompts
      ensures Linked() && RebasedOnto(Abs(), StepAnswer(S.Abs(Abs()), serial, accept, env)) == (Abs(), [])
    {
      PromptSeen(serial);
      BaseSeen();
      hide Valid, Abs, Linked;
    }

    /** The rest of handleStart, which holds its own state object but looks the transfer up by id. */
    method ResumeHandleStart(serial: nat, accept: bool, env: Env) returns (sent: seq<Frame>)
      requires Valid()
      modifies this`incoming, this`finished, this`prompts
      modifies if serial in prompts then {prompts[serial]} else {}
      modifies if serial in prompts then {prompts[serial].record} else {}
      ensures Valid()
      ensures (Abs(), sent) == RebasedOnto(old(Abs()), StepAnswer(S.Abs(old(Abs())), serial, accept, env))
    {
      hide Linked, WaitersRight, PromptsRight, Abs, StepAnswer, Asked, SettlingIncoming, Activated, RebasedOnto;
      if serial !in prompts {
        NoSuchPrompt(serial, accept, env);
        return [];
      }
      AnswerPlan(serial, accept, env);
      var st := prompts[serial];
      TakeAnswer(serial);
      if st.record.id !in incoming { return []; }
      sent := SendFrame(env, AcceptFrame(st.record.id, accept));
      if accept {
        GoActive(st);
      } else {
        SettleIncoming(st, Cancelled, Some(Declined));
      }
    }

    // -- bytes -----------------------------------------------------------------------------------------

    static ghost function Dropped(m: S.Machine): S.Machine {
      m.(base := m.base.(dropped := m.base.dropped + 1))
    }

    method DropFrame()
      requires Valid()
      modifies this`droppedFrames
      ensures Valid() && Abs() == Dropped(old(Abs()))
    {
      hide CallsLinked, ReceivingLinked, WaitersRight, PromptsRight, Calls, History, Incomings, Live, Prompts;
      droppedFrames := droppedFrames + 1;
      assert SameRecords() && SameReceiving() && SendsUntouched();
      hide SameRecords, SameReceiving, SendsUntouched;
      FlagLinks();
      HistoryAndPromptsSame();
      FlagIncomings();
      SendsSame();
    }

    /** An incoming transfer with one payload more, and what it has acknowledged by then. */
    static ghost function Extended(s: Incoming, payload: seq<byte>): Incoming {
      var received := s.received + |payload|;
      s.(chunks := s.chunks + [payload], received := received, rec := s.rec.(bytes := received),
         acked := if received - s.acked >= ACK_INTERVAL_BYTES then received else s.acked)
    }

    method WriteChunk(st: IncomingState, payload: seq<byte>)
      requires Valid() && IsReceiving(st)
      modifies st`chunks, st`received, st`acked, st.record`bytes
      ensures st.Value() == Extended(old(st.Value()), payload) && st.accepted == old(st.accepted)
      ensures SameFields() && SameRecordsBut(st.record) && OthersUntouched(st) && SendsUntouched()
    {
      RecordApart(st);
      hide Valid, Linked;
      st.chunks := st.chunks + [payload];
      st.received := st.received + |payload|;
      st.record.bytes := st.received;
      if st.received - st.acked >= ACK_INTERVAL_BYTES {
        st.acked := st.received;
      }
    }

    static ghost function Appended(m: S.Machine, id: Id, payload: seq<byte>): S.Machine
      requires id in m.base.incoming
    {
      m.(base := m.base.(incoming := m.base.incoming[id := Extended(m.base.incoming[id], payload)]))
    }

    lemma AcceptedSeen(id: Id)
      requires Valid()
      ensures Linked() && (id in Abs().base.incoming <==> id in incoming)
      ensures id in incoming ==>
                && IsReceiving(incoming[id]) && Current(incoming[id]) && incoming[id].record.id == id
                && incoming[id].record !in finished && Abs().base.incoming[id] == incoming[id].Value()
                && (incoming[id].accepted ==> incoming[id].record.serial !in prompts)
    {
      IdIncoming(id);
      hide CallsLinked, WaitersRight, Abs;
    }

    method AppendChunk(st: IncomingState, payload: seq<byte>)
      requires Valid() && Current(st) && st.accepted
      modifies st`chunks, st`received, st`acked, st.record`bytes
      ensures Valid() && st.record.id in old(Abs()).base.incoming
          && Abs() == Appended(old(Abs()), st.record.id, payload)
    {
      hide Valid, Linked, Abs, SameFields, SameRecordsBut, OthersUntouched, SendsUntouched, Extended;
      AcceptedSeen(st.record.id);
      WriteChunk(st, payload);
      IncomingWritten(st);
    }

    static lemma BinaryInParts(m: S.Machine, data: seq<byte>, env: Env)
      requires m.base.outgoing == map[]
      ensures RebasedOnto(m, StepBinary(S.Abs(m), data, env))
              == var d := Decode(data);
                 if d.None? || d.value.transferId !in m.base.incoming || !m.base.incoming[d.value.transferId].accepted
                 then (Dropped(m), [])
                 else
                   var id, payload := d.value.transferId, d.value.payload;
                   var s := m.base.incoming[id];
                   var received := s.received + |payload|;
                   if received > s.rec.size then
                     (SettlingIncoming(m, id, s.rec, Failed, Some(Error)), SendFrame(env, CancelFrame(id, Error)))
                   else
                     (Appended(m, id, payload),
                      if received - s.acked >= ACK_INTERVAL_BYTES then SendFrame(env, AckFrame(id, received)) else [])
    {
      hide Finalise, SendFrame, ChunkCodec.Decode;
    }

    lemma BinaryPlan(data: seq<byte>, env: Env)
      requires Valid()
      ensures Linked()
      ensures RebasedOnto(Abs(), StepBinary(S.Abs(Abs()), data, env))
              == var d := Decode(data);
                 if d.None? || d.value.transferId !in incoming || !incoming[d.value.transferId].accepted
                     then (Dropped(Abs()), [])
                 else
                   var id, payload := d.value.transferId, d.value.payload;
                   var st := incoming[id];
                   var received := st.received + |payload|;
                   if received > st.record.size then
                     (SettlingIncoming(Abs(), id, st.record.Value(), Failed, Some(Error)),
                         SendFrame(env, CancelFrame(id, Error)))
                   else
                     (if id in Abs().base.incoming then Appended(Abs(), id, payload) else Abs(),
                      if received - st.acked >= ACK_INTERVAL_BYTES then SendFrame(env, AckFrame(id, received)) else [])
    {
      hide Valid, Linked, Abs, StepBinary, ChunkCodec.Decode, Appended, SettlingIncoming, Dropped, SendFrame,
          RebasedOnto;
      BaseSeen();
      BinaryInParts(Abs(), data, env);
      if Decode(data).Some? { AcceptedSeen(Decode(data).value.transferId); }
    }

    /** One binary frame: dropped and counted, too much, or appended. */
    method HandleBinary(data: seq<byte>, env: Env) returns (sent: seq<Frame>)
      requires Valid()
      modifies this`incoming, this`finished, this`droppedFrames, ReceiveStates(), ReceiveRecords()
      ensures Valid()
      ensures (Abs(), sent) == RebasedOnto(old(Abs()), StepBinary(S.Abs(old(Abs())), data, env))
    {
      hide Valid, Linked, Abs, StepBinary, ChunkCodec.Decode, Appended, SettlingIncoming, Dropped, RebasedOnto;
      BinaryPlan(data, env);
      sent := [];
      var decoded := DecodeChunk(data);
      if decoded.None? || decoded.value.transferId !in incoming || !incoming[decoded.value.transferId].accepted {
        DropFrame();
        return;
      }
      var id, payload := decoded.value.transferId, decoded.value.payload;
      var st := incoming[id];
      AcceptedSeen(id);
      if st.received + |payload| > st.record.size {
        sent := SendFrame(env, CancelFrame(id, Error));
        SettleIncoming(st, Failed, Some(Error));
        return;
      }
      if st.received + |payload| - st.acked >= ACK_INTERVAL_BYTES {
        sent := SendFrame(env, AckFrame(id, st.received + |payload|));
      }
      AppendChunk(st, payload);
    }

    // -- completion ------------------------------------------------------------------------------------

    /** new Blob(chunks): the parts one after the other. */
    static method MakeBlob(chunks: seq<seq<byte>>) returns (blob: seq<byte>)
      ensures blob == Flatten(chunks)
    {
      blob := [];
      for i := 0 to |chunks|
        invariant blob == Flatten(chunks[..i])
      {
        FlattenAppend(chunks[..i], chunks[i]);
        assert chunks[..i + 1] == chunks[..i] + [chunks[i]];
        blob := blob + chunks[i];
      }
      assert chunks[..|chunks|] == chunks;
    }

    static lemma CompleteInParts(m: S.Machine, id: Id, env: Env)
      requires m.base.outgoing == map[]
      ensures S.Rebased(m, StepComplete(S.Abs(m), id, env))
              == if id in S.Abs(m).outgoing || id !in m.base.incoming then S.Out2(m, [], [])
                 else
                   var s := m.base.incoming[id];
                   if s.received != s.rec.size || !env.urlOk then
                     S.Out2(SettlingIncoming(m, id, s.rec, Failed, Some(Error)), [], [])
                   else
                     S.Out2(SettlingIncoming(m, id, s.rec, Complete, None), SendFrame(env, AckFrame(id, s.received)),
                            [ReceivedFile(s.rec.serial, id, s.rec.name, s.rec.mime, s.rec.size, Flatten(s.chunks))])
    {
      hide Finalise, SendFrame, Flatten;
    }

    lemma CompletePlan(id: Id, env: Env)
      requires Valid()
      ensures Linked()
      ensures S.Rebased(Abs(), StepComplete(S.Abs(Abs()), id, env))
              == if id in outgoing || id !in incoming then S.Out2(Abs(), [], [])
                 else
                   var st := incoming[id];
                   var r := st.record;
                   if st.received != r.size || !env.urlOk then
                     S.Out2(SettlingIncoming(Abs(), id, r.Value(), Failed, Some(Error)), [], [])
                   else
                     S.Out2(SettlingIncoming(Abs(), id, r.Value(), Complete, None),
                         SendFrame(env, AckFrame(id, st.received)),
                            [ReceivedFile(r.serial, id, r.name, r.mime, r.size, Flatten(st.chunks))])
    {
      hide Valid, Linked, Abs, StepComplete, SettlingIncoming, SendFrame, Flatten, S.Rebased;
      BaseSeen();
      CompleteInParts(Abs(), id, env);
      AcceptedSeen(id);
    }

    /** transfer:complete: an echo, a short transfer, a file that cannot be opened, or a file. */
    method HandleComplete(id: Id, env: Env) returns (sent: seq<Frame>, files: seq<ReceivedFile>)
      requires Valid()
      modifies this`incoming, this`finished, ReceiveStates(), ReceiveRecords()
      ensures Valid()
      ensures S.Out2(Abs(), sent, files) == S.Rebased(old(Abs()), StepComplete(S.Abs(old(Abs())), id, env))
    {
      hide Valid, Linked, Abs, StepComplete, SettlingIncoming, S.Rebased;
      CompletePlan(id, env);
      sent, files := [], [];
      if id in outgoing || id !in incoming { return; }
      var st := incoming[id];
      AcceptedSeen(id);
      if st.received != st.record.size {
        SettleIncoming(st, Failed, Some(Error));
        return;
      }
      var blob := MakeBlob(st.chunks);
      if !env.urlOk {
        SettleIncoming(st, Failed, Some(Error));
        return;
      }
      sent := SendFrame(env, AckFrame(id, st.received));
      files := [ReceivedFile(st.record.serial, id, st.record.name, st.record.mime, st.record.size, blob)];
      SettleIncoming(st, Complete, None);
    }

    // -- cancels, answers and acks -----------------------------------------------------------------------

    lemma OutgoingSeen(id: Id)
      requires Valid()
      ensures Linked() && (id in Abs().live && Abs().live[id] in Abs().calls <==> id in outgoing)
      ensures id in S.Abs(Abs()).outgoing <==> id in outgoing
      ensures id in outgoing ==>
          IsCall(outgoing[id]) && outgoing[id].record.id == id
          && Abs().live[id] == outgoing[id].record.serial
    {
      LinkedValues();
      BaseSeen();
      assert id in outgoing ==> Abs().live[id] in Abs().calls;
      hide Valid, Abs, Linked;
    }

    static lemma CancelInParts(m: S.Machine, id: Id, reason: Reason, env: Env)
      requires m.base.outgoing == map[] && id !in S.Abs(m).outgoing && !(id in m.live && m.live[id] in m.calls)
      ensures S.CancelCall(m, id, reason, env)
              == if id !in m.base.incoming then S.Out2(m, [], [])
                 else S.Out2(SettlingIncoming(m, id, m.base.incoming[id].rec, Cancelled, Some(reason)),
                             SendFrame(env, CancelFrame(id, reason)), [])
      ensures S.Rebased(m, StepRemoteCancel(S.Abs(m), id, reason))
              == if id !in m.base.incoming then S.Out2(m, [], [])
                 else S.Out2(SettlingIncoming(m, id, m.base.incoming[id].rec, Cancelled, Some(reason)), [], [])
    {
      hide Finalise, SendFrame;
    }

    lemma CancelPlan(id: Id, reason: Reason, env: Env)
      requires Valid()
      ensures Linked()
      ensures S.CancelCall(Abs(), id, reason, env)
              == if id in outgoing then
                   S.Out2(Settled(Abs(), outgoing[id].record.serial, Cancelled, reason),
                       SendFrame(env, CancelFrame(id, reason)), [])
                 else if id in incoming then
                   S.Out2(SettlingIncoming(Abs(), id, incoming[id].record.Value(), Cancelled, Some(reason)),
                          SendFrame(env, CancelFrame(id, reason)), [])
                 else S.Out2(Abs(), [], [])
    {
      hide Valid, Linked, Abs, SettlingIncoming, SendFrame, S.Settle, S.Abs, S.Rebased;
      OutgoingSeen(id);
      BaseSeen();
      AcceptedSeen(id);
      if id !in outgoing { CancelInParts(Abs(), id, reason, env); }
    }

    static ghost function Settled(m: S.Machine, s: nat, status: Status, reason: Reason): S.Machine {
      if s in m.calls then S.Settle(m, s, status, Some(reason)) else m
    }

    /** cancel: told to the peer, then settled, which wakes the call. */
    method Cancel(id: Id, reason: Reason, env: Env) returns (sent: seq<Frame>)
      requires Valid()
      modifies this`outgoing, this`incoming, this`finished, this`lowListeners, this`closeListeners
      modifies SendStates(), SendRecords(), ReceiveStates(), ReceiveRecords()
      ensures Valid()
      ensures S.Out2(Abs(), sent, []) == S.CancelCall(old(Abs()), id, reason, env)
    {
      hide Valid, Linked, Abs, SettlingIncoming, S.Settle, S.CancelCall;
      CancelPlan(id, reason, env);
      sent := [];
      if id in outgoing {
        OutgoingSeen(id);
        sent := SendFrame(env, CancelFrame(id, reason));
        SettleOutgoing(outgoing[id], Cancelled, Some(reason));
      } else if id in incoming {
        AcceptedSeen(id);
        sent := SendFrame(env, CancelFrame(id, reason));
        SettleIncoming(incoming[id], Cancelled, Some(reason));
      }
    }

    lemma RemoteCancelPlan(id: Id, reason: Reason, env: Env)
      requires Valid() && !disposed
      ensures Linked()
      ensures S.DeliverStep(Abs(), CancelFrame(id, reason), env)
              == S.Out2(if id in outgoing then
                          Settled(Abs(), outgoing[id].record.serial, if reason.Error? || reason.TooLarge? then Failed
                              else Cancelled, reason)
                        else if id in incoming then SettlingIncoming(Abs(), id, incoming[id].record.Value(),
                            Cancelled, Some(reason))
                        else Abs(), [], [])
    {
      hide Valid, Linked, Abs, SettlingIncoming, S.Settle, S.Rebased, StepRemoteCancel, S.LiveOutgoing;
      OutgoingSeen(id);
      BaseSeen();
      AcceptedSeen(id);
      if id !in outgoing { CancelInParts(Abs(), id, reason, env); }
    }

    /** transfer:cancel, for either direction. */
    method HandleRemoteCancel(id: Id, reason: Reason, ghost env: Env)
      requires Valid() && !disposed
      modifies this`outgoing, this`incoming, this`finished, this`lowListeners, this`closeListeners
      modifies SendStates(), SendRecords(), ReceiveStates(), ReceiveRecords()
      ensures Valid()
      ensures S.Out2(Abs(), [], []) == S.DeliverStep(old(Abs()), CancelFrame(id, reason), env)
    {
      hide Valid, Linked, Abs, SettlingIncoming, S.Settle, S.DeliverStep;
      RemoteCancelPlan(id, reason, env);
      if id in outgoing {
        OutgoingSeen(id);
        SettleOutgoing(outgoing[id], if reason.Error? || reason.TooLarge? then Failed else Cancelled, Some(reason));
      } else if id in incoming {
        AcceptedSeen(id);
        SettleIncoming(incoming[id], Cancelled, Some(reason));
      }
    }

    lemma AcceptPlan(id: Id, accept: bool, env: Env)
      requires Valid() && !disposed
      ensures Linked()
      ensures S.DeliverStep(Abs(), AcceptFrame(id, accept), env)
              == S.Out2(if id in outgoing && outgoing[id].at.Waiting? && outgoing[id].record.serial in Abs().calls
                        then S.SetPhase(Abs(), outgoing[id].record.serial, Answered(accept)) else Abs(), [], [])
    {
      OutgoingSeen(id);
      BaseSeen();
      if id in outgoing { CallFields(outgoing[id]); }
      hide Valid, Linked, Abs, S.SetPhase;
    }

    /** transfer:accept: state?.settleAccept?.(...). */
    method HandleAccept(id: Id, accept: bool, ghost env: Env)
      requires Valid() && !disposed
      modifies SendStates()
      ensures Valid() && S.Out2(Abs(), [], []) == S.DeliverStep(old(Abs()), AcceptFrame(id, accept), env)
    {
      hide Valid, Linked, Abs, S.SetPhase, S.DeliverStep;
      AcceptPlan(id, accept, env);
      if id in outgoing {
        OutgoingSeen(id);
        SettleAccept(outgoing[id], accept);
      }
    }

    static ghost function Acked(m: S.Machine, s: nat, bytes: int): S.Machine
      requires s in m.calls
    {
      S.SetRecord(m, s, WithAck(m.calls[s].rec, bytes))
    }

    lemma AckPlan(id: Id, bytes: int, env: Env)
      requires Valid() && !disposed
      ensures Linked()
      ensures S.DeliverStep(Abs(), AckFrame(id, bytes), env)
              == S.Out2(if id in outgoing && outgoing[id].record.serial in Abs().calls
                        then Acked(Abs(), outgoing[id].record.serial, bytes) else Abs(), [], [])
    {
      OutgoingSeen(id);
      BaseSeen();
      hide Valid, Linked, Abs, S.SetRecord;
    }

    method WriteAcked(c: OutgoingState, bytes: int)
      requires Valid() && IsCall(c)
      modifies c.record
      ensures Valid() && c.record.serial in old(Abs()).calls && Abs() == Acked(old(Abs()), c.record.serial, bytes)
    {
      CallFields(c);
      hide Valid, Abs, Linked, S.SetRecord, WithAck;
      c.record.SetAcked(bytes);
      assert SameFields() && SameRecordsBut(c.record) && SameStates();
      hide SameFields, SameRecordsBut, SameStates;
      RecordWritten(c);
    }

    /** transfer:ack, for a transfer still in the map. */
    method HandleAck(id: Id, bytes: int, ghost env: Env)
      requires Valid() && !disposed
      modifies SendRecords()
      ensures Valid() && S.Out2(Abs(), [], []) == S.DeliverStep(old(Abs()), AckFrame(id, bytes), env)
    {
      hide Valid, Linked, Abs, Acked, S.DeliverStep;
      AckPlan(id, bytes, env);
      if id in outgoing {
        OutgoingSeen(id);
        WriteAcked(outgoing[id], bytes);
      }
    }

    lemma ReceiverPlan(f: Frame, env: Env)
      requires Valid()
      ensures Linked()
      ensures disposed || f.TextFrame? ==> S.DeliverStep(Abs(), f, env) == S.Out2(Abs(), [], [])
      ensures !disposed && f.StartFrame? ==>
          S.DeliverStep(Abs(), f, env) == S.Rebased(Abs(), StepStart(S.Abs(Abs()), f, env))
      ensures !disposed && f.CompleteFrame? ==>
          S.DeliverStep(Abs(), f, env) == S.Rebased(Abs(), StepComplete(S.Abs(Abs()), f.id, env))
      ensures !disposed && f.BinaryFrame? ==>
          S.DeliverStep(Abs(), f, env) == S.Rebased(Abs(), StepBinary(S.Abs(Abs()), f.data, env))
    {
      hide Valid, Linked, Abs, StepStart, StepComplete, StepBinary, S.LiveOutgoing;
      BaseSeen();
    }

    static lemma NoFiles(m: S.Machine, r: Out)
      requires r.files == []
      ensures S.Rebased(m, r) == S.Out2(RebasedOnto(m, r).0, RebasedOnto(m, r).1, [])
    {
    }

    /** The channel's string and binary listeners, with their dispatch on the frame type. */
    method HandleFrame(f: Frame, env: Env) returns (sent: seq<Frame>, files: seq<ReceivedFile>)
      requires Valid()
      modifies this, SendStates(), SendRecords(), ReceiveStates(), ReceiveRecords()
      ensures Valid() && S.Out2(Abs(), sent, files) == S.DeliverStep(old(Abs()), f, env)
    {
      ghost var m := Abs();
      hide Valid, Linked, Abs, S.DeliverStep, S.Rebased, StepStart, StepComplete, StepBinary, RebasedOnto;
      sent, files := [], [];
      if disposed {
        ReceiverPlan(f, env);
        return;
      }
      match f
      case AcceptFrame(id, accept) => HandleAccept(id, accept, env);
      case AckFrame(id, bytes) => HandleAck(id, bytes, env);
      case CancelFrame(id, reason) => HandleRemoteCancel(id, reason, env);
      case TextFrame(_) => ReceiverPlan(f, env);
      case StartFrame(_, _, _, _) =>
        ReceiverPlan(f, env);
        NoFiles(m, StepStart(S.Abs(m), f, env));
        sent := HandleStart(f, env);
      case CompleteFrame(id) =>
        ReceiverPlan(f, env);
        sent, files := HandleComplete(id, env);
      case BinaryFrame(data) =>
        ReceiverPlan(f, env);
        NoFiles(m, StepBinary(S.Abs(m), data, env));
        sent := HandleBinary(data, env);
    }

    lemma ConsentPlan(ev: Event, env: Env)
      requires Valid() && (ev.Answer? || ev.SetConsent?)
      ensures Linked()
      ensures ev.Answer? ==> S.OutsideStep(Abs(), ev, env) == S.Rebased(Abs(),
          StepAnswer(S.Abs(Abs()), ev.serial, ev.accept, env))
      ensures ev.SetConsent? ==>
                S.OutsideStep(Abs(), ev, env) == S.Out2(Abs().(base := Abs().base.(hasConsent := ev.handler)), [], [])
    {
      hide Valid, Linked, Abs, StepAnswer, S.LiveOutgoing;
      BaseSeen();
    }

    method HandleConsent(ev: Event, env: Env) returns (sent: seq<Frame>)
      requires Valid() && (ev.Answer? || ev.SetConsent?)
      modifies this`incoming, this`finished, this`prompts, this`hasConsent
      modifies PromptStates(), PromptRecords()
      ensures Valid() && S.Out2(Abs(), sent, []) == S.OutsideStep(old(Abs()), ev, env)
    {
      ghost var m := Abs();
      hide Valid, Linked, Abs, S.OutsideStep, S.Rebased, RebasedOnto, StepAnswer;
      sent := [];
      ConsentPlan(ev, env);
      if ev.SetConsent? {
        SetConsentHandler(ev.handler);
      } else {
        NoFiles(m, StepAnswer(S.Abs(m), ev.serial, ev.accept, env));
        sent := ResumeHandleStart(ev.serial, ev.accept, env);
      }
    }

    ghost function PromptStates(): set<IncomingState>
      reads this`prompts
    {
      set s | s in prompts :: prompts[s]
    }

    ghost function PromptRecords(): set<TransferRecord>
      reads this`prompts
    {
      set s | s in prompts :: prompts[s].record
    }

    ghost function ListeningCalls(): set<OutgoingState>
      reads this`lowListeners
    {
      set w | w in lowListeners :: w.state
    }

    /**
     * Whatever happens to the engine that is not one call going on by itself: the objects end up standing for the
     * machine after that step, with the frames and the files of that step.
     */
    method Happen(ev: Event, env: Env) returns (sent: seq<Frame>, files: seq<ReceivedFile>)
      requires Valid()
      modifies this, SendStates(), SendRecords(), ReceiveStates(), ReceiveRecords()
      modifies ListeningCalls(), PromptStates(), PromptRecords()
      ensures Valid() && S.Out2(Abs(), sent, files) == S.OutsideStep(old(Abs()), ev, env)
    {
      hide Valid, Linked, Abs, S.StartCall, S.UnparkCalls, S.CancelCall, S.DeliverStep, S.CloseCalls, S.DisposeCalls,
          S.Rebased;
      hide StepAnswer, Step, SendStates, SendRecords, ReceiveStates, ReceiveRecords, ListeningCalls, PromptStates,
          PromptRecords;
      sent, files := [], [];
      match ev
      case SendFile(id, file) => sent := SendFile(id, file, env);
      case Drained => HandleDrained();
      case CancelLocal(id, reason) => sent := Cancel(id, reason, env);
      case Deliver(f) => sent, files := HandleFrame(f, env);
      case Closed => HandleChannelClose();
      case Dispose => DisposeEngine();
      case Answer(_, _) => sent := HandleConsent(ev, env);
      case SetConsent(_) => sent := HandleConsent(ev, env);
      case _ =>
    }
  }
}
