/** Two links negotiating over ordered signalling, either or both of them connecting at any moment. */
module Glare {
  import opened Common
  import opened PairingCode
  import opened PeerLinkModule

  /** The link with the smaller id, the one with the larger, and what is under way to each. */
  datatype Pair = Pair(small: Link, large: Link, toLarge: seq<Desc>, toSmall: seq<Desc>)

  datatype Step = ConnectSmall | ConnectLarge | DeliverSmall | DeliverLarge

  function Start(small: Id, large: Id): Pair { Pair(NewLink(small, large), NewLink(large, small), [], []) }

  function Next(p: Pair, s: Step): Pair {
    match s
    case ConnectSmall => var (l, sent) := ConnectLink(p.small); p.(small := l, toLarge := p.toLarge + sent)
    case ConnectLarge => var (l, sent) := ConnectLink(p.large); p.(large := l, toSmall := p.toSmall + sent)
    case DeliverSmall =>
      if p.toSmall == [] then p
      else
        var (l, sent) := HandleSignal(p.small, p.toSmall[0]);
        Pair(l, p.large, p.toLarge + sent, p.toSmall[1..])
    case DeliverLarge =>
      if p.toLarge == [] then p
      else
        var (l, sent) := HandleSignal(p.large, p.toLarge[0]);
        Pair(p.small, l, p.toLarge[1..], p.toSmall + sent)
  }

  function Run(small: Id, large: Id, steps: seq<Step>): Pair {
    if steps == [] then Start(small, large) else Next(Run(small, large, steps[..|steps| - 1]), steps[|steps| - 1])
  }

  // -- the shapes a negotiation can be in -----------------------------------------------------

  /** Nothing pending; what `a` calls local, `b` calls remote, and one of the two is the other's answer. */
  predicate Match(a: Connection, b: Connection) {
    && a.state.Stable? && b.state.Stable?
    && a.currentLocal == b.currentRemote && a.currentRemote == b.currentLocal
    && (a.currentLocal.Some? <==> a.currentRemote.Some?)
    && (a.currentLocal.Some? ==> Paired(a.currentLocal.value, a.currentRemote.value))
  }

  predicate Paired(x: Desc, y: Desc) {
    (x.Offer? && y.Answer? && y.offer == x) || (y.Offer? && x.Answer? && x.offer == y)
  }

  predicate Waits(c: Connection, offer: Desc) {
    c.state.HaveLocalOffer? && c.pendingLocal == Some(offer) && c.pendingRemote.None? && offer.Offer?
  }

  predicate Settled(c: Connection) { c.state.Stable? && c.pendingLocal.None? && c.pendingRemote.None? }

  predicate Answered(c: Connection, answer: Desc, offer: Desc) {
    Settled(c) && c.currentLocal == Some(answer) && c.currentRemote == Some(offer) && answer.Answer?
        && answer.offer == offer
  }

  /** Nothing under way: both sides agree, or nobody has started. */
  predicate AtRest(a: Link, b: Link, ab: seq<Desc>, ba: seq<Desc>) {
    Match(a.pc, b.pc) && Settled(a.pc) && Settled(b.pc) && ab == [] && ba == []
  }

  /** a's offer is on its way to b, who is not waiting. */
  predicate Offering(a: Link, b: Link, ab: seq<Desc>, ba: seq<Desc>) {
    |ab| == 1 && ba == [] && Waits(a.pc, ab[0]) && Settled(b.pc)
  }

  /** b has answered; the answer is on its way, behind an offer of b's that a will pass over if b lost a collision. */
  predicate Answering(a: Link, b: Link, ab: seq<Desc>, ba: seq<Desc>, offer: Desc) {
    ab == [] && |ba| == 1 && Waits(a.pc, offer) && Answered(b.pc, ba[0], offer)
  }

  /** b has answered and then offered in its turn. */
  predicate Renewing(a: Link, b: Link, ab: seq<Desc>, ba: seq<Desc>, offer: Desc) {
    ab == [] && |ba| == 2 && Waits(a.pc, offer) && ba[0].Answer? && ba[0].offer == offer
    && Waits(b.pc, ba[1]) && b.pc.currentLocal == Some(ba[0]) && b.pc.currentRemote == Some(offer)
  }

  /** Both offers are under way. */
  predicate Crossing(p: Pair) {
    |p.toLarge| == 1 && |p.toSmall| == 1 && Waits(p.small.pc, p.toLarge[0]) && Waits(p.large.pc, p.toSmall[0])
  }

  /** The smaller id has passed over the other's offer; its own is still under way. */
  predicate Insisting(p: Pair) {
    |p.toLarge| == 1 && p.toSmall == [] && Waits(p.small.pc, p.toLarge[0]) && p.large.pc.state.HaveLocalOffer?
  }

  /** The larger id has rolled back and answered; its abandoned offer is still ahead of the answer. */
  predicate Yielding(p: Pair, offer: Desc) {
    p.toLarge == [] && |p.toSmall| == 2 && Waits(p.small.pc, offer) && p.toSmall[0].Offer?
        && Answered(p.large.pc, p.toSmall[1], offer)
  }

  predicate Began(l: Link) { l.role == Some(Initiator) }

  /** The seven shapes, from the side of `a`, who offered last of the two that did not cross. */
  predicate Orderly(a: Link, b: Link, ab: seq<Desc>, ba: seq<Desc>) {
    && Began(a)
    && (Offering(a, b, ab, ba)
        || (a.pc.pendingLocal.Some? && Answering(a, b, ab, ba, a.pc.pendingLocal.value))
        || (a.pc.pendingLocal.Some? && Began(b) && Renewing(a, b, ab, ba, a.pc.pendingLocal.value)))
  }

  predicate Collided(p: Pair) {
    && Began(p.small) && Began(p.large)
    && (Crossing(p) || Insisting(p) || (p.small.pc.pendingLocal.Some? && Yielding(p, p.small.pc.pendingLocal.value)))
  }

  predicate Shape(p: Pair) {
    || (AtRest(p.small, p.large, p.toLarge, p.toSmall)
        && (Began(p.small) || Began(p.large) ==> p.small.pc.currentLocal.Some?))
    || Orderly(p.small, p.large, p.toLarge, p.toSmall)
    || Orderly(p.large, p.small, p.toSmall, p.toLarge)
    || Collided(p)
  }

  predicate Ids(p: Pair) {
    && p.small.remoteId == p.large.localId && p.large.remoteId == p.small.localId
    && Precedes(p.small.localId, p.large.localId)
  }

  /** No browser call has thrown. */
  predicate Unbroken(p: Pair) { !p.small.broken && !p.large.broken }

  /** A pending offer is one this side made. */
  predicate Own(l: Link) { l.pc.pendingLocal.Some? ==> l.pc.pendingLocal.value.author == l.localId }

  predicate Inv(p: Pair) { Ids(p) && Unbroken(p) && Shape(p) && Own(p.small) && Own(p.large) }

  lemma ManifestPoliteness(p: Pair)
    requires Ids(p)
    ensures Polite(p.large) && !Polite(p.small)
  {
    PrecedesTotal(p.small.localId, p.large.localId);
  }

  // -- what each side does, whichever it is ----------------------------------------------------

  lemma ConnectFromStable(l: Link)
    requires Settled(l.pc) && !Began(l)
    ensures var (n, sent) := ConnectLink(l);
            |sent| == 1 && Waits(n.pc, sent[0]) && Began(n) && n.broken == l.broken
            && n.localId == l.localId && n.remoteId == l.remoteId
            && n.pc.currentLocal == l.pc.currentLocal && n.pc.currentRemote == l.pc.currentRemote
  {
  }

  lemma OfferWhenStable(l: Link, d: Desc)
    requires Settled(l.pc) && d.Offer?
    ensures var (n, sent) := HandleSignal(l, d);
            |sent| == 1 && Answered(n.pc, sent[0], d) && (Began(n) <==> Began(l)) && n.broken == l.broken
            && n.localId == l.localId && n.remoteId == l.remoteId
  {
  }

  lemma OfferWhenWaiting(l: Link, d: Desc)
    requires l.pc.state.HaveLocalOffer? && d.Offer?
    ensures var (n, sent) := HandleSignal(l, d);
            if !Polite(l) then n == l && sent == []
            else |sent| == 1 && Answered(n.pc, sent[0], d) && (Began(n) <==> Began(l)) && n.broken == l.broken
                 && n.localId == l.localId && n.remoteId == l.remoteId
  {
  }

  lemma AnswerWhenWaiting(l: Link, d: Desc, offer: Desc)
    requires Waits(l.pc, offer) && d.Answer?
    ensures var (n, sent) := HandleSignal(l, d);
            sent == [] && Settled(n.pc) && n.pc.currentLocal == Some(offer) && n.pc.currentRemote == Some(d)
            && n.role == l.role && n.broken == l.broken && n.localId == l.localId && n.remoteId == l.remoteId
  {
  }

  lemma ConnectAgain(l: Link)
    requires Began(l)
    ensures ConnectLink(l) == (l, [])
  {
  }

  // -- from shape to shape, for the side that offered and the side that did not ------------------

  lemma RestConnects(a: Link, b: Link)
    requires AtRest(a, b, [], []) && !Began(a)
    ensures var (n, sent) := ConnectLink(a); Orderly(n, b, sent, [])
  {
    ConnectFromStable(a);
    hide ConnectLink, Match;
  }

  /** The side that has not offered joins in: the offers cross, or it renews what it has just answered. */
  lemma OtherConnects(a: Link, b: Link, ab: seq<Desc>, ba: seq<Desc>)
    requires Orderly(a, b, ab, ba) && !Began(b)
    ensures var (n, sent) := ConnectLink(b);
            if ab != [] then |ab| == 1 && |ba + sent| == 1 && Waits(a.pc, ab[0]) && Waits(n.pc, (ba + sent)[0])
                && Began(n)
            else Orderly(a, n, ab, ba + sent)
  {
    ConnectFromStable(b);
    hide ConnectLink;
  }

  lemma OfferArrives(a: Link, b: Link, ab: seq<Desc>, ba: seq<Desc>)
    requires Orderly(a, b, ab, ba) && ab != []
    ensures var (n, sent) := HandleSignal(b, ab[0]);
            Orderly(a, n, ab[1..], ba + sent) && (Began(n) <==> Began(b)) && n.broken == b.broken
                && n.localId == b.localId && n.remoteId == b.remoteId
  {
    OfferWhenStable(b, ab[0]);
    hide HandleSignal;
  }

  lemma AnswerArrives(a: Link, b: Link, ab: seq<Desc>, ba: seq<Desc>)
    requires Orderly(a, b, ab, ba) && ba != []
    ensures var (n, sent) := HandleSignal(a, ba[0]);
            && (if |ba| == 1 then AtRest(n, b, ab + sent, ba[1..]) && n.pc.currentLocal.Some?
                else Orderly(b, n, ba[1..], ab + sent))
            && n.role == a.role && n.broken == a.broken && n.localId == a.localId && n.remoteId == a.remoteId
  {
    AnswerWhenWaiting(a, ba[0], a.pc.pendingLocal.value);
    hide HandleSignal;
  }

  // -- a collision, until the smaller id's offer is answered ------------------------------------

  /** A collision on its way to the agreement that `offer`, the smaller id's, stands for. */
  predicate Favours(p: Pair, offer: Desc) {
    && Ids(p) && Began(p.small) && Began(p.large) && offer.Offer? && offer.author == p.small.localId
    && ((Crossing(p) && p.toLarge[0] == offer)
        || (Insisting(p) && p.toLarge[0] == offer)
        || Yielding(p, offer)
        || Answering(p.small, p.large, p.toLarge, p.toSmall, offer)
        || (AtRest(p.small, p.large, p.toLarge, p.toSmall) && p.small.pc.currentLocal == Some(offer)))
  }

  lemma SmallHears(p: Pair, offer: Desc)
    requires Favours(p, offer) && p.toSmall != []
    ensures Favours(Next(p, DeliverSmall), offer)
    ensures Next(p, DeliverSmall).small.broken == p.small.broken
  {
    ManifestPoliteness(p);
    if p.toSmall[0].Offer? {
      OfferWhenWaiting(p.small, p.toSmall[0]);
    } else {
      AnswerWhenWaiting(p.small, p.toSmall[0], offer);
    }
    hide HandleSignal, Polite, Precedes;
  }

  lemma LargeHears(p: Pair, offer: Desc)
    requires Favours(p, offer) && p.toLarge != []
    ensures Favours(Next(p, DeliverLarge), offer)
    ensures Next(p, DeliverLarge).large.broken == p.large.broken
  {
    ManifestPoliteness(p);
    OfferWhenWaiting(p.large, p.toLarge[0]);
    hide HandleSignal, Polite, Precedes;
  }

  lemma OtherUnmoved(p: Pair, s: Step)
    ensures s.DeliverSmall? ==> Next(p, s).large == p.large
    ensures s.DeliverLarge? ==> Next(p, s).small == p.small
  {
    hide HandleSignal;
  }

  /** Nothing that can happen afterwards takes a collision off that course. */
  lemma FavoursStays(p: Pair, offer: Desc, s: Step)
    requires Favours(p, offer)
    ensures Favours(Next(p, s), offer)
    ensures Unbroken(p) ==> Unbroken(Next(p, s))
  {
    ConnectAgain(p.small);
    ConnectAgain(p.large);
    match s
    case ConnectSmall => assert p.toLarge + [] == p.toLarge; hide ConnectLink, Favours;
    case ConnectLarge => assert p.toSmall + [] == p.toSmall; hide ConnectLink, Favours;
    case DeliverSmall => if p.toSmall != [] { SmallHears(p, offer); OtherUnmoved(p, s); } hide HandleSignal, Favours;
    case DeliverLarge => if p.toLarge != [] { LargeHears(p, offer); OtherUnmoved(p, s); } hide HandleSignal, Favours;
  }

  lemma CollidedFavours(p: Pair)
    requires Ids(p) && Collided(p) && p.small.pc.pendingLocal.value.author == p.small.localId
    ensures Favours(p, p.small.pc.pendingLocal.value)
  {
  }

  lemma OwnStays(l: Link, d: Desc)
    requires Own(l)
    ensures Own(HandleSignal(l, d).0) && HandleSignal(l, d).0.localId == l.localId
        && HandleSignal(l, d).0.remoteId == l.remoteId
    ensures Own(ConnectLink(l).0) && ConnectLink(l).0.localId == l.localId && ConnectLink(l).0.remoteId == l.remoteId
  {
  }

  // -- every step keeps the shape ------------------------------------------------------------------

  lemma RestStep(p: Pair, s: Step)
    requires Inv(p) && AtRest(p.small, p.large, p.toLarge, p.toSmall)
    ensures Shape(Next(p, s)) && Unbroken(Next(p, s))
  {
    match s
    case ConnectSmall =>
      if Began(p.small) { ConnectAgain(p.small); } else { RestConnects(p.small, p.large); ConnectFromStable(p.small); }
      hide ConnectLink, Match, Orderly;
    case ConnectLarge =>
      if Began(p.large) { ConnectAgain(p.large); } else { RestConnects(p.large, p.small); ConnectFromStable(p.large); }
      hide ConnectLink, Match, Orderly;
    case _ => hide Match;
  }

  /** A step taken while the offer that counts is a's, seen with a and b as the two sides. */
  predicate Onwards(a: Link, b: Link, ab: seq<Desc>, ba: seq<Desc>) {
    || Orderly(a, b, ab, ba) || Orderly(b, a, ba, ab)
    || (AtRest(a, b, ab, ba) && a.pc.currentLocal.Some?)
    || (|ab| == 1 && |ba| == 1 && Waits(a.pc, ab[0]) && Waits(b.pc, ba[0]) && Began(a) && Began(b))
  }

  lemma OtherConnectsOn(a: Link, b: Link, ab: seq<Desc>, ba: seq<Desc>)
    requires Orderly(a, b, ab, ba)
    ensures Onwards(a, ConnectLink(b).0, ab, ba + ConnectLink(b).1) && ConnectLink(b).0.broken == b.broken
  {
    if Began(b) {
      ConnectAgain(b);
      assert ba + [] == ba;
    } else {
      OtherConnects(a, b, ab, ba);
      ConnectFromStable(b);
    }
    hide ConnectLink;
  }

  lemma OrderlySmall(p: Pair, s: Step)
    requires Orderly(p.small, p.large, p.toLarge, p.toSmall) && Unbroken(p)
    ensures var n := Next(p, s); Onwards(n.small, n.large, n.toLarge, n.toSmall) && Unbroken(n)
  {
    match s
    case ConnectSmall => ConnectAgain(p.small); assert p.toLarge + [] == p.toLarge; hide ConnectLink, Orderly;
    case ConnectLarge => OtherConnectsOn(p.small, p.large, p.toLarge, p.toSmall); hide ConnectLink, Onwards;
    case DeliverSmall =>
      if p.toSmall != [] { AnswerArrives(p.small, p.large, p.toLarge, p.toSmall); } hide HandleSignal, Orderly, AtRest;
    case DeliverLarge =>
      if p.toLarge != [] { OfferArrives(p.small, p.large, p.toLarge, p.toSmall); } hide HandleSignal, Orderly, AtRest;
  }

  lemma OrderlyLarge(p: Pair, s: Step)
    requires Orderly(p.large, p.small, p.toSmall, p.toLarge) && Unbroken(p)
    ensures var n := Next(p, s); Onwards(n.large, n.small, n.toSmall, n.toLarge) && Unbroken(n)
  {
    match s
    case ConnectLarge => ConnectAgain(p.large); assert p.toSmall + [] == p.toSmall; hide ConnectLink, Orderly;
    case ConnectSmall => OtherConnectsOn(p.large, p.small, p.toSmall, p.toLarge); hide ConnectLink, Onwards;
    case DeliverLarge =>
      if p.toLarge != [] { AnswerArrives(p.large, p.small, p.toSmall, p.toLarge); } hide HandleSignal, Orderly, AtRest;
    case DeliverSmall =>
      if p.toSmall != [] { OfferArrives(p.large, p.small, p.toSmall, p.toLarge); } hide HandleSignal, Orderly, AtRest;
  }

  lemma OnwardsShapes(p: Pair)
    requires Onwards(p.small, p.large, p.toLarge, p.toSmall) || Onwards(p.large, p.small, p.toSmall, p.toLarge)
    ensures Shape(p)
  {
    hide Orderly;
  }

  lemma FavoursShapes(p: Pair, offer: Desc)
    requires Favours(p, offer)
    ensures Shape(p)
  {
  }

  lemma NextKeeps(p: Pair, s: Step)
    requires Inv(p)
    ensures Inv(Next(p, s))
  {
    NextOwns(p, s);
    if AtRest(p.small, p.large, p.toLarge, p.toSmall) {
      RestStep(p, s);
    } else if Orderly(p.small, p.large, p.toLarge, p.toSmall) {
      OrderlySmall(p, s);
      OnwardsShapes(Next(p, s));
    } else if Orderly(p.large, p.small, p.toSmall, p.toLarge) {
      OrderlyLarge(p, s);
      OnwardsShapes(Next(p, s));
    } else {
      CollidedFavours(p);
      FavoursStays(p, p.small.pc.pendingLocal.value, s);
      FavoursShapes(Next(p, s), p.small.pc.pendingLocal.value);
    }
    hide Next, Orderly, AtRest, Favours, Onwards;
  }

  lemma NextOwns(p: Pair, s: Step)
    requires Ids(p) && Own(p.small) && Own(p.large)
    ensures Ids(Next(p, s)) && Own(Next(p, s).small) && Own(Next(p, s).large)
  {
    match s
    case ConnectSmall => OwnStays(p.small, Desc.Offer("", 0)); hide ConnectLink, Own;
    case ConnectLarge => OwnStays(p.large, Desc.Offer("", 0)); hide ConnectLink, Own;
    case DeliverSmall => if p.toSmall != [] { OwnStays(p.small, p.toSmall[0]); } hide HandleSignal, Own;
    case DeliverLarge => if p.toLarge != [] { OwnStays(p.large, p.toLarge[0]); } hide HandleSignal, Own;
  }

  lemma {:induction false} RunKeeps(small: Id, large: Id, steps: seq<Step>)
    requires Precedes(small, large)
    ensures Inv(Run(small, large, steps))
  {
    if steps != [] {
      RunKeeps(small, large, steps[..|steps| - 1]);
      NextKeeps(Run(small, large, steps[..|steps| - 1]), steps[|steps| - 1]);
      hide Inv, Next;
    }
  }

  lemma {:induction false} RunIds(small: Id, large: Id, steps: seq<Step>)
    requires Precedes(small, large)
    ensures Run(small, large, steps).small.localId == small
  {
    if steps != [] {
      var p := Run(small, large, steps[..|steps| - 1]);
      RunIds(small, large, steps[..|steps| - 1]);
      RunKeeps(small, large, steps[..|steps| - 1]);
      OwnStays(p.small, if p.toSmall == [] then Desc.Offer("", 0) else p.toSmall[0]);
      hide HandleSignal, ConnectLink, Shape, Own;
    }
  }

  // -- what a negotiation comes to ---------------------------------------------------------------------

  /**
   * Once the signalling is quiet both sides are stable on matching descriptions, set if anyone connected; and no
   * browser call threw.
   */
  lemma QuietMeansAgreed(small: Id, large: Id, steps: seq<Step>)
    requires Precedes(small, large)
    ensures var p := Run(small, large, steps);
            && Unbroken(p)
            && (p.toSmall == [] && p.toLarge == [] ==>
                  && Match(p.small.pc, p.large.pc)
                  && (Began(p.small) || Began(p.large) ==> p.small.pc.currentLocal.Some?))
  {
    RunKeeps(small, large, steps);
    hide Match, Waits, Answered, Run;
  }

  /** Nobody waits for an answer with nothing under way. */
  lemma NobodyWaitsForNothing(small: Id, large: Id, steps: seq<Step>)
    requires Precedes(small, large)
    ensures var p := Run(small, large, steps);
            p.small.pc.state.HaveLocalOffer? || p.large.pc.state.HaveLocalOffer? ==> p.toSmall != [] || p.toLarge != []
  {
    RunKeeps(small, large, steps);
    hide Answered, Run;
  }

  lemma {:induction false} FavoursForever(small: Id, large: Id, steps: seq<Step>, more: seq<Step>, offer: Desc)
    requires Favours(Run(small, large, steps), offer)
    ensures Favours(Run(small, large, steps + more), offer)
  {
    if more == [] {
      assert steps + more == steps;
    } else {
      var init := more[..|more| - 1];
      FavoursForever(small, large, steps, init, offer);
      FavoursStays(Run(small, large, steps + init), offer, more[|more| - 1]);
      assert (steps + more)[..|steps + more| - 1] == steps + init;
      hide Favours, Next;
    }
  }

  /** Offers that truly crossed: whatever happens next, the agreement is on the offer of the smaller id. */
  lemma SmallerIdWins(small: Id, large: Id, steps: seq<Step>, more: seq<Step>)
    requires Precedes(small, large) && Crossing(Run(small, large, steps))
    ensures var offer := Run(small, large, steps).toLarge[0];
            var p := Run(small, large, steps + more);
            && offer.author == small
            && (p.toSmall == [] && p.toLarge == [] ==>
                  p.small.pc.currentLocal == Some(offer) && p.large.pc.currentRemote == Some(offer)
                      && Match(p.small.pc, p.large.pc))
  {
    RunKeeps(small, large, steps);
    RunIds(small, large, steps);
    CollidedFavours(Run(small, large, steps));
    FavoursForever(small, large, steps, more, Run(small, large, steps).toLarge[0]);
    hide Run, Paired, Shape;
  }

  // -- and that it comes to an end -------------------------------------------------------------------------

  function Weight(q: seq<Desc>): nat {
    if q == [] then 0 else (if q[0].Offer? then 2 else 1) + Weight(q[1..])
  }

  /** What is left to happen: a side that may still connect, an offer to hear, an answer to hear. */
  function Left(p: Pair): nat {
    (if Began(p.small) then 0 else 3) + (if Began(p.large) then 0 else 3) + Weight(p.toSmall) + Weight(p.toLarge)
  }

  lemma {:induction false} WeightAppend(q: seq<Desc>, r: seq<Desc>)
    ensures Weight(q + r) == Weight(q) + Weight(r)
  {
    if q == [] {
      assert q + r == r;
    } else {
      assert (q + r)[1..] == q[1..] + r;
      WeightAppend(q[1..], r);
    }
  }

  lemma SignalWeight(l: Link, d: Desc)
    ensures var (n, sent) := HandleSignal(l, d);
            Weight(sent) < Weight([d]) && (Began(l) ==> Began(n))
  {
    assert [d][1..] == [];
    forall x: Desc ensures Weight([x]) == if x.Offer? then 2 else 1 { assert [x][1..] == []; }
  }

  lemma ConnectWeight(l: Link)
    ensures var (n, sent) := ConnectLink(l);
            Began(n) && (if Began(l) then n == l && sent == [] else Weight(sent) <= 2)
  {
    forall x: Desc ensures Weight([x]) == if x.Offer? then 2 else 1 { assert [x][1..] == []; }
  }

  /** Every step that does anything brings the end nearer: there are at most six of them in any negotiation. */
  lemma EveryStepCounts(p: Pair, s: Step)
    ensures Next(p, s) == p || Left(Next(p, s)) < Left(p)
    ensures (s.DeliverSmall? && p.toSmall != []) || (s.DeliverLarge? && p.toLarge != []) ==> Next(p, s) != p
    ensures Left(Start(p.small.localId, p.large.localId)) == 6
  {
    match s
    case ConnectSmall =>
      ConnectWeight(p.small);
      WeightAppend(p.toLarge, ConnectLink(p.small).1);
      assert p.toLarge + [] == p.toLarge;
      hide ConnectLink, Weight;
    case ConnectLarge =>
      ConnectWeight(p.large);
      WeightAppend(p.toSmall, ConnectLink(p.large).1);
      assert p.toSmall + [] == p.toSmall;
      hide ConnectLink, Weight;
    case DeliverSmall =>
      if p.toSmall != [] {
        assert p.toSmall == [p.toSmall[0]] + p.toSmall[1..];
        WeightAppend([p.toSmall[0]], p.toSmall[1..]);
        SignalWeight(p.small, p.toSmall[0]);
        WeightAppend(p.toLarge, HandleSignal(p.small, p.toSmall[0]).1);
      }
      hide HandleSignal, Weight;
    case DeliverLarge =>
      if p.toLarge != [] {
        assert p.toLarge == [p.toLarge[0]] + p.toLarge[1..];
        WeightAppend([p.toLarge[0]], p.toLarge[1..]);
        SignalWeight(p.large, p.toLarge[0]);
        WeightAppend(p.toSmall, HandleSignal(p.large, p.toLarge[0]).1);
      }
      hide HandleSignal, Weight;
  }
}
