/**
 * Remote ICE candidates on one link: parked until a remote description is applied, then flushed one await at a
 * time while new ones keep arriving. Candidates are numbered in the order they arrive.
 */
module IceParking {
  import opened Common

  /**
   * `parked` waits for a description; each flush in progress holds what it has not handed over yet; `handed` is what
   * addIceCandidate was given, in order.
   */
  datatype Intake = Intake(parked: seq<nat>, flushes: seq<seq<nat>>, handed: seq<nat>, described: bool, open: bool,
      arrived: nat)

  const EMPTY := Intake([], [], [], false, true, 0)

  /**
   * Every point at which other handlers may run: a candidate arrives, setRemoteDescription resolves, an addIceCandidate
   * of a flush resolves, the link closes.
   */
  datatype Step = Arrive | Described | Resume(i: nat) | Close

  /** A flush hands over its next candidate, or ends; on a closed link there is no connection left to hand it to. */
  function HandNext(s: Intake, i: nat): Intake
    requires i < |s.flushes|
  {
    var f := s.flushes[i];
    if f == [] then s.(flushes := s.flushes[..i] + s.flushes[i + 1..])
    else s.(flushes := s.flushes[i := f[1..]], handed := if s.open then s.handed + [f[0]] else s.handed)
  }

  function Next(s: Intake, step: Step): Intake {
    match step
    case Arrive =>
      if !s.open then s
      else if !s.described then s.(parked := s.parked + [s.arrived], arrived := s.arrived + 1)
      else s.(handed := s.handed + [s.arrived], arrived := s.arrived + 1)
    case Described =>
      if s.parked == [] then s.(described := true)
      else HandNext(s.(described := true, parked := [], flushes := s.flushes + [s.parked]), |s.flushes|)
    case Resume(i) => if i < |s.flushes| then HandNext(s, i) else s
    case Close => s.(parked := [], open := false)
  }

  function Run(steps: seq<Step>): Intake {
    if steps == [] then EMPTY else Next(Run(steps[..|steps| - 1]), steps[|steps| - 1])
  }

  // -- what holds throughout ----------------------------------------------------------------

  /** The numbers from m up to but not including k. */
  function Range(m: nat, k: nat): seq<nat>
    decreases k
  {
    if k <= m then [] else Range(m, k - 1) + [k - 1]
  }

  lemma {:induction false} RangeIs(m: nat, k: nat)
    requires m <= k
    ensures |Range(m, k)| == k - m && forall i :: 0 <= i < k - m ==> Range(m, k)[i] == m + i
  {
    if m < k { RangeIs(m, k - 1); }
  }

  /** The elements below m, in order. */
  function Below(s: seq<nat>, m: nat): seq<nat> {
    if s == [] then [] else Below(s[..|s| - 1], m) + (if s[|s| - 1] < m then [s[|s| - 1]] else [])
  }

  /** The elements from m on, in order. */
  function From(s: seq<nat>, m: nat): seq<nat> {
    if s == [] then [] else From(s[..|s| - 1], m) + (if s[|s| - 1] >= m then [s[|s| - 1]] else [])
  }

  lemma SplitAppend(s: seq<nat>, x: nat, m: nat)
    ensures Below(s + [x], m) == Below(s, m) + (if x < m then [x] else [])
    ensures From(s + [x], m) == From(s, m) + (if x >= m then [x] else [])
  {
    assert (s + [x])[..|s|] == s;
  }

  /**
   * An open link: m candidates arrived before the description. Before it they are all parked and nothing has been
   * handed over; after it one flush at most holds the rest of them, and everything later has been handed over directly.
   */
  predicate Inv(s: Intake, m: nat) {
    if !s.described then
      s.flushes == [] && s.handed == [] && m == s.arrived && (s.open ==> s.parked == Range(0, m))
    else
      && s.parked == [] && |s.flushes| <= 1 && m <= s.arrived
      && (s.open ==>
            && Below(s.handed, m) + Waiting(s) == Range(0, m)
            && From(s.handed, m) == Range(m, s.arrived))
  }

  /** What a flush in progress has still to hand over. */
  function Waiting(s: Intake): seq<nat> { if s.flushes == [] then [] else s.flushes[0] }

  lemma ArriveKeeps(s: Intake, m: nat)
    requires Inv(s, m)
    ensures Inv(Next(s, Arrive), if Next(s, Arrive).described then m else Next(s, Arrive).arrived)
  {
    if s.open && s.described {
      SplitAppend(s.handed, s.arrived, m);
    }
    hide Below, From;
  }

  lemma HandKeeps(s: Intake, m: nat)
    requires s.described && s.parked == [] && |s.flushes| == 1 && m <= s.arrived
    requires s.open ==> Below(s.handed, m) + s.flushes[0] == Range(0, m) && From(s.handed, m) == Range(m, s.arrived)
    ensures Inv(HandNext(s, 0), m)
  {
    var f := s.flushes[0];
    if f == [] {
      assert HandNext(s, 0).flushes == [];
    } else if s.open {
      RangeIs(0, m);
      assert Range(0, m)[|Below(s.handed, m)|] == f[0];
      SplitAppend(s.handed, f[0], m);
      assert Below(s.handed, m) + [f[0]] + f[1..] == Below(s.handed, m) + f;
    }
    hide Below, From, Range;
  }

  lemma DescribedKeeps(s: Intake, m: nat)
    requires Inv(s, m)
    ensures Inv(Next(s, Described), m)
  {
    if s.parked == [] {
      if s.open && !s.described {
        RangeIs(0, m);
        assert Below([], m) + [] == Range(0, m) && From([], m) == Range(m, m);
      }
    } else {
      var t := s.(described := true, parked := [], flushes := s.flushes + [s.parked]);
      assert t.flushes == [s.parked];
      assert Below([], m) + s.parked == s.parked && From([], m) == Range(m, m);
      HandKeeps(t, m);
    }
    hide HandNext;
  }

  lemma NextKeeps(s: Intake, step: Step, m: nat)
    requires Inv(s, m)
    ensures Inv(Next(s, step), if Next(s, step).described then m else Next(s, step).arrived)
  {
    match step
    case Arrive => ArriveKeeps(s, m); hide Next;
    case Described => DescribedKeeps(s, m); hide Next;
    case Resume(i) =>
      if i < |s.flushes| {
        HandKeeps(s, m);
        assert HandNext(s, i).described == s.described && HandNext(s, i).arrived == s.arrived;
      }
      hide HandNext;
    case Close =>
  }

  lemma {:induction false} RunKeeps(steps: seq<Step>) returns (m: nat)
    ensures Inv(Run(steps), m)
  {
    if steps == [] {
      m := 0;
    } else {
      var k := RunKeeps(steps[..|steps| - 1]);
      NextKeeps(Run(steps[..|steps| - 1]), steps[|steps| - 1], k);
      m := if Run(steps).described then k else Run(steps).arrived;
      hide Next, Inv;
    }
  }

  // -- what that says ----------------------------------------------------------------------------

  lemma {:induction false} SplitCounts(s: seq<nat>, m: nat)
    ensures multiset(s) == multiset(Below(s, m)) + multiset(From(s, m))
  {
    if s != [] {
      var front, x := s[..|s| - 1], s[|s| - 1];
      assert s == front + [x];
      SplitCounts(front, m);
    }
  }

  lemma {:induction false} RangeJoin(m: nat, k: nat)
    requires m <= k
    ensures Range(0, m) + Range(m, k) == Range(0, k)
  {
    RangeIs(0, m);
    RangeIs(m, k);
    RangeIs(0, k);
    hide Range;
  }

  /**
   * Conservation: on an open link every candidate that arrived is parked, in the one flush, or handed over, exactly
   * once.
   */
  lemma EveryCandidateIsSomewhereOnce(steps: seq<Step>)
    requires Run(steps).open
    ensures var s := Run(steps);
            && |s.flushes| <= 1
            && multiset(s.parked) + multiset(Waiting(s)) + multiset(s.handed) == multiset(Range(0, s.arrived))
  {
    var m := RunKeeps(steps);
    var s := Run(steps);
    if s.described {
      SplitCounts(s.handed, m);
      RangeJoin(m, s.arrived);
      assert multiset(Range(0, m) + Range(m, s.arrived)) == multiset(Range(0, m)) + multiset(Range(m, s.arrived));
      assert multiset(Below(s.handed, m) + Waiting(s)) == multiset(Below(s.handed, m)) + multiset(Waiting(s));
    }
    hide Run, Range, Below, From;
  }

  /** Nothing is handed to the browser before a remote description is applied. */
  lemma NothingBeforeADescription(steps: seq<Step>)
    ensures !Run(steps).described ==> Run(steps).handed == []
  {
    var m := RunKeeps(steps);
    hide Run, Range, Below, From;
  }

  /**
   * The parked candidates are handed over in arrival order, and so are the later ones; only the two kinds may mix.
   * Once the flush is through, all of them have been handed over.
   */
  lemma ParkedKeepTheirOrder(steps: seq<Step>) returns (m: nat)
    requires Run(steps).open && Run(steps).described
    ensures var s := Run(steps);
            && |Waiting(s)| <= m <= s.arrived
            && Below(s.handed, m) == Range(0, m - |Waiting(s)|)
            && From(s.handed, m) == Range(m, s.arrived)
            && (s.flushes == [] ==> Below(s.handed, m) == Range(0, m) && |s.handed| == s.arrived)
  {
    m := RunKeeps(steps);
    var s := Run(steps);
    RangeIs(0, m);
    RangeIs(m, s.arrived);
    var k := m - |Waiting(s)|;
    RangeIs(0, k);
    assert Below(s.handed, m) == (Below(s.handed, m) + Waiting(s))[..k];
    assert Range(0, m)[..k] == Range(0, k);
    if s.flushes == [] {
      assert Below(s.handed, m) + [] == Below(s.handed, m);
      SplitCounts(s.handed, m);
      assert |multiset(s.handed)| == |Below(s.handed, m)| + |From(s.handed, m)|;
    }
    hide Run, Range, Below, From;
  }

  // -- the object -----------------------------------------------------------------------------------

  /** The part of PeerLink that takes candidates in. Each method runs from one await to the next. */
  class CandidateIntake {
    var pendingCandidates: seq<nat>
    var flushes: seq<seq<nat>>
    var handed: seq<nat>
    var remoteDescriptionSet: bool
    var closed: bool
    var arrived: nat

    ghost function Abs(): Intake
      reads this
    {
      Intake(pendingCandidates, flushes, handed, remoteDescriptionSet, !closed, arrived)
    }

    constructor ()
      ensures Abs() == EMPTY
    {
      pendingCandidates, flushes, handed, remoteDescriptionSet, closed, arrived := [], [], [], false, false, 0;
    }

    method AddCandidate(candidate: nat)
      modifies this`handed
      ensures handed == if closed then old(handed) else old(handed) + [candidate]
    {
      if closed { return; }
      handed := handed + [candidate];
    }

    method HandleIce()
      modifies this`pendingCandidates, this`handed, this`arrived
      ensures Abs() == Next(old(Abs()), Arrive)
    {
      if closed { return; }
      var candidate := arrived;
      arrived := arrived + 1;
      if !remoteDescriptionSet {
        pendingCandidates := pendingCandidates + [candidate];
        return;
      }
      AddCandidate(candidate);
    }

    /** setRemoteDescription has resolved: take the parked candidates out at once, hand over the first. */
    method DescriptionApplied()
      modifies this
      ensures Abs() == Next(old(Abs()), Described)
    {
      remoteDescriptionSet := true;
      if |pendingCandidates| == 0 { return; }
      var queued := pendingCandidates;
      pendingCandidates := [];
      flushes := flushes + [queued];
      ResumeFlush(|flushes| - 1);
    }

    /** One turn of the flush loop: the previous addIceCandidate has resolved. */
    method ResumeFlush(i: nat)
      requires i < |flushes|
      modifies this`flushes, this`handed
      ensures Abs() == HandNext(old(Abs()), i)
    {
      var queued := flushes[i];
      if |queued| == 0 {
        flushes := flushes[..i] + flushes[i + 1..];
        return;
      }
      flushes := flushes[i := queued[1..]];
      AddCandidate(queued[0]);
    }

    method Shut()
      modifies this`pendingCandidates, this`closed
      ensures Abs() == Next(old(Abs()), Close)
    {
      pendingCandidates := [];
      closed := true;
    }
  }
}
