/**
 * The store under concurrent writers and crashes: each mutation takes the write lock, changes memory, writes a
 * temporary file, renames it into place, returns. A crash may come at any of these points, a write may fail at any.
 */
module TrustDurability {
  import opened Common
  import opened PairingCode
  import opened TrustStoreModule

  /** Where the mutation that holds the write lock stands. */
  datatype Phase =
    | Locked(op: Op)                    // holds writeMu
    | Snapshotted(file: seq<Peer>)      // memory changed, snapshot taken, temporary file not in place
    | Returning(ok: bool, last: bool)   // about to return; `last` says that it changed memory

  /**
   * `log` lists the mutations memory has been through since the file was first written; `durable` says how many of
   * them the file on disk reflects, `acked` how many had been followed by a call that reported success;
   * `faulty` remembers that a write has failed since the last start.
   */
  datatype World = World(
    start: Peers, memory: Peers, disk: seq<Peer>, lock: Option<Phase>,
    log: seq<Op>, durable: nat, acked: nat, faulty: bool)

  function Boot(file: seq<Peer>): World { World(Load(file), Load(file), file, None, [], 0, 0, false) }

  datatype Event =
    | Acquire(op: Op)
    | Change(file: seq<Peer>)    // under mu: memory and the snapshot of it
    | WriteFails
    | Replace(chmodOk: bool)     // the rename, and the chmod after it
    | Return
    | Crash                      // and restart from the file

  /** Memory after a list of mutations. */
  function After(m: Peers, log: seq<Op>): Peers {
    if log == [] then m else Mutate(After(m, log[..|log| - 1]), log[|log| - 1]).0
  }

  ghost function Next(w: World, ev: Event): World {
    match ev
    case Acquire(op) => if w.lock.Some? then w else w.(lock := Some(Locked(op)))
    case Change(file) =>
      if w.lock.None? || !w.lock.value.Locked? then w
      else
        var op := w.lock.value.op;
        var (m, outcome) := Mutate(w.memory, op);
        if !outcome.Persist? then w.(lock := Some(Returning(outcome.Unchanged?, false)))
        else if !IsSnapshot(file, m) then w
        else w.(memory := m, log := w.log + [op], lock := Some(Snapshotted(file)))
    case WriteFails =>
      if w.lock.Some? && w.lock.value.Snapshotted? then w.(lock := Some(Returning(false, true)), faulty := true) else w
    case Replace(chmodOk) =>
      if w.lock.Some? && w.lock.value.Snapshotted? then
        w.(disk := w.lock.value.file, durable := |w.log|, lock := Some(Returning(chmodOk, true)))
      else w
    case Return =>
      if w.lock.Some? && w.lock.value.Returning? then
        w.(lock := None, acked := if w.lock.value.ok && w.lock.value.last then |w.log| else w.acked)
      else w
    case Crash =>
      w.(memory := Load(w.disk), lock := None, log := if w.durable <= |w.log| then w.log[..w.durable]
          else w.log, faulty := false)
  }

  ghost function Run(file: seq<Peer>, evs: seq<Event>): World {
    if evs == [] then Boot(file) else Next(Run(file, evs[..|evs| - 1]), evs[|evs| - 1])
  }

  predicate Inv(w: World) {
    && WellKept(w.start) && WellKept(w.memory)
    && w.memory == After(w.start, w.log)
    && w.acked <= w.durable <= |w.log|
    && Load(w.disk) == After(w.start, w.log[..w.durable])
    && LockOk(w)
  }

  predicate LockOk(w: World) {
    match w.lock
    case None => !w.faulty ==> w.durable == |w.log|
    case Some(Locked(_)) => !w.faulty ==> w.durable == |w.log|
    case Some(Snapshotted(file)) => IsSnapshot(file, w.memory) && (!w.faulty ==> w.durable == |w.log| - 1)
    case Some(Returning(ok, last)) => (ok && last ==> w.durable == |w.log|) && (!w.faulty ==> w.durable == |w.log|)
  }

  lemma {:induction false} LoadIsWellKept(file: seq<Peer>)
    ensures WellKept(Load(file))
  {
    if file != [] { LoadIsWellKept(file[..|file| - 1]); }
    hide ValidTokenFormat;
  }

  lemma AfterAppend(m: Peers, log: seq<Op>, op: Op)
    ensures After(m, log + [op]) == Mutate(After(m, log), op).0
  {
    assert (log + [op])[..|log|] == log;
    hide Mutate;
  }

  lemma ChangeKeeps(w: World, file: seq<Peer>)
    requires Inv(w)
    ensures Inv(Next(w, Change(file)))
  {
    if w.lock.Some? && w.lock.value.Locked? {
      var op := w.lock.value.op;
      MutateKeeps(w.memory, op);
      AfterAppend(w.start, w.log, op);
      assert (w.log + [op])[..w.durable] == w.log[..w.durable];
    }
    hide Mutate, After, WellKept, IsSnapshot, Load;
  }

  lemma ReplaceKeeps(w: World, chmodOk: bool)
    requires Inv(w)
    ensures Inv(Next(w, Replace(chmodOk)))
  {
    if w.lock.Some? && w.lock.value.Snapshotted? {
      LoadSnapshot(w.lock.value.file, w.memory);
      assert w.log[..|w.log|] == w.log;
    }
    hide Mutate, After, WellKept, IsSnapshot, Load;
  }

  lemma NextKeeps(w: World, ev: Event)
    requires Inv(w)
    ensures Inv(Next(w, ev))
  {
    match ev
    case Change(file) => ChangeKeeps(w, file); hide Inv, Next;
    case Replace(chmodOk) => ReplaceKeeps(w, chmodOk); hide Inv, Next;
    case Crash =>
      LoadIsWellKept(w.disk);
      assert w.log[..w.durable][..w.durable] == w.log[..w.durable];
      hide Mutate, After, WellKept, IsSnapshot, Load;
    case _ => hide Mutate, After, WellKept, IsSnapshot, Load;
  }

  lemma {:induction false} RunKeeps(file: seq<Peer>, evs: seq<Event>)
    ensures Inv(Run(file, evs)) && Run(file, evs).start == Load(file)
  {
    if evs == [] {
      LoadIsWellKept(file);
    } else {
      RunKeeps(file, evs[..|evs| - 1]);
      NextKeeps(Run(file, evs[..|evs| - 1]), evs[|evs| - 1]);
      StartStays(Run(file, evs[..|evs| - 1]), evs[|evs| - 1]);
      hide Inv, Next;
    }
  }

  lemma StartStays(w: World, ev: Event)
    ensures Next(w, ev).start == w.start
  {
    hide Mutate, Load, IsSnapshot;
  }

  /** What is on disk, as bytes and not only as what loading it gives. */
  predicate DiskOk(w: World, file: seq<Peer>) {
    && (w.durable == 0 ==> w.disk == file)
    && (w.durable > 0 ==> w.durable <= |w.log| && IsSnapshot(w.disk, After(w.start, w.log[..w.durable])))
    && (w.lock.Some? && w.lock.value.Snapshotted? ==> w.log != [])
  }

  lemma DiskStays(w: World, file: seq<Peer>, ev: Event)
    requires Inv(w) && DiskOk(w, file)
    ensures DiskOk(Next(w, ev), file)
  {
    match ev
    case Change(f) =>
      if w.lock.Some? && w.lock.value.Locked? {
        assert (w.log + [w.lock.value.op])[..w.durable] == w.log[..w.durable];
      }
      hide Mutate, After, WellKept, IsSnapshot, Load;
    case Replace(_) =>
      assert w.log[..|w.log|] == w.log;
      hide Mutate, After, WellKept, IsSnapshot, Load;
    case Crash =>
      assert w.log[..w.durable][..w.durable] == w.log[..w.durable];
      hide Mutate, After, WellKept, IsSnapshot, Load;
    case _ => hide Mutate, After, WellKept, IsSnapshot, Load;
  }

  lemma {:induction false} RunKeepsDisk(file: seq<Peer>, evs: seq<Event>)
    ensures DiskOk(Run(file, evs), file)
  {
    if evs != [] {
      RunKeepsDisk(file, evs[..|evs| - 1]);
      RunKeeps(file, evs[..|evs| - 1]);
      DiskStays(Run(file, evs[..|evs| - 1]), file, evs[|evs| - 1]);
      hide Inv, Next, DiskOk;
    }
  }

  /**
   * Whenever the write lock is free and no write has failed, the file is the snapshot of the memory, the only one there
   * is, exactly if something has been written or the file found at the start was a snapshot already; and loading it
   * gives the memory in any case.
   */
  lemma FileEqualsMemory(file: seq<Peer>, evs: seq<Event>)
    ensures var w := Run(file, evs);
            w.lock.None? && !w.faulty ==>
              && Load(w.disk) == w.memory
              && (IsSnapshot(w.disk, w.memory) <==> w.durable > 0 || IsSnapshot(file, Load(file)))
              && (IsSnapshot(w.disk, w.memory) ==> forall s :: IsSnapshot(s, w.memory) ==> s == w.disk)
  {
    RunKeeps(file, evs);
    RunKeepsDisk(file, evs);
    var w := Run(file, evs);
    assert w.log[..|w.log|] == w.log;
    assert After(w.start, []) == w.start;
    hide Run, After, WellKept, Load, IsSnapshot;
    forall s | IsSnapshot(w.disk, w.memory) && IsSnapshot(s, w.memory) ensures s == w.disk {
      SnapshotUnique(s, w.disk, w.memory);
    }
  }

  /**
   * A crash at any point, failed writes or not: loading the file yields the memory after a prefix of the mutations,
   * and that prefix contains every mutation that had reported success.
   */
  lemma CrashKeepsWhatWasAcknowledged(file: seq<Peer>, evs: seq<Event>)
    ensures var w := Run(file, evs);
            && w.acked <= w.durable <= |w.log|
            && Run(file, evs + [Crash]).memory == After(Load(file), w.log[..w.durable])
            && w.memory == After(Load(file), w.log)
  {
    RunKeeps(file, evs);
    assert (evs + [Crash])[..|evs|] == evs;
    assert Run(file, evs + [Crash]) == Next(Run(file, evs), Crash);
    hide Run, After, WellKept, Load, IsSnapshot, Mutate;
  }

  // -- who can authenticate ---------------------------------------------------------------------

  /** VerifyToken says yes. */
  predicate Authenticates(m: Peers, id: Id, token: Token) { id in m && m[id].token == token }

  /** A mutation that decides whether a device is trusted, and with which token. */
  predicate Decides(op: Op, id: Id) { op.id == id && (op.Add? || op.Remove?) }

  /** Mutation k paired the device with that token, and nothing later unpaired or paired it again. */
  predicate PairedLast(log: seq<Op>, k: nat, id: Id, token: Token) {
    && k < |log| && log[k].Add? && log[k].id == id && log[k].token == token
    && forall j :: k < j < |log| ==> !Decides(log[j], id)
  }

  predicate Undecided(log: seq<Op>, id: Id) { forall j :: 0 <= j < |log| ==> !Decides(log[j], id) }

  /** What is in the log got past the checks of Add. */
  predicate Proper(log: seq<Op>) {
    forall j :: 0 <= j < |log| && log[j].Add? ==> log[j].id != "" && ValidTokenFormat(log[j].token)
  }

  /** The token a device had at the start, or was last paired with. */
  ghost predicate Last(m: Peers, log: seq<Op>, id: Id, token: Token) {
    (exists k :: PairedLast(log, k, id, token)) || (Undecided(log, id) && Authenticates(m, id, token))
  }

  lemma {:induction false} LastAuthenticates(m: Peers, log: seq<Op>, id: Id, token: Token)
    requires Proper(log)
    ensures Authenticates(After(m, log), id, token) <==> Last(m, log, id, token)
  {
    if log != [] {
      var front, op := log[..|log| - 1], log[|log| - 1];
      assert forall j :: 0 <= j < |front| ==> front[j] == log[j];
      LastAuthenticates(m, front, id, token);
      MutationsMeanThat(After(m, front), op);
      LastMore(m, front, op, id, token);
      assert front + [op] == log;
      hide Mutate, ValidTokenFormat, Last, Proper;
    }
  }

  /** How one more mutation changes what was last. */
  lemma LastMore(m: Peers, log: seq<Op>, op: Op, id: Id, token: Token)
    ensures Last(m, log + [op], id, token)
            <==> if Decides(op, id) then op.Add? && op.token == token else Last(m, log, id, token)
  {
    var more := log + [op];
    assert more[|log|] == op && forall j :: 0 <= j < |log| ==> more[j] == log[j];
    if Decides(op, id) {
      assert !Undecided(more, id);
      if op.Add? && op.token == token { assert PairedLast(more, |log|, id, token); }
    } else {
      assert Undecided(more, id) <==> Undecided(log, id);
      forall k: nat ensures PairedLast(more, k, id, token) <==> PairedLast(log, k, id, token) {}
    }
  }

  lemma {:induction false} RunIsProper(file: seq<Peer>, evs: seq<Event>)
    ensures Proper(Run(file, evs).log)
  {
    if evs != [] {
      var w, ev := Run(file, evs[..|evs| - 1]), evs[|evs| - 1];
      RunIsProper(file, evs[..|evs| - 1]);
      if ev.Change? && w.lock.Some? && w.lock.value.Locked? { MutationsMeanThat(w.memory, w.lock.value.op); }
      hide Run, Mutate, Load, IsSnapshot, ValidTokenFormat;
      assert Run(file, evs) == Next(w, ev) by { LastEvent(file, evs); }
    }
  }

  lemma LastEvent(file: seq<Peer>, evs: seq<Event>)
    requires evs != []
    ensures Run(file, evs) == Next(Run(file, evs[..|evs| - 1]), evs[|evs| - 1])
  {
    hide Next;
  }

  /**
   * In every run a device authenticates with exactly one token: the one of its last Add, if no Remove of that device
   * has come after it, or the one in the file at the start if neither has; whatever has happened to other devices, and
   * however often it was touched or renamed. After a crash the same holds of the mutations that had reached the disk.
   */
  lemma TokenIsTheLastPaired(file: seq<Peer>, evs: seq<Event>, id: Id, token: Token)
    ensures var w := Run(file, evs);
            && (Authenticates(w.memory, id, token) <==> Last(Load(file), w.log, id, token))
            && w.durable <= |w.log|
            && (Authenticates(Run(file, evs + [Crash]).memory, id, token)
                <==> Last(Load(file), w.log[..w.durable], id, token))
  {
    var w := Run(file, evs);
    CrashKeepsWhatWasAcknowledged(file, evs);
    RunIsProper(file, evs);
    LastAuthenticates(Load(file), w.log, id, token);
    assert Proper(w.log[..w.durable]);
    LastAuthenticates(Load(file), w.log[..w.durable], id, token);
    hide Run, After, Load, Last, ValidTokenFormat;
  }
}
