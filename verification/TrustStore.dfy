/** The paired-device store: what each mutation does to memory, and the sorted snapshot it puts on disk. */
module TrustStoreModule {
  import opened Common
  import opened PairingCode
  import opened SortedIds

  type Id = string
  type Token = string
  type Time = int

  datatype Peer = Peer(id: Id, name: string, token: Token, pairedAt: Time, lastSeen: Time)

  type Peers = map<Id, Peer>

  // -- mutations -----------------------------------------------------------------------------

  datatype Op =
    | Add(id: Id, name: string, token: Token, now: Time)
    | Remove(id: Id)
    | Touch(id: Id, now: Time)
    | Rename(id: Id, name: string)

  /** Whether the mutation goes on to the disk, or why it stops short. */
  datatype Outcome = Persist | Invalid | NoSuchPeer | Unchanged

  function Mutate(m: Peers, op: Op): (Peers, Outcome) {
    match op
    case Add(id, name, token, now) =>
      if id == "" || !ValidTokenFormat(token) then (m, Invalid)
      else (m[id := Peer(id, name, token, now, now)], Persist)
    case Remove(id) => if id !in m then (m, Unchanged) else (m - {id}, Persist)
    case Touch(id, now) => if id !in m then (m, NoSuchPeer) else (m[id := m[id].(lastSeen := now)], Persist)
    case Rename(id, name) =>
      if id !in m then (m, NoSuchPeer)
      else if m[id].name == name then (m, Unchanged)
      else (m[id := m[id].(name := name)], Persist)
  }

  /** Nothing about any other device. */
  ghost predicate OthersStay(m: Peers, n: Peers, id: Id) {
    forall i :: i != id ==> (i in n <==> i in m) && (i in m ==> n[i] == m[i])
  }

  /** What a mutation means for the one device it names. */
  predicate Means(m: Peers, n: Peers, op: Op) {
    var id := op.id;
    match op
    case Add(_, name, token, now) =>
      if id == "" || !ValidTokenFormat(token) then (id in n <==> id in m) && (id in m ==> n[id] == m[id])
      else id in n && n[id].id == id && n[id].name == name && n[id].token == token
           && n[id].pairedAt == now && n[id].lastSeen == now
    case Remove(_) => id !in n
    case Touch(_, now) => (id in n <==> id in m) && (id in m ==> SeenAt(m[id], n[id], now))
    case Rename(_, name) => (id in n <==> id in m) && (id in m ==> Named(m[id], n[id], name))
  }

  /** The same record, seen later; the same record under another name. */
  predicate SeenAt(p: Peer, q: Peer, now: Time) {
    q.lastSeen == now && q.id == p.id && q.name == p.name && q.token == p.token && q.pairedAt == p.pairedAt
  }

  predicate Named(p: Peer, q: Peer, name: string) {
    q.name == name && q.id == p.id && q.token == p.token && q.pairedAt == p.pairedAt && q.lastSeen == p.lastSeen
  }

  /** Each mutation does that to its device and nothing to any other. */
  lemma MutationsMeanThat(m: Peers, op: Op)
    ensures OthersStay(m, Mutate(m, op).0, op.id) && Means(m, Mutate(m, op).0, op)
    ensures Mutate(m, op).1.Invalid? <==> op.Add? && (op.id == "" || !ValidTokenFormat(op.token))
    ensures Mutate(m, op).1.NoSuchPeer? <==> (op.Touch? || op.Rename?) && op.id !in m
    ensures Mutate(m, op).1.Unchanged?
            <==> (op.id !in m && op.Remove?) || (op.id in m && op.Rename? && m[op.id].name == op.name)
  {
    hide ValidTokenFormat;
  }

  function Usable(p: Peer): bool { p.id != "" && ValidTokenFormat(p.token) }

  /** Every record sits under its own id and can authenticate. */
  predicate WellKept(m: Peers) { forall id :: id in m ==> m[id].id == id && Usable(m[id]) }

  lemma MutateKeeps(m: Peers, op: Op)
    requires WellKept(m)
    ensures WellKept(Mutate(m, op).0)
    ensures Mutate(m, op).1 != Persist ==> Mutate(m, op).0 == m
  {
    hide ValidTokenFormat;
  }

  // -- the file ----------------------------------------------------------------------------------

  /** Sorted by id, each id once. */
  predicate Sorted(file: seq<Peer>) { forall i, j :: 0 <= i < j < |file| ==> Precedes(file[i].id, file[j].id) }

  /** The file holds the records of m, all of them and nothing else, in order of id. */
  predicate IsSnapshot(file: seq<Peer>, m: Peers) {
    && Sorted(file)
    && (forall i :: 0 <= i < |file| ==> file[i].id in m && m[file[i].id] == file[i])
    && (forall id :: id in m ==> m[id] in file)
  }

  /** LoadTrustStoreAt on a readable file: records that could never authenticate are skipped, later ones win. */
  function Load(file: seq<Peer>): Peers {
    if file == [] then map[]
    else
      var m := Load(file[..|file| - 1]);
      var p := file[|file| - 1];
      if Usable(p) then m[p.id := p] else m
  }

  lemma {:induction false} LoadHolds(file: seq<Peer>, id: Id)
    requires Sorted(file) && forall i :: 0 <= i < |file| ==> Usable(file[i])
    ensures id in Load(file) ==> Load(file)[id] in file && Load(file)[id].id == id
    ensures forall i :: 0 <= i < |file| && file[i].id == id ==> id in Load(file) && Load(file)[id] == file[i]
  {
    if file != [] {
      var front, p := file[..|file| - 1], file[|file| - 1];
      LoadHolds(front, id);
      forall i | 0 <= i < |file| && file[i].id == id ensures id in Load(file) && Load(file)[id] == file[i] {
        if i < |front| {
          assert front[i] == file[i];
          PrecedesTotal(file[i].id, p.id);
        }
      }
      hide Precedes, Usable;
    }
  }

  /** The load filter drops nothing the store ever wrote: loading a snapshot gives back the memory it was taken from. */
  lemma LoadSnapshot(file: seq<Peer>, m: Peers)
    requires WellKept(m) && IsSnapshot(file, m)
    ensures Load(file) == m
  {
    forall id ensures id in Load(file) <==> id in m {
      LoadHolds(file, id);
      if id in m {
        var i :| 0 <= i < |file| && file[i] == m[id];
        assert file[i].id == id;
      }
    }
    forall id | id in m ensures Load(file)[id] == m[id] {
      LoadHolds(file, id);
      var i :| 0 <= i < |file| && file[i] == m[id];
      assert file[i].id == id;
    }
    hide Load, Sorted, Usable;
  }

  function IdsOf(file: seq<Peer>): seq<Id> { seq(|file|, i requires 0 <= i < |file| => file[i].id) }

  lemma SnapshotLists(file: seq<Peer>, m: Peers)
    requires WellKept(m) && IsSnapshot(file, m)
    ensures Lists(IdsOf(file), m.Keys)
  {
    forall id ensures id in IdsOf(file) <==> id in m {
      if id in m {
        var i :| 0 <= i < |file| && file[i] == m[id];
        assert IdsOf(file)[i] == id;
      }
    }
    hide Precedes, Usable;
  }

  /** There is only one snapshot of a memory, so "the file equals a snapshot" pins the file down. */
  lemma SnapshotUnique(file: seq<Peer>, other: seq<Peer>, m: Peers)
    requires WellKept(m) && IsSnapshot(file, m) && IsSnapshot(other, m)
    ensures file == other
  {
    SnapshotLists(file, m);
    SnapshotLists(other, m);
    ListsUnique(IdsOf(file), IdsOf(other), m.Keys);
    assert |file| == |IdsOf(file)| && |other| == |IdsOf(other)|;
    forall i | 0 <= i < |file| ensures file[i] == other[i] {
      assert IdsOf(file)[i] == IdsOf(other)[i];
    }
    hide Lists, Sorted, WellKept;
  }

  // -- the store --------------------------------------------------------------------------------------

  /**
   * How the write of a snapshot ends: in place and reported so, before the rename, or with the rename done and an
   * error after it.
   */
  datatype Io = Written | FailedBefore | FailedAfter

  class TrustStore {
    var peers: Peers
    var disk: seq<Peer>

    ghost predicate Valid()
      reads this
    {
      WellKept(peers)
    }

    /** LoadTrustStoreAt: what was on disk, short of the records that could never authenticate. */
    constructor (file: seq<Peer>)
      ensures Valid() && peers == Load(file) && disk == file
    {
      disk, peers := file, map[];
      new;
      for i := 0 to |file|
        invariant peers == Load(file[..i]) && WellKept(peers) && disk == file
      {
        assert file[..i + 1][..i] == file[..i];
        var wellFormed := ValidLowerHex(file[i].token, TOKEN_HEX_LEN);
        if file[i].id != "" && wellFormed {
          peers := peers[file[i].id := file[i]];
        }
        hide AllLowerHex;
      }
      assert file[..|file|] == file;
    }

    method SnapshotLocked() returns (file: seq<Peer>)
      requires Valid()
      ensures IsSnapshot(file, peers)
    {
      var ids := SortKeys(peers.Keys);
      file := [];
      for i := 0 to |ids|
        invariant |file| == i && forall j :: 0 <= j < i ==> file[j] == peers[ids[j]]
      {
        file := file + [peers[ids[i]]];
      }
      forall id | id in peers ensures peers[id] in file {
        var i :| 0 <= i < |ids| && ids[i] == id;
        assert file[i] == peers[id];
      }
      hide Precedes, Usable;
    }

    /** writeLocked: the old file or the new one, never anything in between. */
    method WriteLocked(file: seq<Peer>, io: Io) returns (ok: bool)
      modifies this`disk
      ensures disk == if io.FailedBefore? then old(disk) else file
      ensures ok <==> io.Written?
    {
      if io.FailedBefore? { return false; }
      disk := file;
      return io.Written?;
    }

    /** What a mutation leaves in memory and on disk, and whether it reports success. */
    twostate predicate Did(op: Op, io: Io, ok: bool)
      reads this
    {
      var (m, outcome) := Mutate(old(peers), op);
      && Valid() && peers == m
      && (if outcome.Persist? && !io.FailedBefore? then IsSnapshot(disk, peers) else disk == old(disk))
      && (ok <==> outcome.Unchanged? || (outcome.Persist? && io.Written?))
    }

    method Add(id: Id, name: string, token: Token, now: Time, io: Io) returns (ok: bool)
      requires Valid()
      modifies this
      ensures Did(Op.Add(id, name, token, now), io, ok)
      ensures OthersStay(old(peers), peers, id) && Means(old(peers), peers, Op.Add(id, name, token, now))
    {
      MutationsMeanThat(peers, Op.Add(id, name, token, now));
      hide OthersStay, Means;
      if id == "" { return false; }
      var wellFormed := ValidLowerHex(token, TOKEN_HEX_LEN);
      if !wellFormed { return false; }
      peers := peers[id := Peer(id, name, token, now, now)];
      var snapshot := SnapshotLocked();
      ok := WriteLocked(snapshot, io);
      hide AllLowerHex, IsSnapshot;
    }

    method Remove(id: Id, io: Io) returns (removed: bool, ok: bool)
      requires Valid()
      modifies this
      ensures Did(Op.Remove(id), io, ok)
      ensures removed <==> id in old(peers) && ok
      ensures OthersStay(old(peers), peers, id) && id !in peers
    {
      MutationsMeanThat(peers, Op.Remove(id));
      hide OthersStay;
      var existed := id in peers;
      if existed { peers := peers - {id}; }
      var snapshot := SnapshotLocked();
      if !existed { return false, true; }
      ok := WriteLocked(snapshot, io);
      removed := ok;
      hide ValidTokenFormat, IsSnapshot;
    }

    method Touch(id: Id, now: Time, io: Io) returns (ok: bool)
      requires Valid()
      modifies this
      ensures Did(Op.Touch(id, now), io, ok)
      ensures OthersStay(old(peers), peers, id) && (id in peers <==> id in old(peers))
      ensures id in peers ==> SeenAt(old(peers)[id], peers[id], now)
    {
      MutationsMeanThat(peers, Op.Touch(id, now));
      hide OthersStay, SeenAt;
      if id !in peers { return false; }
      peers := peers[id := peers[id].(lastSeen := now)];
      var snapshot := SnapshotLocked();
      ok := WriteLocked(snapshot, io);
      hide ValidTokenFormat, IsSnapshot;
    }

    method Rename(id: Id, name: string, io: Io) returns (ok: bool)
      requires Valid()
      modifies this
      ensures Did(Op.Rename(id, name), io, ok)
      ensures OthersStay(old(peers), peers, id) && (id in peers <==> id in old(peers))
      ensures id in peers ==> Named(old(peers)[id], peers[id], name)
    {
      MutationsMeanThat(peers, Op.Rename(id, name));
      hide OthersStay, Named;
      if id !in peers { return false; }
      if peers[id].name == name { return true; }
      peers := peers[id := peers[id].(name := name)];
      var snapshot := SnapshotLocked();
      ok := WriteLocked(snapshot, io);
      hide ValidTokenFormat, IsSnapshot;
    }

    /** VerifyToken: an unknown device is compared too, against a dummy, and never accepted. */
    method VerifyToken(id: Id, token: Token, dummy: Token) returns (ok: bool)
      ensures ok <==> id in peers && peers[id].token == token
    {
      var known := id in peers;
      var want := if known then peers[id].token else dummy;
      var equal := want == token;
      return known && equal;
    }
  }
}
