/** The sending session's tracker: which peer owns which chunk, and whom to send a request to. */
module Tracker {
  import opened Common

  type Uuid = string
  type Chunk = int

  /** An address without its port: IPv4 (also in its IPv6 form), IPv6, or no IP address at all. */
  datatype Ip = V4(a: int, b: int, c: int, d: int) | V6(prefix: seq<int>) | NotAnIp
  datatype Mode = Subnet | All

  datatype Peer = Peer(address: Ip, connections: nat, maxSpeed: nat)
  datatype State = State(peers: map<Uuid, Peer>, chunkOwners: map<Chunk, set<Uuid>>, peerOwners: map<Uuid, set<Chunk>>)

  datatype Op = AddPeer(uuid: Uuid, address: Ip) | RemovePeer(uuid: Uuid) | AddBlockOwner(chunk: Chunk, uuid: Uuid)
      | Grant(uuid: Uuid) | Report(uuid: Uuid, speed: int)

  const ZERO_PREFIX: seq<int> := [0, 0, 0, 0, 0, 0]

  /** The first 48 bits; those of an IPv4 address in IPv6 form are zero. */
  function Prefix48(ip: Ip): seq<int> {
    if ip.V6? then ip.prefix else ZERO_PREFIX
  }

  predicate Reachable(mode: Mode, from: Ip, to: Ip) {
    if mode == All then true
    else if from.NotAnIp? || to.NotAnIp? then false
    else if from.V4? && to.V4? then from.a == to.a && from.b == to.b && from.c == to.c
    else Prefix48(from) == Prefix48(to)
  }

  /** Base weight plus best known speed, falling with the square of the open connections. */
  function Score(peer: Peer): real {
    (10.0 + peer.maxSpeed as real) / ((peer.connections + 1) as real * (peer.connections + 1) as real)
  }

  lemma ScoreIsPositive(peer: Peer)
    ensures Score(peer) > 0.0
  {
    var d := (peer.connections + 1) as real;
    assert d * d > 0.0;
  }

  /** Between peers of one speed the one with fewer open connections scores higher, and between equally busy ones the
      faster. */
  lemma ScorePrefersIdleAndFast(p: Peer, q: Peer)
    ensures p.maxSpeed == q.maxSpeed && p.connections < q.connections ==> Score(p) > Score(q)
    ensures p.connections == q.connections && p.maxSpeed > q.maxSpeed ==> Score(p) > Score(q)
  {
    var a, b := (p.connections + 1) as real, (q.connections + 1) as real;
    var v, w := 10.0 + p.maxSpeed as real, 10.0 + q.maxSpeed as real;
    assert a * a > 0.0 && b * b > 0.0;
    if p.maxSpeed == q.maxSpeed && p.connections < q.connections {
      assert a * (b - a) > 0.0 && b * (b - a) > 0.0;
      assert a * a < b * b;
      LargerDivisor(v, a * a, b * b);
    }
    if p.connections == q.connections && p.maxSpeed > q.maxSpeed {
      LargerDividend(v, w, a * a);
    }
  }

  lemma LargerDivisor(v: real, x: real, y: real)
    requires v > 0.0 && 0.0 < x < y
    ensures v / x > v / y
  {
    var p, q := v / x, v / y;
    assert p * x == v && q * y == v && q > 0.0;
    assert q * x < q * y;
  }

  lemma LargerDividend(v: real, w: real, x: real)
    requires v > w && x > 0.0
    ensures v / x > w / x
  {
    assert (v / x) * x == v && (w / x) * x == w;
  }

  predicate Owns(s: State, uuid: Uuid, i: Chunk) {
    uuid in Get(s.chunkOwners, i, {})
  }

  /** Registered reachable owners other than the session itself. */
  function Candidates(s: State, self: Uuid, i: Chunk, from: Ip, mode: Mode): set<Uuid> {
    set u | u in Get(s.chunkOwners, i, {}) && u != self && u in s.peers && Reachable(mode, from, s.peers[u].address)
  }

  /** In one /24 network, or in one /48 network, where an IPv4 address counts as one of the zero network. */
  predicate Near(from: Ip, to: Ip) {
    match (from, to)
    case (V4(a, b, c, _), V4(x, y, z, _)) => a == x && b == y && c == z
    case (V6(p), V6(q)) => p == q
    case (V4(_, _, _, _), V6(q)) => q == [0, 0, 0, 0, 0, 0]
    case (V6(p), V4(_, _, _, _)) => p == [0, 0, 0, 0, 0, 0]
    case _ => false
  }

  /** Who may be named for a chunk: another registered peer that owns it, and in subnet mode one near the requester. */
  predicate Eligible(s: State, self: Uuid, i: Chunk, from: Ip, mode: Mode, u: Uuid) {
    && i in s.chunkOwners && u in s.chunkOwners[i] && u != self && u in s.peers
    && (mode == Subnet ==> Near(from, s.peers[u].address))
  }

  lemma CandidatesAreEligible(s: State, self: Uuid, i: Chunk, from: Ip, mode: Mode)
    ensures forall u :: u in Candidates(s, self, i, from, mode) <==> Eligible(s, self, i, from, mode, u)
  {
  }

  /** An eligible peer than which none scores higher. */
  ghost predicate BestEligible(s: State, self: Uuid, i: Chunk, from: Ip, mode: Mode, best: Uuid) {
    && Eligible(s, self, i, from, mode, best)
    && forall u :: Eligible(s, self, i, from, mode, u) ==> Score(s.peers[u]) <= Score(s.peers[best])
  }

  function Added(s: State, i: Chunk, uuid: Uuid): State {
    s.(peerOwners := s.peerOwners[uuid := Get(s.peerOwners, uuid, {}) + {i}],
       chunkOwners := s.chunkOwners[i := Get(s.chunkOwners, i, {}) + {uuid}])
  }

  function Removed(s: State, uuid: Uuid): State {
    s.(chunkOwners := map i | i in s.chunkOwners ::
       if i in Get(s.peerOwners, uuid, {}) then s.chunkOwners[i] - {uuid} else s.chunkOwners[i],
       peerOwners := s.peerOwners - {uuid}, peers := s.peers - {uuid})
  }

  function Updated(peer: Peer, speed: int): Peer {
    Peer(peer.address, if peer.connections > 0 then peer.connections - 1 else 0, if speed > peer.maxSpeed then speed
         else peer.maxSpeed)
  }

  function Step(s: State, op: Op): State {
    match op
    case AddPeer(uuid, address) => s.(peers := s.peers[uuid := Peer(address, 0, 0)])
    case RemovePeer(uuid) => Removed(s, uuid)
    case AddBlockOwner(i, uuid) => Added(s, i, uuid)
    case Grant(uuid) => if uuid in s.peers
        then s.(peers := s.peers[uuid := s.peers[uuid].(connections := s.peers[uuid].connections + 1)]) else s
    case Report(uuid, speed) => if uuid in s.peers then s.(peers := s.peers[uuid := Updated(s.peers[uuid], speed)])
        else s
  }

  function Run(s: State, ops: seq<Op>): State {
    if ops == [] then s else Step(Run(s, ops[..|ops| - 1]), ops[|ops| - 1])
  }

  /** A main session starts as the owner of every chunk, without listing them for itself. */
  function Main(self: Uuid, chunks: nat): State {
    State(map[self := Peer(NotAnIp, 0, 0)], OwnChunks(self, chunks), map[])
  }

  function OwnChunks(self: Uuid, n: nat): (owners: map<Chunk, set<Uuid>>)
    ensures forall i :: i in owners <==> 0 <= i < n
    ensures forall i :: i in owners ==> owners[i] == {self}
  {
    if n == 0 then map[] else OwnChunks(self, n - 1)[n - 1 := {self}]
  }

  /** The two indexes mirror each other for every peer; the session's own list never claims more than it owns. */
  ghost predicate Mirrored(s: State, self: Uuid) {
    && (forall u, i :: u != self ==> (Owns(s, u, i) <==> i in Get(s.peerOwners, u, {})))
    && (forall i :: i in Get(s.peerOwners, self, {}) ==> Owns(s, self, i))
  }

  ghost predicate OwnsAll(s: State, self: Uuid, chunks: nat) {
    forall i :: 0 <= i < chunks ==> Owns(s, self, i)
  }

  /** Removing the session itself after it was reported as a peer is the only way it loses chunks. */
  predicate SparesSelf(s: State, self: Uuid, chunks: nat, op: Op) {
    op.RemovePeer? && op.uuid == self ==> forall i :: i in Get(s.peerOwners, self, {}) ==> i < 0 || i >= chunks
  }

  lemma StepKeepsMirrored(s: State, op: Op, self: Uuid)
    requires Mirrored(s, self)
    ensures Mirrored(Step(s, op), self)
    ensures op.RemovePeer? && op.uuid != self ==> op.uuid !in Step(s, op).peers && forall i ::
              !Owns(Step(s, op), op.uuid, i)
  {
    var t := Step(s, op);
    if op.AddBlockOwner? {
      forall u, i ensures Owns(t, u, i) <==> Owns(s, u, i) || (u == op.uuid && i == op.chunk) {
      }
    } else if op.RemovePeer? {
      forall u, i ensures Owns(t, u, i) <==> Owns(s, u, i) && !(u == op.uuid && i in Get(s.peerOwners, u, {})) {
      }
    }
  }

  /** A step keeps the main session's ownership exactly if it spares it. */
  lemma OwnershipIsKeptExactlyWhen(s: State, op: Op, self: Uuid, chunks: nat)
    requires Mirrored(s, self) && OwnsAll(s, self, chunks)
    ensures OwnsAll(Step(s, op), self, chunks) <==> SparesSelf(s, self, chunks, op)
  {
    var t := Step(s, op);
    if op.AddBlockOwner? {
      forall i ensures Owns(s, self, i) ==> Owns(t, self, i) {
      }
    } else if op.RemovePeer? {
      forall i
        ensures Owns(t, self, i) <==> Owns(s, self, i) && !(self == op.uuid && i in Get(s.peerOwners, self, {}))
      {
      }
      if !SparesSelf(s, self, chunks, op) {
        var i :| i in Get(s.peerOwners, self, {}) && 0 <= i < chunks;
        assert !Owns(t, self, i);
      }
    } else {
      forall i ensures Owns(t, self, i) <==> Owns(s, self, i) {
      }
    }
  }

  ghost predicate AlwaysSpares(self: Uuid, chunks: nat, ops: seq<Op>) {
    forall n :: 0 <= n < |ops| ==> SparesSelf(Run(Main(self, chunks), ops[..n]), self, chunks, ops[n])
  }

  ghost predicate AlwaysOwnsAll(self: Uuid, chunks: nat, ops: seq<Op>) {
    forall n :: 0 <= n <= |ops| ==> OwnsAll(Run(Main(self, chunks), ops[..n]), self, chunks)
  }

  lemma AlwaysOneMore(self: Uuid, chunks: nat, ops: seq<Op>, op: Op)
    ensures AlwaysSpares(self, chunks, ops + [op]) <==>
              AlwaysSpares(self, chunks, ops) && SparesSelf(Run(Main(self, chunks), ops), self, chunks, op)
    ensures AlwaysOwnsAll(self, chunks, ops + [op]) <==>
              AlwaysOwnsAll(self, chunks, ops) && OwnsAll(Run(Main(self, chunks), ops + [op]), self, chunks)
  {
    hide OwnsAll, SparesSelf, Run, Main;
    var all := ops + [op];
    assert forall n :: 0 <= n <= |ops| ==> all[..n] == ops[..n];
    assert ops[..|ops|] == ops && all[..|all|] == all && all[|ops|] == op && all[..|ops|] == ops;
    assert forall n :: 0 <= n < |ops| ==> all[n] == ops[n];
    if AlwaysSpares(self, chunks, all) {
      forall n | 0 <= n < |ops| ensures SparesSelf(Run(Main(self, chunks), ops[..n]), self, chunks, ops[n]) {
        assert SparesSelf(Run(Main(self, chunks), all[..n]), self, chunks, all[n]);
      }
      assert SparesSelf(Run(Main(self, chunks), all[..|ops|]), self, chunks, all[|ops|]);
    }
    if AlwaysOwnsAll(self, chunks, all) {
      forall n | 0 <= n <= |ops| ensures OwnsAll(Run(Main(self, chunks), ops[..n]), self, chunks) {
        assert OwnsAll(Run(Main(self, chunks), all[..n]), self, chunks);
      }
      assert OwnsAll(Run(Main(self, chunks), all[..|all|]), self, chunks);
    }
  }

  /** Over any operations, the indexes stay mirrored; and the main session owns every chunk throughout if and only if
      every step spares it. */
  lemma {:induction false} TrackerIsConsistent(self: Uuid, chunks: nat, ops: seq<Op>)
    ensures Mirrored(Run(Main(self, chunks), ops), self)
    ensures AlwaysSpares(self, chunks, ops) <==> AlwaysOwnsAll(self, chunks, ops)
  {
    if ops == [] {
      assert forall n :: 0 <= n <= |ops| ==> ops[..n] == [];
    } else {
      var k := |ops| - 1;
      assert ops == ops[..k] + [ops[k]];
      hide Main, Mirrored, OwnsAll, SparesSelf, Step, AlwaysOwnsAll, AlwaysSpares;
      TrackerIsConsistent(self, chunks, ops[..k]);
      var before := Run(Main(self, chunks), ops[..k]);
      StepKeepsMirrored(before, ops[k], self);
      AlwaysOneMore(self, chunks, ops[..k], ops[k]);
      if AlwaysOwnsAll(self, chunks, ops[..k]) {
        LastOwnsAll(self, chunks, ops[..k]);
        OwnershipIsKeptExactlyWhen(before, ops[k], self, chunks);
      }
    }
  }

  lemma LastOwnsAll(self: Uuid, chunks: nat, ops: seq<Op>)
    requires AlwaysOwnsAll(self, chunks, ops)
    ensures OwnsAll(Run(Main(self, chunks), ops), self, chunks)
  {
    assert ops[..|ops|] == ops;
  }

  predicate Best(s: State, candidates: set<Uuid>, u: Uuid) {
    u in candidates && candidates <= s.peers.Keys && forall v :: v in candidates ==>
        Score(s.peers[v]) <= Score(s.peers[u])
  }

  lemma SameMaps<K, V>(a: map<K, V>, b: map<K, V>)
    requires a.Keys == b.Keys && forall i :: i in a ==> a[i] == b[i]
    ensures a == b
  {
  }

  predicate BestSoFar(s: State, looked: set<Uuid>, best: Uuid, maxScore: real) {
    if looked == {} then best == "" && maxScore == -1.0 else Best(s, looked, best) && maxScore == Score(s.peers[best])
  }

  lemma NobodyLookedAt(s: State, candidates: set<Uuid>, owners: set<Uuid>)
    requires candidates <= owners
    ensures BestSoFar(s, candidates - owners, "", -1.0)
  {
    assert candidates - owners == {};
  }

  lemma OneMoreLookedAt(s: State, self: Uuid, i: Chunk, from: Ip, mode: Mode, todo: set<Uuid>, u: Uuid)
    requires u in todo && todo <= Get(s.chunkOwners, i, {})
    ensures var candidates := Candidates(s, self, i, from, mode);
            candidates - (todo - {u}) == if u != self && u in s.peers && Reachable(mode, from, s.peers[u].address)
                then candidates - todo + {u} else candidates - todo
  {
    hide Reachable;
  }

  lemma EverybodyLookedAt(s: State, candidates: set<Uuid>, best: Uuid, maxScore: real)
    requires BestSoFar(s, candidates - {}, best, maxScore)
    ensures if candidates == {} then best == "" else Best(s, candidates, best)
  {
    assert candidates - {} == candidates;
    hide Score;
  }

  lemma BestIsBestEligible(s: State, self: Uuid, i: Chunk, from: Ip, mode: Mode, best: Uuid)
    requires Best(s, Candidates(s, self, i, from, mode), best) || Candidates(s, self, i, from, mode) == {}
    ensures if Candidates(s, self, i, from, mode) == {} then forall u :: !Eligible(s, self, i, from, mode, u)
            else BestEligible(s, self, i, from, mode, best)
  {
    CandidatesAreEligible(s, self, i, from, mode);
    hide Candidates, Eligible, Score;
  }

  class Session {
    const uuid: Uuid
    const mode: Mode
    const chunks: nat
    const isMain: bool
    var peers: map<Uuid, Peer>
    var chunkOwners: map<Chunk, set<Uuid>>
    var peerOwners: map<Uuid, set<Chunk>>
    var chunkHash: map<Chunk, bv32>

    function View(): State
      reads this
    {
      State(peers, chunkOwners, peerOwners)
    }

    /** The sender of a file: every chunk is its own. */
    constructor BeSendMain(uuid: Uuid, mode: Mode, chunks: nat)
      ensures this.uuid == uuid && this.mode == mode && this.chunks == chunks && isMain
      ensures View() == Main(uuid, chunks) && chunkHash == map[]
    {
      this.uuid, this.mode, this.chunks, isMain := uuid, mode, chunks, true;
      peers := map[uuid := Peer(NotAnIp, 0, 0)];
      chunkOwners, peerOwners, chunkHash := map[], map[], map[];
      new;
      var i := 0;
      while i < chunks
        invariant 0 <= i <= chunks && peers == Main(uuid, chunks).peers && peerOwners == map[] && chunkHash == map[]
        invariant chunkOwners == OwnChunks(uuid, i)
      {
        assert i !in chunkOwners && {} + {uuid} == {uuid};
        chunkOwners := chunkOwners[i := Get(chunkOwners, i, {}) + {uuid}];
        i := i + 1;
      }
    }

    method AddPeer(peer: Uuid, address: Ip)
      modifies this`peers
      ensures View() == Step(old(View()), Op.AddPeer(peer, address))
      ensures peers == old(peers)[peer := Peer(address, 0, 0)]
    {
      peers := peers[peer := Peer(address, 0, 0)];
    }

    method AddBlockOwner(i: Chunk, peer: Uuid)
      modifies this`chunkOwners, this`peerOwners
      ensures View() == Step(old(View()), Op.AddBlockOwner(i, peer))
    {
      if i !in chunkOwners {
        chunkOwners := chunkOwners[i := {}];
      }
      if peer !in peerOwners {
        peerOwners := peerOwners[peer := {}];
      }
      peerOwners := peerOwners[peer := peerOwners[peer] + {i}];
      chunkOwners := chunkOwners[i := chunkOwners[i] + {peer}];
    }

    /** Takes the peer out of every chunk it is listed for, in any order. */
    method RemovePeer(peer: Uuid)
      modifies this`peers, this`chunkOwners, this`peerOwners
      ensures View() == Step(old(View()), Op.RemovePeer(peer))
    {
      ghost var before, removed := chunkOwners, Removed(View(), peer);
      var todo := Get(peerOwners, peer, {});
      ghost var listed := todo;
      while todo != {}
        invariant todo <= listed && chunkOwners.Keys == before.Keys
        invariant forall i :: i in before ==>
                    chunkOwners[i] == if i in listed - todo then before[i] - {peer} else before[i]
        decreases |todo|
        modifies this`chunkOwners
      {
        assert (forall c :: c !in todo) ==> todo == {};
        var i :| i in todo;
        if i in chunkOwners && peer in chunkOwners[i] {
          chunkOwners := chunkOwners[i := chunkOwners[i] - {peer}];
        }
        todo := todo - {i};
      }
      assert listed - todo == listed;
      forall i | i in chunkOwners ensures chunkOwners[i] == removed.chunkOwners[i] {
        assert chunkOwners[i] == if i in listed then before[i] - {peer} else before[i];
      }
      SameMaps(chunkOwners, removed.chunkOwners);
      peerOwners := peerOwners - {peer};
      peers := peers - {peer};
    }

    /** One owner looked at. */
    method Consider(i: Chunk, from: Ip, u: Uuid, ghost looked: set<Uuid>, best: Uuid, maxScore: real)
      returns (newBest: Uuid, newScore: real)
      requires BestSoFar(View(), looked, best, maxScore)
      ensures BestSoFar(View(), if u != uuid && u in peers && Reachable(mode, from, peers[u].address) then looked + {u}
                        else looked, newBest, newScore)
    {
      if u == uuid || u !in peers || !Reachable(mode, from, peers[u].address) {
        return best, maxScore;
      }
      ScoreIsPositive(peers[u]);
      hide Score, Reachable;
      var score := Score(peers[u]);
      if score > maxScore {
        return u, score;
      }
      return best, maxScore;
    }

    /** The peer to fetch a chunk from: an owner of maximal score, whatever the order they are looked at; the session
        itself without any, or when the winner's identifier is empty. */
    method Choose(i: Chunk, from: Ip) returns (best: Uuid)
      requires uuid != ""
      ensures var candidates := Candidates(View(), uuid, i, from, mode);
              if best == uuid then candidates == {} || Best(View(), candidates, "") else Best(View(), candidates, best)
      ensures best != uuid ==> BestEligible(View(), uuid, i, from, mode, best)
      ensures best == uuid ==>
                (forall u :: !Eligible(View(), uuid, i, from, mode, u))
                || BestEligible(View(), uuid, i, from, mode, "")
    {
      CandidatesAreEligible(View(), uuid, i, from, mode);
      ghost var candidates := Candidates(View(), uuid, i, from, mode);
      var owners := Get(chunkOwners, i, {});
      best := "";
      var maxScore: real := -1.0;
      var todo := owners;
      NobodyLookedAt(View(), candidates, owners);
      hide Reachable, Score, BestSoFar, Best;
      while todo != {}
        invariant todo <= owners
        invariant BestSoFar(View(), candidates - todo, best, maxScore)
        decreases |todo|
      {
        assert (forall c :: c !in todo) ==> todo == {};
        var u :| u in todo;
        OneMoreLookedAt(View(), uuid, i, from, mode, todo, u);
        best, maxScore := Consider(i, from, u, candidates - todo, best, maxScore);
        todo := todo - {u};
      }
      EverybodyLookedAt(View(), candidates, best, maxScore);
      BestIsBestEligible(View(), uuid, i, from, mode, best);
      hide Eligible, BestEligible;
      if best == "" {
        return uuid;
      }
    }

    /** Counts a granted request, if its peer is still there. */
    method GrantTo(peer: Uuid)
      modifies this`peers
      ensures View() == Step(old(View()), Grant(peer))
      ensures peers.Keys == old(peers).Keys && forall u :: u in peers ==>
                && peers[u].address == old(peers)[u].address && peers[u].maxSpeed == old(peers)[u].maxSpeed
                && peers[u].connections == old(peers)[u].connections + if u == peer then 1 else 0
    {
      if peer in peers {
        peers := peers[peer := peers[peer].(connections := peers[peer].connections + 1)];
      }
    }

    method UpdatePeer(peer: Uuid, speed: int)
      modifies this`peers
      ensures View() == Step(old(View()), Report(peer, speed))
      ensures peers.Keys == old(peers).Keys && forall u :: u in peers && u != peer ==> peers[u] == old(peers)[u]
      ensures peer in peers ==>
                var p, q := old(peers)[peer], peers[peer];
                && q.address == p.address && (p.connections > 0 ==> q.connections == p.connections - 1)
                && (p.connections == 0 ==> q.connections == 0)
                && q.maxSpeed >= p.maxSpeed && q.maxSpeed >= speed && q.maxSpeed in {p.maxSpeed, speed}
    {
      if peer in peers {
        var p := peers[peer];
        if p.connections > 0 {
          p := p.(connections := p.connections - 1);
        }
        if speed > 0 {
          p := p.(maxSpeed := if speed > p.maxSpeed then speed else p.maxSpeed);
        }
        peers := peers[peer := p];
      }
    }

    /** What this session vouches for: cached checksums first; a main session reads its file for the rest, a receiver
        has nothing else. */
    method IndexValid(i: Chunk, checksum: Chunk -> bv32, readOk: bool) returns (ok: bool, hash: bv32)
      modifies this`chunkHash
      ensures ok <==> i in old(chunkHash) || (0 <= i < chunks && isMain && readOk)
      ensures ok ==>
                chunkHash == old(chunkHash)[i := hash]
                    && (if i in old(chunkHash) then hash == old(chunkHash)[i] else hash == checksum(i))
      ensures !ok ==> chunkHash == old(chunkHash)
    {
      if i in chunkHash {
        return true, chunkHash[i];
      }
      if i < 0 || i >= chunks || !isMain || !readOk {
        return false, 0;
      }
      hash := checksum(i);
      chunkHash := chunkHash[i := hash];
      return true, hash;
    }

    /** The first checksum recorded for a chunk stays. */
    method AddChunk(i: Chunk, hash: bv32)
      modifies this`chunkHash
      ensures chunkHash == if i in old(chunkHash) then old(chunkHash) else old(chunkHash)[i := hash]
    {
      if i !in chunkHash {
        chunkHash := chunkHash[i := hash];
      }
    }
  }
}
