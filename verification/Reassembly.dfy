/** A chunked download: fixed-size chunks saved in any order over any number of rounds, resumed, verified and then
    published. */
module Reassembly {
  import opened Common

  type Byte = bv8
  type Bytes = seq<Byte>

  const CHUNK: int := 4 * 1024 * 1024

  function ChunkCount(size: nat): (n: nat)
    ensures n * CHUNK >= size && (n > 0 ==> (n - 1) * CHUNK < size)
  {
    if size == 0 then 0 else (size + CHUNK - 1) / CHUNK
  }

  predicate InRange(size: nat, i: int) {
    0 <= i < ChunkCount(size)
  }

  /** Chunks are full except possibly the last. */
  function ChunkLength(size: nat, i: int): (n: nat)
    requires InRange(size, i)
    ensures i * CHUNK + n <= size && 0 < n <= CHUNK
  {
    if i * CHUNK + CHUNK > size then size - i * CHUNK else CHUNK
  }

  function ChunkOf(file: Bytes, i: int): Bytes
    requires InRange(|file|, i)
  {
    file[i * CHUNK..i * CHUNK + ChunkLength(|file|, i)]
  }

  /** Writing one chunk's data; a wrong index or length is refused. */
  function Saved(file: Bytes, i: int, data: Bytes): Option<Bytes> {
    if !InRange(|file|, i) || |data| != ChunkLength(|file|, i) then None
    else Some(file[..i * CHUNK] + data + file[i * CHUNK + |data|..])
  }

  /** A saved chunk reads back as written, and no other chunk changes. */
  lemma SaveThenRead(file: Bytes, i: int, data: Bytes, j: int)
    requires Saved(file, i, data).Some? && InRange(|file|, j)
    ensures |Saved(file, i, data).value| == |file|
    ensures ChunkOf(Saved(file, i, data).value, j) == if j == i then data else ChunkOf(file, j)
  {
    var after := Saved(file, i, data).value;
    var from, n := j * CHUNK, ChunkLength(|file|, j);
    if j == i {
      assert after[from..from + n] == data;
    } else if j < i {
      assert from + n <= i * CHUNK;
      assert after[from..from + n] == file[from..from + n];
    } else {
      assert i * CHUNK + |data| <= from;
      assert after[from..from + n] == file[from..from + n];
    }
  }

  lemma SavedFits(file: Bytes, i: int, data: Bytes)
    requires Saved(file, i, data).Some?
    ensures |Saved(file, i, data).value| == |file|
  {
  }

  /** A file is determined by its length and its chunks. */
  lemma ChunksDetermineFile(a: Bytes, b: Bytes)
    requires |a| == |b| && forall i :: InRange(|a|, i) ==> ChunkOf(a, i) == ChunkOf(b, i)
    ensures a == b
  {
    forall k | 0 <= k < |a| ensures a[k] == b[k] {
      var i := k / CHUNK;
      assert i * CHUNK <= k < i * CHUNK + CHUNK;
      assert InRange(|a|, i);
      assert ChunkOf(a, i)[k - i * CHUNK] == a[k] && ChunkOf(b, i)[k - i * CHUNK] == b[k];
    }
  }

  /** A peer's answer to a chunk request. */
  datatype Answer = NoAnswer | Answer(index: int, available: bool, checksum: bv32, payload: Bytes)

  /** One round: whether it is cancelled before or after, and what each requested chunk was answered, first by whom the
      tracker named and, if that was a peer, then by the sender; no answer also stands for a chunk not asked for.
      `stops` says that the process ends during the round. */
  datatype Round = Round(cancelledBefore: bool, fromPeer: int -> bool, first: int -> Answer, second: int -> Answer,
                         stops: bool, cancelledAfter: bool)

  datatype Outcome = Completed | Cancelled | Mismatch | PublishFailed | Unfinished

  /** The answer's chunk passes every check of a file of this size. */
  predicate Acceptable(size: nat, i: int, answer: Answer, crc: Bytes -> bv32) {
    && answer.Answer? && answer.index == i && answer.available && crc(answer.payload) == answer.checksum
    && InRange(size, i) && |answer.payload| == ChunkLength(size, i)
  }

  /** The round brings this chunk if it is still missing. */
  predicate Brings(round: Round, size: nat, i: int, crc: Bytes -> bv32) {
    Acceptable(size, i, round.first(i), crc) || (round.fromPeer(i) && Acceptable(size, i, round.second(i), crc))
  }

  ghost predicate BringsAll(round: Round, size: nat, crc: Bytes -> bv32) {
    forall i :: InRange(size, i) ==> Brings(round, size, i, crc)
  }

  predicate Calm(round: Round) {
    !round.cancelledBefore && !round.stops && !round.cancelledAfter
  }

  /** Some round brings every chunk, and nothing ends the download up to its end. */
  ghost predicate Delivered(rounds: seq<Round>, size: nat, crc: Bytes -> bv32) {
    exists k :: 0 <= k < |rounds| && BringsAll(rounds[k], size, crc) && forall j :: 0 <= j <= k ==> Calm(rounds[j])
  }

  /** These chunks of the file are those of the source. */
  ghost predicate Correct(file: Bytes, source: Bytes, which: set<int>)
    requires |file| == |source|
  {
    forall i :: i in which && InRange(|source|, i) ==> ChunkOf(file, i) == ChunkOf(source, i)
  }

  function Accepted(file: Bytes, i: int, answer: Answer, crc: Bytes -> bv32): Option<Bytes> {
    if answer.NoAnswer? || answer.index != i || !answer.available || crc(answer.payload) != answer.checksum then None
    else Saved(file, i, answer.payload)
  }

  /** Of the answer's chunk, only bytes that pass the checks on index, availability and checksum have to be the
      source's. */
  ghost predicate HonestAnswer(i: int, answer: Answer, source: Bytes, crc: Bytes -> bv32)
    requires InRange(|source|, i)
  {
    answer.Answer? && answer.index == i && answer.available && crc(answer.payload) == answer.checksum ==>
        answer.payload == ChunkOf(source, i)
  }

  /** No corrupted chunk of the round has the checksum it is sent with; one that fails its check may be anything. */
  ghost predicate Honest(round: Round, source: Bytes, crc: Bytes -> bv32) {
    forall i :: InRange(|source|, i) ==>
      HonestAnswer(i, round.first(i), source, crc) && HonestAnswer(i, round.second(i), source, crc)
  }

  lemma AcceptedIsAcceptable(file: Bytes, i: int, answer: Answer, crc: Bytes -> bv32)
    ensures Accepted(file, i, answer, crc).Some? <==> Acceptable(|file|, i, answer, crc)
  {
  }

  function Chunks(size: nat): set<int> {
    set i | 0 <= i < ChunkCount(size) && InRange(size, i)
  }

  function Below(which: set<int>, n: int): set<int> {
    set k | k in which && 0 <= k < n
  }

  lemma BelowGrows(which: set<int>, n: int)
    requires n >= 0
    ensures |Below(which, n + 1)| == |Below(which, n)| + if n in which then 1 else 0
    ensures Below(which - {n}, n + 1) == Below(which, n)
  {
    assert Below(which, n + 1) == Below(which, n) + if n in which then {n} else {};
  }

  lemma SharedOut(pending: set<int>, done: set<int>, size: nat)
    requires forall k :: k in pending <==> InRange(size, k) && k !in done
    ensures done * Chunks(size) == Below(done, ChunkCount(size))
    ensures pending + done * Chunks(size) == Chunks(size) && pending * done == {}
  {
  }

  /** Sorts a file's chunks into done and pending, by the list of finished ones and what can still be read. */
  method Scan(size: nat, listed: set<int>, readable: int -> bool)
    returns (done: set<int>, pending: set<int>, downloaded: nat)
    ensures done <= listed && forall k :: k in listed && (InRange(size, k) ==> readable(k)) ==> k in done
    ensures forall k :: k in pending <==> InRange(size, k) && k !in done
    ensures downloaded == |Below(done, ChunkCount(size))|
  {
    done, pending, downloaded := listed, {}, 0;
    assert Below(done, 0) == {};
    hide Below;
    for i := 0 to ChunkCount(size)
      invariant done <= listed && forall k :: k in listed && (0 <= k < i ==> readable(k)) ==> k in done
      invariant forall k :: k in pending <==> 0 <= k < i && k !in done
      invariant downloaded == |Below(done, i)|
    {
      BelowGrows(done, i);
      if i in done && readable(i) {
        downloaded := downloaded + 1;
      } else {
        done, pending := done - {i}, pending + {i};
      }
    }
  }

  lemma OneMoreChunk(done: set<int>, pending: set<int>, i: int, size: nat)
    requires pending + done * Chunks(size) == Chunks(size) && pending * done == {} && i in pending
    ensures (pending - {i}) + (done + {i}) * Chunks(size) == Chunks(size) && (pending - {i}) * (done + {i}) == {}
    ensures |(done + {i}) * Chunks(size)| == |done * Chunks(size)| + 1
  {
    assert (i in done ==> i in pending * done) && i in Chunks(size);
    assert (done + {i}) * Chunks(size) == done * Chunks(size) + {i};
  }

  class Download {
    const size: nat
    const expected: string
    const sha: Bytes -> string
    const crc: Bytes -> bv32
    var part: Option<Bytes>
    var meta: set<int>
    var published: Option<Bytes>
    var done: set<int>
    var pending: set<int>
    var downloaded: nat

    /** Pending and done chunks share out the file between them, and the counter counts the done ones that exist. */
    ghost predicate Shared()
      reads this`part, this`done, this`pending, this`downloaded
    {
      && part.Some? && |part.value| == size
      && pending + done * Chunks(size) == Chunks(size) && pending * done == {}
      && downloaded == |done * Chunks(size)|
    }

    /** Chunks of `which` hold the source's bytes in the partial file. */
    ghost predicate Faithful(source: Bytes, which: set<int>)
      requires |source| == size
      reads this`part
    {
      part.Some? && |part.value| == size ==> Correct(part.value, source, which)
    }

    /** Both the finished chunks and those listed on disk hold the source's bytes. */
    ghost predicate Sound(source: Bytes)
      requires |source| == size
      reads this`part, this`done, this`meta
    {
      Faithful(source, done) && Faithful(source, meta)
    }

    /** Opens the partial file and its list of finished chunks, or starts both afresh; unreadable chunks are fetched
        again. */
    method Resume(readable: int -> bool)
      modifies this`part, this`meta, this`done, this`pending, this`downloaded
      ensures Shared()
      ensures done <= old(meta) && meta <= old(meta)
      ensures old(part).Some? && |old(part).value| == size ==>
                && part == old(part) && meta == old(meta)
                && forall i :: i in old(meta) && (InRange(size, i) ==> readable(i)) ==> i in done
      ensures !(old(part).Some? && |old(part).value| == size) ==> meta == {} && done == {}
    {
      done := meta;
      if part.None? || |part.value| != size {
        done, meta := {}, {};
        part := Some(seq(size, i => 0));
      }
      done, pending, downloaded := Scan(size, done, readable);
      SharedOut(pending, done, size);
    }

    /** Asks for one chunk; only an answer for it with the right checksum and length is written. */
    method FetchChunk(i: int, answer: Answer) returns (ok: bool)
      requires Shared() && i in pending
      modifies this`part, this`done, this`pending, this`downloaded
      ensures Shared() && part.Some? && old(part).Some?
      ensures ok <==> Accepted(old(part).value, i, answer, crc).Some?
      ensures if ok then part == Accepted(old(part).value, i, answer, crc) && done == old(done) + {i}
              && pending == old(pending) - {i}
              else part == old(part) && done == old(done) && pending == old(pending)
    {
      if answer.NoAnswer? || answer.index != i || !answer.available || crc(answer.payload) != answer.checksum {
        return false;
      }
      var saved := Saved(part.value, i, answer.payload);
      if saved.None? {
        return false;
      }
      SavedFits(part.value, i, answer.payload);
      hide Shared, Saved;
      WriteChunk(i, saved.value);
      return true;
    }

    method WriteChunk(i: int, saved: Bytes)
      requires Shared() && i in pending && |saved| == size
      modifies this`part, this`done, this`pending, this`downloaded
      ensures Shared() && part == Some(saved) && done == old(done) + {i} && pending == old(pending) - {i}
    {
      hide Chunks;
      OneMoreChunk(done, pending, i, size);
      part := Some(saved);
      done, pending, downloaded := done + {i}, pending - {i}, downloaded + 1;
    }

    method FetchFaithfully(i: int, answer: Answer, ghost source: Bytes) returns (ok: bool)
      requires Shared() && i in pending && |source| == size
      modifies this`part, this`done, this`pending, this`downloaded
      ensures ok <==> Accepted(old(part.value), i, answer, crc).Some?
      ensures ok <==> i in done
      ensures part == if ok then Accepted(old(part.value), i, answer, crc) else old(part)
      ensures Shared() && done == old(done) + (if ok then {i} else {})
              && pending == old(pending) - if ok then {i} else {}
      ensures (InRange(size, i) ==> HonestAnswer(i, answer, source, crc)) && old(Sound(source)) ==>
                Sound(source)
    {
      PendingIsNotDone(i);
      ghost var before := part.value;
      hide Shared, Sound, Accepted, Saved;
      ok := FetchChunk(i, answer);
      if ok {
        AcceptedStaysSound(before, i, answer, old(done), source);
      }
    }

    lemma AcceptedStaysSound(before: Bytes, i: int, answer: Answer, was: set<int>, source: Bytes)
      requires |before| == |source| == size && part == Accepted(before, i, answer, crc) && part.Some?
               && done == was + {i}
      ensures HonestAnswer(i, answer, source, crc) && Correct(before, source, was) && Correct(before, source, meta) ==>
                Sound(source)
    {
      forall j | InRange(size, j)
        ensures |part.value| == size && ChunkOf(part.value, j) == if j == i then answer.payload else ChunkOf(before, j)
      {
        SaveThenRead(before, i, answer.payload, j);
      }
      hide Saved;
    }

    lemma PendingExists()
      requires Shared()
      ensures forall i :: i in pending ==> InRange(size, i)
    {
      assert forall i :: i in pending ==> i in Chunks(size);
    }

    lemma PendingIsNotDone(i: int)
      requires Shared() && i in pending
      ensures i !in done
    {
      assert i in done ==> i in pending * done;
    }

    /** Asks whom the tracker named, and after a failed peer the sender: the chunk is done exactly if one of the answers
        that were asked for can be accepted, and holds the first such. */
    method FetchFromEither(i: int, fromPeer: bool, first: Answer, second: Answer, ghost source: Bytes)
      requires Shared() && i in pending && |source| == size
      modifies this`part, this`done, this`pending, this`downloaded
      ensures Shared() && old(done) <= done <= old(done) + {i}
              && pending == old(pending) - if i in done then {i} else {}
      ensures var a, b := Accepted(old(part.value), i, first, crc), Accepted(old(part.value), i, second, crc);
              && (i in done <==> a.Some? || (fromPeer && b.Some?))
              && part == if a.Some? then a else if fromPeer && b.Some? then b else old(part)
      ensures (InRange(size, i) ==> HonestAnswer(i, first, source, crc) && HonestAnswer(i, second, source, crc))
              && old(Sound(source)) ==>
                Sound(source)
    {
      hide Shared, Sound, Faithful, Accepted, HonestAnswer;
      var ok := FetchFaithfully(i, first, source);
      if !ok && fromPeer {
        ok := FetchFaithfully(i, second, source);
      }
    }

    /** One round over everything still pending, in any order: exactly the chunks it brings are done; what fails stays
        pending. */
    method RunRound(round: Round, ghost source: Bytes)
      requires Shared() && |source| == size
      modifies this`part, this`done, this`pending, this`downloaded
      ensures Shared() && pending <= old(pending) && old(done) <= done <= old(done) + old(pending)
      ensures forall i :: i in old(pending) ==> (i in pending <==> !Brings(round, size, i, crc))
      ensures Honest(round, source, crc) && old(Sound(source)) ==> Sound(source)
    {
      hide Shared, Sound, Faithful, Brings;
      var todo := pending;
      while todo != {}
        invariant Shared() && todo <= pending <= old(pending) && old(done) <= done <= old(done) + old(pending)
        invariant forall i :: i in old(pending) && i !in todo ==> (i in pending <==> !Brings(round, size, i, crc))
        invariant Honest(round, source, crc) && old(Sound(source)) ==> Sound(source)
        decreases |todo|
      {
        assert (forall c :: c !in todo) ==> todo == {};
        var i :| i in todo;
        todo := todo - {i};
        FetchOne(i, round, source);
      }
    }

    method FetchOne(i: int, round: Round, ghost source: Bytes)
      requires Shared() && i in pending && |source| == size
      modifies this`part, this`done, this`pending, this`downloaded
      ensures Shared() && old(done) <= done <= old(done) + {i}
              && pending == old(pending) - if Brings(round, size, i, crc) then {i} else {}
      ensures Honest(round, source, crc) && old(Sound(source)) ==> Sound(source)
    {
      AcceptedIsAcceptable(part.value, i, round.first(i), crc);
      AcceptedIsAcceptable(part.value, i, round.second(i), crc);
      assert |part.value| == size;
      hide Sound, Shared, Accepted, Acceptable, HonestAnswer;
      FetchFromEither(i, round.fromPeer(i), round.first(i), round.second(i), source);
    }

    /** Checks the finished file and gives it its final name. */
    method Publish(cancelled: bool, renameOk: bool) returns (outcome: Outcome)
      requires Shared() && pending == {}
      modifies this`part, this`meta, this`published
      ensures outcome == Mismatch <==> sha(old(part).value) != expected
      ensures outcome == Mismatch ==> part == None && meta == {} && published == old(published)
      ensures outcome == Completed ==> sha(old(part).value) == expected && published == old(part) && part == None
      ensures outcome != Mismatch && outcome != Completed ==>
                part == old(part) && meta == old(meta) && published == old(published)
      ensures outcome == Completed <==> sha(old(part).value) == expected && !cancelled && renameOk
      ensures outcome != Unfinished && (outcome == Cancelled <==> sha(old(part).value) == expected && cancelled)
    {
      if sha(part.value) != expected {
        part, meta := None, {};
        return Mismatch;
      }
      if cancelled {
        return Cancelled;
      }
      if !renameOk {
        return PublishFailed;
      }
      published, part, meta := part, None, {};
      return Completed;
    }

    /** Rounds until nothing is pending, the download is cancelled, or the process ends, between rounds or during
        one. */
    method RunRounds(rounds: seq<Round>, ghost source: Bytes) returns (outcome: Option<Outcome>)
      requires Shared() && |source| == size
      modifies this`part, this`meta, this`done, this`pending, this`downloaded
      ensures Shared() && (outcome.None? ==> pending == {}) && outcome in {None, Some(Cancelled), Some(Unfinished)}
      ensures Delivered(rounds, size, crc) ==> outcome.None?
      ensures rounds != [] && outcome.Some? && (forall r :: r in rounds ==> !r.stops) ==> meta == done
      ensures (forall r :: r in rounds ==> Honest(r, source, crc)) && old(Sound(source)) ==> Sound(source)
    {
      hide Shared, Faithful, Honest, Brings;
      var n := 0;
      while pending != {}
        invariant Shared() && n <= |rounds| && (n > 0 ==> meta == done)
        invariant forall k :: 0 <= k < n ==> Calm(rounds[k]) && (BringsAll(rounds[k], size, crc) ==> pending == {})
        invariant (forall r :: r in rounds ==> Honest(r, source, crc)) && old(Sound(source)) ==> Sound(source)
        decreases |rounds| - n
      {
        if n == |rounds| {
          return Some(Unfinished);
        }
        if rounds[n].cancelledBefore {
          meta := done;
          return Some(Cancelled);
        }
        PendingExists();
        RunRound(rounds[n], source);
        assert BringsAll(rounds[n], size, crc) ==> (forall i :: i !in pending) && pending == {};
        if rounds[n].stops {
          return Some(Unfinished);
        }
        meta := done;
        if rounds[n].cancelledAfter {
          return Some(Cancelled);
        }
        n := n + 1;
      }
      return None;
    }

    /** The whole download, over the rounds that happen; `source` is the file being sent. The final name is only ever
        given to bytes with the expected digest; with honest chunks, and honest ones from earlier attempts, those bytes
        are the source. */
    method Run(readable: int -> bool, rounds: seq<Round>, cancelledAtEnd: bool, renameOk: bool, ghost source: Bytes)
      returns (outcome: Outcome)
      requires |source| == size
      modifies this
      ensures published != old(published) ==> outcome == Completed
      ensures outcome == Completed ==> published.Some? && sha(published.value) == expected && |published.value| == size
      ensures outcome == Mismatch ==> part == None && meta == {}
      ensures rounds != [] && pending != {} && (forall r :: r in rounds ==> !r.stops) ==>
                outcome in {Cancelled, Unfinished} && meta == done
      ensures Delivered(rounds, size, crc) && !cancelledAtEnd && renameOk ==> outcome in {Completed, Mismatch}
      ensures (forall r :: r in rounds ==> Honest(r, source, crc)) && old(Resumable(source)) ==>
                Resumable(source) && (outcome == Completed ==> published == Some(source))
                    && (outcome == Mismatch ==> sha(source) != expected)
    {
      ghost var honest := (forall r :: r in rounds ==> Honest(r, source, crc)) && Resumable(source);
      Resume(readable);
      assert honest ==> Sound(source);
      var stopped := RunRounds(rounds, source);
      if stopped.Some? {
        return stopped.value;
      }
      if honest {
        AllDone(source);
      }
      outcome := Publish(cancelledAtEnd, renameOk);
    }

    /** What is on disk for a later attempt: finished chunks, as listed, are the source's. */
    ghost predicate Resumable(source: Bytes)
      requires |source| == size
      reads this`part, this`meta
    {
      Faithful(source, meta)
    }

    lemma AllDone(source: Bytes)
      requires |source| == size && Shared() && pending == {} && Faithful(source, done)
      ensures part == Some(source)
    {
      forall i | InRange(size, i) ensures ChunkOf(part.value, i) == ChunkOf(source, i) {
        assert i in Chunks(size) && i in done;
      }
      ChunksDetermineFile(part.value, source);
    }
  }
}
