/** Pulling a verified file: a resumable temporary, up to three attempts, and a final name only for the right digest. */
module Pull {
  import opened Common

  type Byte = bv8
  type Bytes = seq<Byte>

  const ATTEMPTS: nat := 3

  /** What one attempt meets: cancellation, no answer, a status without content, or content, all of it or broken off. */
  datatype Response = CancelledFirst | NoAnswer | Refused(status: int)
      | Content(partial: bool, body: Bytes, whole: bool)

  datatype Verdict = Success | Again | GiveUp

  /** The temporary after a response: 200 starts it afresh, 206 continues it, and never more than one byte past the
      expected size is kept. */
  function Received(temporary: Bytes, size: nat, response: Response): Bytes
    requires response.Content? && |temporary| <= size
  {
    var start := if response.partial then temporary else [];
    start + if |response.body| <= size - |start| + 1 then response.body else response.body[..size - |start| + 1]
  }

  /** A server that has the file and answers range requests as it should. */
  ghost predicate Honest(response: Response, content: Bytes, offset: nat) {
    response.Content? && response.whole
        && response.body == if response.partial && offset <= |content| then content[offset..] else content
  }

  /** It answers so wherever the download is taken up. */
  ghost predicate HonestServer(answer: nat -> Response, content: Bytes) {
    forall offset :: Honest(answer(offset), content, offset)
  }

  /** An answer after which no other attempt is made. */
  predicate EndsPull(response: Response) {
    response.CancelledFirst? || response.Refused?
  }

  /** Attempts n and n + 1 meet an honest server, and none before them ends the pull. */
  ghost predicate HonestTwice(answers: seq<nat -> Response>, content: Bytes, n: nat) {
    && n + 1 < |answers| && HonestServer(answers[n], content) && HonestServer(answers[n + 1], content)
    && forall k, offset :: 0 <= k < n ==> !EndsPull(answers[k](offset))
  }

  /** What an honest server sent before the connection broke off. */
  predicate Interrupted(response: Response, content: Bytes, offset: nat) {
    response.Content? && !response.whole && offset <= |content|
        && response.body <= if response.partial then content[offset..] else content
  }

  lemma ReceivedIsPrefix(temporary: Bytes, response: Response, content: Bytes)
    requires |temporary| <= |content| && temporary == content[..|temporary|]
             && Interrupted(response, content, |temporary|)
    ensures var start := if response.partial then |temporary| else 0;
            Received(temporary, |content|, response) == content[..start + |response.body|]
  {
    if response.partial {
      assert content[..|temporary|] + content[|temporary|..] == content;
      var rest := content[|temporary|..];
      assert response.body == rest[..|response.body|];
    } else {
      assert response.body == content[..|response.body|];
    }
  }

  class Puller {
    const size: nat
    const digest: string
    const sha: Bytes -> string
    var target: Option<Bytes>
    var temporary: Option<Bytes>

    function Offset(): nat
      reads this
    {
      if temporary.Some? && |temporary.value| <= size then |temporary.value| else 0
    }

    /** What is there of it is the beginning of the content. */
    predicate Holds(content: Bytes)
      requires |content| == size
      reads this
    {
      temporary.Some? && |temporary.value| <= size ==> temporary.value == content[..|temporary.value|]
    }

    /** One attempt: fetch what is missing, check length and digest, and only then rename. A temporary with the wrong
        digest is thrown away, and what arrived before an interruption is kept. The answer depends on the offset asked
        for. */
    method Attempt(answer: nat -> Response, renameOk: bool) returns (verdict: Verdict)
      modifies this
      ensures verdict == Success ==> target.Some? && sha(target.value) == digest && |target.value| == size
      ensures verdict != Success ==> target == old(target)
      ensures answer(old(Offset())) == CancelledFirst ==> verdict == GiveUp
      ensures verdict == GiveUp ==> EndsPull(answer(old(Offset()))) || !renameOk
      ensures forall content | |content| == size && sha(content) == digest
              && Honest(answer(old(Offset())), content, old(Offset())) ::
                && (verdict == GiveUp ==> !renameOk) && (verdict == Again ==> temporary == None)
                && (old(Offset()) == 0 && renameOk ==> verdict == Success && target == Some(content))
      ensures old(Offset()) < size || size == 0 ==> EndsPull(answer(old(Offset()))) ==>
                verdict == GiveUp && (temporary == old(temporary) || old(temporary.Some? && |temporary.value| > size))
      ensures old(Offset()) < size ==> forall content | |content| == size && old(Holds(content))
              && Interrupted(answer(old(Offset())), content, old(Offset())) ::
                var start := if answer(old(Offset())).partial then old(Offset()) else 0;
                verdict == Again && temporary == Some(content[..start + |answer(old(Offset())).body|])
    {
      var response := answer(Offset());
      if response.CancelledFirst? {
        return GiveUp;
      }
      var offset := if temporary.Some? then |temporary.value| else 0;
      if offset > size {
        temporary := None;
        offset := 0;
      }
      if offset < size || size == 0 {
        match response {
          case NoAnswer => return Again;
          case Refused(_) => return GiveUp;
          case Content(partial, body, whole) =>
            assert [] + body == body;
            forall content | |content| == size && old(Holds(content)) && Interrupted(response, content, offset) {
              ReceivedIsPrefix(if temporary.Some? then temporary.value else [], response, content);
            }
            temporary := Some(Received(if temporary.Some? then temporary.value else [], size, response));
            if !whole {
              return Again;
            }
        }
      }
      if temporary.None? || |temporary.value| != size {
        return Again;
      }
      if sha(temporary.value) == digest {
        if !renameOk {
          return GiveUp;
        }
        target, temporary := temporary, None;
        return Success;
      }
      temporary := None;
      return Again;
    }

    ghost predicate Wanted(content: Bytes) {
      |content| == size && sha(content) == digest
    }

    /** The whole pull: success means the target has the digest, failure leaves it byte for byte as it was. With an
        honest server two attempts in a row are enough, whatever earlier pulls and attempts left behind. */
    method PullVerified(answers: seq<nat -> Response>, renameOk: bool) returns (ok: bool)
      requires |answers| == ATTEMPTS
      modifies this
      ensures ok ==> target.Some? && sha(target.value) == digest
      ensures !ok ==> target == old(target)
      ensures ok && target != old(target) ==> |target.value| == size
      ensures old(target).Some? && sha(old(target).value) == digest ==>
                ok && target == old(target) && temporary == old(temporary)
      ensures forall content, n: nat | Wanted(content) && HonestTwice(answers, content, n) :: renameOk ==> ok
    {
      if target.Some? && sha(target.value) == digest {
        return true;
      }
      for n := 0 to ATTEMPTS
        invariant target == old(target)
        invariant n > 0 && renameOk ==> forall content | Wanted(content) && HonestServer(answers[n - 1], content) ::
                    temporary == None
        invariant renameOk ==> forall content, k: nat | Wanted(content) && HonestTwice(answers, content, k) ::
                    k + 1 >= n
      {
        ghost var offset := Offset();
        forall content | HonestServer(answers[n], content) ensures Honest(answers[n](offset), content, offset) {
        }
        var verdict := Attempt(answers[n], renameOk);
        if verdict == Success {
          return true;
        }
        if verdict == GiveUp {
          return false;
        }
      }
      return false;
    }
  }
}
