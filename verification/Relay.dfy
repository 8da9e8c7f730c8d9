/** A room relay: durable receipts per request id, concurrent workers, and restarts at any point. */
module Relay {
  import opened Common
  import opened Assets
  import Broadcasts = BroadcastStore

  type Id = nat

  /** Where a request leads: refused outright, to broadcast application, or to a local handler. */
  datatype Route = Forbidden | BroadcastSync(publication: Option<Publication>) | LocalHandler
  datatype Request = Request(id: Id, wellFormedId: bool, isGet: bool, route: Route)
  datatype Response = Response(id: Id, status: int, body: string)

  datatype Receipt = Processing | Done(response: Response) | Unknown

  /** A worker before its receipt lookup, before its work, and between its work and its receipt update. */
  datatype Worker = Looking(request: Request) | Accepted(request: Request)
      | Worked(request: Request, response: Response, attempt: nat)

  /** One execution of a request: what it answered, the broadcast tables around it, whether a local handler ran. */
  datatype Attempt = Attempt(request: Request, response: Response, before: Broadcasts.Store, after: Broadcasts.Store,
                             handled: bool, receiptDeleted: bool)

  datatype State = State(receipts: map<Id, Receipt>, workers: map<nat, Worker>, attempts: seq<Attempt>,
                         tables: Broadcasts.Store)

  /** What the surroundings decide during the work: preparation refused, the handler's answer, or the broadcast's
      surroundings. */
  datatype Effect = Refused(reason: string) | Handled(status: int, body: string)
      | Broadcast(env: Broadcasts.Surroundings, text: string)

  datatype Step =
    | Arrive(worker: nat, request: Request, relayMode: bool, insertOk: bool)
    | Look(worker: nat, readOk: bool)
    | Work(worker: nat, effect: Effect)
    | Finish(worker: nat, writeOk: bool)
    | Restart
    | RoomEdit(tables: Broadcasts.Store)

  predicate Allowed(request: Request) {
    match request.route
    case Forbidden => false
    case BroadcastSync(_) => !request.isGet
    case LocalHandler => true
  }

  predicate Enabled(s: State, step: Step) {
    match step
    case Arrive(w, _, _, _) => w !in s.workers
    case Look(w, _) => w in s.workers && s.workers[w].Looking?
    case Work(w, effect) => w in s.workers && s.workers[w].Accepted?
        && (effect.Broadcast? <==> s.workers[w].request.route.BroadcastSync?)
    case Finish(w, _) => w in s.workers && s.workers[w].Worked?
    case _ => true
  }

  /** The request is authorised and its receipt inserted in one statement; only the inserting worker may go on. */
  function ReceiveRequest(s: State, w: nat, request: Request, relayMode: bool, insertOk: bool): (State,
      Option<Response>) {
    if !Allowed(request) || !relayMode then (s, Some(Response(request.id, 403, "relay operation forbidden")))
    else if !request.wellFormedId then (s, Some(Response(request.id, 400, "")))
    else if request.isGet then (s.(workers := s.workers[w := Accepted(request)]), None)
    else if !insertOk then (s, Some(Response(request.id, 500, "cannot persist request receipt")))
    else if request.id in s.receipts then (s.(workers := s.workers[w := Looking(request)]), None)
    else (s.(receipts := s.receipts[request.id := Processing], workers := s.workers[w := Accepted(request)]), None)
  }

  /** A duplicate is answered from the receipt alone. */
  function ReadReceipt(s: State, w: nat, readOk: bool): (State, Option<Response>)
    requires Enabled(s, Step.Look(w, readOk))
  {
    var id := s.workers[w].request.id;
    (s.(workers := s.workers - {w}),
     Some(if !readOk || id !in s.receipts then Response(id, 500, "")
          else match s.receipts[id]
            case Done(response) => response
            case Processing => Response(id, 102, "request already received")
            case Unknown => Response(id, 409, "request already received")))
  }

  ghost function Perform(s: State, request: Request, effect: Effect): Attempt
    requires effect.Broadcast? <==> request.route.BroadcastSync?
  {
    match effect
    case Refused(reason) => Attempt(request, Response(request.id, 400, reason), s.tables, s.tables, false, false)
    case Handled(status, body) => Attempt(request, Response(request.id, status, body), s.tables, s.tables, true, false)
    case Broadcast(env, text) =>
      var reply := Broadcasts.Respond(s.tables, request.route.publication, env);
      Attempt(request, Response(request.id, reply.status, text), s.tables, reply.store, reply.commanded, false)
  }

  ghost function RunRequest(s: State, w: nat, effect: Effect): State
    requires Enabled(s, Step.Work(w, effect))
  {
    var request := s.workers[w].request;
    var attempt := Perform(s, request, effect);
    s.(workers := s.workers[w := Worked(request, attempt.response, |s.attempts|)], attempts := s.attempts + [attempt],
       tables := attempt.after)
  }

  /** A broadcast that could not fetch its assets gives its receipt back; everything else keeps it for good. */
  function Conclude(s: State, w: nat, writeOk: bool): (State, Option<Response>)
    requires Enabled(s, Step.Finish(w, writeOk))
  {
    var Worked(request, response, n) := s.workers[w];
    var idle := s.(workers := s.workers - {w});
    if request.route.BroadcastSync? && response.status == 503 then
      if writeOk && request.id in s.receipts && s.receipts[request.id].Processing? && n < |s.attempts| then
        (idle.(receipts := s.receipts - {request.id},
               attempts := s.attempts[n := s.attempts[n].(receiptDeleted := true)]), Some(response.(status := 102)))
      else
        (idle, Some(if writeOk then response.(status := 102) else response))
    else if request.isGet then (idle, Some(response))
    else if !writeOk then (idle, Some(Response(response.id, 409, "operation ran but receipt could not be saved")))
    else (idle.(receipts := if request.id in s.receipts then s.receipts[request.id := Done(response)] else s.receipts),
          Some(response))
  }

  /** A new process: no workers survive, and interrupted executions are of unknown outcome. */
  function Reopened(s: State): State {
    s.(receipts := map id | id in s.receipts ::
       if s.receipts[id].Processing? then Unknown else s.receipts[id], workers := map[])
  }

  ghost function Next(s: State, step: Step): (State, Option<Response>)
    requires Enabled(s, step)
  {
    match step
    case Arrive(w, request, relayMode, insertOk) => ReceiveRequest(s, w, request, relayMode, insertOk)
    case Look(w, readOk) => ReadReceipt(s, w, readOk)
    case Work(w, effect) => (RunRequest(s, w, effect), None)
    case Finish(w, writeOk) => Conclude(s, w, writeOk)
    case Restart => (Reopened(s), None)
    case RoomEdit(tables) => (s.(tables := tables), None)
  }

  // ----- Invariant -----

  /** An execution that still counts: its receipt was never given back. */
  predicate Kept(attempt: Attempt) {
    !attempt.request.isGet && !attempt.receiptDeleted
  }

  ghost predicate KeptFor(s: State, id: Id) {
    exists n :: 0 <= n < |s.attempts| && Kept(s.attempts[n]) && s.attempts[n].request.id == id
  }

  predicate Holds(worker: Worker, id: Id) {
    !worker.Looking? && !worker.request.isGet && worker.request.id == id
  }

  ghost predicate AttemptsOk(s: State) {
    && (forall n :: 0 <= n < |s.attempts| && Kept(s.attempts[n]) ==> s.attempts[n].request.id in s.receipts)
    && (forall m, n :: 0 <= m < n < |s.attempts| && Kept(s.attempts[m]) && Kept(s.attempts[n]) ==>
        s.attempts[m].request.id != s.attempts[n].request.id)
    && (forall n :: 0 <= n < |s.attempts| && s.attempts[n].receiptDeleted ==> Harmless(s.attempts[n]))
    && (forall n :: 0 <= n < |s.attempts| ==> s.attempts[n].response.id == s.attempts[n].request.id)
  }

  predicate Harmless(attempt: Attempt) {
    attempt.before == attempt.after && !attempt.handled
  }

  ghost predicate WorkersOk(s: State) {
    && (forall w :: w in s.workers ==> Allowed(s.workers[w].request))
    && (forall w, id :: w in s.workers && Holds(s.workers[w], id) ==> id in s.receipts && s.receipts[id].Processing?)
    && (forall v, w, id :: v in s.workers && w in s.workers && Holds(s.workers[v], id) && Holds(s.workers[w], id) ==>
        v == w)
    && (forall w :: w in s.workers && s.workers[w].Accepted? && !s.workers[w].request.isGet ==>
        !KeptFor(s, s.workers[w].request.id))
    && (forall w :: w in s.workers && s.workers[w].Worked? ==> Recorded(s, s.workers[w]))
  }

  ghost predicate Recorded(s: State, worker: Worker)
    requires worker.Worked?
  {
    && worker.attempt < |s.attempts|
    && var attempt := s.attempts[worker.attempt];
    && attempt.request == worker.request && attempt.response == worker.response && !attempt.receiptDeleted
    && (worker.request.route.BroadcastSync? && worker.response.status == 503 ==> Harmless(attempt))
  }

  /** A "done" receipt is the response of the one kept execution of its id. */
  ghost predicate ReceiptsOk(s: State) {
    forall id :: id in s.receipts && s.receipts[id].Done? ==> Answered(s, id, s.receipts[id].response)
  }

  ghost predicate Answered(s: State, id: Id, response: Response) {
    exists n ::
        0 <= n < |s.attempts| && Kept(s.attempts[n]) && s.attempts[n].request.id == id
            && s.attempts[n].response == response
  }

  ghost predicate Inv(s: State) {
    AttemptsOk(s) && WorkersOk(s) && ReceiptsOk(s)
  }

  ghost predicate Initial(s: State) {
    s.receipts == map[] && s.workers == map[] && s.attempts == []
  }

  lemma WorkFacts(s: State, w: nat, effect: Effect) returns (attempt: Attempt)
    requires Enabled(s, Step.Work(w, effect))
    ensures var request := s.workers[w].request;
            && attempt.request == request && attempt.response.id == request.id && !attempt.receiptDeleted
            && (request.route.BroadcastSync? && attempt.response.status == 503 ==> Harmless(attempt))
            && var worker := Worked(request, attempt.response, |s.attempts|);
               RunRequest(s, w, effect) == s.(workers := s.workers[w := worker], attempts := s.attempts + [attempt],
                                              tables := attempt.after)
  {
    attempt := Perform(s, s.workers[w].request, effect);
    if effect.Broadcast? {
      Broadcasts.StatusTellsWhetherTablesChanged(s.tables, s.workers[w].request.route.publication, effect.env);
    }
    hide Broadcasts.Respond;
  }

  lemma WorkKeepsInv(s: State, w: nat, effect: Effect)
    requires Inv(s) && Enabled(s, Step.Work(w, effect))
    ensures Inv(RunRequest(s, w, effect))
  {
    var attempt := WorkFacts(s, w, effect);
    hide RunRequest, Harmless, AttemptsOk, WorkersOk, ReceiptsOk;
    AppendedKeepsInv(s, RunRequest(s, w, effect), w, attempt);
  }

  /** One more execution, by a worker that may go on. */
  ghost predicate Appended(s: State, t: State, w: nat, attempt: Attempt) {
    && w in s.workers && s.workers[w].Accepted? && attempt.request == s.workers[w].request
    && attempt.response.id == attempt.request.id && !attempt.receiptDeleted
    && (attempt.request.route.BroadcastSync? && attempt.response.status == 503 ==> Harmless(attempt))
    && t.workers == s.workers[w := Worked(attempt.request, attempt.response, |s.attempts|)]
    && t.attempts == s.attempts + [attempt] && t.receipts == s.receipts
  }

  /** It is the only worker holding its id. */
  lemma AppendedKeepsInv(s: State, t: State, w: nat, attempt: Attempt)
    requires Inv(s) && Appended(s, t, w, attempt)
    ensures Inv(t)
  {
    AppendedAttemptsOk(s, t, w, attempt);
    AppendedReceiptsOk(s, t, w, attempt);
    AppendedHolders(s, t, w, attempt);
    AppendedWorkersOk(s, t, w, attempt);
    hide AttemptsOk, ReceiptsOk, Appended, Recorded, KeptFor, Holds;
  }

  lemma AppendedAttemptsOk(s: State, t: State, w: nat, attempt: Attempt)
    requires AttemptsOk(s) && WorkersOk(s) && Appended(s, t, w, attempt)
    ensures AttemptsOk(t)
  {
    hide Harmless, Recorded;
    assert attempt.request.isGet || (Holds(s.workers[w], attempt.request.id) && !KeptFor(s, attempt.request.id));
    hide WorkersOk;
  }

  lemma AppendedReceiptsOk(s: State, t: State, w: nat, attempt: Attempt)
    requires ReceiptsOk(s) && Appended(s, t, w, attempt)
    ensures ReceiptsOk(t)
  {
    hide Harmless;
    forall id | id in t.receipts && t.receipts[id].Done? ensures Answered(t, id, t.receipts[id].response) {
      var n :| 0 <= n < |s.attempts| && Kept(s.attempts[n]) && s.attempts[n].request.id == id
          && s.attempts[n].response == s.receipts[id].response;
      assert t.attempts[n] == s.attempts[n];
    }
  }

  lemma AppendedHolders(s: State, t: State, w: nat, attempt: Attempt)
    requires WorkersOk(s) && Appended(s, t, w, attempt)
    ensures forall v :: v in t.workers ==> Allowed(t.workers[v].request)
    ensures forall v, id :: v in t.workers && Holds(t.workers[v], id) ==> id in t.receipts && t.receipts[id].Processing?
    ensures forall u, v, id ::
              u in t.workers && v in t.workers && Holds(t.workers[u], id) && Holds(t.workers[v], id) ==> u == v
  {
    hide Harmless, Recorded, KeptFor;
    assert forall v, id :: v in t.workers ==> (Holds(t.workers[v], id) <==> Holds(s.workers[v], id));
    hide Holds;
  }

  lemma AppendedWorkersOk(s: State, t: State, w: nat, attempt: Attempt)
    requires WorkersOk(s) && Appended(s, t, w, attempt)
    ensures forall v :: v in t.workers && t.workers[v].Accepted? && !t.workers[v].request.isGet ==>
              !KeptFor(t, t.workers[v].request.id)
    ensures forall v :: v in t.workers && t.workers[v].Worked? ==> Recorded(t, t.workers[v])
  {
    hide Harmless;
    forall v | v in t.workers && t.workers[v].Accepted? && !t.workers[v].request.isGet
      ensures !KeptFor(t, t.workers[v].request.id)
    {
      assert Holds(s.workers[v], s.workers[v].request.id) && !KeptFor(s, s.workers[v].request.id);
    }
    hide KeptFor, Holds;
    forall v | v in t.workers && t.workers[v].Worked? ensures Recorded(t, t.workers[v]) {
      if v != w { assert Recorded(s, s.workers[v]); }
    }
  }

  lemma ArriveKeepsInv(s: State, w: nat, request: Request, relayMode: bool, insertOk: bool)
    requires Inv(s) && w !in s.workers
    ensures Inv(ReceiveRequest(s, w, request, relayMode, insertOk).0)
  {
    var t := ReceiveRequest(s, w, request, relayMode, insertOk).0;
    if t != s {
      assert Joined(s, t, w, request);
      JoinedKeepsInv(s, t, w, request);
    }
  }

  /** One more worker: a duplicate that will only look, a read-only request, or the first holder of a fresh receipt. */
  predicate Joined(s: State, t: State, w: nat, request: Request) {
    && w !in s.workers && t.attempts == s.attempts && Allowed(request)
    && ((t.receipts == s.receipts
         && (t.workers == s.workers[w := Looking(request)]
             || (request.isGet && t.workers == s.workers[w := Accepted(request)])))
        || (!request.isGet && request.id !in s.receipts && t.receipts == s.receipts[request.id := Processing]
            && t.workers == s.workers[w := Accepted(request)]))
  }

  lemma JoinedHolders(s: State, t: State, w: nat, request: Request)
    requires Inv(s) && Joined(s, t, w, request)
    ensures forall v, id :: v in t.workers && Holds(t.workers[v], id) ==> id in t.receipts && t.receipts[id].Processing?
    ensures forall u, v, id ::
              u in t.workers && v in t.workers && Holds(t.workers[u], id) && Holds(t.workers[v], id) ==> u == v
  {
    hide Allowed, AttemptsOk, ReceiptsOk, Recorded, KeptFor;
    assert request.id !in s.receipts ==> forall v :: v in s.workers ==> !Holds(s.workers[v], request.id);
  }

  lemma JoinedWorkers(s: State, t: State, w: nat, request: Request)
    requires Inv(s) && Joined(s, t, w, request)
    ensures forall v :: v in t.workers && t.workers[v].Accepted? && !t.workers[v].request.isGet ==>
              !KeptFor(t, t.workers[v].request.id)
    ensures forall v :: v in t.workers && t.workers[v].Worked? ==> Recorded(t, t.workers[v])
  {
    hide Harmless, ReceiptsOk, Allowed;
    assert request.id !in s.receipts ==> !KeptFor(s, request.id);
    assert forall id :: KeptFor(t, id) <==> KeptFor(s, id);
    forall v | v in t.workers && t.workers[v].Worked? ensures Recorded(t, t.workers[v]) {
      assert Recorded(s, s.workers[v]);
    }
  }

  lemma JoinedKeepsInv(s: State, t: State, w: nat, request: Request)
    requires Inv(s) && Joined(s, t, w, request)
    ensures Inv(t)
  {
    JoinedHolders(s, t, w, request);
    JoinedWorkers(s, t, w, request);
    hide Harmless, KeptFor, Recorded, Holds;
    forall id | id in t.receipts && t.receipts[id].Done? ensures Answered(t, id, t.receipts[id].response) {
      assert Answered(s, id, s.receipts[id].response);
    }
  }

  lemma LookKeepsInv(s: State, w: nat, readOk: bool)
    requires Inv(s) && Enabled(s, Step.Look(w, readOk))
    ensures Inv(ReadReceipt(s, w, readOk).0)
  {
    var t := ReadReceipt(s, w, readOk).0;
    SameHistoryKeepsInv(s, t);
  }

  /** Forgetting workers, or interrupting them, changes nothing the invariant depends on. */
  lemma SameHistoryKeepsInv(s: State, t: State)
    requires Inv(s) && t.attempts == s.attempts && t.receipts == s.receipts
    requires forall w :: w in t.workers ==> w in s.workers && t.workers[w] == s.workers[w]
    ensures Inv(t)
  {
    hide Harmless;
    forall w | w in t.workers && t.workers[w].Worked? ensures Recorded(t, t.workers[w]) {
      assert Recorded(s, s.workers[w]);
    }
    forall w | w in t.workers && t.workers[w].Accepted? && !t.workers[w].request.isGet
      ensures !KeptFor(t, t.workers[w].request.id)
    {
      assert !KeptFor(s, s.workers[w].request.id);
    }
    forall id | id in t.receipts && t.receipts[id].Done? ensures Answered(t, id, t.receipts[id].response) {
      assert Answered(s, id, s.receipts[id].response);
    }
  }

  lemma RestartKeepsInv(s: State)
    requires Inv(s)
    ensures Inv(Reopened(s))
  {
    var t := Reopened(s);
    hide Harmless;
    forall id | id in t.receipts && t.receipts[id].Done? ensures Answered(t, id, t.receipts[id].response) {
      assert Answered(s, id, s.receipts[id].response);
    }
  }

  /** The worker finishing is the only one holding its id, so dropping or filling that receipt touches no other. */
  lemma FinishKeepsInv(s: State, w: nat, writeOk: bool)
    requires Inv(s) && Enabled(s, Step.Finish(w, writeOk))
    ensures Inv(Conclude(s, w, writeOk).0)
  {
    var t := Conclude(s, w, writeOk).0;
    var Worked(request, response, n) := s.workers[w];
    var idle := s.(workers := s.workers - {w});
    SameHistoryKeepsInv(s, idle);
    assert Recorded(s, s.workers[w]);
    if t == idle {
    } else if t.attempts == s.attempts {
      FillingReceiptKeepsInv(s, w);
    } else {
      GivingReceiptBackKeepsInv(s, w);
    }
  }

  lemma FillingReceiptKeepsInv(s: State, w: nat)
    requires Inv(s) && w in s.workers && s.workers[w].Worked? && !s.workers[w].request.isGet
    requires s.workers[w].request.id in s.receipts
    ensures Inv(s.(workers := s.workers - {w},
                   receipts := s.receipts[s.workers[w].request.id := Done(s.workers[w].response)]))
  {
    var Worked(request, response, n) := s.workers[w];
    var t := s.(workers := s.workers - {w}, receipts := s.receipts[request.id := Done(response)]);
    hide Harmless;
    assert Recorded(s, s.workers[w]) && Holds(s.workers[w], request.id);
    assert Answered(t, request.id, response);
    forall v | v in t.workers && t.workers[v].Worked? ensures Recorded(t, t.workers[v]) {
      assert Recorded(s, s.workers[v]);
    }
    forall v | v in t.workers && t.workers[v].Accepted? && !t.workers[v].request.isGet
      ensures !KeptFor(t, t.workers[v].request.id)
    {
      assert !KeptFor(s, s.workers[v].request.id);
    }
    forall id | id in t.receipts && t.receipts[id].Done? ensures Answered(t, id, t.receipts[id].response) {
      if id != request.id {
        assert Answered(s, id, s.receipts[id].response);
      }
    }
  }

  lemma GivingReceiptBackKeepsInv(s: State, w: nat)
    requires Inv(s) && w in s.workers && s.workers[w].Worked? && s.workers[w].attempt < |s.attempts|
    requires s.workers[w].request.route.BroadcastSync? && s.workers[w].response.status == 503
    requires s.workers[w].request.id in s.receipts && s.receipts[s.workers[w].request.id].Processing?
    ensures var Worked(request, response, n) := s.workers[w];
            Inv(s.(workers := s.workers - {w}, receipts := s.receipts - {request.id},
                   attempts := s.attempts[n := s.attempts[n].(receiptDeleted := true)]))
  {
    var Worked(request, response, n) := s.workers[w];
    var t := s.(workers := s.workers - {w}, receipts := s.receipts - {request.id},
                attempts := s.attempts[n := s.attempts[n].(receiptDeleted := true)]);
    assert Recorded(s, s.workers[w]);
    assert Harmless(s.attempts[n]) && Harmless(t.attempts[n]);
    assert Kept(s.attempts[n]) && Holds(s.workers[w], request.id);
    hide Harmless;
    assert forall m :: 0 <= m < |t.attempts| && Kept(t.attempts[m]) ==>
             m != n && t.attempts[m] == s.attempts[m] && Kept(s.attempts[m]);
    forall m | 0 <= m < |t.attempts| && Kept(t.attempts[m]) ensures t.attempts[m].request.id != request.id {
      if m < n { assert s.attempts[m].request.id != s.attempts[n].request.id; }
    }
    assert AttemptsOk(t) by { hide WorkersOk, ReceiptsOk, Recorded; }
    assert WorkersOk(t) by { GivenBackWorkers(s, t, w); }
    hide WorkersOk, AttemptsOk;
    forall id | id in t.receipts && t.receipts[id].Done? ensures Answered(t, id, t.receipts[id].response) {
      var m :| 0 <= m < |s.attempts| && Kept(s.attempts[m]) && s.attempts[m].request.id == id
          && s.attempts[m].response == s.receipts[id].response;
      assert m != n;
      assert t.attempts[m] == s.attempts[m];
    }
  }

  /** A worker gives the receipt of its execution back. */
  ghost predicate GivenBack(s: State, t: State, w: nat) {
    && w in s.workers && s.workers[w].Worked? && s.workers[w].attempt < |s.attempts| && !s.workers[w].request.isGet
    && var Worked(request, response, n) := s.workers[w];
    && t.workers == s.workers - {w} && t.receipts == s.receipts - {request.id}
    && t.attempts == s.attempts[n := s.attempts[n].(receiptDeleted := true)]
  }

  lemma GivenBackWorkers(s: State, t: State, w: nat)
    requires WorkersOk(s) && GivenBack(s, t, w)
    ensures WorkersOk(t)
  {
    GivenBackHolders(s, t, w);
    GivenBackRecords(s, t, w);
    hide GivenBack, Holds, KeptFor, Recorded;
  }

  lemma GivenBackHolders(s: State, t: State, w: nat)
    requires WorkersOk(s) && GivenBack(s, t, w)
    ensures forall v :: v in t.workers ==> Allowed(t.workers[v].request)
    ensures forall v, id :: v in t.workers && Holds(t.workers[v], id) ==> id in t.receipts && t.receipts[id].Processing?
    ensures forall u, v, id ::
              u in t.workers && v in t.workers && Holds(t.workers[u], id) && Holds(t.workers[v], id) ==> u == v
  {
    hide Harmless, Recorded, KeptFor;
    assert Holds(s.workers[w], s.workers[w].request.id);
    hide Holds;
  }

  lemma GivenBackRecords(s: State, t: State, w: nat)
    requires WorkersOk(s) && GivenBack(s, t, w)
    ensures forall v :: v in t.workers && t.workers[v].Worked? ==> Recorded(t, t.workers[v])
    ensures forall v :: v in t.workers && t.workers[v].Accepted? && !t.workers[v].request.isGet ==>
              !KeptFor(t, t.workers[v].request.id)
  {
    var n := s.workers[w].attempt;
    hide Harmless;
    assert Recorded(s, s.workers[w]) && Holds(s.workers[w], s.workers[w].request.id);
    forall v | v in t.workers && t.workers[v].Worked? ensures Recorded(t, t.workers[v]) {
      assert Recorded(s, s.workers[v]) && !Holds(s.workers[v], s.workers[w].request.id);
      assert s.workers[v].attempt != n;
    }
    hide Recorded, Holds;
    forall v | v in t.workers && t.workers[v].Accepted? && !t.workers[v].request.isGet
      ensures !KeptFor(t, t.workers[v].request.id)
    {
      assert !KeptFor(s, s.workers[v].request.id);
      assert forall m :: 0 <= m < |t.attempts| && Kept(t.attempts[m]) ==> t.attempts[m] == s.attempts[m];
    }
  }

  lemma StepKeepsInv(s: State, step: Step)
    requires Inv(s) && Enabled(s, step)
    ensures Inv(Next(s, step).0)
  {
    hide AttemptsOk, WorkersOk, ReceiptsOk, Perform;
    match step
    case Arrive(w, request, relayMode, insertOk) => ArriveKeepsInv(s, w, request, relayMode, insertOk);
    case Look(w, readOk) => LookKeepsInv(s, w, readOk);
    case Work(w, effect) => WorkKeepsInv(s, w, effect);
    case Finish(w, writeOk) => FinishKeepsInv(s, w, writeOk);
    case Restart => RestartKeepsInv(s);
    case RoomEdit(tables) => SameHistoryKeepsInvTables(s, tables);
  }

  lemma SameHistoryKeepsInvTables(s: State, tables: Broadcasts.Store)
    requires Inv(s)
    ensures Inv(s.(tables := tables))
  {
    var t := s.(tables := tables);
    hide Harmless;
    assert forall w :: w in s.workers && s.workers[w].Worked? ==>
             (Recorded(s, s.workers[w]) <==> Recorded(t, s.workers[w]));
    assert forall id :: KeptFor(s, id) <==> KeptFor(t, id);
    forall id | id in t.receipts && t.receipts[id].Done? ensures Answered(t, id, t.receipts[id].response) {
      assert Answered(s, id, s.receipts[id].response);
    }
  }

  // ----- Runs -----

  /** Any interleaving of deliveries, workers, room edits and restarts. */
  ghost predicate IsRun(states: seq<State>, steps: seq<Step>) {
    && |states| == |steps| + 1 && Initial(states[0])
    && forall i :: 0 <= i < |steps| ==> Enabled(states[i], steps[i]) && states[i + 1] == Next(states[i], steps[i]).0
  }

  lemma {:induction false} RunKeepsInv(states: seq<State>, steps: seq<Step>, n: nat)
    requires IsRun(states, steps) && n < |states|
    ensures Inv(states[n])
  {
    if n > 0 {
      RunKeepsInv(states, steps, n - 1);
      hide Inv, Next;
      StepKeepsInv(states[n - 1], steps[n - 1]);
    }
  }

  ghost predicate Held(s: State, id: Id) {
    exists w :: w in s.workers && Holds(s.workers[w], id)
  }

  ghost predicate PendingIsHeld(s: State) {
    forall id :: id in s.receipts && s.receipts[id].Processing? ==> Held(s, id)
  }

  lemma FinishKeepsPendingHeld(s: State, w: nat)
    requires WorkersOk(s) && PendingIsHeld(s) && Enabled(s, Step.Finish(w, true))
    ensures PendingIsHeld(Conclude(s, w, true).0)
  {
    var t := Conclude(s, w, true).0;
    assert Recorded(s, s.workers[w]);
    assert s.workers[w].request.isGet || Holds(s.workers[w], s.workers[w].request.id);
    hide WorkersOk, Recorded;
    forall id | id in t.receipts && t.receipts[id].Processing? ensures Held(t, id) {
      var v :| v in s.workers && Holds(s.workers[v], id);
      assert Holds(t.workers[v], id);
    }
  }

  lemma StepKeepsPendingHeld(s: State, step: Step)
    requires WorkersOk(s) && PendingIsHeld(s) && Enabled(s, step) && (step.Finish? ==> step.writeOk)
    ensures PendingIsHeld(Next(s, step).0)
  {
    if step.Finish? {
      FinishKeepsPendingHeld(s, step.worker);
    } else {
      var t := Next(s, step).0;
      hide Perform, WorkersOk;
      forall id | id in t.receipts && t.receipts[id].Processing? ensures Held(t, id) {
        if id in s.receipts {
          var w :| w in s.workers && Holds(s.workers[w], id);
          assert w in t.workers && Holds(t.workers[w], id);
        } else {
          assert step.Arrive? && Holds(t.workers[step.worker], id);
        }
      }
    }
  }

  /** As long as outcomes can be written, "already received" is only ever answered while some worker has the request in
      hand: after a restart nothing is left pending. */
  lemma {:induction false} PendingMeansWorking(states: seq<State>, steps: seq<Step>, n: nat)
    requires IsRun(states, steps) && n < |states| && forall i :: 0 <= i < |steps| && steps[i].Finish? ==>
               steps[i].writeOk
    ensures forall id :: id in states[n].receipts && states[n].receipts[id].Processing? <==> Held(states[n], id)
  {
    RunKeepsInv(states, steps, n);
    hide AttemptsOk, ReceiptsOk;
    if n > 0 {
      PendingMeansWorking(states, steps, n - 1);
      RunKeepsInv(states, steps, n - 1);
      hide Next, Enabled, Initial, Recorded, KeptFor, Holds;
      StepKeepsPendingHeld(states[n - 1], steps[n - 1]);
    }
  }

  predicate SameNonGetId(a: Request, b: Request) {
    !a.isGet && !b.isGet && a.id == b.id
  }

  /** Relay at-most-once: of all executions of one non-GET id, at most one ran a handler or changed the broadcast
      tables, and every execution whose receipt was given back did neither. */
  lemma RelayAtMostOnce(states: seq<State>, steps: seq<Step>)
    requires IsRun(states, steps)
    ensures var attempts := states[|steps|].attempts;
            && (forall m, n | 0 <= m < n < |attempts| && SameNonGetId(attempts[m].request, attempts[n].request) ::
                  Harmless(attempts[m]) || Harmless(attempts[n]))
            && (forall n :: 0 <= n < |attempts| && attempts[n].receiptDeleted ==> Harmless(attempts[n]))
  {
    RunKeepsInv(states, steps, |steps|);
  }

  /** A stored outcome is never overwritten or lost, by any step. */
  lemma DoneIsForever(s: State, step: Step, id: Id)
    requires Inv(s) && Enabled(s, step) && id in s.receipts && s.receipts[id].Done?
    ensures id in Next(s, step).0.receipts && Next(s, step).0.receipts[id] == s.receipts[id]
  {
    hide Perform, AttemptsOk, ReceiptsOk, Harmless;
    if step.Finish? {
      assert Holds(s.workers[step.worker], s.workers[step.worker].request.id) || s.workers[step.worker].request.isGet;
    }
  }

  /** The status the cloud takes for success. */
  predicate Succeeded(response: Response) {
    response.status < 400 && response.status != 102
  }

  /** A success reported for a non-GET id is its stored outcome; every answer carries the id it was asked for. */
  lemma SuccessIsStored(s: State, step: Step, id: Id)
    requires Inv(s) && Enabled(s, step) && Next(s, step).1.Some?
    requires step.Arrive? ==> step.request.id == id
    requires !step.Arrive? ==> step.Look? || step.Finish?
    requires step.Look? || step.Finish? ==> s.workers[step.worker].request.id == id
    ensures var (t, answer) := Next(s, step);
            && answer.value.id == id
            && (Succeeded(answer.value) ==>
                  (step.Finish? && s.workers[step.worker].request.isGet)
                      || (id in t.receipts && t.receipts[id] == Done(answer.value)))
  {
    hide Perform;
    if step.Look? && id in s.receipts && s.receipts[id].Done? {
      assert Answered(s, id, s.receipts[id].response);
    } else if step.Finish? {
      assert Recorded(s, s.workers[step.worker]);
      assert Holds(s.workers[step.worker], id) || s.workers[step.worker].request.isGet;
    }
  }

  lemma {:induction false} OutcomeStays(states: seq<State>, steps: seq<Step>, n: nat, m: nat, id: Id)
    requires IsRun(states, steps) && n <= m < |states|
    requires id in states[n].receipts && states[n].receipts[id].Done?
    ensures id in states[m].receipts && states[m].receipts[id] == states[n].receipts[id]
  {
    hide Inv, Next, Initial;
    if n < m {
      OutcomeStays(states, steps, n, m - 1, id);
      RunKeepsInv(states, steps, m - 1);
      hide Enabled;
      DoneIsForever(states[m - 1], steps[m - 1], id);
    }
  }

  /** Once an id has a stored outcome, delivering it again in any later state starts no execution and is answered with
      that very response. */
  lemma DuplicateIsAnsweredFromReceipt(states: seq<State>, steps: seq<Step>, n: nat, m: nat, request: Request)
    requires IsRun(states, steps) && n <= m < |states| && !request.isGet && request.wellFormedId && Allowed(request)
    requires request.id in states[n].receipts && states[n].receipts[request.id].Done?
    ensures request.id in states[m].receipts && states[m].receipts[request.id] == states[n].receipts[request.id]
    ensures forall w :: w !in states[m].workers ==>
              var (t, none) := ReceiveRequest(states[m], w, request, true, true);
              && none == None && t.attempts == states[m].attempts && Enabled(t, Step.Look(w, true))
              && ReadReceipt(t, w, true).1 == Some(states[n].receipts[request.id].response)
  {
    OutcomeStays(states, steps, n, m, request.id);
  }

  /** A duplicate of a non-GET request executes nothing and changes no receipt: it is answered with the stored outcome,
      with 102 while a worker has the request in hand, and with 409, which the cloud files as unclear, once the process
      that had it was interrupted. */
  lemma DuplicateExecutesNothing(s: State, w: nat, request: Request)
    requires Inv(s) && w !in s.workers && !request.isGet && request.wellFormedId && Allowed(request)
             && request.id in s.receipts
    ensures var (t, none) := ReceiveRequest(s, w, request, true, true);
            var (u, answer) := ReadReceipt(t, w, true);
            && none == None && u == s && answer.Some? && answer.value.id == request.id
            && (s.receipts[request.id].Done? ==> answer.value == s.receipts[request.id].response)
            && (Held(s, request.id) ==> answer.value.status == 102)
    ensures var r := Reopened(s);
            var (t, none) := ReceiveRequest(r, w, request, true, true);
            && none == None
            && (Held(s, request.id) ==> ReadReceipt(t, w, true).1.value.status == 409)
            && (s.receipts[request.id].Done? ==> ReadReceipt(t, w, true).1 == Some(s.receipts[request.id].response))
  {
    assert s.workers[w := Looking(request)] - {w} == s.workers;
    if s.receipts[request.id].Done? {
      assert Answered(s, request.id, s.receipts[request.id].response);
    }
    hide AttemptsOk, ReceiptsOk;
  }

  // ----- The relay itself -----

  /** One request handled from arrival to answer with nothing in between. */
  ghost function Serial(s: State, w: nat, request: Request, relayMode: bool, insertOk: bool, readOk: bool,
                        effect: Effect, writeOk: bool): (State, Response)
    requires w !in s.workers
    requires effect.Broadcast? <==> request.route.BroadcastSync?
  {
    var (t, answer) := ReceiveRequest(s, w, request, relayMode, insertOk);
    if answer.Some? then (t, answer.value)
    else if t.workers[w].Looking? then
      var (u, found) := ReadReceipt(t, w, readOk);
      (u, found.value)
    else
      var (u, response) := Conclude(RunRequest(t, w, effect), w, writeOk);
      (u, response.value)
  }

  /** The request is run: allowed, well formed, and unless it only reads, with a receipt of its own. */
  predicate Runs(receipts: map<Id, Receipt>, request: Request, relayMode: bool, insertOk: bool) {
    relayMode && Allowed(request) && request.wellFormedId
    && (request.isGet || (insertOk && request.id !in receipts))
  }

  /** What a request that is not run is answered: 403 if it is not allowed here, 400 if its id is no id, 500 if it
      cannot be noted or its receipt cannot be read, and else by its receipt. */
  predicate TurnedAway(receipts: map<Id, Receipt>, request: Request, relayMode: bool, insertOk: bool, readOk: bool,
                       response: Response) {
    if !relayMode || !Allowed(request) then response.id == request.id && response.status == 403
    else if !request.wellFormedId then response.id == request.id && response.status == 400
    else if !insertOk || request.id !in receipts || !readOk then response.id == request.id && response.status == 500
    else
      && (receipts[request.id].Done? ==> response == receipts[request.id].response)
      && (receipts[request.id].Processing? ==> response.id == request.id && response.status == 102)
      && (receipts[request.id].Unknown? ==> response.id == request.id && response.status == 409)
  }

  /** What an executed request leaves and is answered: a broadcast that is to be retried gives its receipt back and
      stays pending; anything else that writes is stored as done and answered as it came out, or, if the outcome cannot
      be stored, stays in hand and is answered 409. */
  predicate Concluded(before: map<Id, Receipt>, after: map<Id, Receipt>, request: Request, outcome: Response,
                      writeOk: bool, answer: Response) {
    if request.isGet then after == before && answer == outcome
    else if request.route.BroadcastSync? && outcome.status == 503 then
      if writeOk then after == before && answer == outcome.(status := 102)
      else after == before[request.id := Processing] && answer == outcome
    else if writeOk then after == before[request.id := Done(outcome)] && answer == outcome
    else after == before[request.id := Processing] && answer.id == request.id && answer.status == 409
  }

  /** A publication is answered by what it meets, applied if all goes well, and else leaves the tables alone as long as
      it is to be retried. */
  ghost predicate Applied(attempt: Attempt, received: Option<Publication>, env: Broadcasts.Surroundings) {
    && (received.None? ==> attempt.response.status == 400)
    && (received.Some? ==>
          && Broadcasts.Statuses(attempt.before, received.value, env, attempt.response.status, attempt.handled)
          && (Broadcasts.Succeeds(attempt.before, received.value, env) ==>
                Broadcasts.Shows(attempt.after, received.value, env.now)))
    && (attempt.response.status == 503 ==> attempt.after == attempt.before)
  }

  /** A local handler's answer is the outcome, and a refusal is answered 400; neither touches the broadcast tables. */
  ghost predicate Executed(attempt: Attempt, request: Request, effect: Effect) {
    attempt.response.id == request.id
    && match effect
       case Handled(status, body) =>
         attempt.response == Response(request.id, status, body) && attempt.handled && attempt.after == attempt.before
       case Refused(reason) =>
         attempt.response == Response(request.id, 400, reason) && !attempt.handled && attempt.after == attempt.before
       case Broadcast(env, _) =>
         && request.route.BroadcastSync? && Applied(attempt, request.route.publication, env)
  }

  /** One request from arrival to answer: either nothing happens and it is turned away, or it is executed once, with
      the handler's own answer for outcome. */
  ghost predicate Answers(s: State, t: State, request: Request, relayMode: bool, insertOk: bool, readOk: bool,
                          effect: Effect, writeOk: bool, answer: Response) {
    && t.workers == s.workers
    && if !Runs(s.receipts, request, relayMode, insertOk) then
         t == s && TurnedAway(s.receipts, request, relayMode, insertOk, readOk, answer)
       else
         && |t.attempts| == |s.attempts| + 1 && t.attempts[..|s.attempts|] == s.attempts
         && var attempt := t.attempts[|s.attempts|];
            && attempt.request == request && attempt.before == s.tables && attempt.after == t.tables
            && Executed(attempt, request, effect)
            && Concluded(s.receipts, t.receipts, request, attempt.response, writeOk, answer)
  }

  lemma SerialAnswers(s: State, w: nat, request: Request, relayMode: bool, insertOk: bool, readOk: bool,
                      effect: Effect, writeOk: bool)
    requires w !in s.workers && (effect.Broadcast? <==> request.route.BroadcastSync?)
    ensures var (t, answer) := Serial(s, w, request, relayMode, insertOk, readOk, effect, writeOk);
            Answers(s, t, request, relayMode, insertOk, readOk, effect, writeOk, answer)
  {
    if Runs(s.receipts, request, relayMode, insertOk) {
      RunAnswers(s, w, request, relayMode, insertOk, readOk, effect, writeOk);
    } else {
      TurnedAwayAnswers(s, w, request, relayMode, insertOk, readOk, effect, writeOk);
    }
    hide *;
  }

  lemma TurnedAwayAnswers(s: State, w: nat, request: Request, relayMode: bool, insertOk: bool, readOk: bool,
                          effect: Effect, writeOk: bool)
    requires w !in s.workers && (effect.Broadcast? <==> request.route.BroadcastSync?)
    requires !Runs(s.receipts, request, relayMode, insertOk)
    ensures var (t, answer) := Serial(s, w, request, relayMode, insertOk, readOk, effect, writeOk);
            Answers(s, t, request, relayMode, insertOk, readOk, effect, writeOk, answer)
  {
    hide RunRequest, Conclude, Concluded, Executed;
    if relayMode && Allowed(request) && request.wellFormedId && insertOk {
      assert s.workers[w := Looking(request)] - {w} == s.workers;
    }
  }

  lemma Accepts(s: State, w: nat, request: Request, relayMode: bool, insertOk: bool)
    requires w !in s.workers && Runs(s.receipts, request, relayMode, insertOk)
    ensures var (t, none) := ReceiveRequest(s, w, request, relayMode, insertOk);
            && none == None
            && t == s.(receipts := if request.isGet then s.receipts else s.receipts[request.id := Processing],
                       workers := s.workers[w := Accepted(request)])
  {
  }

  lemma RunAnswers(s: State, w: nat, request: Request, relayMode: bool, insertOk: bool, readOk: bool,
                   effect: Effect, writeOk: bool)
    requires w !in s.workers && (effect.Broadcast? <==> request.route.BroadcastSync?)
    requires Runs(s.receipts, request, relayMode, insertOk)
    ensures var (t, answer) := Serial(s, w, request, relayMode, insertOk, readOk, effect, writeOk);
            Answers(s, t, request, relayMode, insertOk, readOk, effect, writeOk, answer)
  {
    Accepts(s, w, request, relayMode, insertOk);
    assert request.route.BroadcastSync? ==> !request.isGet;
    hide ReceiveRequest;
    var t := ReceiveRequest(s, w, request, relayMode, insertOk).0;
    var u := RunRequest(t, w, effect);
    PerformIs(t, request, effect);
    hide Perform, ReadReceipt, TurnedAway;
    ConcludedIs(u, s.receipts, w, writeOk);
    assert u.workers - {w} == s.workers;
    hide Conclude, Concluded, Executed;
  }

  lemma PerformIs(s: State, request: Request, effect: Effect)
    requires effect.Broadcast? <==> request.route.BroadcastSync?
    ensures var attempt := Perform(s, request, effect);
            && attempt.request == request && attempt.before == s.tables && !attempt.receiptDeleted
            && Executed(attempt, request, effect)
  {
    if effect.Broadcast? {
      Broadcasts.StatusesAre(s.tables, request.route.publication, effect.env);
      Broadcasts.StatusTellsWhetherTablesChanged(s.tables, request.route.publication, effect.env);
    }
    hide Broadcasts.Respond, Broadcasts.Statuses, Broadcasts.Succeeds, Broadcasts.Shows;
  }

  lemma ConcludedIs(s: State, before: map<Id, Receipt>, w: nat, writeOk: bool)
    requires w in s.workers && s.workers[w].Worked? && s.workers[w].attempt == |s.attempts| - 1
    requires var request := s.workers[w].request;
             && s.receipts == (if request.isGet then before else before[request.id := Processing])
             && (request.isGet || request.id !in before) && (request.route.BroadcastSync? ==> !request.isGet)
             && s.workers[w].response.id == request.id
    ensures var (t, answer) := Conclude(s, w, writeOk);
            && answer.Some? && t.workers == s.workers - {w} && t.tables == s.tables
            && |t.attempts| == |s.attempts| && t.attempts[..|s.attempts| - 1] == s.attempts[..|s.attempts| - 1]
            && (var last := s.attempts[|s.attempts| - 1];
                t.attempts[|s.attempts| - 1] in {last, last.(receiptDeleted := true)})
            && Concluded(before, t.receipts, s.workers[w].request, s.workers[w].response, writeOk, answer.value)
  {
    assert before[s.workers[w].request.id := Processing] - {s.workers[w].request.id}
           == before - {s.workers[w].request.id};
    assert s.workers[w].request.id !in before ==> before - {s.workers[w].request.id} == before;
  }

  /** The delivery that was executed is answered as every later one will be: unless it is a broadcast to be retried, a
      non-GET request whose outcome could be stored is answered with it, as any duplicate then is; it stays in hand, and
      is answered 409, exactly if it could not. */
  lemma AnswersAgree(s: State, w: nat, writeOk: bool)
    requires Inv(s) && Enabled(s, Finish(w, writeOk)) && !s.workers[w].request.isGet
    requires !(s.workers[w].request.route.BroadcastSync? && s.workers[w].response.status == 503)
    ensures var Worked(request, outcome, _) := s.workers[w];
            var (t, answer) := Next(s, Finish(w, writeOk));
            && answer.Some? && request.id in t.receipts
            && t.receipts[request.id] == (if writeOk then Done(outcome) else Processing)
            && (if writeOk then answer.value == outcome else answer.value.status == 409)
            && (writeOk && request.wellFormedId ==> forall v :: v !in t.workers ==>
                  var (u, none) := ReceiveRequest(t, v, request, true, true);
                  none == None && Enabled(u, Look(v, true)) && ReadReceipt(u, v, true).1 == answer)
  {
    assert Holds(s.workers[w], s.workers[w].request.id) && Recorded(s, s.workers[w]);
    hide AttemptsOk, ReceiptsOk;
  }

  /** A publication whose files cannot be had this time is answered 102 and leaves no receipt, and nothing in the
      tables, so that it can come again. */
  lemma FailedPullLeavesNoReceipt(s: State, w: nat, request: Request, pub: Publication, env: Broadcasts.Surroundings,
                                  text: string)
    requires w !in s.workers && Runs(s.receipts, request, true, true) && request.route == BroadcastSync(Some(pub))
    requires Broadcasts.PullFails(s.tables, pub, env)
    ensures var (t, answer) := Serial(s, w, request, true, true, true, Broadcast(env, text), true);
            && answer.id == request.id && answer.status == 102
            && t.receipts == s.receipts && t.tables == s.tables && t.workers == s.workers
  {
    SerialAnswers(s, w, request, true, true, true, Broadcast(env, text), true);
    hide Serial, Broadcasts.PullFails, Broadcasts.Succeeds, Broadcasts.Shows;
  }

  /** When it comes again, or for the first time, and all goes well, it is applied, answered 200, and stored as
      done. */
  lemma GoodDeliveryIsApplied(s: State, w: nat, request: Request, pub: Publication, env: Broadcasts.Surroundings,
                              text: string)
    requires w !in s.workers && Runs(s.receipts, request, true, true) && request.route == BroadcastSync(Some(pub))
    requires Broadcasts.Succeeds(s.tables, pub, env)
    ensures var (t, answer) := Serial(s, w, request, true, true, true, Broadcast(env, text), true);
            && answer.id == request.id && answer.status == 200 && t.receipts == s.receipts[request.id := Done(answer)]
            && Broadcasts.Shows(t.tables, pub, env.now)
  {
    SerialAnswers(s, w, request, true, true, true, Broadcast(env, text), true);
    hide Serial, Broadcasts.PullFails, Broadcasts.Succeeds, Broadcasts.Shows;
  }

  /** Both together: the retry of a publication whose files could not be had is no duplicate, and arrives. */
  lemma RetryArrives(s: State, w: nat, request: Request, pub: Publication, failing: Broadcasts.Surroundings,
                     good: Broadcasts.Surroundings, text: string)
    requires w !in s.workers && Runs(s.receipts, request, true, true) && request.route == BroadcastSync(Some(pub))
    requires Broadcasts.PullFails(s.tables, pub, failing) && Broadcasts.Succeeds(s.tables, pub, good)
    ensures var t := Serial(s, w, request, true, true, true, Broadcast(failing, text), true).0;
            && w !in t.workers
            && var (u, answer) := Serial(t, w, request, true, true, true, Broadcast(good, text), true);
               answer.status == 200 && u.receipts == s.receipts[request.id := Done(answer)]
                   && Broadcasts.Shows(u.tables, pub, good.now)
  {
    FailedPullLeavesNoReceipt(s, w, request, pub, failing, text);
    hide Serial, Broadcasts.PullFails, Broadcasts.Succeeds, Broadcasts.Shows;
    GoodDeliveryIsApplied(Serial(s, w, request, true, true, true, Broadcast(failing, text), true).0, w, request, pub,
                          good, text);
  }

  class RelayNode {
    var receipts: map<Id, Receipt>
    const repo: Broadcasts.BroadcastRepo
    ghost var attempts: seq<Attempt>

    constructor (repo: Broadcasts.BroadcastRepo)
      ensures this.repo == repo && receipts == map[] && attempts == []
    {
      this.repo := repo;
      receipts, attempts := map[], [];
    }

    ghost function View(workers: map<nat, Worker>): State
      reads this, repo
    {
      State(receipts, workers, attempts, repo.Tables())
    }

    /** Interrupted executions become unknown when the process starts again. */
    method Reopen(ghost workers: map<nat, Worker>)
      modifies this
      ensures View(map[]) == Reopened(old(View(workers)))
    {
      receipts := map id | id in receipts :: if receipts[id].Processing? then Unknown else receipts[id];
    }

    /** Applies a broadcast or runs the local handler, and notes the execution. */
    method RunHandler(request: Request, effect: Effect, ghost workers: map<nat, Worker>, ghost w: nat)
      returns (response: Response)
      requires w in workers && workers[w] == Accepted(request)
      requires effect.Broadcast? <==> request.route.BroadcastSync?
      modifies this`attempts, repo
      ensures View(workers[w := Worked(request, response, |old(attempts)|)])
                == RunRequest(old(View(workers)), w, effect)
      ensures |attempts| == |old(attempts)| + 1
    {
      ghost var before := repo.Tables();
      ghost var handled := effect.Handled?;
      match effect {
        case Refused(reason) =>
          response := Response(request.id, 400, reason);
        case Handled(status, body) =>
          response := Response(request.id, status, body);
        case Broadcast(env, text) =>
          hide Broadcasts.Respond;
          var status, commanded := repo.ApplyBroadcast(request.route.publication, env);
          response := Response(request.id, status, text);
          handled := commanded;
      }
      attempts := attempts + [Attempt(request, response, before, repo.Tables(), handled, false)];
    }

    /** Stores the outcome of the last execution, or gives its receipt back. */
    method FinishRelay(request: Request, response: Response, writeOk: bool, ghost others: map<nat, Worker>,
                       ghost w: nat) returns (answer: Response)
      requires w !in others && attempts != []
               && (request.isGet || (request.id in receipts && receipts[request.id].Processing?))
      requires request.route.BroadcastSync? ==> !request.isGet
      modifies this`receipts, this`attempts
      ensures var worker := Worked(request, response, |old(attempts)| - 1);
              (View(others), Some(answer)) == Conclude(old(View(others[w := worker])), w, writeOk)
    {
      assert others[w := Worked(request, response, |attempts| - 1)] - {w} == others;
      if request.route.BroadcastSync? && response.status == 503 {
        if !writeOk {
          return response;
        }
        receipts := receipts - {request.id};
        attempts := attempts[|attempts| - 1 := attempts[|attempts| - 1].(receiptDeleted := true)];
        return response.(status := 102);
      }
      if !request.isGet {
        if !writeOk {
          return Response(response.id, 409, "operation ran but receipt could not be saved");
        }
        receipts := receipts[request.id := Done(response)];
      }
      return response;
    }

    /** `others` are the workers already busy with other requests; they stay as they are. */
    method ExecuteRelay(request: Request, relayMode: bool, insertOk: bool, readOk: bool, effect: Effect, writeOk: bool,
                        ghost others: map<nat, Worker>, ghost w: nat)
      returns (response: Response)
      requires w !in others
      requires effect.Broadcast? <==> request.route.BroadcastSync?
      modifies this, repo
      ensures (View(others), response)
                == Serial(old(View(others)), w, request, relayMode, insertOk, readOk, effect, writeOk)
      ensures Answers(old(View(others)), View(others), request, relayMode, insertOk, readOk, effect, writeOk, response)
    {
      SerialAnswers(View(others), w, request, relayMode, insertOk, readOk, effect, writeOk);
      hide Answers;
      ghost var start := View(others);
      if !Allowed(request) || !relayMode {
        return Response(request.id, 403, "relay operation forbidden");
      }
      if !request.wellFormedId {
        return Response(request.id, 400, "");
      }
      if !request.isGet {
        if !insertOk {
          return Response(request.id, 500, "cannot persist request receipt");
        }
        if request.id in receipts {
          assert others[w := Looking(request)] - {w} == others;
          if !readOk {
            return Response(request.id, 500, "");
          }
          match receipts[request.id]
          case Done(stored) => return stored;
          case Processing => return Response(request.id, 102, "request already received");
          case Unknown => return Response(request.id, 409, "request already received");
        }
        receipts := receipts[request.id := Processing];
      }
      assert View(others[w := Accepted(request)]) == ReceiveRequest(start, w, request, relayMode, insertOk).0;
      hide Conclude, RunRequest;
      response := RunAndFinish(request, effect, writeOk, others, w);
    }

    /** The part of an accepted request from its handler to its answer. */
    method RunAndFinish(request: Request, effect: Effect, writeOk: bool, ghost others: map<nat, Worker>, ghost w: nat)
      returns (response: Response)
      requires w !in others && (request.isGet || (request.id in receipts && receipts[request.id].Processing?))
      requires (request.route.BroadcastSync? ==> !request.isGet)
               && (effect.Broadcast? <==> request.route.BroadcastSync?)
      modifies this, repo
      ensures var worked := RunRequest(old(View(others[w := Accepted(request)])), w, effect);
              worked.workers[w].Worked? && (View(others), Some(response)) == Conclude(worked, w, writeOk)
    {
      ghost var accepted, n := others[w := Accepted(request)], |attempts|;
      hide Perform, Conclude;
      response := RunHandler(request, effect, accepted, w);
      assert accepted[w := Worked(request, response, n)] == others[w := Worked(request, response, n)];
      response := FinishRelay(request, response, writeOk, others, w);
    }
  }
}
