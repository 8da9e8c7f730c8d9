/** The whole fleet: the cloud and its operation snapshot, the rooms' relays, and the rooms' ledgers. */
module Fleet {
  import opened Common
  import R = Relay
  import C = Cloud
  import L = Ledger

  type Id = R.Id
  type Room = C.Room
  type OpId = nat

  /** One process per room: the relay and the ledger stop and start together. */
  datatype Node = Node(relay: R.State, ledger: L.State)

  datatype Replay = Nobody | CatchingUp(room: Room, left: seq<OpId>)

  /** `responses` are the answers rooms have sent; `calls` the interactive requests; `pending` the fleet jobs queued but
      not recorded yet, by operation. `ops` are the recorded operations of the active snapshot, the only ones a replay
      begins with; those of an ended one count as deleted once no replay is under way. `origin` remembers which recorded
      operation a job belongs to; nothing in the system reads it. */
  datatype System = System(cloud: C.State, nodes: map<Room, Node>, calls: map<Id, R.Request>,
                           responses: set<(Room, R.Response)>,
                           ops: set<OpId>, nextOp: OpId, marks: set<(OpId, Room)>, pending: map<Id, nat>,
                           replay: Replay, origin: map<Id, OpId>)

  /** What a handler run for a relayed request does to the room's devices. */
  datatype Handling = Nothing | FansOut(children: seq<L.Device>) | Wakes(devices: set<L.Device>)

  datatype Step =
    | CloudStep(move: C.Step)
    | QueueFleet(n: nat, batch: map<Id, Room>, route: R.Route)
    | RecordCloud(n: nat)
    | DropBatch(n: nat)
    | ReplayBegin(room: Room, left: seq<OpId>)
    | ReplayOne(id: Id, route: R.Route, ok: bool)
    | ReplayEnd
    | DeleteOps(gone: set<OpId>)
    | CloudRestart
    | Call(request: R.Request)
    | RoomJoins(room: Room)
    | RelayStep(room: Room, act: R.Step, handling: Handling)
    | LedgerStep(room: Room, change: L.Step)
    | RoomRestart(room: Room)

  ghost predicate Transmitted(log: seq<C.Transmission>, id: Id) {
    exists n :: 0 <= n < |log| && log[n].job == id
  }

  /** What may reach a room, any number of times and at any time: a job sent to it, or an interactive call. */
  ghost predicate Deliverable(s: System, room: Room, request: R.Request) {
    || (request.id in s.cloud.jobs && s.cloud.jobs[request.id].room == room
        && s.cloud.jobs[request.id].request == request && Transmitted(s.cloud.log, request.id))
    || (request.id in s.calls && s.calls[request.id] == request)
  }

  predicate FreshId(s: System, id: Id) {
    id !in s.cloud.jobs && id !in s.calls
  }

  predicate LocalOrigin(step: L.Step) {
    match step
    case FanoutBegin(origin, _) => origin.Local?
    case WakeSend(origin, _) => origin.Local?
    case RecordOther(origin, _) => origin.Local?
    case Restart => false
    case _ => true
  }

  ghost predicate CloudEnabled(s: System, step: C.Step) {
    && C.Enabled(s.cloud, step)
    && match step
       case Enqueue(id, _, _) => FreshId(s, id)
       case Answer(room, response) => (room, response) in s.responses
       case Restart => false
       case _ => true
  }

  /** The work runs a handler: a local one, or the device command that goes with an applied broadcast. */
  ghost predicate Acts(relay: R.State, step: R.Step)
    requires step.Work? && R.Enabled(relay, step)
  {
    var request := relay.workers[step.worker].request;
    !request.isGet && R.Perform(relay, request, step.effect).handled
  }

  ghost predicate RelayEnabled(s: System, room: Room, step: R.Step, handling: Handling) {
    && room in s.nodes && R.Enabled(s.nodes[room].relay, step)
    && (handling != Nothing ==> step.Work? && Acts(s.nodes[room].relay, step))
    && match step
       case Arrive(_, request, _, _) => Deliverable(s, room, request)
       case Work(_, _) => handling.FansOut? ==> s.nodes[room].ledger.lock.Free? && Distinct(handling.children)
       case Restart => false
       case _ => true
  }

  ghost predicate Enabled(s: System, step: Step) {
    match step
    case CloudStep(step) => CloudEnabled(s, step)
    case QueueFleet(n, batch, _) => n !in s.pending.Values && (forall id :: id in batch ==> FreshId(s, id))
        && (forall i, j :: i in batch && j in batch && batch[i] == batch[j] ==> i == j)
    case RecordCloud(_) => s.replay.Nobody?
    case ReplayBegin(_, left) => s.replay.Nobody? && Distinct(left) && forall op :: op in left ==> op in s.ops
    case ReplayOne(id, _, _) => s.replay.CatchingUp? && s.replay.left != [] && FreshId(s, id)
    case ReplayEnd => s.replay.CatchingUp? && s.replay.left == []
    case Call(request) => FreshId(s, request.id)
    case RoomJoins(room) => room !in s.nodes
    case RelayStep(room, step, handling) => RelayEnabled(s, room, step, handling)
    case LedgerStep(room, step) => room in s.nodes && L.Enabled(s.nodes[room].ledger, step) && LocalOrigin(step)
    case RoomRestart(room) => room in s.nodes && L.Enabled(s.nodes[room].ledger, L.Step.Restart)
    case _ => true
  }

  function FleetJob(id: Id, room: Room, route: R.Route): C.Job {
    C.NewJob(room, R.Request(id, true, false, route))
  }

  /** All jobs of one fleet-wide operation are inserted in one transaction. */
  ghost function Queued(s: System, n: nat, batch: map<Id, Room>, route: R.Route): System {
    s.(cloud := s.cloud.(jobs := s.cloud.jobs + map id | id in batch :: FleetJob(id, batch[id], route)),
       pending := s.pending + map id | id in batch :: n)
  }

  function BatchOf(s: System, n: nat): set<Id> {
    set id | id in s.pending && s.pending[id] == n && id in s.cloud.jobs
  }

  /** The operation is recorded and every room that has its job is marked, in one critical section. */
  ghost function Recorded(s: System, n: nat): System {
    var batch, op := BatchOf(s, n), s.nextOp;
    s.(ops := s.ops + {op}, nextOp := op + 1, marks := s.marks + set id | id in batch :: (op, s.cloud.jobs[id].room),
       pending := s.pending - batch, origin := s.origin + map id | id in batch :: op)
  }

  /** One operation of a room replay: skipped if marked, otherwise queued and marked. */
  ghost function CaughtUpWith(s: System, id: Id, route: R.Route, ok: bool): System
    requires s.replay.CatchingUp? && s.replay.left != []
  {
    var CatchingUp(room, left) := s.replay;
    var t := s.(replay := CatchingUp(room, left[1..]));
    if (left[0], room) in s.marks || !ok then t
    else t.(cloud := s.cloud.(jobs := s.cloud.jobs[id := FleetJob(id, room, route)]),
            marks := s.marks + {(left[0], room)}, origin := s.origin[id := left[0]])
  }

  function Handle(ledger: L.State, id: Id, handling: Handling): L.State {
    match handling
    case Nothing => ledger
    case FansOut(children) => L.BeginFanout(ledger, L.Relayed(id), children)
    case Wakes(devices) => L.SendWakes(ledger, L.Relayed(id), devices)
  }

  ghost function RelayNext(s: System, room: Room, step: R.Step, handling: Handling): System
    requires RelayEnabled(s, room, step, handling)
  {
    var Node(relay, ledger) := s.nodes[room];
    var (next, answer) := R.Next(relay, step);
    s.(nodes := s.nodes[room := Node(next, if step.Work?
                                     then Handle(ledger, relay.workers[step.worker].request.id, handling) else ledger)],
       responses := if answer.Some? then s.responses + {(room, answer.value)} else s.responses)
  }

  function NewNode(): Node {
    Node(R.State(map[], map[], [], R.Broadcasts.Store(map[], [], [])),
         L.State(None, 0, map[], 0, {}, L.Free, map[], map[], {}, multiset{}))
  }

  ghost function Next(s: System, step: Step): System
    requires Enabled(s, step)
  {
    match step
    case CloudStep(step) => s.(cloud := C.Next(s.cloud, step))
    case QueueFleet(n, batch, route) => Queued(s, n, batch, route)
    case RecordCloud(n) => Recorded(s, n)
    case DropBatch(n) => s.(pending := s.pending - BatchOf(s, n))
    case ReplayBegin(room, left) => s.(replay := CatchingUp(room, left))
    case ReplayOne(id, route, ok) => CaughtUpWith(s, id, route, ok)
    case ReplayEnd => s.(replay := Nobody)
    case DeleteOps(gone) => s.(ops := s.ops - gone, marks := set mark | mark in s.marks && mark.0 !in gone)
    case CloudRestart => s.(cloud := C.Next(s.cloud, C.Step.Restart), replay := Nobody, pending := map[])
    case Call(request) => s.(calls := s.calls[request.id := request])
    case RoomJoins(room) => s.(nodes := s.nodes[room := NewNode()])
    case RelayStep(room, step, handling) => RelayNext(s, room, step, handling)
    case LedgerStep(room, step) =>
      var ledger := L.Next(s.nodes[room].ledger, step);
      s.(nodes := s.nodes[room := s.nodes[room].(ledger := ledger)])
    case RoomRestart(room) =>
      var ledger := L.Next(s.nodes[room].ledger, L.Step.Restart);
      s.(nodes := s.nodes[room := Node(R.Reopened(s.nodes[room].relay), ledger)])
  }

  // ----- What holds whatever happens: where requests come from, and what answers mean -----

  ghost predicate RelayOk(s: System, room: Room, relay: R.State) {
    && R.Inv(relay)
    && (forall w :: w in relay.workers ==> Deliverable(s, room, relay.workers[w].request))
    && (forall n :: 0 <= n < |relay.attempts| ==> Deliverable(s, room, relay.attempts[n].request))
  }

  predicate Stored(s: System, room: Room, response: R.Response) {
    && room in s.nodes && response.id in s.nodes[room].relay.receipts
    && s.nodes[room].relay.receipts[response.id] == R.Done(response)
  }

  ghost predicate AnswerOk(s: System, room: Room, response: R.Response) {
    && !FreshId(s, response.id)
    && (R.Succeeded(response) && response.id in s.cloud.jobs && s.cloud.jobs[response.id].room == room ==>
        Stored(s, room, response))
  }

  predicate JobOk(s: System, id: Id)
    requires id in s.cloud.jobs
  {
    var job := s.cloud.jobs[id];
    && job.request.id == id && !job.request.isGet && id !in s.calls
    && (job.status == C.Completed ==>
          job.response.Some? && job.response.value.id == id && R.Succeeded(job.response.value)
              && Stored(s, job.room, job.response.value))
  }

  ghost predicate AnswersOk(s: System) {
    && (forall room :: room in s.nodes ==> RelayOk(s, room, s.nodes[room].relay))
    && (forall answer :: answer in s.responses ==> AnswerOk(s, answer.0, answer.1))
    && (forall id :: id in s.cloud.jobs ==> JobOk(s, id))
  }

  // ----- What holds as long as deletions are quiet: exact ledgers on both levels -----

  ghost predicate Handled(relay: R.State, id: Id) {
    exists n ::
        0 <= n < |relay.attempts| && relay.attempts[n].handled && !relay.attempts[n].request.isGet
            && relay.attempts[n].request.id == id
  }

  ghost predicate LedgerOk(node: Node) {
    && L.Inv(node.ledger)
    && (forall id :: L.Relayed(id) in node.ledger.used ==> Handled(node.relay, id))
  }

  ghost predicate LedgersOk(s: System) {
    forall room :: room in s.nodes ==> LedgerOk(s.nodes[room])
  }

  ghost predicate OriginsOk(jobs: map<Id, C.Job>, ops: set<OpId>, nextOp: OpId, marks: set<(OpId, Room)>,
                            origin: map<Id, OpId>) {
    && (forall op :: op in ops ==> op < nextOp) && (forall mark :: mark in marks ==> mark.0 < nextOp)
    && (forall id :: id in origin ==> id in jobs && origin[id] < nextOp)
    && (forall i, j :: i in origin && j in origin && origin[i] == origin[j] && jobs[i].room == jobs[j].room ==> i == j)
    && (forall id :: id in origin && origin[id] in ops ==> (origin[id], jobs[id].room) in marks)
  }

  ghost predicate PendingOk(jobs: map<Id, C.Job>, pending: map<Id, nat>, origin: map<Id, OpId>) {
    && (forall id :: id in pending ==> id in jobs && id !in origin)
    && (forall i, j :: i in pending && j in pending && pending[i] == pending[j] && jobs[i].room == jobs[j].room ==>
        i == j)
  }

  ghost predicate ReplayOk(jobs: map<Id, C.Job>, replay: Replay, nextOp: OpId, marks: set<(OpId, Room)>,
                           origin: map<Id, OpId>) {
    replay.CatchingUp? ==>
      && Distinct(replay.left) && (forall op :: op in replay.left ==> op < nextOp)
      && (forall id :: id in origin && id in jobs && jobs[id].room == replay.room && origin[id] in replay.left ==>
          (origin[id], replay.room) in marks)
  }

  ghost predicate LedgersExact(s: System) {
    && LedgersOk(s) && OriginsOk(s.cloud.jobs, s.ops, s.nextOp, s.marks, s.origin)
    && PendingOk(s.cloud.jobs, s.pending, s.origin) && ReplayOk(s.cloud.jobs, s.replay, s.nextOp, s.marks, s.origin)
  }

  /** No snapshot is deleted, here or there, while a replay still holds one of its operations already delivered to the
      target. */
  ghost predicate Quiet(s: System, step: Step) {
    match step
    case DeleteOps(gone) => s.replay.CatchingUp? ==> forall op :: op in s.replay.left && op in gone ==>
        (op, s.replay.room) !in s.marks
    case LedgerStep(room, step) => room in s.nodes ==> L.Quiet(s.nodes[room].ledger, step)
    case _ => true
  }

  ghost predicate Initial(s: System) {
    s == System(C.State(map[], map[], {}, C.Idle, []), map[], map[], {}, {}, 0, {}, map[], Nobody, map[])
  }

  // ----- Requests and answers -----

  ghost predicate Extends(s: System, t: System) {
    && (forall id :: id in s.cloud.jobs ==>
        id in t.cloud.jobs && t.cloud.jobs[id].room == s.cloud.jobs[id].room
            && t.cloud.jobs[id].request == s.cloud.jobs[id].request)
    && s.cloud.log <= t.cloud.log
    && (forall id :: id in s.calls ==> id in t.calls && t.calls[id] == s.calls[id])
  }

  lemma DeliverableStays(s: System, t: System, room: Room, request: R.Request)
    requires Extends(s, t) && Deliverable(s, room, request)
    ensures Deliverable(t, room, request)
  {
    if Transmitted(s.cloud.log, request.id) {
      var n :| 0 <= n < |s.cloud.log| && s.cloud.log[n].job == request.id;
      assert t.cloud.log[n] == s.cloud.log[n];
    }
  }

  /** Steps of the cloud alone: new jobs have fresh ids, and a job only becomes completed if that is vouched for. */
  lemma CloudSideKeepsAnswers(s: System, t: System)
    requires AnswersOk(s) && Extends(s, t) && t.nodes == s.nodes && t.responses == s.responses
    requires forall id :: id in t.cloud.jobs && id !in s.cloud.jobs ==>
               FreshId(s, id) && t.cloud.jobs[id] == FleetJobLike(t.cloud.jobs[id], id)
    requires forall id :: id in t.cloud.jobs ==> id !in t.calls
    requires forall id :: id in s.cloud.jobs && t.cloud.jobs[id] != s.cloud.jobs[id] ==> JobOk(t, id)
    ensures AnswersOk(t)
  {
    forall room | room in t.nodes ensures RelayOk(t, room, t.nodes[room].relay) {
      RelayStaysOk(s, t, room, s.nodes[room].relay);
    }
    hide RelayOk, Deliverable;
    forall answer | answer in t.responses ensures AnswerOk(t, answer.0, answer.1) {
      assert AnswerOk(s, answer.0, answer.1);
    }
    forall id | id in t.cloud.jobs ensures JobOk(t, id) {
      if id in s.cloud.jobs {
        assert JobOk(s, id);
      }
    }
  }

  function FleetJobLike(job: C.Job, id: Id): C.Job {
    C.NewJob(job.room, job.request.(id := id, isGet := false))
  }

  lemma RelayStaysOk(s: System, t: System, room: Room, relay: R.State)
    requires RelayOk(s, room, relay) && Extends(s, t)
    ensures RelayOk(t, room, relay)
  {
    forall w | w in relay.workers ensures Deliverable(t, room, relay.workers[w].request) {
      DeliverableStays(s, t, room, relay.workers[w].request);
    }
    forall n | 0 <= n < |relay.attempts| ensures Deliverable(t, room, relay.attempts[n].request) {
      DeliverableStays(s, t, room, relay.attempts[n].request);
    }
  }

  /** The cloud machine never rewrites a job's room or request, and only an answer completes one. */
  lemma CloudMachineFacts(c: C.State, step: C.Step)
    requires C.Enabled(c, step)
    ensures var d := C.Next(c, step);
            && c.log <= d.log
            && (forall id :: id in c.jobs ==>
                id in d.jobs && d.jobs[id].room == c.jobs[id].room && d.jobs[id].request == c.jobs[id].request)
            && (forall id :: id in d.jobs && id !in c.jobs ==>
                step.Enqueue? && id == step.id && d.jobs[id] == C.NewJob(step.room, step.request))
            && (forall id :: id in c.jobs && d.jobs[id].status == C.Completed ==>
                  (c.jobs[id].status == C.Completed && d.jobs[id].response == c.jobs[id].response)
                  || (step.Answer? && step.room == c.jobs[id].room && step.response.id == id
                      && R.Succeeded(step.response) && d.jobs[id].response == Some(step.response)))
  {
    if step.Answer? {
      AnswerFacts(c, step.room, step.response);
      hide C.RecordAnswer;
    } else if step.Transmit? {
      SendFacts(c, step.ok);
      hide C.Send;
    }
  }

  lemma AnswerFacts(c: C.State, room: Room, response: R.Response)
    ensures var d := C.RecordAnswer(c, room, response);
            && d == c.(jobs := d.jobs) && d.jobs.Keys == c.jobs.Keys
            && (forall id :: id in c.jobs ==>
                d.jobs[id].room == c.jobs[id].room && d.jobs[id].request == c.jobs[id].request)
            && (forall id :: id in c.jobs && d.jobs[id].status == C.Completed ==>
                  (c.jobs[id].status == C.Completed && d.jobs[id].response == c.jobs[id].response)
                  || (room == c.jobs[id].room && response.id == id && R.Succeeded(response)
                      && d.jobs[id].response == Some(response)))
  {
  }

  lemma SendFacts(c: C.State, ok: bool)
    requires c.pass.Marked?
    ensures var d := C.Send(c, ok);
            && c.log <= d.log && d.jobs.Keys == c.jobs.Keys
            && forall id :: id in c.jobs ==>
                 && d.jobs[id].room == c.jobs[id].room && d.jobs[id].request == c.jobs[id].request
                 && (d.jobs[id].status == C.Completed ==> d.jobs[id] == c.jobs[id])
  {
  }

  lemma CloudStepKeepsAnswers(s: System, step: C.Step)
    requires AnswersOk(s) && CloudEnabled(s, step)
    ensures AnswersOk(s.(cloud := C.Next(s.cloud, step)))
  {
    CloudMachineFacts(s.cloud, step);
    var t := s.(cloud := C.Next(s.cloud, step));
    hide C.Next, RelayOk, C.QueryResult;
    assert Extends(s, t);
    forall id | id in s.cloud.jobs && t.cloud.jobs[id] != s.cloud.jobs[id] ensures JobOk(t, id) {
      assert JobOk(s, id);
      if step.Answer? {
        assert AnswerOk(s, step.room, step.response);
      }
    }
    forall id | id in t.cloud.jobs ensures id !in t.calls {
      if id in s.cloud.jobs { assert JobOk(s, id); }
    }
    CloudSideKeepsAnswers(s, t);
  }

  lemma QueueFleetKeepsAnswers(s: System, n: nat, batch: map<Id, Room>, route: R.Route)
    requires AnswersOk(s) && Enabled(s, QueueFleet(n, batch, route))
    ensures AnswersOk(Queued(s, n, batch, route))
  {
    hide RelayOk, R.Succeeded;
    var t := Queued(s, n, batch, route);
    forall id | id in t.cloud.jobs ensures id !in t.calls {
      if id in s.cloud.jobs { assert JobOk(s, id); }
    }
    CloudSideKeepsAnswers(s, t);
  }

  lemma ReplayOneKeepsAnswers(s: System, id: Id, route: R.Route, ok: bool)
    requires AnswersOk(s) && Enabled(s, ReplayOne(id, route, ok))
    ensures AnswersOk(CaughtUpWith(s, id, route, ok))
  {
    hide RelayOk, R.Succeeded, AnswerOk;
    var t := CaughtUpWith(s, id, route, ok);
    CaughtUpJobs(s, id, route, ok);
    hide CaughtUpWith, Enabled;
    forall i | i in t.cloud.jobs ensures i !in t.calls {
      if i in s.cloud.jobs { assert JobOk(s, i); }
    }
    hide JobOk;
    CloudSideKeepsAnswers(s, t);
  }

  lemma CaughtUpJobs(s: System, id: Id, route: R.Route, ok: bool)
    requires Enabled(s, ReplayOne(id, route, ok))
    ensures var t := CaughtUpWith(s, id, route, ok);
            && FreshId(s, id) && t.nodes == s.nodes && t.responses == s.responses && t.calls == s.calls
            && t.cloud == s.cloud.(jobs := t.cloud.jobs)
            && (t.cloud.jobs == s.cloud.jobs
                || exists room :: t.cloud.jobs == s.cloud.jobs[id := FleetJob(id, room, route)])
  {
  }

  lemma RecordedSides(s: System, n: nat)
    ensures var t := Recorded(s, n);
            t.cloud == s.cloud && t.nodes == s.nodes && t.responses == s.responses && t.calls == s.calls
  {
  }

  lemma RestartedSides(c: C.State)
    ensures C.Enabled(c, C.Step.Restart) && C.Next(c, C.Step.Restart).jobs == c.jobs
            && C.Next(c, C.Step.Restart).log == c.log
  {
  }

  lemma CallKeepsAnswers(s: System, request: R.Request)
    requires AnswersOk(s) && FreshId(s, request.id)
    ensures AnswersOk(s.(calls := s.calls[request.id := request]))
  {
    var t := s.(calls := s.calls[request.id := request]);
    hide RelayOk, R.Succeeded;
    forall id | id in t.cloud.jobs ensures id !in t.calls {
      assert JobOk(s, id);
    }
    CloudSideKeepsAnswers(s, t);
  }

  /** Nothing changes that the answers depend on. */
  lemma SameSidesKeepAnswers(s: System, t: System)
    requires AnswersOk(s) && t.cloud.jobs == s.cloud.jobs && t.cloud.log == s.cloud.log && t.nodes == s.nodes
    requires t.responses == s.responses && t.calls == s.calls
    ensures AnswersOk(t)
  {
    hide RelayOk, R.Succeeded;
    forall id | id in t.cloud.jobs ensures id !in t.calls {
      assert JobOk(s, id);
    }
    CloudSideKeepsAnswers(s, t);
  }

  /** What one relay step does to the requests it knows, to stored outcomes, and to what it answers. */
  lemma RelayMachineFacts(relay: R.State, step: R.Step)
    requires R.Inv(relay) && R.Enabled(relay, step)
    ensures var next := R.Next(relay, step).0;
            && (forall w :: w in next.workers ==>
                (w in relay.workers && next.workers[w].request == relay.workers[w].request)
                    || (step.Arrive? && next.workers[w].request == step.request))
            && |relay.attempts| <= |next.attempts|
            && (forall n :: 0 <= n < |relay.attempts| ==>
                next.attempts[n].request == relay.attempts[n].request
                    && next.attempts[n].handled == relay.attempts[n].handled)
            && (forall n :: |relay.attempts| <= n < |next.attempts| ==>
                step.Work? && next.attempts[n].request == relay.workers[step.worker].request)
            && (step.Work? ==>
                |next.attempts| == |relay.attempts| + 1
                    && next.attempts[|relay.attempts|].handled
                         == R.Perform(relay, relay.workers[step.worker].request, step.effect).handled)
  {
    if step.Work? {
      PerformAnswersItsRequest(relay, relay.workers[step.worker].request, step.effect);
    }
    hide R.Perform, R.Inv;
  }

  lemma PerformAnswersItsRequest(relay: R.State, request: R.Request, effect: R.Effect)
    requires effect.Broadcast? <==> request.route.BroadcastSync?
    ensures R.Perform(relay, request, effect).request == request
  {
    hide R.Broadcasts.Respond;
  }

  function RequestOf(relay: R.State, step: R.Step): R.Request
    requires step.Arrive? || (step.Look? && step.worker in relay.workers)
             || (step.Finish? && step.worker in relay.workers)
  {
    if step.Arrive? then step.request else relay.workers[step.worker].request
  }

  lemma OnlyThreeStepsAnswer(relay: R.State, step: R.Step)
    requires R.Enabled(relay, step) && R.Next(relay, step).1.Some?
    ensures step.Arrive? || step.Look? || step.Finish?
  {
  }

  lemma RelayNextIsOk(s: System, room: Room, step: R.Step)
    requires room in s.nodes && RelayOk(s, room, s.nodes[room].relay) && R.Enabled(s.nodes[room].relay, step)
    requires step.Arrive? ==> Deliverable(s, room, step.request)
    ensures RelayOk(s, room, R.Next(s.nodes[room].relay, step).0)
  {
    R.StepKeepsInv(s.nodes[room].relay, step);
    RelayMachineFacts(s.nodes[room].relay, step);
    hide R.Inv, R.Next, R.Perform, Deliverable;
  }

  lemma NodeIsOk(s: System, room: Room)
    requires AnswersOk(s) && room in s.nodes
    ensures RelayOk(s, room, s.nodes[room].relay) && R.Inv(s.nodes[room].relay)
  {
    hide R.Inv;
  }

  lemma RelayNextIs(s: System, room: Room, step: R.Step, handling: Handling)
    requires RelayEnabled(s, room, step, handling)
    ensures R.Enabled(s.nodes[room].relay, step) && (step.Arrive? ==> Deliverable(s, room, step.request))
    ensures var t, (next, answer) := RelayNext(s, room, step, handling), R.Next(s.nodes[room].relay, step);
            && t == s.(nodes := t.nodes, responses := t.responses) && t.nodes == s.nodes[room := t.nodes[room]]
               && t.nodes[room].relay == next
            && forall r :: r in t.responses ==> r in s.responses || (answer.Some? && r == (room, answer.value))
  {
    hide R.Next, Handle, R.Enabled, Deliverable;
  }

  lemma RelayStepKeepsAnswers(s: System, room: Room, step: R.Step, handling: Handling)
    requires AnswersOk(s) && RelayEnabled(s, room, step, handling)
    ensures AnswersOk(RelayNext(s, room, step, handling))
  {
    hide R.Inv, R.Next, R.Enabled, RelayNext, AnswersOk, Deliverable, RelayOk, AnswerOk;
    var t := RelayNext(s, room, step, handling);
    var answer := R.Next(s.nodes[room].relay, step).1;
    NodeIsOk(s, room);
    RelayNextIs(s, room, step, handling);
    RelayNextIsOk(s, room, step);
    StoredStays(s.nodes[room].relay, step);
    if answer.Some? {
      RelayAnswerIsOk(s, t, room, step, answer.value);
    }
    hide RelayEnabled;
    NodeReplacedKeepsAnswers(s, t, room);
  }

  lemma StoredStays(relay: R.State, step: R.Step)
    requires R.Inv(relay) && R.Enabled(relay, step)
    ensures forall id :: id in relay.receipts && relay.receipts[id].Done? ==>
              id in R.Next(relay, step).0.receipts && R.Next(relay, step).0.receipts[id] == relay.receipts[id]
  {
    forall id | id in relay.receipts && relay.receipts[id].Done?
      ensures id in R.Next(relay, step).0.receipts && R.Next(relay, step).0.receipts[id] == relay.receipts[id]
    {
      R.DoneIsForever(relay, step, id);
    }
  }

  lemma RelayAnswerIsOk(s: System, t: System, room: Room, step: R.Step, answer: R.Response)
    requires AnswersOk(s) && room in s.nodes && R.Enabled(s.nodes[room].relay, step)
             && (step.Arrive? ==> Deliverable(s, room, step.request))
    requires R.Next(s.nodes[room].relay, step).1 == Some(answer)
    requires t.cloud == s.cloud && t.calls == s.calls && room in t.nodes
             && t.nodes[room].relay == R.Next(s.nodes[room].relay, step).0
    ensures AnswerOk(t, room, answer)
  {
    var relay := s.nodes[room].relay;
    assert RelayOk(s, room, relay);
    OnlyThreeStepsAnswer(relay, step);
    var request := RequestOf(relay, step);
    R.SuccessIsStored(relay, step, request.id);
    assert Deliverable(s, room, request);
    hide R.Inv, R.Next, R.Succeeded, Deliverable;
    AnswerIsOk(s, t, room, request, answer);
  }

  lemma AnswerIsOk(s: System, t: System, room: Room, request: R.Request, answer: R.Response)
    requires Deliverable(s, room, request) && AnswersOk(s) && t.cloud == s.cloud && t.calls == s.calls
    requires answer.id == request.id
    requires R.Succeeded(answer) && !request.isGet ==> Stored(t, room, answer)
    ensures AnswerOk(t, room, answer)
  {
    if request.id in s.cloud.jobs {
      assert JobOk(s, request.id);
    }
  }

  /** Everything but one room's node, and what it answers, stays. */
  lemma NodeReplacedKeepsAnswers(s: System, t: System, room: Room)
    requires AnswersOk(s) && room in t.nodes && t.cloud == s.cloud && t.calls == s.calls
    requires forall other :: other != room ==>
               (other in s.nodes <==> other in t.nodes) && (other in s.nodes ==> t.nodes[other] == s.nodes[other])
    requires RelayOk(s, room, t.nodes[room].relay)
    requires room in s.nodes ==> forall id ::
               id in s.nodes[room].relay.receipts && s.nodes[room].relay.receipts[id].Done? ==>
               id in t.nodes[room].relay.receipts
                   && t.nodes[room].relay.receipts[id] == s.nodes[room].relay.receipts[id]
    requires forall answer :: answer in t.responses ==> answer in s.responses || AnswerOk(t, answer.0, answer.1)
    ensures AnswersOk(t)
  {
    hide R.Succeeded, RelayOk;
    forall r | r in t.nodes ensures RelayOk(t, r, t.nodes[r].relay) {
      RelayStaysOk(s, t, r, t.nodes[r].relay);
    }
    forall answer | answer in t.responses ensures AnswerOk(t, answer.0, answer.1) {
      if answer in s.responses { assert AnswerOk(s, answer.0, answer.1); }
    }
    forall id | id in t.cloud.jobs ensures JobOk(t, id) {
      assert JobOk(s, id);
    }
  }

  /** The room's relay is as before or restarted; its ledger may be anything. */
  lemma NodeStepKeepsAnswers(s: System, room: Room, node: Node)
    requires AnswersOk(s) && room in s.nodes
             && (node.relay == s.nodes[room].relay || node.relay == R.Reopened(s.nodes[room].relay))
    ensures AnswersOk(s.(nodes := s.nodes[room := node]))
  {
    assert RelayOk(s, room, s.nodes[room].relay);
    ReopenedIsOk(s, room, s.nodes[room].relay);
    hide RelayOk, AnswerOk, AnswersOk;
    NodeReplacedKeepsAnswers(s, s.(nodes := s.nodes[room := node]), room);
  }

  lemma ReopenedIsOk(s: System, room: Room, relay: R.State)
    requires RelayOk(s, room, relay)
    ensures RelayOk(s, room, R.Reopened(relay))
  {
    R.RestartKeepsInv(relay);
    hide R.Inv;
  }

  lemma RoomJoinsKeepsAnswers(s: System, room: Room)
    requires AnswersOk(s) && room !in s.nodes
    ensures AnswersOk(s.(nodes := s.nodes[room := NewNode()]))
  {
    assert RelayOk(s, room, NewNode().relay);
    hide RelayOk, AnswerOk;
    NodeReplacedKeepsAnswers(s, s.(nodes := s.nodes[room := NewNode()]), room);
  }

  lemma StepKeepsAnswers(s: System, step: Step)
    requires AnswersOk(s) && Enabled(s, step)
    ensures AnswersOk(Next(s, step))
  {
    hide AnswersOk, RelayNext, CloudEnabled, RelayEnabled, Recorded, R.Next, R.Reopened, L.Next, L.Enabled, C.Next,
    C.Enabled, CaughtUpWith, Queued, FreshId;
    match step
    case QueueFleet(n, batch, route) => QueueFleetKeepsAnswers(s, n, batch, route);
    case ReplayOne(id, route, ok) => ReplayOneKeepsAnswers(s, id, route, ok);
    case CloudStep(move) => CloudStepKeepsAnswers(s, move);
    case RoomJoins(room) => RoomJoinsKeepsAnswers(s, room);
    case RelayStep(room, act, handling) => RelayStepKeepsAnswers(s, room, act, handling);
    case LedgerStep(room, change) =>
      NodeStepKeepsAnswers(s, room, s.nodes[room].(ledger := L.Next(s.nodes[room].ledger, change)));
    case RoomRestart(room) =>
      NodeStepKeepsAnswers(s, room,
                           Node(R.Reopened(s.nodes[room].relay), L.Next(s.nodes[room].ledger, L.Step.Restart)));
    case Call(request) => CallKeepsAnswers(s, request);
    case CloudRestart =>
      RestartedSides(s.cloud);
      SameSidesKeepAnswers(s, Next(s, step));
    case RecordCloud(n) =>
      RecordedSides(s, n);
      SameSidesKeepAnswers(s, Recorded(s, n));
    case _ => SameSidesKeepAnswers(s, Next(s, step));
  }

  /** An interactive call can reach any room from then on; a job only its own, and once it is sent. */
  lemma WhatCanBeDelivered(s: System, request: R.Request, room: Room)
    ensures Enabled(s, Call(request)) ==> Deliverable(Next(s, Call(request)), room, request)
    ensures request.id in s.cloud.jobs && s.cloud.jobs[request.id].request == request && request.id !in s.calls ==>
              (Deliverable(s, room, request) <==>
                 s.cloud.jobs[request.id].room == room && exists n ::
                     0 <= n < |s.cloud.log| && s.cloud.log[n].job == request.id)
  {
  }

  // ----- Ledgers on both levels -----

  ghost predicate SameRooms(jobs: map<Id, C.Job>, more: map<Id, C.Job>) {
    forall id :: id in jobs ==> id in more && more[id].room == jobs[id].room
  }

  /** Jobs keep their rooms, and nothing about operations and replays changes. */
  lemma SameOriginsStayExact(s: System, t: System)
    requires LedgersExact(s) && SameRooms(s.cloud.jobs, t.cloud.jobs)
    requires t.ops == s.ops && t.nextOp == s.nextOp && t.marks == s.marks && t.origin == s.origin
    requires t.replay == s.replay || t.replay == Nobody
    requires forall id :: id in t.pending ==> id in s.pending && t.pending[id] == s.pending[id]
    requires LedgersOk(t)
    ensures LedgersExact(t)
  {
    hide LedgersOk, Distinct;
  }

  lemma NewBatchStaysPending(jobs: map<Id, C.Job>, more: map<Id, C.Job>, pending: map<Id, nat>, after: map<Id, nat>,
                             origin: map<Id, OpId>, n: nat, batch: map<Id, Room>)
    requires PendingOk(jobs, pending, origin) && SameRooms(jobs, more) && n !in pending.Values
    requires forall id :: id in origin ==> id in jobs
    requires forall id :: id in batch ==> id !in jobs && id in more && more[id].room == batch[id]
    requires forall i, j :: i in batch && j in batch && batch[i] == batch[j] ==> i == j
    requires after == pending + map id | id in batch :: n
    ensures PendingOk(more, after, origin)
  {
    assert forall id :: id in pending ==> pending[id] in pending.Values;
    assert forall id :: id in after ==>
             if id in batch then after[id] == n else id in pending && after[id] == pending[id] != n;
  }

  lemma QueuedFields(s: System, n: nat, batch: map<Id, Room>, route: R.Route)
    requires Enabled(s, QueueFleet(n, batch, route))
    ensures var t := Queued(s, n, batch, route);
            && t == s.(cloud := t.cloud, pending := t.pending) && t.pending == (s.pending + map id | id in batch :: n)
            && SameRooms(s.cloud.jobs, t.cloud.jobs)
            && (forall id :: id in batch ==>
                id !in s.cloud.jobs && id in t.cloud.jobs && t.cloud.jobs[id].room == batch[id])
            && n !in s.pending.Values && (forall i, j :: i in batch && j in batch && batch[i] == batch[j] ==> i == j)
  {
  }

  lemma OriginsHaveJobs(s: System)
    requires LedgersExact(s)
    ensures forall id :: id in s.origin ==> id in s.cloud.jobs
  {
    hide LedgersOk, PendingOk, ReplayOk;
  }

  lemma QueueFleetKeepsExact(s: System, n: nat, batch: map<Id, Room>, route: R.Route)
    requires LedgersExact(s) && Enabled(s, QueueFleet(n, batch, route))
    ensures LedgersExact(Queued(s, n, batch, route))
  {
    hide PendingOk, LedgersOk, ReplayOk, OriginsOk, SameRooms, Queued, Enabled;
    var t := Queued(s, n, batch, route);
    QueuedFields(s, n, batch, route);
    OriginsHaveJobs(s);
    NewBatchStaysPending(s.cloud.jobs, t.cloud.jobs, s.pending, t.pending, s.origin, n, batch);
    SameNodesStayOk(s, t);
    SameRoomsSameOrigins(s.cloud.jobs, t.cloud.jobs, s.ops, s.nextOp, s.marks, s.origin, s.replay);
  }

  lemma SameRoomsSameOrigins(jobs: map<Id, C.Job>, more: map<Id, C.Job>, ops: set<OpId>, nextOp: OpId,
                             marks: set<(OpId, Room)>, origin: map<Id, OpId>, replay: Replay)
    requires OriginsOk(jobs, ops, nextOp, marks, origin) && ReplayOk(jobs, replay, nextOp, marks, origin)
             && SameRooms(jobs, more)
    ensures OriginsOk(more, ops, nextOp, marks, origin) && ReplayOk(more, replay, nextOp, marks, origin)
  {
    hide Distinct;
  }

  lemma RecordedStayOrigins(jobs: map<Id, C.Job>, ops: set<OpId>, nextOp: OpId, marks: set<(OpId, Room)>,
                            after: set<(OpId, Room)>, origin: map<Id, OpId>, pending: map<Id, nat>, n: nat,
                            batch: set<Id>)
    requires OriginsOk(jobs, ops, nextOp, marks, origin) && PendingOk(jobs, pending, origin)
    requires batch <= pending.Keys && forall id :: id in batch ==> pending[id] == n
    requires after == marks + set id | id in batch :: (nextOp, jobs[id].room)
    ensures OriginsOk(jobs, ops + {nextOp}, nextOp + 1, after, origin + map id | id in batch :: nextOp)
  {
    forall id | id in batch ensures (nextOp, jobs[id].room) in after {
      assert (nextOp, jobs[id].room) in (set id' | id' in batch :: (nextOp, jobs[id'].room));
    }
  }

  lemma RecordedFields(s: System, n: nat)
    ensures var t, batch := Recorded(s, n), BatchOf(s, n);
            && t.cloud == s.cloud && t.nodes == s.nodes && t.replay == s.replay
            && t.ops == s.ops + {s.nextOp} && t.nextOp == s.nextOp + 1
               && t.marks == s.marks + (set id | id in batch :: (s.nextOp, s.cloud.jobs[id].room))
            && t.pending == s.pending - batch && t.origin == s.origin + (map id | id in batch :: s.nextOp)
            && batch <= s.pending.Keys && forall id :: id in batch ==> s.pending[id] == n && id in s.cloud.jobs
  {
  }

  lemma RecordCloudKeepsExact(s: System, n: nat)
    requires LedgersExact(s) && Enabled(s, RecordCloud(n))
    ensures LedgersExact(Recorded(s, n))
  {
    var t, batch := Recorded(s, n), BatchOf(s, n);
    RecordedFields(s, n);
    hide Recorded, BatchOf, OriginsOk, LedgersOk, PendingOk;
    SameNodesStayOk(s, t);
    RecordedStayOrigins(s.cloud.jobs, s.ops, s.nextOp, s.marks, t.marks, s.origin, s.pending, n, batch);
    RecordedStayPending(s.cloud.jobs, s.pending, s.origin, batch, t.origin);
  }

  lemma RecordedStayPending(jobs: map<Id, C.Job>, pending: map<Id, nat>, origin: map<Id, OpId>, batch: set<Id>,
                            after: map<Id, OpId>)
    requires PendingOk(jobs, pending, origin) && after.Keys == origin.Keys + batch
    ensures PendingOk(jobs, pending - batch, after)
  {
  }

  lemma CaughtUpStaysExact(s: System, t: System, op: OpId, room: Room, left: seq<OpId>, id: Id)
    requires LedgersExact(s) && s.replay == CatchingUp(room, [op] + left) && (op, room) !in s.marks
             && id !in s.cloud.jobs
    requires t.nodes == s.nodes && t.replay == CatchingUp(room, left) && t.ops == s.ops && t.nextOp == s.nextOp
             && t.pending == s.pending
    requires t.marks == s.marks + {(op, room)} && t.origin == s.origin[id := op]
    requires SameRooms(s.cloud.jobs, t.cloud.jobs) && id in t.cloud.jobs && t.cloud.jobs[id].room == room
    ensures LedgersExact(t)
  {
    SameNodesStayOk(s, t);
    RestOfReplay(op, left);
    hide LedgersOk, Distinct;
    assert PendingOk(t.cloud.jobs, t.pending, t.origin);
    assert op in [op] + left;
    assert OriginsOk(t.cloud.jobs, t.ops, t.nextOp, t.marks, t.origin);
  }

  lemma RestOfReplay(op: OpId, left: seq<OpId>)
    requires Distinct([op] + left)
    ensures Distinct(left) && forall o :: o in left ==> o in [op] + left && o != op
  {
    assert ([op] + left)[0] == op && forall i :: 0 <= i < |left| ==> left[i] == ([op] + left)[i + 1];
  }

  lemma SkippedStaysExact(s: System, room: Room, op: OpId, left: seq<OpId>)
    requires LedgersExact(s) && s.replay == CatchingUp(room, [op] + left)
    ensures LedgersExact(s.(replay := CatchingUp(room, left)))
  {
    SameNodesStayOk(s, s.(replay := CatchingUp(room, left)));
    RestOfReplay(op, left);
    hide LedgersOk, Distinct, OriginsOk, PendingOk;
  }

  /** The replay's next operation is skipped, or gets its job and its mark. */
  ghost predicate CaughtUp(s: System, t: System, id: Id, op: OpId, room: Room, left: seq<OpId>) {
    && s.replay == CatchingUp(room, [op] + left) && id !in s.cloud.jobs && SameRooms(s.cloud.jobs, t.cloud.jobs)
    && t == s.(replay := CatchingUp(room, left), cloud := t.cloud, marks := t.marks, origin := t.origin)
    && if t.marks == s.marks then t.cloud == s.cloud && t.origin == s.origin
       else (op, room) !in s.marks && t.marks == s.marks + {(op, room)} && t.origin == s.origin[id := op]
            && id in t.cloud.jobs && t.cloud.jobs[id].room == room
  }

  lemma CaughtUpIs(s: System, id: Id, route: R.Route, ok: bool)
    requires Enabled(s, ReplayOne(id, route, ok))
    ensures s.replay.CatchingUp? && s.replay.left != []
    ensures CaughtUp(s, CaughtUpWith(s, id, route, ok), id, s.replay.left[0], s.replay.room, s.replay.left[1..])
  {
    assert s.replay.left == [s.replay.left[0]] + s.replay.left[1..];
  }

  lemma ReplayOneKeepsExact(s: System, id: Id, route: R.Route, ok: bool)
    requires LedgersExact(s) && Enabled(s, ReplayOne(id, route, ok))
    ensures LedgersExact(CaughtUpWith(s, id, route, ok))
  {
    hide LedgersExact, CaughtUpWith, Enabled;
    CaughtUpIs(s, id, route, ok);
    var t, op, left := CaughtUpWith(s, id, route, ok), s.replay.left[0], s.replay.left[1..];
    if t.marks == s.marks {
      SkippedStaysExact(s, s.replay.room, op, left);
    } else {
      CaughtUpStaysExact(s, t, op, s.replay.room, left, id);
    }
  }

  lemma ReplayBeginAndDeletionKeepExact(s: System, step: Step)
    requires LedgersExact(s) && Enabled(s, step) && Quiet(s, step) && (step.ReplayBegin? || step.DeleteOps?)
    ensures LedgersExact(Next(s, step))
  {
    hide LedgersOk, Distinct, CloudEnabled, RelayEnabled;
    if step.DeleteOps? {
      hide PendingOk;
    } else {
      hide OriginsOk, PendingOk;
    }
    SameNodesStayOk(s, Next(s, step));
  }

  lemma LedgersStayOk(s: System, t: System, room: Room)
    requires LedgersOk(s) && room in t.nodes && LedgerOk(t.nodes[room])
    requires forall other :: other in t.nodes && other != room ==> other in s.nodes && t.nodes[other] == s.nodes[other]
    ensures LedgersOk(t)
  {
    hide LedgerOk;
  }

  /** A handler that starts work for a request id has never done so before, because its worker holds an id no kept
      execution has. */
  lemma HandlerIsFirst(node: Node, step: R.Step)
    requires R.Inv(node.relay) && LedgerOk(node)
    requires step.Work? && R.Enabled(node.relay, step) && !node.relay.workers[step.worker].request.isGet
    ensures L.Relayed(node.relay.workers[step.worker].request.id) !in node.ledger.used
  {
    var id, attempts := node.relay.workers[step.worker].request.id, node.relay.attempts;
    hide L.Inv;
    assert !R.KeptFor(node.relay, id);
    assert forall n :: 0 <= n < |attempts| && attempts[n].request.id == id && !attempts[n].request.isGet ==>
             R.Harmless(attempts[n]);
    assert !Handled(node.relay, id);
  }

  lemma HandlingIsEnabled(ledger: L.State, id: Id, handling: Handling)
    requires L.Relayed(id) !in ledger.used && (handling.FansOut? ==> ledger.lock.Free? && Distinct(handling.children))
    ensures handling.FansOut? ==> L.Enabled(ledger, L.FanoutBegin(L.Relayed(id), handling.children))
    ensures handling.Wakes? ==> L.Enabled(ledger, L.WakeSend(L.Relayed(id), handling.devices))
  {
  }

  lemma HandleKeepsLedger(node: Node, id: Id, handling: Handling)
    requires L.Inv(node.ledger) && L.Relayed(id) !in node.ledger.used
    requires handling.FansOut? ==> node.ledger.lock.Free? && Distinct(handling.children)
    ensures L.Inv(Handle(node.ledger, id, handling))
    ensures Handle(node.ledger, id, handling).used == node.ledger.used
            + if handling == Nothing then {} else {L.Relayed(id)}
  {
    hide L.Inv, L.Enabled;
    assert handling.FansOut? ==>
             L.Enabled(node.ledger, L.FanoutBegin(L.Relayed(id), handling.children)) by { HandlingIsEnabled(node.ledger,
                 id, handling); }
    assert handling.Wakes? ==>
             L.Enabled(node.ledger, L.WakeSend(L.Relayed(id), handling.devices)) by { HandlingIsEnabled(node.ledger, id,
                 handling); }
    match handling
    case Nothing =>
    case FansOut(children) => L.FanoutBeginKeepsInv(node.ledger, L.Relayed(id), children);
    case Wakes(devices) => L.WakeSendKeepsInv(node.ledger, L.Relayed(id), devices);
  }

  lemma HandledStays(relay: R.State, step: R.Step, id: Id)
    requires R.Inv(relay) && R.Enabled(relay, step) && Handled(relay, id)
    ensures Handled(R.Next(relay, step).0, id)
  {
    RelayMachineFacts(relay, step);
    var n :| 0 <= n < |relay.attempts| && relay.attempts[n].handled && !relay.attempts[n].request.isGet
        && relay.attempts[n].request.id == id;
    hide R.Inv, R.Next;
    assert R.Next(relay, step).0.attempts[n].request == relay.attempts[n].request;
  }

  lemma IdleRelayStepKeepsLedger(node: Node, step: R.Step)
    requires R.Inv(node.relay) && LedgerOk(node) && R.Enabled(node.relay, step)
    ensures LedgerOk(Node(R.Next(node.relay, step).0, node.ledger))
  {
    hide R.Inv, L.Inv, R.Next, R.Enabled;
    forall id | L.Relayed(id) in node.ledger.used ensures Handled(R.Next(node.relay, step).0, id) {
      HandledStays(node.relay, step, id);
    }
  }

  lemma HandlerKeepsLedger(node: Node, step: R.Step, handling: Handling)
    requires R.Inv(node.relay) && LedgerOk(node) && R.Enabled(node.relay, step)
    requires step.Work? && Acts(node.relay, step)
    requires handling.FansOut? ==> node.ledger.lock.Free? && Distinct(handling.children)
    ensures LedgerOk(Node(R.Next(node.relay, step).0,
                          Handle(node.ledger, node.relay.workers[step.worker].request.id, handling)))
  {
    var id := node.relay.workers[step.worker].request.id;
    HandlerIsFirst(node, step);
    IdleRelayStepKeepsLedger(node, step);
    WorkIsHandled(node.relay, step);
    hide R.Inv, L.Inv, R.Next, Handled;
    HandleKeepsLedger(node, id, handling);
    hide Handle;
  }

  lemma RelayStepKeepsLedger(s: System, room: Room, step: R.Step, handling: Handling)
    requires AnswersOk(s) && LedgersOk(s) && RelayEnabled(s, room, step, handling)
    ensures LedgerOk(RelayNext(s, room, step, handling).nodes[room])
  {
    var node := s.nodes[room];
    assert RelayOk(s, room, node.relay) && LedgerOk(node);
    hide R.Inv, L.Inv, R.Next, Deliverable, LedgerOk, R.Enabled;
    if handling == Nothing {
      IdleRelayStepKeepsLedger(node, step);
    } else {
      hide Handle;
      HandlerKeepsLedger(node, step, handling);
    }
  }

  lemma WorkIsHandled(relay: R.State, step: R.Step)
    requires R.Enabled(relay, step) && step.Work? && Acts(relay, step)
    ensures Handled(R.Next(relay, step).0, relay.workers[step.worker].request.id)
  {
    var next := R.Next(relay, step).0;
    assert next.attempts[|relay.attempts|].handled;
  }

  lemma OnlyNamedOriginIsUsed(ledger: L.State, step: L.Step)
    requires L.Enabled(ledger, step) && L.WokenOk(ledger) && (LocalOrigin(step) || step.Restart?)
    ensures forall id :: L.Relayed(id) in L.Next(ledger, step).used ==> L.Relayed(id) in ledger.used
  {
    hide L.Inv, L.ReplayNext;
    if step.ReplayOne? {
      L.ReplayOneEffect(ledger, step.succeeds);
    }
  }

  lemma RoomStepKeepsLedger(s: System, step: Step)
    requires LedgersOk(s) && Enabled(s, step) && Quiet(s, step) && (step.LedgerStep? || step.RoomRestart?)
    ensures LedgerOk(Next(s, step).nodes[step.room])
  {
    var node := s.nodes[step.room];
    assert LedgerOk(node);
    var move := if step.LedgerStep? then step.change else L.Step.Restart;
    L.StepKeepsInv(node.ledger, move);
    OnlyNamedOriginIsUsed(node.ledger, move);
    hide L.Inv, L.Next, L.Enabled, L.Quiet;
  }

  lemma StepKeepsExact(s: System, step: Step)
    requires AnswersOk(s) && LedgersExact(s) && Enabled(s, step) && Quiet(s, step)
    ensures LedgersExact(Next(s, step))
  {
    var t := Next(s, step);
    match step
    case QueueFleet(n, batch, route) => QueueFleetKeepsExact(s, n, batch, route);
    case RecordCloud(n) => RecordCloudKeepsExact(s, n);
    case ReplayOne(id, route, ok) => ReplayOneKeepsExact(s, id, route, ok);
    case ReplayBegin(_, _) => ReplayBeginAndDeletionKeepExact(s, step);
    case DeleteOps(_) => ReplayBeginAndDeletionKeepExact(s, step);
    case _ => OtherStepsKeepExact(s, step);
  }

  lemma OneNodeMoves(s: System, room: Room, step: R.Step, handling: Handling)
    requires RelayEnabled(s, room, step, handling)
    ensures var t := RelayNext(s, room, step, handling);
            t.nodes == s.nodes[room := t.nodes[room]] && t.nodes[room].relay == R.Next(s.nodes[room].relay, step).0
  {
    hide R.Next, Handle;
  }

  lemma RelayStepKeepsLedgers(s: System, room: Room, step: R.Step, handling: Handling)
    requires AnswersOk(s) && LedgersOk(s) && RelayEnabled(s, room, step, handling)
    ensures LedgersOk(RelayNext(s, room, step, handling))
  {
    hide LedgerOk, AnswersOk, LedgersOk, RelayNext, R.Enabled, R.Next, Deliverable;
    RelayStepKeepsLedger(s, room, step, handling);
    OneNodeMoves(s, room, step, handling);
    LedgersStayOk(s, RelayNext(s, room, step, handling), room);
  }

  lemma RoomStepKeepsLedgers(s: System, step: Step)
    requires LedgersOk(s) && Enabled(s, step) && Quiet(s, step) && (step.LedgerStep? || step.RoomRestart?)
    ensures LedgersOk(Next(s, step))
  {
    hide LedgerOk, LedgersOk, L.Next, L.Enabled, Quiet, R.Reopened;
    RoomStepKeepsLedger(s, step);
    OneRoomMoves(s, step);
    hide Next, Enabled;
    LedgersStayOk(s, Next(s, step), step.room);
  }

  lemma OneRoomMoves(s: System, step: Step)
    requires Enabled(s, step) && (step.LedgerStep? || step.RoomRestart?)
    ensures step.room in s.nodes && step.room in Next(s, step).nodes
    ensures forall other :: other in Next(s, step).nodes && other != step.room ==>
              other in s.nodes && Next(s, step).nodes[other] == s.nodes[other]
  {
    hide L.Next, L.Enabled, R.Reopened;
  }

  lemma StepKeepsLedgers(s: System, step: Step)
    requires AnswersOk(s) && LedgersOk(s) && Enabled(s, step) && Quiet(s, step)
    ensures LedgersOk(Next(s, step))
  {
    hide AnswersOk, LedgersOk, RelayNext, RelayEnabled, CloudEnabled, Quiet, LedgerOk;
    match step
    case RelayStep(room, act, handling) => RelayStepKeepsLedgers(s, room, act, handling);
    case LedgerStep(_, _) => RoomStepKeepsLedgers(s, step);
    case RoomRestart(_) => RoomStepKeepsLedgers(s, step);
    case RoomJoins(room) =>
      NewLedgerOk();
      LedgersStayOk(s, Next(s, step), room);
    case _ =>
      SameNodesStayOk(s, Next(s, step));
  }

  lemma CloudStepKeepsExact(s: System, move: C.Step)
    requires LedgersExact(s) && Enabled(s, CloudStep(move)) && LedgersOk(s.(cloud := C.Next(s.cloud, move)))
    ensures LedgersExact(s.(cloud := C.Next(s.cloud, move)))
  {
    CloudMachineFacts(s.cloud, move);
    hide LedgersOk, C.Next, C.Enabled, LedgersExact;
    SameOriginsStayExact(s, s.(cloud := C.Next(s.cloud, move)));
  }

  /** Steps of the rooms, and cloud steps that queue, record and replay nothing. */
  lemma OtherStepsKeepExact(s: System, step: Step)
    requires AnswersOk(s) && LedgersExact(s) && Enabled(s, step) && Quiet(s, step)
    requires !step.QueueFleet? && !step.RecordCloud? && !step.ReplayOne? && !step.ReplayBegin? && !step.DeleteOps?
    ensures LedgersExact(Next(s, step))
  {
    assert LedgersOk(s);
    hide AnswersOk, LedgersOk, LedgersExact, Quiet, CloudEnabled, RelayEnabled, RelayNext, C.Next;
    StepKeepsLedgers(s, step);
    if step.CloudStep? {
      CloudStepKeepsExact(s, step.move);
    } else {
      OtherFieldsStay(s, step);
      hide Next, Enabled;
      SameOriginsStayExact(s, Next(s, step));
    }
  }

  lemma OtherFieldsStay(s: System, step: Step)
    requires Enabled(s, step) && !step.CloudStep?
    requires !step.QueueFleet? && !step.RecordCloud? && !step.ReplayOne? && !step.ReplayBegin? && !step.DeleteOps?
    ensures var t := Next(s, step);
            && t.cloud.jobs == s.cloud.jobs && t.ops == s.ops && t.nextOp == s.nextOp && t.marks == s.marks
               && t.origin == s.origin
            && (t.replay == s.replay || t.replay == Nobody)
            && forall id :: id in t.pending ==> id in s.pending && t.pending[id] == s.pending[id]
  {
    hide CloudEnabled, RelayEnabled, RelayNext, L.Next, L.Enabled, R.Reopened;
    if step.RelayStep? {
      RelayNextIs(s, step.room, step.act, step.handling);
    }
  }

  lemma SameNodesStayOk(s: System, t: System)
    requires LedgersOk(s) && t.nodes == s.nodes
    ensures LedgersOk(t)
  {
  }

  lemma NewLedgerOk()
    ensures LedgerOk(NewNode())
  {
  }

  // ----- Runs -----

  ghost predicate IsRun(states: seq<System>, steps: seq<Step>) {
    && |states| == |steps| + 1 && Initial(states[0])
    && forall i :: 0 <= i < |steps| ==> Enabled(states[i], steps[i]) && states[i + 1] == Next(states[i], steps[i])
  }

  ghost predicate QuietRun(states: seq<System>, steps: seq<Step>) {
    IsRun(states, steps) && forall i :: 0 <= i < |steps| ==> Quiet(states[i], steps[i])
  }

  lemma {:induction false} RunKeepsAnswers(states: seq<System>, steps: seq<Step>, n: nat)
    requires IsRun(states, steps) && n < |states|
    ensures AnswersOk(states[n])
  {
    if n > 0 {
      RunKeepsAnswers(states, steps, n - 1);
      hide AnswersOk, Next, Enabled;
      StepKeepsAnswers(states[n - 1], steps[n - 1]);
    }
  }

  lemma {:induction false} QuietRunKeepsExact(states: seq<System>, steps: seq<Step>, n: nat)
    requires QuietRun(states, steps) && n < |states|
    ensures LedgersExact(states[n])
  {
    hide *;
    if n == 0 {
      InitialIsExact(states, steps);
    } else {
      QuietRunKeepsExact(states, steps, n - 1);
      QuietRunStep(states, steps, n - 1);
      StepKeepsExact(states[n - 1], steps[n - 1]);
    }
  }

  lemma InitialIsExact(states: seq<System>, steps: seq<Step>)
    requires QuietRun(states, steps)
    ensures |states| > 0 && LedgersExact(states[0])
  {
    hide Next, Enabled, Quiet;
  }

  lemma QuietRunStep(states: seq<System>, steps: seq<Step>, n: nat)
    requires QuietRun(states, steps) && n + 1 < |states|
    ensures n < |steps| && Enabled(states[n], steps[n]) && Quiet(states[n], steps[n])
            && states[n + 1] == Next(states[n], steps[n]) && AnswersOk(states[n])
  {
    RunKeepsAnswers(states, steps, n);
    hide AnswersOk, Next, Enabled, Quiet, Initial;
  }

  /** How often a room sent the command or wake-up of a job to one of its devices. */
  function Sends(s: System, room: Room, id: Id, device: L.Device): nat {
    if room in s.nodes then s.nodes[room].ledger.sent[L.Send(L.Relayed(id), device)] else 0
  }

  /** End to end at most once: whatever is lost, repeated, replayed or restarted, a recorded fleet operation has at most
      one job per room, that job's command reaches a device of its own room at most once, and no device of any other
      room. */
  lemma EndToEndAtMostOnce(states: seq<System>, steps: seq<Step>)
    requires QuietRun(states, steps)
    ensures var s := states[|steps|];
            && (forall i, j | i in s.origin && j in s.origin && i in s.cloud.jobs && j in s.cloud.jobs ::
                  s.origin[i] == s.origin[j] && s.cloud.jobs[i].room == s.cloud.jobs[j].room ==> i == j)
            && (forall id, room, device :: Sends(s, room, id, device) <= 1)
            && (forall id, room, device | id in s.cloud.jobs && room != s.cloud.jobs[id].room ::
                Sends(s, room, id, device) == 0)
  {
    QuietRunKeepsExact(states, steps, |steps|);
    RunKeepsAnswers(states, steps, |steps|);
    var s := states[|steps|];
    forall id, room, device | true
      ensures Sends(s, room, id, device) <= 1
      ensures id in s.cloud.jobs && room != s.cloud.jobs[id].room ==> Sends(s, room, id, device) == 0
    {
      if room in s.nodes {
        SendsAreHandled(s, room, id, device);
      }
    }
  }

  lemma SendsAreHandled(s: System, room: Room, id: Id, device: L.Device)
    requires AnswersOk(s) && LedgersOk(s) && room in s.nodes
    ensures Sends(s, room, id, device) <= 1
    ensures Sends(s, room, id, device) > 0 ==> Handled(s.nodes[room].relay, id)
    ensures Sends(s, room, id, device) > 0 && id in s.cloud.jobs ==>
              s.cloud.jobs[id].room == room && Transmitted(s.cloud.log, id)
  {
    var node := s.nodes[room];
    assert LedgerOk(node) && RelayOk(s, room, node.relay);
    assert L.Times(node.ledger, L.Relayed(id), device) == Sends(s, room, id, device);
    assert L.Once(node.ledger);
    hide L.Inv, R.Inv;
    if Sends(s, room, id, device) > 0 && id in s.cloud.jobs {
      var n :| 0 <= n < |node.relay.attempts| && node.relay.attempts[n].handled && !node.relay.attempts[n].request.isGet
          && node.relay.attempts[n].request.id == id;
      assert Deliverable(s, room, node.relay.attempts[n].request);
      assert JobOk(s, id);
    }
  }

  /** Nothing runs that was not sent: a job's command reaches devices only after a delivery pass transmitted the job. */
  lemma OnlyTransmittedJobsReachDevices(states: seq<System>, steps: seq<Step>, id: Id, room: Room, device: L.Device)
    requires QuietRun(states, steps) && id in states[|steps|].cloud.jobs && Sends(states[|steps|], room, id, device) > 0
    ensures Transmitted(states[|steps|].cloud.log, id)
  {
    QuietRunKeepsExact(states, steps, |steps|);
    RunKeepsAnswers(states, steps, |steps|);
    SendsAreHandled(states[|steps|], room, id, device);
  }

  /** Completion is sound: a completed job's room holds its response as the stored outcome, a success, of the only kept
      execution of its id. */
  lemma CompletionIsSound(states: seq<System>, steps: seq<Step>, id: Id)
    requires IsRun(states, steps)
    requires id in states[|steps|].cloud.jobs && states[|steps|].cloud.jobs[id].status == C.Completed
    ensures var s := states[|steps|];
            var job := s.cloud.jobs[id];
            && job.response.Some? && R.Succeeded(job.response.value)
            && job.room in s.nodes
            && var relay := s.nodes[job.room].relay;
            && id in relay.receipts && relay.receipts[id] == R.Done(job.response.value)
            && (exists n | 0 <= n < |relay.attempts| ::
                  relay.attempts[n].request == job.request && relay.attempts[n].response == job.response.value
                  && forall m | 0 <= m < |relay.attempts| && R.SameNonGetId(relay.attempts[m].request, job.request) ::
                       m == n || R.Harmless(relay.attempts[m]))
  {
    RunKeepsAnswers(states, steps, |steps|);
    var s := states[|steps|];
    assert JobOk(s, id);
    var room, response := s.cloud.jobs[id].room, s.cloud.jobs[id].response.value;
    assert RelayOk(s, room, s.nodes[room].relay);
    OnlyKeptExecution(s, room, id, response);
  }

  lemma OnlyKeptExecution(s: System, room: Room, id: Id, response: R.Response)
    requires room in s.nodes && RelayOk(s, room, s.nodes[room].relay) && id in s.cloud.jobs && JobOk(s, id)
    requires id in s.nodes[room].relay.receipts && s.nodes[room].relay.receipts[id] == R.Done(response)
    ensures var relay, request := s.nodes[room].relay, s.cloud.jobs[id].request;
            exists n | 0 <= n < |relay.attempts| ::
              relay.attempts[n].request == request && relay.attempts[n].response == response
              && forall m | 0 <= m < |relay.attempts| && R.SameNonGetId(relay.attempts[m].request, request) ::
                   m == n || R.Harmless(relay.attempts[m])
  {
    var relay, request := s.nodes[room].relay, s.cloud.jobs[id].request;
    assert R.Answered(relay, id, response);
    var n :| 0 <= n < |relay.attempts| && R.Kept(relay.attempts[n]) && relay.attempts[n].request.id == id
        && relay.attempts[n].response == response;
    assert Deliverable(s, room, relay.attempts[n].request);
    forall m | 0 <= m < |relay.attempts| && R.SameNonGetId(relay.attempts[m].request, request) && m != n
      ensures R.Harmless(relay.attempts[m])
    {
      assert m < n || n < m;
      assert !R.Kept(relay.attempts[m]);
    }
  }

  ghost predicate HoldsOutcome(s: System, room: Room, id: Id, outcome: R.Receipt) {
    room in s.nodes && id in s.nodes[room].relay.receipts && s.nodes[room].relay.receipts[id] == outcome
        && outcome.Done?
  }

  lemma RelayStepKeepsOutcome(s: System, r: Room, act: R.Step, handling: Handling, room: Room, id: Id,
                              outcome: R.Receipt)
    requires AnswersOk(s) && RelayEnabled(s, r, act, handling) && HoldsOutcome(s, room, id, outcome)
    ensures HoldsOutcome(RelayNext(s, r, act, handling), room, id, outcome)
  {
    OneNodeMoves(s, r, act, handling);
    assert RelayOk(s, room, s.nodes[room].relay);
    hide RelayNext, R.Next, R.Inv, R.Enabled, Deliverable;
    if r == room {
      R.DoneIsForever(s.nodes[room].relay, act, id);
    }
  }

  lemma RestartKeepsOutcome(s: System, r: Room, room: Room, id: Id, outcome: R.Receipt)
    requires Enabled(s, RoomRestart(r)) && HoldsOutcome(s, room, id, outcome)
    ensures HoldsOutcome(Next(s, RoomRestart(r)), room, id, outcome)
  {
    hide L.Next, L.Enabled;
  }

  lemma OtherStepKeepsOutcome(s: System, step: Step, room: Room, id: Id, outcome: R.Receipt)
    requires Enabled(s, step) && !step.RelayStep? && !step.RoomRestart? && HoldsOutcome(s, room, id, outcome)
    ensures HoldsOutcome(Next(s, step), room, id, outcome)
  {
    hide L.Next, L.Enabled, C.Next, C.Enabled, CloudEnabled, RelayEnabled, CaughtUpWith, Recorded, Queued, BatchOf;
    match step
    case QueueFleet(n, batch, route) => assert Queued(s, n, batch, route).nodes
        == s.nodes by { QueuedNodes(s, n, batch, route); }
    case RecordCloud(n) => assert Recorded(s, n).nodes == s.nodes by { RecordedNodes(s, n); }
    case ReplayOne(i, route, ok) => assert CaughtUpWith(s, i, route, ok).nodes
        == s.nodes by { CaughtUpNodes(s, i, route, ok); }
    case _ =>
  }

  lemma QueuedNodes(s: System, n: nat, batch: map<Id, Room>, route: R.Route)
    ensures Queued(s, n, batch, route).nodes == s.nodes
  {
  }

  lemma RecordedNodes(s: System, n: nat)
    ensures Recorded(s, n).nodes == s.nodes
  {
  }

  lemma CaughtUpNodes(s: System, id: Id, route: R.Route, ok: bool)
    requires s.replay.CatchingUp? && s.replay.left != []
    ensures CaughtUpWith(s, id, route, ok).nodes == s.nodes
  {
  }

  lemma RelayStepIs(s: System, step: Step)
    requires Enabled(s, step) && step.RelayStep?
    ensures RelayEnabled(s, step.room, step.act, step.handling)
            && Next(s, step) == RelayNext(s, step.room, step.act, step.handling)
  {
    hide RelayEnabled, RelayNext;
  }

  lemma ReceiptStays(s: System, step: Step, room: Room, id: Id)
    requires AnswersOk(s) && Enabled(s, step) && room in s.nodes
    requires id in s.nodes[room].relay.receipts && s.nodes[room].relay.receipts[id].Done?
    ensures HoldsOutcome(Next(s, step), room, id, s.nodes[room].relay.receipts[id])
  {
    var outcome := s.nodes[room].relay.receipts[id];
    assert HoldsOutcome(s, room, id, outcome);
    hide *;
    if step.RelayStep? {
      RelayStepIs(s, step);
      RelayStepKeepsOutcome(s, step.room, step.act, step.handling, room, id, outcome);
    } else if step.RoomRestart? {
      RestartKeepsOutcome(s, step.room, room, id, outcome);
    } else {
      OtherStepKeepsOutcome(s, step, room, id, outcome);
    }
  }

  lemma RunStep(states: seq<System>, steps: seq<Step>, n: nat)
    requires IsRun(states, steps) && n < |steps|
    ensures |states| == |steps| + 1 && Enabled(states[n], steps[n]) && states[n + 1] == Next(states[n], steps[n])
            && AnswersOk(states[n])
  {
    RunKeepsAnswers(states, steps, n);
  }

  lemma {:induction false} OutcomeStays(states: seq<System>, steps: seq<Step>, n: nat, m: nat, room: Room, id: Id,
                                        outcome: R.Receipt)
    requires IsRun(states, steps) && n <= m <= |steps| && |states| == |steps| + 1
             && HoldsOutcome(states[n], room, id, outcome)
    ensures HoldsOutcome(states[m], room, id, outcome)
  {
    hide IsRun, Next, Enabled, AnswersOk;
    if n < m {
      OutcomeStays(states, steps, n, m - 1, room, id, outcome);
      RunStep(states, steps, m - 1);
      ReceiptStays(states[m - 1], steps[m - 1], room, id);
    }
  }

  /** The outcome of a completed job is final: in any later state the room still holds it, and delivering the job again
      runs nothing and is answered with that same response. */
  lemma CompletedOutcomeIsFinal(states: seq<System>, steps: seq<Step>, n: nat, m: nat, id: Id, w: nat)
    requires IsRun(states, steps) && n <= m < |states|
    requires id in states[n].cloud.jobs && states[n].cloud.jobs[id].status == C.Completed
             && R.Allowed(states[n].cloud.jobs[id].request) && states[n].cloud.jobs[id].request.wellFormedId
    requires states[n].cloud.jobs[id].room in states[m].nodes ==>
               w !in states[m].nodes[states[n].cloud.jobs[id].room].relay.workers
    ensures var job := states[n].cloud.jobs[id];
            && job.response.Some? && HoldsOutcome(states[m], job.room, id, R.Done(job.response.value))
            && var relay := states[m].nodes[job.room].relay;
            && var (next, none) := R.ReceiveRequest(relay, w, job.request, true, true);
            && none == None && next.attempts == relay.attempts
            && R.Enabled(next, R.Look(w, true)) && R.ReadReceipt(next, w, true).1 == job.response
  {
    RunKeepsAnswers(states, steps, n);
    assert JobOk(states[n], id);
    var job := states[n].cloud.jobs[id];
    OutcomeStays(states, steps, n, m, job.room, id, R.Done(job.response.value));
    hide IsRun, AnswersOk;
  }
}
