/** Publications on the fleet: what a room's tables hold once the job that carries a publication is completed. */
module Publications {
  import opened Common
  import opened Assets
  import opened Fleet
  import B = BroadcastStore
  import C = Cloud
  import L = Ledger
  import R = Relay

  /** The room's tables are at this publication, or at a later one of its source. */
  predicate AtLeast(tables: B.Store, pub: Publication) {
    B.Revision(tables.config, pub.snapshot.source) >= pub.snapshot.revision
  }

  /** No source's applied revision goes down. */
  ghost predicate Forward(before: B.Store, after: B.Store) {
    forall source :: B.Revision(before.config, source) <= B.Revision(after.config, source)
  }

  /** Every execution that answered a publication with success left its revision, and it is still there. */
  ghost predicate Held(relay: R.State) {
    forall n, pub ::
      0 <= n < |relay.attempts| && relay.attempts[n].request.route == R.BroadcastSync(Some(pub))
          && R.Succeeded(relay.attempts[n].response) ==>
        AtLeast(relay.tables, pub)
  }

  /** The room's own changes leave the revisions applied so far alone; only putting back an old database would not. */
  ghost predicate KeepsRevisions(relay: R.State, step: R.Step) {
    step.RoomEdit? ==> Forward(relay.tables, step.tables)
  }

  lemma RespondGoesForward(tables: B.Store, received: Option<Publication>, env: B.Surroundings)
    ensures var reply := B.Respond(tables, received, env);
            && Forward(tables, reply.store) && (reply.status < 400 ==> reply.status == 200)
            && (received.Some? && reply.status == 200 ==> AtLeast(reply.store, received.value))
  {
    B.StatusTellsWhetherTablesChanged(tables, received, env);
    if received.Some? {
      B.AcknowledgedIsHeld(tables, B.Arrival(received.value, env));
      hide B.Respond;
    }
  }

  lemma PerformGoesForward(relay: R.State, request: R.Request, effect: R.Effect)
    requires effect.Broadcast? <==> request.route.BroadcastSync?
    ensures var attempt := R.Perform(relay, request, effect);
            && attempt.request == request && Forward(relay.tables, attempt.after)
            && forall pub :: request.route == R.BroadcastSync(Some(pub)) && R.Succeeded(attempt.response) ==>
                 AtLeast(attempt.after, pub)
  {
    if effect.Broadcast? {
      RespondGoesForward(relay.tables, request.route.publication, effect.env);
    }
    hide B.Respond, B.Revision;
  }

  lemma StaysHeld(relay: R.State, next: R.State)
    requires Held(relay) && Forward(relay.tables, next.tables) && |relay.attempts| <= |next.attempts|
    requires forall n :: 0 <= n < |relay.attempts| ==>
               next.attempts[n].request == relay.attempts[n].request
               && next.attempts[n].response == relay.attempts[n].response
    requires forall n, pub ::
      |relay.attempts| <= n < |next.attempts| && next.attempts[n].request.route == R.BroadcastSync(Some(pub))
          && R.Succeeded(next.attempts[n].response) ==>
        AtLeast(next.tables, pub)
    ensures Held(next)
  {
    hide B.Revision, R.Succeeded;
  }

  lemma WorkKeepsHeld(relay: R.State, w: nat, effect: R.Effect)
    requires Held(relay) && R.Enabled(relay, R.Work(w, effect))
    ensures Held(R.RunRequest(relay, w, effect)) && Forward(relay.tables, R.RunRequest(relay, w, effect).tables)
  {
    PerformGoesForward(relay, relay.workers[w].request, effect);
    hide R.Perform, B.Revision, AtLeast, R.Succeeded, Held, Forward;
    StaysHeld(relay, R.RunRequest(relay, w, effect));
  }

  lemma RelayStepKeepsHeld(relay: R.State, step: R.Step)
    requires Held(relay) && R.Enabled(relay, step) && KeepsRevisions(relay, step)
    ensures Held(R.Next(relay, step).0) && Forward(relay.tables, R.Next(relay, step).0.tables)
  {
    if step.Work? {
      WorkKeepsHeld(relay, step.worker, step.effect);
    } else {
      hide B.Revision, AtLeast, R.Succeeded, Held;
      StaysHeld(relay, R.Next(relay, step).0);
    }
  }

  // ----- On the fleet -----

  ghost predicate AllHeld(s: System) {
    forall room :: room in s.nodes ==> Held(s.nodes[room].relay)
  }

  ghost predicate StepKeepsRevisions(s: System, step: Step)
    requires Enabled(s, step)
  {
    step.RelayStep? ==> KeepsRevisions(s.nodes[step.room].relay, step.act)
  }

  /** Rooms stay, and their tables go forward. */
  ghost predicate RoomsForward(s: System, t: System) {
    forall room :: room in s.nodes ==>
      room in t.nodes && Forward(s.nodes[room].relay.tables, t.nodes[room].relay.tables)
  }

  /** The room exists, and its tables are at the publication or beyond. */
  ghost predicate RoomAtLeast(s: System, room: Room, pub: Publication) {
    room in s.nodes && AtLeast(s.nodes[room].relay.tables, pub)
  }

  lemma StepKeepsAllHeld(s: System, step: Step)
    requires AllHeld(s) && Enabled(s, step) && StepKeepsRevisions(s, step)
    ensures AllHeld(Next(s, step)) && RoomsForward(s, Next(s, step))
  {
    NothingIsForward();
    hide Held, Forward, RelayNext, L.Next, L.Enabled, CloudEnabled, KeepsRevisions, Recorded, Queued, CaughtUpWith,
    C.Next, R.Reopened, R.Next, R.Enabled, Deliverable, BatchOf;
    match step
    case RelayStep(room, act, handling) =>
      RelayStepKeepsHeld(s.nodes[room].relay, act);
      OneNodeMoves(s, room, act, handling);
      hide RelayEnabled;
    case RoomRestart(room) => RestartKeepsHeld(s.nodes[room].relay);
    case RecordCloud(n) => RecordedNodes(s, n);
    case ReplayOne(id, route, ok) => CaughtUpNodes(s, id, route, ok);
    case QueueFleet(n, batch, route) => QueuedNodes(s, n, batch, route);
    case RoomJoins(room) => NewIsHeld();
    case _ =>
  }

  lemma NothingIsForward()
    ensures forall tables :: Forward(tables, tables)
  {
  }

  lemma RestartKeepsHeld(relay: R.State)
    requires Held(relay)
    ensures Held(R.Reopened(relay)) && R.Reopened(relay).tables == relay.tables
  {
    hide B.Revision, R.Succeeded;
  }

  lemma NewIsHeld()
    ensures Held(NewNode().relay)
  {
  }

  ghost predicate KeepingRun(states: seq<System>, steps: seq<Step>) {
    IsRun(states, steps) && forall i :: 0 <= i < |steps| ==> StepKeepsRevisions(states[i], steps[i])
  }

  lemma KeepingStep(states: seq<System>, steps: seq<Step>, n: nat)
    requires KeepingRun(states, steps) && n < |steps|
    ensures |states| == |steps| + 1 && Enabled(states[n], steps[n]) && states[n + 1] == Next(states[n], steps[n])
            && StepKeepsRevisions(states[n], steps[n])
  {
    hide Enabled, Next, Initial, StepKeepsRevisions;
  }

  lemma {:induction false} RunKeepsAllHeld(states: seq<System>, steps: seq<Step>, n: nat)
    requires KeepingRun(states, steps) && n <= |steps| && |states| == |steps| + 1
    ensures AllHeld(states[n])
  {
    if n > 0 {
      hide *;
      RunKeepsAllHeld(states, steps, n - 1);
      KeepingStep(states, steps, n - 1);
      StepKeepsAllHeld(states[n - 1], steps[n - 1]);
    } else {
      hide Enabled, Next, StepKeepsRevisions, Held;
    }
  }

  lemma {:induction false} RoomStaysAtLeast(states: seq<System>, steps: seq<Step>, n: nat, m: nat, room: Room,
                                            pub: Publication)
    requires KeepingRun(states, steps) && n <= m <= |steps| && |states| == |steps| + 1
             && RoomAtLeast(states[n], room, pub)
    ensures RoomAtLeast(states[m], room, pub)
  {
    hide *;
    if n < m {
      RoomStaysAtLeast(states, steps, n, m - 1, room, pub);
      RunKeepsAllHeld(states, steps, m - 1);
      KeepingStep(states, steps, m - 1);
      StepKeepsAllHeld(states[m - 1], steps[m - 1]);
      ForwardStaysAtLeast(states[m - 1], states[m], room, pub);
    }
  }

  lemma ForwardStaysAtLeast(s: System, t: System, room: Room, pub: Publication)
    requires RoomsForward(s, t) && RoomAtLeast(s, room, pub)
    ensures RoomAtLeast(t, room, pub)
  {
    hide B.Revision;
  }

  /** A completed job that carries a publication is as good as its word: the room's tables hold its revision or a later
      one of the same source, then and in every later state. */
  lemma CompletedPublicationIsHeld(states: seq<System>, steps: seq<Step>, n: nat, m: nat, id: Id, pub: Publication)
    requires KeepingRun(states, steps) && n <= m <= |steps| && |states| == |steps| + 1
    requires id in states[n].cloud.jobs && states[n].cloud.jobs[id].status == C.Completed
             && states[n].cloud.jobs[id].request.route == R.BroadcastSync(Some(pub))
    ensures RoomAtLeast(states[m], states[n].cloud.jobs[id].room, pub)
  {
    RunKeepsAllHeld(states, steps, n);
    RunKeepsAnswers(states, steps, n);
    CompletedIsAtLeast(states[n], id, pub);
    hide *;
    RoomStaysAtLeast(states, steps, n, m, states[n].cloud.jobs[id].room, pub);
  }

  lemma CompletedIsAtLeast(s: System, id: Id, pub: Publication)
    requires AnswersOk(s) && AllHeld(s) && id in s.cloud.jobs && s.cloud.jobs[id].status == C.Completed
             && s.cloud.jobs[id].request.route == R.BroadcastSync(Some(pub))
    ensures RoomAtLeast(s, s.cloud.jobs[id].room, pub)
  {
    assert JobOk(s, id);
    var room, response := s.cloud.jobs[id].room, s.cloud.jobs[id].response.value;
    assert RelayOk(s, room, s.nodes[room].relay) && Held(s.nodes[room].relay);
    hide AnswersOk, RelayOk, AtLeast, B.Revision;
    OnlyKeptExecution(s, room, id, response);
  }
}
