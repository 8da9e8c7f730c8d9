/** Deliveries that succeed: what becomes of a success on the cloud, and that every queued job can come to its end. */
module Delivery {
  import opened Common
  import opened Fleet
  import opened Deletions
  import C = Cloud
  import L = Ledger
  import R = Relay

  /** The converse of soundness: a room's success completes the job it names, there and then. */
  lemma SuccessCompletes(s: System, room: Room, response: R.Response)
    requires Enabled(s, CloudStep(C.Answer(room, response)))
    requires response.id in s.cloud.jobs && s.cloud.jobs[response.id].room == room
    ensures var before, after := s.cloud.jobs, Next(s, CloudStep(C.Answer(room, response))).cloud.jobs;
            && after.Keys == before.Keys
            && (after[response.id].status == C.Completed <==>
                  R.Succeeded(response)
                  || (response.status == 102 && before[response.id].status == C.Completed))
            && (R.Succeeded(response) ==> after[response.id].response == Some(response))
  {
  }

  lemma CloudGoes(s0: System, s: System, move: C.Step) returns (t: System)
    requires QuietlyReaches(s0, s) && C.Enabled(s.cloud, move) && !move.Enqueue? && !move.Answer? && !move.Restart?
    ensures QuietlyReaches(s0, t) && t == s.(cloud := C.Next(s.cloud, move))
  {
    hide QuietlyReaches, C.Next, C.Enabled;
    QuietlyReachesNext(s0, s, CloudStep(move));
    t := Next(s, CloudStep(move));
  }

  /** A run of the cloud is one of the fleet. */
  lemma {:induction false} CloudRunLifts(s0: System, s: System, states: seq<C.State>, steps: seq<C.Step>, n: nat)
    returns (t: System)
    requires QuietlyReaches(s0, s) && C.Follows(states, steps) && states[0] == s.cloud && n <= |steps|
    requires forall step :: step in steps ==> !step.Enqueue? && !step.Answer? && !step.Restart?
    ensures |states| == |steps| + 1 && QuietlyReaches(s0, t) && t == s.(cloud := states[n])
  {
    hide QuietlyReaches, C.Next, C.Enabled;
    if n == 0 {
      t := s;
    } else {
      var u := CloudRunLifts(s0, s, states, steps, n - 1);
      t := CloudGoes(s0, u, steps[n - 1]);
    }
  }

  lemma RelayGoes(s0: System, s: System, room: Room, act: R.Step, handling: Handling) returns (t: System)
    requires QuietlyReaches(s0, s) && RelayEnabled(s, room, act, handling)
    ensures QuietlyReaches(s0, t) && t == RelayNext(s, room, act, handling)
  {
    hide QuietlyReaches, RelayEnabled, RelayNext;
    QuietlyReachesNext(s0, s, RelayStep(room, act, handling));
    t := Next(s, RelayStep(room, act, handling));
  }

  lemma LedgerGoes(s0: System, s: System, room: Room, change: L.Step) returns (t: System)
    requires QuietlyReaches(s0, s) && room in s.nodes && L.Enabled(s.nodes[room].ledger, change) && LocalOrigin(change)
             && L.Quiet(s.nodes[room].ledger, change)
    ensures QuietlyReaches(s0, t)
    ensures t == s.(nodes := s.nodes[room := s.nodes[room].(ledger := L.Next(s.nodes[room].ledger, change))])
  {
    hide QuietlyReaches, L.Next, L.Enabled, L.Quiet;
    QuietlyReachesNext(s0, s, LedgerStep(room, change));
    t := Next(s, LedgerStep(room, change));
  }

  // ----- Every queued job can come to its end -----

  /** A job that waits for a room which has not begun with it and is free to fan out. */
  ghost predicate Waits(s: System, id: Id) {
    && s.cloud.pass.Idle? && id in s.cloud.jobs && s.cloud.jobs[id].status == C.Queued
    && s.cloud.jobs[id].request.wellFormedId && s.cloud.jobs[id].request.route.LocalHandler?
    && s.cloud.jobs[id].room in s.nodes
    && var Node(relay, ledger) := s.nodes[s.cloud.jobs[id].room];
       id !in relay.receipts && ledger.lock.Free?
  }

  /** The job was sent to its room. */
  ghost predicate IsOut(s: System, id: Id, room: Room, request: R.Request) {
    && id in s.cloud.jobs && s.cloud.jobs[id].room == room && s.cloud.jobs[id].request == request
    && room in s.cloud.online && Transmitted(s.cloud.log, id)
  }

  /** A room can always connect. */
  lemma ComesOnline(s: System, room: Room) returns (t: System)
    ensures QuietlyReaches(s, t) && room in t.cloud.online
    ensures t == s.(cloud := s.cloud.(online := t.cloud.online, issued := t.cloud.issued))
  {
    QuietlyReachesItself(s);
    t := s;
    if room !in s.cloud.online {
      var conn := C.Unissued(s.cloud.issued);
      t := CloudGoes(s, s, C.Hello(room, conn));
    }
    hide QuietlyReaches;
  }

  lemma GoesOut(s: System, id: Id) returns (t: System)
    requires Waits(s, id)
    ensures QuietlyReaches(s, t) && t.nodes == s.nodes && IsOut(t, id, s.cloud.jobs[id].room, s.cloud.jobs[id].request)
  {
    hide QuietlyReaches, C.Follows;
    var u := ComesOnline(s, s.cloud.jobs[id].room);
    ghost var states, steps := C.QueuedJobGoesOut(u.cloud, id);
    t := CloudRunLifts(s, u, states, steps, |steps|);
    assert t.cloud.log[|u.cloud.log|].job == id;
  }

  function Reply(id: Id): R.Response {
    R.Response(id, 200, "")
  }

  /** The relay has the request in hand; the room's ledger is free and the device connected. */
  ghost predicate InHand(s: System, id: Id, room: Room, request: R.Request, device: L.Device, w: nat) {
    && IsOut(s, id, room, request) && room in s.nodes
    && var Node(relay, ledger) := s.nodes[room];
       && w in relay.workers && relay.workers[w] == R.Accepted(request) && id in relay.receipts
       && ledger.lock.Free? && L.CanSend(ledger, device) && L.Times(ledger, L.Relayed(id), device) == 0
  }

  predicate Simple(request: R.Request, id: Id) {
    request.id == id && !request.isGet && request.wellFormedId && request.route.LocalHandler?
  }

  lemma Arrives(s0: System, s: System, id: Id, room: Room, request: R.Request, device: L.Device)
    returns (t: System, w: nat)
    requires QuietlyReaches(s0, s) && IsOut(s, id, room, request) && Simple(request, id) && room in s.nodes
    requires id !in s.nodes[room].relay.receipts && s.nodes[room].ledger.lock.Free?
             && L.Times(s.nodes[room].ledger, L.Relayed(id), device) == 0
    ensures QuietlyReaches(s0, t) && t.cloud == s.cloud && InHand(t, id, room, request, device, w)
  {
    w := Deletions.Unused(s.nodes[room].relay.workers.Keys);
    var u := LedgerGoes(s0, s, room, L.Connect(device));
    assert w !in s.nodes[room].relay.workers.Keys;
    hide QuietlyReaches, R.Broadcasts.Respond, R.Perform, R.Conclude, R.RunRequest, L.ReplayNext, L.FanOutOne;
    assert u.nodes[room] == s.nodes[room].(ledger := L.Next(s.nodes[room].ledger, L.Connect(device)));
    assert Deliverable(u, room, request);
    t := RelayGoes(s0, u, room, R.Arrive(w, request, true, true), Nothing);
  }

  /** The handler's fan-out has begun. */
  ghost predicate Fans(s: System, id: Id, room: Room, request: R.Request, device: L.Device, w: nat) {
    && IsOut(s, id, room, request) && room in s.nodes
    && var Node(relay, ledger) := s.nodes[room];
       && w in relay.workers && relay.workers[w].Worked? && relay.workers[w].request == request
       && relay.workers[w].response == Reply(id) && id in relay.receipts
       && ledger.lock.Fanning? && ledger.lock.origin == L.Relayed(id) && ledger.lock.todo == [device]
       && L.CanSend(ledger, device) && L.Times(ledger, L.Relayed(id), device) == 0
  }

  lemma Executes(s0: System, s: System, id: Id, room: Room, request: R.Request, device: L.Device, w: nat)
    returns (t: System)
    requires QuietlyReaches(s0, s) && InHand(s, id, room, request, device, w) && Simple(request, id)
    ensures QuietlyReaches(s0, t) && t.cloud == s.cloud && Fans(t, id, room, request, device, w)
  {
    hide QuietlyReaches;
    var act := R.Work(w, R.Handled(200, ""));
    assert Acts(s.nodes[room].relay, act);
    t := RelayGoes(s0, s, room, act, FansOut([device]));
    FanoutBegins(s.nodes[room].ledger, id, device);
    hide R.Broadcasts.Respond, L.BeginFanout, L.CanSend, L.Times;
  }

  lemma FanoutBegins(ledger: L.State, id: Id, device: L.Device)
    ensures var t := L.BeginFanout(ledger, L.Relayed(id), [device]);
            && t.lock.Fanning? && t.lock.origin == L.Relayed(id) && t.lock.todo == [device]
            && (L.CanSend(t, device) <==> L.CanSend(ledger, device))
            && L.Times(t, L.Relayed(id), device) == L.Times(ledger, L.Relayed(id), device)
  {
  }

  lemma Fanned(s0: System, s: System, id: Id, room: Room, request: R.Request, device: L.Device, w: nat)
    returns (t: System)
    requires QuietlyReaches(s0, s) && Fans(s, id, room, request, device, w)
    ensures QuietlyReaches(s0, t) && t.cloud == s.cloud && IsOut(t, id, room, request) && room in t.nodes
    ensures t.nodes[room].relay == s.nodes[room].relay && t.nodes[room].ledger.lock.Free?
            && L.Times(t.nodes[room].ledger, L.Relayed(id), device) == 1
  {
    hide QuietlyReaches;
    var one := L.FanOutOne(s.nodes[room].ledger);
    OneServed(s.nodes[room].ledger, device);
    var u := LedgerGoes(s0, s, room, L.FanoutOne);
    t := LedgerGoes(s0, u, room, L.FanoutEnd);
    hide L.FanOutOne, L.EndFanout, L.Times;
  }

  lemma OneServed(ledger: L.State, device: L.Device)
    requires ledger.lock.Fanning? && ledger.lock.todo == [device] && L.CanSend(ledger, device)
    ensures var one := L.FanOutOne(ledger);
            && one.lock.Fanning? && one.lock.todo == []
            && var end := L.EndFanout(one);
               && end.lock.Free?
               && L.Times(end, ledger.lock.origin, device) == L.Times(ledger, ledger.lock.origin, device) + 1
  {
  }

  lemma Concludes(s0: System, s: System, id: Id, room: Room, request: R.Request, device: L.Device, w: nat)
    returns (t: System)
    requires QuietlyReaches(s0, s) && IsOut(s, id, room, request) && room in s.nodes && Simple(request, id)
    requires var relay := s.nodes[room].relay;
             w in relay.workers && relay.workers[w].Worked? && relay.workers[w].request == request
             && relay.workers[w].response == Reply(id) && id in relay.receipts
    ensures QuietlyReaches(s0, t) && t.cloud == s.cloud && (room, Reply(id)) in t.responses
    ensures room in t.nodes && t.nodes[room].ledger == s.nodes[room].ledger
  {
    hide QuietlyReaches;
    t := RelayGoes(s0, s, room, R.Finish(w, true), Nothing);
  }

  lemma Completes(s0: System, s: System, id: Id, room: Room, request: R.Request) returns (t: System)
    requires QuietlyReaches(s0, s) && IsOut(s, id, room, request) && (room, Reply(id)) in s.responses
    ensures QuietlyReaches(s0, t) && t.nodes == s.nodes && id in t.cloud.jobs
            && t.cloud.jobs[id].status == C.Completed && t.cloud.jobs[id].room == room
  {
    hide QuietlyReaches;
    QuietlyReachesNext(s0, s, CloudStep(C.Answer(room, Reply(id))));
    SuccessCompletes(s, room, Reply(id));
    t := Next(s, CloudStep(C.Answer(room, Reply(id))));
  }

  /** In every state of a quiet run, a job that waits can still come to its end: sent, executed once in its room, its
      command received once by any device there, and completed. */
  lemma QueuedJobCanComplete(states: seq<System>, steps: seq<Step>, id: Id, device: L.Device) returns (t: System)
    requires QuietRun(states, steps) && Waits(states[|steps|], id)
    ensures var s := states[|steps|];
            var room := s.cloud.jobs[id].room;
            && QuietlyReaches(s, t) && id in t.cloud.jobs && t.cloud.jobs[id].status == C.Completed
            && room in t.nodes && Sends(t, room, id, device) == 1
  {
    var s := states[|steps|];
    var room, request := s.cloud.jobs[id].room, s.cloud.jobs[id].request;
    QuietRunKeepsExact(states, steps, |steps|);
    RunKeepsAnswers(states, steps, |steps|);
    NothingSentYet(s, id, room, device);
    hide QuietlyReaches, QuietRun, AnswersOk, LedgersExact, IsOut, InHand, Fans, Simple;
    var out := GoesOut(s, id);
    var begun, w := Arrives(s, out, id, room, request, device);
    var fanning := Executes(s, begun, id, room, request, device, w);
    var fanned := Fanned(s, fanning, id, room, request, device, w);
    var done := Concludes(s, fanned, id, room, request, device, w);
    t := Completes(s, done, id, room, request);
  }

  lemma NothingSentYet(s: System, id: Id, room: Room, device: L.Device)
    requires AnswersOk(s) && LedgersExact(s) && Waits(s, id) && room == s.cloud.jobs[id].room
    ensures L.Times(s.nodes[room].ledger, L.Relayed(id), device) == 0 && Simple(s.cloud.jobs[id].request, id)
  {
    assert JobOk(s, id) && LedgerOk(s.nodes[room]) && RelayOk(s, room, s.nodes[room].relay);
  }

  /** So can the first job of a new system. */
  lemma FirstJobWaits(id: Id, room: Room) returns (states: seq<System>, steps: seq<Step>)
    ensures QuietRun(states, steps) && Waits(states[|steps|], id) && states[|steps|].cloud.jobs[id].room == room
  {
    var s0 := System(C.State(map[], map[], {}, C.Idle, []), map[], map[], {}, {}, 0, {}, map[], Nobody, map[]);
    var s1 := Next(s0, RoomJoins(room));
    var s2 := Next(s1, QueueFleet(0, map[id := room], R.LocalHandler));
    states, steps := [s0, s1, s2], [RoomJoins(room), QueueFleet(0, map[id := room], R.LocalHandler)];
  }
}
