/** Deleting a recorded cloud operation while a room is being caught up: exactly when one operation can come to have two
    jobs for a room. */
module Deletions {
  import opened Common
  import opened Fleet
  import C = Cloud
  import L = Ledger
  import R = Relay

  /** Every mark stands for a job: one of the operation, for the room. */
  ghost predicate MarksHaveJobs(s: System) {
    forall mark :: mark in s.marks ==> exists id :: JobOf(s, id, mark.0, mark.1)
  }

  ghost predicate JobOf(s: System, id: Id, op: OpId, room: Room) {
    id in s.origin && s.origin[id] == op && id in s.cloud.jobs && s.cloud.jobs[id].room == room
  }

  lemma JobsStay(s: System, t: System)
    requires MarksHaveJobs(s) && SameRooms(s.cloud.jobs, t.cloud.jobs) && t.marks <= s.marks
    requires forall id :: id in s.origin ==> id in t.origin && t.origin[id] == s.origin[id]
    ensures MarksHaveJobs(t)
  {
    forall mark | mark in t.marks ensures exists id :: JobOf(t, id, mark.0, mark.1) {
      var id :| JobOf(s, id, mark.0, mark.1);
      assert JobOf(t, id, mark.0, mark.1);
    }
  }

  lemma RecordKeepsJobs(s: System, n: nat)
    requires MarksHaveJobs(s) && LedgersExact(s)
    ensures MarksHaveJobs(Recorded(s, n))
  {
    var t, batch := Recorded(s, n), BatchOf(s, n);
    RecordedFields(s, n);
    hide Recorded, BatchOf, LedgersOk, ReplayOk;
    forall mark | mark in t.marks ensures exists id :: JobOf(t, id, mark.0, mark.1) {
      if mark in s.marks {
        var id :| JobOf(s, id, mark.0, mark.1);
        assert id !in batch;
        assert JobOf(t, id, mark.0, mark.1);
      } else {
        var id :| id in batch && mark == (s.nextOp, s.cloud.jobs[id].room);
        assert JobOf(t, id, mark.0, mark.1);
      }
    }
  }

  lemma ReplayOneKeepsJobs(s: System, id: Id, route: R.Route, ok: bool)
    requires MarksHaveJobs(s) && LedgersExact(s) && Enabled(s, ReplayOne(id, route, ok))
    ensures MarksHaveJobs(CaughtUpWith(s, id, route, ok))
  {
    OriginsHaveJobs(s);
    hide LedgersExact, CaughtUpWith, Enabled;
    CaughtUpIs(s, id, route, ok);
    OneMoreMark(s, CaughtUpWith(s, id, route, ok), id, s.replay.left[0], s.replay.room, s.replay.left[1..]);
  }

  lemma OneMoreMark(s: System, t: System, id: Id, op: OpId, room: Room, left: seq<OpId>)
    requires MarksHaveJobs(s) && CaughtUp(s, t, id, op, room, left) && id !in s.origin
    ensures MarksHaveJobs(t)
  {
    forall mark | mark in t.marks ensures exists i :: JobOf(t, i, mark.0, mark.1) {
      if mark in s.marks {
        var i :| JobOf(s, i, mark.0, mark.1);
        assert JobOf(t, i, mark.0, mark.1);
      } else {
        assert mark == (op, room) && JobOf(t, id, op, room);
      }
    }
  }

  lemma CloudStepKeepsJobs(s: System, move: C.Step)
    requires MarksHaveJobs(s) && Enabled(s, CloudStep(move))
    ensures MarksHaveJobs(Next(s, CloudStep(move)))
  {
    CloudMachineFacts(s.cloud, move);
    hide C.Next, C.Enabled;
    JobsStay(s, Next(s, CloudStep(move)));
  }

  lemma OtherStepKeepsJobs(s: System, step: Step)
    requires MarksHaveJobs(s) && Enabled(s, step) && !step.CloudStep? && !step.RecordCloud? && !step.ReplayOne?
    ensures MarksHaveJobs(Next(s, step))
  {
    hide MarksHaveJobs, JobOf, RelayEnabled, L.Next, L.Enabled, R.Next, Handle;
    JobsStay(s, Next(s, step));
  }

  lemma StepKeepsJobs(s: System, step: Step)
    requires MarksHaveJobs(s) && LedgersExact(s) && Enabled(s, step)
    ensures MarksHaveJobs(Next(s, step))
  {
    hide MarksHaveJobs, LedgersExact, Recorded, CaughtUpWith, CloudEnabled, RelayEnabled;
    match step
    case CloudStep(move) => CloudStepKeepsJobs(s, move);
    case RecordCloud(n) => RecordKeepsJobs(s, n);
    case ReplayOne(id, route, ok) => ReplayOneKeepsJobs(s, id, route, ok);
    case _ => OtherStepKeepsJobs(s, step);
  }

  lemma {:induction false} QuietRunKeepsJobs(states: seq<System>, steps: seq<Step>, n: nat)
    requires QuietRun(states, steps) && n < |states|
    ensures MarksHaveJobs(states[n])
  {
    if n > 0 {
      QuietRunKeepsJobs(states, steps, n - 1);
      QuietRunKeepsExact(states, steps, n - 1);
      hide MarksHaveJobs, LedgersExact, Next, Enabled, Quiet;
      StepKeepsJobs(states[n - 1], steps[n - 1]);
    }
  }

  // ----- Continuations -----

  ghost predicate QuietSteps(states: seq<System>, steps: seq<Step>) {
    && |states| == |steps| + 1
    && forall i :: 0 <= i < |steps| ==>
         Enabled(states[i], steps[i]) && states[i + 1] == Next(states[i], steps[i]) && Quiet(states[i], steps[i])
  }

  /** Some steps lead from `s` to `t`, all of them quiet. */
  ghost predicate QuietlyReaches(s: System, t: System) {
    exists states, steps :: QuietSteps(states, steps) && states[0] == s && states[|steps|] == t
  }

  lemma QuietlyReachesItself(s: System)
    ensures QuietlyReaches(s, s)
  {
    var states: seq<System>, steps: seq<Step> := [s], [];
    assert QuietSteps(states, steps);
  }

  lemma QuietlyReachesNext(s: System, t: System, step: Step)
    requires QuietlyReaches(s, t) && Enabled(t, step) && Quiet(t, step)
    ensures QuietlyReaches(s, Next(t, step))
  {
    hide Enabled, Next, Quiet;
    var states, steps :| QuietSteps(states, steps) && states[0] == s && states[|steps|] == t;
    var more, moreSteps := states + [Next(t, step)], steps + [step];
    forall i | 0 <= i < |moreSteps|
      ensures Enabled(more[i], moreSteps[i]) && more[i + 1] == Next(more[i], moreSteps[i])
              && Quiet(more[i], moreSteps[i])
    {
      if i < |steps| {
        assert more[i] == states[i] && more[i + 1] == states[i + 1] && moreSteps[i] == steps[i];
      }
    }
    assert QuietSteps(more, moreSteps);
  }

  lemma {:induction false} QuietStepsKeepExact(states: seq<System>, steps: seq<Step>, n: nat)
    requires QuietSteps(states, steps) && n < |states| && AnswersOk(states[0]) && LedgersExact(states[0])
    ensures AnswersOk(states[n]) && LedgersExact(states[n])
  {
    hide *;
    if n > 0 {
      QuietStepsLength(states, steps);
      QuietStepsKeepExact(states, steps, n - 1);
      QuietStepAt(states, steps, n - 1);
      StepKeepsAnswers(states[n - 1], steps[n - 1]);
      StepKeepsExact(states[n - 1], steps[n - 1]);
    }
  }

  lemma QuietStepsLength(states: seq<System>, steps: seq<Step>)
    requires QuietSteps(states, steps)
    ensures |states| == |steps| + 1
  {
    hide Enabled, Next, Quiet;
  }

  lemma QuietStepAt(states: seq<System>, steps: seq<Step>, n: nat)
    requires QuietSteps(states, steps) && n < |steps| && |states| == |steps| + 1
    ensures Enabled(states[n], steps[n]) && states[n + 1] == Next(states[n], steps[n]) && Quiet(states[n], steps[n])
  {
    hide Enabled, Next, Quiet;
  }

  /** One recorded operation has two jobs for one room. */
  ghost predicate QueuedTwice(s: System) {
    exists i, j, op, room :: i != j && JobOf(s, i, op, room) && JobOf(s, j, op, room)
  }

  /** Without any further disturbance, that can still come about. */
  ghost predicate CanQueueTwice(s: System) {
    exists t :: QuietlyReaches(s, t) && QueuedTwice(t)
  }

  lemma ExactIsNotTwice(s: System)
    requires LedgersExact(s)
    ensures !QueuedTwice(s)
  {
    hide LedgersOk, PendingOk, ReplayOk;
  }

  /** Entry k of the replay has a job for its room but no mark. */
  ghost predicate Forgotten(s: System, k: nat, id: Id) {
    && s.replay.CatchingUp? && k < |s.replay.left| && (s.replay.left[k], s.replay.room) !in s.marks
    && JobOf(s, id, s.replay.left[k], s.replay.room)
  }

  lemma {:induction false} Unused(ids: set<Id>) returns (id: Id)
    ensures forall i :: i in ids ==> i < id
  {
    if ids == {} {
      id := 0;
    } else {
      assert (forall i :: i !in ids) ==> ids == {};
      var i :| i in ids;
      var above := Unused(ids - {i});
      id := if i < above then above else i + 1;
      assert forall j :: j in ids ==> j == i || j in ids - {i};
    }
  }

  lemma {:induction false} ForgottenIsQueuedAgain(s0: System, s: System, k: nat, id: Id) returns (t: System)
    requires QuietlyReaches(s0, s) && Forgotten(s, k, id)
    ensures QuietlyReaches(s0, t) && QueuedTwice(t)
    decreases k
  {
    hide QuietlyReaches;
    var another := Unused(s.cloud.jobs.Keys + s.calls.Keys);
    var route := s.cloud.jobs[id].request.route;
    assert another !in s.cloud.jobs.Keys + s.calls.Keys;
    QuietlyReachesNext(s0, s, ReplayOne(another, route, k == 0));
    if k > 0 {
      assert s.replay.left[k] == s.replay.left[1..][k - 1];
      t := ForgottenIsQueuedAgain(s0, CaughtUpWith(s, another, route, false), k - 1, id);
    } else {
      t := CaughtUpWith(s, another, route, true);
      assert JobOf(t, id, s.replay.left[0], s.replay.room) && JobOf(t, another, s.replay.left[0], s.replay.room);
    }
  }

  /** In every state of a quiet run, deleting operations lets some operation come to have two jobs for a room if and
      only if it is not quiet: the room being caught up has already been given one of them that the replay still
      holds. */
  lemma DeletionIsSafeExactlyWhenQuiet(states: seq<System>, steps: seq<Step>, gone: set<OpId>)
    requires QuietRun(states, steps)
    ensures CanQueueTwice(Next(states[|steps|], DeleteOps(gone))) <==> !Quiet(states[|steps|], DeleteOps(gone))
  {
    var s := states[|steps|];
    var t := Next(s, DeleteOps(gone));
    QuietRunKeepsExact(states, steps, |steps|);
    RunKeepsAnswers(states, steps, |steps|);
    QuietRunKeepsJobs(states, steps, |steps|);
    if Quiet(s, DeleteOps(gone)) {
      SafeDeletionStaysSafe(s, gone);
    } else {
      UnsafeDeletionQueuesTwice(s, gone);
    }
  }

  lemma SafeDeletionStaysSafe(s: System, gone: set<OpId>)
    requires AnswersOk(s) && LedgersExact(s) && Quiet(s, DeleteOps(gone))
    ensures !CanQueueTwice(Next(s, DeleteOps(gone)))
  {
    var t := Next(s, DeleteOps(gone));
    hide AnswersOk, LedgersExact, Next, Quiet;
    StepKeepsAnswers(s, DeleteOps(gone));
    StepKeepsExact(s, DeleteOps(gone));
    if CanQueueTwice(t) {
      var u :| QuietlyReaches(t, u) && QueuedTwice(u);
      var more, moreSteps :| QuietSteps(more, moreSteps) && more[0] == t && more[|moreSteps|] == u;
      QuietStepsKeepExact(more, moreSteps, |moreSteps|);
      ExactIsNotTwice(u);
    }
  }

  lemma UnsafeDeletionQueuesTwice(s: System, gone: set<OpId>)
    requires MarksHaveJobs(s) && !Quiet(s, DeleteOps(gone))
    ensures CanQueueTwice(Next(s, DeleteOps(gone)))
  {
    var t := Next(s, DeleteOps(gone));
    var op :| op in s.replay.left && op in gone && (op, s.replay.room) in s.marks;
    var k :| 0 <= k < |s.replay.left| && s.replay.left[k] == op;
    var id :| JobOf(s, id, op, s.replay.room);
    assert Forgotten(t, k, id);
    QuietlyReachesItself(t);
    hide Next, QuietlyReaches, Forgotten, QueuedTwice;
    var u := ForgottenIsQueuedAgain(t, t, k, id);
  }

  lemma OperationQueued(s: System, id: Id, room: Room, route: R.Route) returns (t: System)
    requires Initial(s)
    ensures QuietlyReaches(s, t) && t.replay == Nobody && t.nextOp == 0 && t.marks == {}
    ensures id in t.cloud.jobs && t.cloud.jobs[id].room == room && BatchOf(t, 0) == {id}
  {
    QuietlyReachesItself(s);
    t := Next(s, QueueFleet(0, map[id := room], route));
    QuietlyReachesNext(s, s, QueueFleet(0, map[id := room], route));
    hide QuietlyReaches;
  }

  lemma OperationRecorded(s: System, id: Id, room: Room, route: R.Route) returns (t: System)
    requires Initial(s)
    ensures QuietlyReaches(s, t) && t.replay == Nobody && (0, room) in t.marks && 0 in t.ops && JobOf(t, id, 0, room)
  {
    var queued := OperationQueued(s, id, room, route);
    t := Recorded(queued, 0);
    QuietlyReachesNext(s, queued, RecordCloud(0));
    RecordedFields(queued, 0);
    hide QuietlyReaches, Recorded, BatchOf;
    assert (0, room) in (set i | i in {id} :: (0, queued.cloud.jobs[i].room)) by {
      assert id in {id};
    }
  }

  /** Such a run from the start: an operation is queued for a room and recorded, the room is caught up, and the
      operation deleted meanwhile. */
  lemma DeletionDuringReplayQueuesTwice(s: System, id: Id, room: Room, route: R.Route) returns (t: System, u: System)
    requires Initial(s)
    ensures QuietlyReaches(s, t) && !Quiet(t, DeleteOps({0}))
    ensures QuietlyReaches(Next(t, DeleteOps({0})), u) && QueuedTwice(u)
  {
    var recorded := OperationRecorded(s, id, room, route);
    t := Next(recorded, ReplayBegin(room, [0]));
    QuietlyReachesNext(s, recorded, ReplayBegin(room, [0]));
    hide QuietlyReaches, QueuedTwice;
    var deleted := Next(t, DeleteOps({0}));
    assert t.replay.left[0] == 0;
    assert Forgotten(deleted, 0, id);
    QuietlyReachesItself(deleted);
    u := ForgottenIsQueuedAgain(deleted, deleted, 0, id);
  }
}
