/** Fleet jobs whose room was never marked, because the process stopped in between or the database refused: exactly when
    an operation can come to have a second job for a room. */
module LostJobMarks {
  import opened Common
  import opened Fleet
  import opened Deletions
  import C = Cloud
  import R = Relay

  /** Everything the cloud keeps about operations and jobs, except that every job's room is marked. */
  ghost predicate Sound(s: System) {
    && AnswersOk(s) && LedgersOk(s) && (forall op :: op in s.ops ==> op < s.nextOp)
    && OriginsOk(s.cloud.jobs, {}, s.nextOp, s.marks, s.origin) && PendingOk(s.cloud.jobs, s.pending, s.origin)
    && ReplayOk(s.cloud.jobs, s.replay, s.nextOp, s.marks, map[])
  }

  /** A recorded operation has this job, and the job's room is not marked. */
  ghost predicate Unmarked(s: System, id: Id) {
    && id in s.origin && id in s.cloud.jobs && s.origin[id] in s.ops
    && (s.origin[id], s.cloud.jobs[id].room) !in s.marks
  }

  /** The replay under way holds an operation with a job for its room and no mark. */
  ghost predicate Forgets(s: System) {
    exists k, id :: Forgotten(s, k, id)
  }

  lemma MarkedIsExact(s: System)
    requires Sound(s) && !Forgets(s) && forall id :: !Unmarked(s, id)
    ensures LedgersExact(s)
  {
    hide AnswersOk, LedgersOk, PendingOk, Distinct;
    forall id | id in s.origin && s.origin[id] in s.ops ensures (s.origin[id], s.cloud.jobs[id].room) in s.marks {
      assert !Unmarked(s, id);
    }
    if s.replay.CatchingUp? {
      forall id | id in s.origin && s.cloud.jobs[id].room == s.replay.room && s.origin[id] in s.replay.left
        ensures (s.origin[id], s.replay.room) in s.marks
      {
        var k :| 0 <= k < |s.replay.left| && s.replay.left[k] == s.origin[id];
        assert !Forgotten(s, k, id);
      }
    }
  }

  lemma ExactCannotQueueTwice(s: System)
    requires AnswersOk(s) && LedgersExact(s)
    ensures !CanQueueTwice(s)
  {
    hide AnswersOk, LedgersExact, QueuedTwice;
    if CanQueueTwice(s) {
      var t :| QuietlyReaches(s, t) && QueuedTwice(t);
      var states, steps :| QuietSteps(states, steps) && states[0] == s && states[|steps|] == t;
      QuietStepsKeepExact(states, steps, |steps|);
      ExactIsNotTwice(t);
    }
  }

  /** A replay may fail at every operation it still holds. */
  lemma {:induction false} ReplayCanEnd(s0: System, s: System) returns (t: System)
    requires QuietlyReaches(s0, s)
    ensures QuietlyReaches(s0, t) && t == s.(replay := Nobody)
    decreases if s.replay.CatchingUp? then |s.replay.left| else 0
  {
    hide QuietlyReaches;
    if s.replay.Nobody? {
      t := s;
    } else if s.replay.left == [] {
      t := Next(s, ReplayEnd);
      QuietlyReachesNext(s0, s, ReplayEnd);
    } else {
      var id := Deletions.Unused(s.cloud.jobs.Keys + s.calls.Keys);
      var route := R.LocalHandler;
      assert id !in s.cloud.jobs.Keys + s.calls.Keys;
      QuietlyReachesNext(s0, s, ReplayOne(id, route, false));
      t := ReplayCanEnd(s0, CaughtUpWith(s, id, route, false));
    }
  }

  lemma UnmarkedIsQueuedAgain(s: System, id: Id)
    requires Unmarked(s, id)
    ensures CanQueueTwice(s)
  {
    QuietlyReachesItself(s);
    var op, room := s.origin[id], s.cloud.jobs[id].room;
    var idle := ReplayCanEnd(s, s);
    var t := Next(idle, ReplayBegin(room, [op]));
    QuietlyReachesNext(s, idle, ReplayBegin(room, [op]));
    hide QuietlyReaches, QueuedTwice;
    assert t.replay.left[0] == op && JobOf(t, id, op, room);
    var u := ForgottenIsQueuedAgain(s, t, 0, id);
  }

  /** Whatever marks were lost: some operation can come to have two jobs for a room if and only if a recorded one of the
      active snapshot has a job for a room that is not marked, or the replay under way holds one. */
  lemma SafeExactlyIfMarked(s: System)
    requires Sound(s)
    ensures CanQueueTwice(s) <==> (exists id :: Unmarked(s, id)) || Forgets(s)
  {
    if id :| Unmarked(s, id) {
      UnmarkedIsQueuedAgain(s, id);
    } else if Forgets(s) {
      var k, id :| Forgotten(s, k, id);
      QuietlyReachesItself(s);
      hide QuietlyReaches, QueuedTwice;
      var t := ForgottenIsQueuedAgain(s, s, k, id);
    } else {
      MarkedIsExact(s);
      ExactCannotQueueTwice(s);
    }
  }

  // ----- What can lose a mark -----

  /** The operation is recorded, but marks are written only for the rooms of `kept`. */
  ghost function RecordedLosing(s: System, n: nat, kept: set<Room>): System {
    Recorded(s, n).(marks := s.marks + set id | id in BatchOf(s, n) && s.cloud.jobs[id].room in kept ::
                             (s.nextOp, s.cloud.jobs[id].room))
  }

  /** The next operation of a room replay is queued, but its mark is not written. */
  ghost function QueuedUnmarked(s: System, id: Id, route: R.Route): System
    requires s.replay.CatchingUp? && s.replay.left != []
  {
    CaughtUpWith(s, id, route, true).(marks := s.marks)
  }

  lemma RecordedLosingFields(s: System, n: nat, kept: set<Room>)
    ensures var t, batch := RecordedLosing(s, n, kept), BatchOf(s, n);
            && t.cloud == s.cloud && t.nodes == s.nodes && t.replay == s.replay
            && t.responses == s.responses && t.calls == s.calls
            && t.ops == s.ops + {s.nextOp} && t.nextOp == s.nextOp + 1
            && (forall mark :: mark in t.marks <==>
                (mark in s.marks || (mark.0 == s.nextOp && mark.1 in kept && exists id ::
                   id in batch && s.cloud.jobs[id].room == mark.1)))
            && t.pending == s.pending - batch && t.origin == s.origin + (map id | id in batch :: s.nextOp)
            && batch <= s.pending.Keys && forall id :: id in batch ==> s.pending[id] == n && id in s.cloud.jobs
  {
  }

  /** Losing marks spoils nothing but the marks. */
  lemma FewerMarksAreSound(s: System, marks: set<(OpId, Room)>)
    requires AnswersOk(s) && LedgersExact(s) && marks <= s.marks
    ensures Sound(s.(marks := marks))
  {
    var t := s.(marks := marks);
    assert forall op :: op in s.ops ==> op < s.nextOp by {
      hide AnswersOk, LedgersOk, PendingOk, ReplayOk;
    }
    FewerMarks(s.cloud.jobs, s.ops, s.nextOp, s.marks, marks, s.origin, s.replay);
    hide AnswersOk, LedgersOk, PendingOk, OriginsOk, ReplayOk;
    SameSidesKeepAnswers(s, t);
    SameNodesStayOk(s, t);
  }

  lemma FewerMarks(jobs: map<Id, C.Job>, ops: set<OpId>, nextOp: OpId, marks: set<(OpId, Room)>,
                   fewer: set<(OpId, Room)>, origin: map<Id, OpId>, replay: Replay)
    requires OriginsOk(jobs, ops, nextOp, marks, origin) && ReplayOk(jobs, replay, nextOp, marks, origin)
             && fewer <= marks
    ensures OriginsOk(jobs, {}, nextOp, fewer, origin) && ReplayOk(jobs, replay, nextOp, fewer, map[])
  {
    hide Distinct;
  }

  lemma RecordedLosingIsSound(s: System, n: nat, kept: set<Room>)
    requires AnswersOk(s) && LedgersExact(s) && Enabled(s, RecordCloud(n))
    ensures Sound(RecordedLosing(s, n, kept))
  {
    hide AnswersOk, LedgersExact, Sound, BatchOf;
    StepKeepsAnswers(s, RecordCloud(n));
    StepKeepsExact(s, RecordCloud(n));
    FewerMarksAreSound(Recorded(s, n), RecordedLosing(s, n, kept).marks);
  }

  lemma UnmarkedAfterRecord(s: System, n: nat, kept: set<Room>)
    requires LedgersExact(s) && s.replay.Nobody?
    ensures (exists id :: Unmarked(RecordedLosing(s, n, kept), id)) <==>
              exists id :: id in BatchOf(s, n) && s.cloud.jobs[id].room !in kept
    ensures !Forgets(RecordedLosing(s, n, kept))
  {
    var t, batch := RecordedLosing(s, n, kept), BatchOf(s, n);
    RecordedLosingFields(s, n, kept);
    hide RecordedLosing, BatchOf, LedgersOk, ReplayOk;
    forall id ensures Unmarked(t, id) <==> id in batch && s.cloud.jobs[id].room !in kept {
    }
  }

  lemma StoppedIsSound(s: System, t: System)
    requires Sound(s) && t == s.(cloud := t.cloud, replay := Nobody, pending := map[])
             && t.cloud.jobs == s.cloud.jobs && t.cloud.log == s.cloud.log
    ensures Sound(t)
  {
    hide AnswersOk, LedgersOk, OriginsOk;
    SameSidesKeepAnswers(s, t);
    SameNodesStayOk(s, t);
  }

  lemma RestartIsSound(s: System)
    requires Sound(s)
    ensures Sound(Next(s, CloudRestart))
  {
    RestartFields(s);
    var t := Next(s, CloudRestart);
    hide *;
    StoppedIsSound(s, t);
  }

  /** What a restart of the cloud leaves of lost marks: all of them, and no replay. */
  lemma RestartKeepsUnmarked(s: System)
    ensures var t := Next(s, CloudRestart); !Forgets(t) && forall id :: Unmarked(t, id) <==> Unmarked(s, id)
  {
    RestartFields(s);
    hide Next;
  }

  lemma RestartFields(s: System)
    ensures var t := Next(s, CloudRestart);
            && t == s.(cloud := t.cloud, replay := Nobody, pending := map[])
            && t.cloud.jobs == s.cloud.jobs && t.cloud.log == s.cloud.log
  {
    RestartedSides(s.cloud);
    hide C.Next;
  }

  /** Marks lost while an operation is recorded give some operation a second job for a room some time if and only if one
      of its jobs is for a room whose mark is lost; so too if the cloud restarts. */
  lemma LostMarksMatterExactlyWhen(states: seq<System>, steps: seq<Step>, n: nat, kept: set<Room>)
    requires QuietRun(states, steps) && Enabled(states[|steps|], RecordCloud(n))
    ensures var s := states[|steps|];
            var harmful := exists id :: id in BatchOf(s, n) && s.cloud.jobs[id].room !in kept;
            && (CanQueueTwice(RecordedLosing(s, n, kept)) <==> harmful)
            && (CanQueueTwice(Next(RecordedLosing(s, n, kept), CloudRestart)) <==> harmful)
  {
    var s := states[|steps|];
    assert s.replay.Nobody?;
    hide *;
    LastIsSound(states, steps);
    RecordedLosingIsSound(s, n, kept);
    SafeAfterAll(RecordedLosing(s, n, kept));
    UnmarkedAfterRecord(s, n, kept);
  }

  lemma LastIsSound(states: seq<System>, steps: seq<Step>)
    requires QuietRun(states, steps)
    ensures |states| == |steps| + 1 && AnswersOk(states[|steps|]) && LedgersExact(states[|steps|])
  {
    QuietRunKeepsExact(states, steps, |steps|);
    RunKeepsAnswers(states, steps, |steps|);
    hide Enabled, Next, Quiet, Initial, AnswersOk, LedgersExact;
  }

  lemma SafeAfterAll(s: System)
    requires Sound(s)
    ensures CanQueueTwice(s) <==> (exists id :: Unmarked(s, id)) || Forgets(s)
    ensures CanQueueTwice(Next(s, CloudRestart)) <==> exists id :: Unmarked(s, id)
  {
    hide CanQueueTwice, Sound, Next, Unmarked, Forgets;
    SafeExactlyIfMarked(s);
    RestartIsSound(s);
    RestartKeepsUnmarked(s);
    SafeExactlyIfMarked(Next(s, CloudRestart));
  }

  lemma QueuedUnmarkedIsSound(s: System, id: Id, route: R.Route)
    requires AnswersOk(s) && LedgersExact(s) && Enabled(s, ReplayOne(id, route, true))
    ensures Sound(QueuedUnmarked(s, id, route))
  {
    hide AnswersOk, LedgersExact, Sound, FreshId;
    StepKeepsAnswers(s, ReplayOne(id, route, true));
    StepKeepsExact(s, ReplayOne(id, route, true));
    FewerMarksAreSound(CaughtUpWith(s, id, route, true), s.marks);
  }

  lemma QueuedUnmarkedFields(s: System, id: Id, route: R.Route)
    requires Enabled(s, ReplayOne(id, route, true))
    ensures s.replay.CatchingUp? && s.replay.left != [] && id !in s.cloud.jobs
    ensures var t, op, room := QueuedUnmarked(s, id, route), s.replay.left[0], s.replay.room;
            && t.ops == s.ops && t.marks == s.marks && t.replay == CatchingUp(room, s.replay.left[1..])
            && SameRooms(s.cloud.jobs, t.cloud.jobs)
            && if (op, room) in s.marks then t.cloud == s.cloud && t.origin == s.origin
               else t.origin == s.origin[id := op] && t.cloud.jobs.Keys == s.cloud.jobs.Keys + {id}
                    && t.cloud.jobs[id].room == room
  {
  }

  lemma UnmarkedAfterReplay(s: System, id: Id, route: R.Route)
    requires LedgersExact(s) && Enabled(s, ReplayOne(id, route, true))
    ensures var t, op, room := QueuedUnmarked(s, id, route), s.replay.left[0], s.replay.room;
            && ((exists i :: Unmarked(t, i)) <==> op in s.ops && (op, room) !in s.marks)
            && !Forgets(t)
  {
    var t, op, room, left := QueuedUnmarked(s, id, route), s.replay.left[0], s.replay.room, s.replay.left[1..];
    assert s.replay.left == [op] + left;
    QueuedUnmarkedFields(s, id, route);
    OriginsHaveJobs(s);
    hide QueuedUnmarked, Enabled, LedgersOk, PendingOk;
    RestOfReplay(op, left);
    hide Distinct;
    forall i | i != id ensures !Unmarked(t, i) {
    }
    assert !Forgets(t) by {
      forall k: nat, i | k < |left| ensures !Forgotten(t, k, i) {
        assert left[k] in left;
      }
    }
    hide Forgets;
    assert Unmarked(t, id) <==> op in s.ops && (op, room) !in s.marks;
  }

  /** A replayed operation whose mark is lost gets a second job for the room some time if and only if the room was not
      marked before and the operation is still recorded under the active snapshot; so too if the cloud restarts. */
  lemma LostReplayMarkMattersExactlyWhen(states: seq<System>, steps: seq<Step>, id: Id, route: R.Route)
    requires QuietRun(states, steps) && Enabled(states[|steps|], ReplayOne(id, route, true))
    ensures var s := states[|steps|];
            var harmful := s.replay.left[0] in s.ops && (s.replay.left[0], s.replay.room) !in s.marks;
            && (CanQueueTwice(QueuedUnmarked(s, id, route)) <==> harmful)
            && (CanQueueTwice(Next(QueuedUnmarked(s, id, route), CloudRestart)) <==> harmful)
  {
    var s := states[|steps|];
    hide *;
    LastIsSound(states, steps);
    QueuedUnmarkedIsSound(s, id, route);
    SafeAfterAll(QueuedUnmarked(s, id, route));
    UnmarkedAfterReplay(s, id, route);
  }

  /** It happens: an operation is queued for a room and recorded, but the room's mark is lost. */
  lemma LostMarkQueuesTwice(s: System, id: Id, room: Room, route: R.Route) returns (t: System)
    requires Initial(s)
    ensures QuietlyReaches(s, t) && Enabled(t, RecordCloud(0)) && CanQueueTwice(RecordedLosing(t, 0, {}))
  {
    t := OperationQueued(s, id, room, route);
    RecordedLosingFields(t, 0, {});
    hide QuietlyReaches, CanQueueTwice, RecordedLosing, BatchOf;
    UnmarkedIsQueuedAgain(RecordedLosing(t, 0, {}), id);
  }
}
