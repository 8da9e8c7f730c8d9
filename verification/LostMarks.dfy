/** Sends whose ledger rows were never written, because the process stopped in between or the database refused: exactly
    when one of them can reach its device a second time. */
module LostMarks {
  import opened Common
  import opened Ledger

  /** Snapshots are numbered upwards, and a fan-out's operation is a command. */
  ghost predicate Tidy(s: State) {
    && (forall id :: id in s.ops ==> s.ops[id].snapshot < s.nextSnapshot)
    && (s.active.Some? ==> s.active.value < s.nextSnapshot)
    && (s.lock.Fanning? && s.lock.op.Some? && s.lock.op.value in s.ops ==> s.ops[s.lock.op.value].kind == Command)
  }

  lemma StepKeepsTidy(s: State, step: Step)
    requires Tidy(s) && OpsOk(s) && Enabled(s, step)
    ensures Tidy(Next(s, step))
  {
    if step.ReplayOne? {
      ReplayOneEffect(s, step.succeeds);
      ReplayKeepsSnapshots(s, step.succeeds);
      hide ReplayNext;
    }
  }

  lemma ReplayKeepsSnapshots(s: State, succeeds: bool)
    requires s.lock.Replaying? && s.lock.left != []
    ensures ReplayNext(s, succeeds).active == s.active && ReplayNext(s, succeeds).nextSnapshot == s.nextSnapshot
  {
  }

  lemma {:induction false} RunKeepsTidy(states: seq<State>, steps: seq<Step>, n: nat)
    requires QuietRun(states, steps) && n < |states|
    ensures Tidy(states[n]) && Inv(states[n])
  {
    hide *;
    RunKeepsInv(states, steps, n);
    if n == 0 {
      InitialIsTidy(states, steps);
    } else {
      RunKeepsTidy(states, steps, n - 1);
      LastStep(states, steps, n);
      StepKeepsTidy(states[n - 1], steps[n - 1]);
    }
  }

  lemma InitialIsTidy(states: seq<State>, steps: seq<Step>)
    requires QuietRun(states, steps)
    ensures |states| > 0 && Tidy(states[0])
  {
    hide Enabled, Next, Quiet;
  }

  lemma LastStep(states: seq<State>, steps: seq<Step>, n: nat)
    requires QuietRun(states, steps) && 0 < n < |states|
    ensures n <= |steps| && Enabled(states[n - 1], steps[n - 1]) && states[n] == Next(states[n - 1], steps[n - 1])
            && OpsOk(states[n - 1])
  {
    RunKeepsInv(states, steps, n - 1);
    hide Enabled, Next, Quiet, Initial, OpsOk;
  }

  /** With the lock free: no operation was sent twice, and rows stand for sends, but sends may lack their rows. */
  ghost predicate Sound(s: State) {
    && s.lock.Free? && Tidy(s) && OpsOk(s) && Once(s) && WokenOk(s)
    && forall id, d :: id in s.ops && s.ops[id].kind != Other && (id, d) in s.rows ==>
         Times(s, s.ops[id].origin, d) >= 1
  }

  /** An operation of the active snapshot reached the device, and the ledger does not know. */
  ghost predicate Unmarked(s: State, id: OpId, d: Device) {
    && id in s.ops && s.ops[id].kind != Other && s.active == Some(s.ops[id].snapshot)
    && Times(s, s.ops[id].origin, d) >= 1 && (id, d) !in s.rows
  }

  // ----- An unmarked send is repeated by the device's next replay -----

  lemma UnmarkedIsSentAgain(s: State, id: OpId, d: Device)
    requires Sound(s) && Unmarked(s, id, d)
    ensures CanSendTwice(s)
  {
    var connected := Next(s, Connect(d));
    var replaying := Next(connected, ReplayBegin(d));
    QuietlyReachesItself(s);
    QuietlyReachesNext(s, s, Connect(d));
    QuietlyReachesNext(s, connected, ReplayBegin(d));
    hide QuietlyReachable;
    var k := ReplayHolds(s, connected, id, d);
    assert Times(replaying, s.ops[id].origin, d) == Times(s, s.ops[id].origin, d);
    hide OpsOf, Next;
    var t := ForgottenIsSentAgain(s, replaying, k);
  }

  lemma ReplayHolds(s: State, t: State, id: OpId, d: Device) returns (k: nat)
    requires OpsOk(s) && id in s.ops && s.active == Some(s.ops[id].snapshot)
    requires t.ops == s.ops && t.active == s.active && t.nextOp == s.nextOp
    ensures var left := OpsOf(t.ops, t.active.value, t.nextOp);
            k < |left| && left[k] == Entry(id, s.ops[id]) && forall i :: 0 <= i < k ==> left[i].id != id
  {
    OpsOfAre(t.ops, t.active.value, t.nextOp);
    hide OpsOf;
    var left := OpsOf(t.ops, t.active.value, t.nextOp);
    assert Entry(id, s.ops[id]) in left;
    k :| 0 <= k < |left| && left[k] == Entry(id, s.ops[id]);
  }

  // ----- Otherwise those operations might as well be deleted -----

  /** Operations with a send that has no row. */
  ghost function Missing(s: State): set<OpId> {
    set id | id in s.ops && s.ops[id].kind != Other && exists d ::
        Times(s, s.ops[id].origin, d) >= 1 && (id, d) !in s.rows
  }

  /** `u` is `t` without the operations of `gone`. */
  ghost predicate Like(t: State, u: State, gone: set<OpId>) {
    u == t.(ops := t.ops - gone, rows := set row | row in t.rows && row.0 !in gone)
  }

  /** No replay or fan-out of `t` deals with an operation of `gone`, now or later. */
  ghost predicate Aside(t: State, gone: set<OpId>) {
    && (forall id :: id in gone ==> id < t.nextOp)
    && (forall id :: id in gone && id in t.ops ==>
        t.active != Some(t.ops[id].snapshot) && t.ops[id].snapshot < t.nextSnapshot)
    && (t.lock.Fanning? && t.lock.op.Some? ==> t.lock.op.value !in gone)
    && (t.lock.Replaying? ==> forall e :: e in t.lock.left ==> e.id !in gone)
  }

  lemma {:induction false} SameOps(ops: map<OpId, Op>, gone: set<OpId>, snapshot: SnapshotId, below: OpId)
    requires forall id :: id in gone && id in ops ==> ops[id].snapshot != snapshot
    ensures OpsOf(ops - gone, snapshot, below) == OpsOf(ops, snapshot, below)
  {
    if below > 0 {
      SameOps(ops, gone, snapshot, below - 1);
    }
  }

  lemma SameRows(rows: set<(OpId, Device)>, gone: set<OpId>, id: OpId, devices: set<Device>)
    requires id !in gone
    ensures var added := set d | d in devices :: (id, d);
            (set row | row in rows + added && row.0 !in gone) == (set row | row in rows && row.0 !in gone) + added
  {
  }

  lemma MarkedLike(t: State, u: State, gone: set<OpId>, op: Option<OpId>, devices: set<Device>)
    requires Like(t, u, gone) && (op.Some? ==> op.value !in gone)
    ensures Like(Marked(t, op, devices), Marked(u, op, devices), gone)
    ensures Aside(t, gone) ==> Aside(Marked(t, op, devices), gone)
    ensures Marked(t, op, devices) == t.(rows := Marked(t, op, devices).rows)
  {
    if op.Some? {
      SameRows(t.rows, gone, op.value, devices);
    }
  }

  lemma RecordLike(t: State, u: State, gone: set<OpId>, kind: Kind, origin: Origin)
    requires Like(t, u, gone) && Aside(t, gone)
    ensures Record(t, kind, origin).1 == Record(u, kind, origin).1
    ensures Like(Record(t, kind, origin).0, Record(u, kind, origin).0, gone) && Aside(Record(t, kind, origin).0, gone)
    ensures Record(t, kind, origin).1.Some? ==> Record(t, kind, origin).1.value !in gone
  {
  }

  lemma ExecuteLike(t: State, u: State, gone: set<OpId>, op: Op, device: Device, succeeds: bool)
    requires Like(t, u, gone)
    ensures Execute(t, op, device, succeeds).1 == Execute(u, op, device, succeeds).1
    ensures Like(Execute(t, op, device, succeeds).0, Execute(u, op, device, succeeds).0, gone)
    ensures var v := Execute(t, op, device, succeeds).0; v == t.(queued := v.queued, sent := v.sent)
  {
  }

  lemma ReplayNextLike(t: State, u: State, gone: set<OpId>, succeeds: bool)
    requires Like(t, u, gone) && Aside(t, gone) && t.lock.Replaying? && t.lock.left != []
    ensures Like(ReplayNext(t, succeeds), ReplayNext(u, succeeds), gone) && Aside(ReplayNext(t, succeeds), gone)
  {
    var Replaying(device, left) := t.lock;
    assert left[0] in left && forall e :: e in left[1..] ==> e in left;
    var v, w := t.(lock := Replaying(device, left[1..])), u.(lock := Replaying(device, left[1..]));
    assert Like(v, w, gone) && Aside(v, gone);
    var row := (left[0].id, device);
    assert row in t.rows <==> row in u.rows;
    ExecuteLike(v, w, gone, left[0].op, device, succeeds);
    hide Execute;
    MarkedRow(t.rows, gone, row);
  }

  lemma MarkedRow(rows: set<(OpId, Device)>, gone: set<OpId>, row: (OpId, Device))
    requires row.0 !in gone
    ensures (set r | r in rows + {row} && r.0 !in gone) == (set r | r in rows && r.0 !in gone) + {row}
  {
  }

  lemma DeleteLike(t: State, u: State, gone: set<OpId>, fewer: set<OpId>, fewerThere: set<OpId>)
    requires Like(t, u, gone) && Aside(t, gone) && forall id :: id !in gone ==> (id in fewer <==> id in fewerThere)
    ensures Like(WithoutOps(t, fewer), WithoutOps(u, fewerThere), gone) && Aside(WithoutOps(t, fewer), gone)
  {
    var v, w := WithoutOps(t, fewer), WithoutOps(u, fewerThere);
    assert forall id :: id in w.ops <==> id in (v.ops - gone);
    assert w.ops == v.ops - gone;
    assert w.rows == set row | row in v.rows && row.0 !in gone;
  }

  lemma FanOutOneLike(t: State, u: State, gone: set<OpId>)
    requires Like(t, u, gone) && Aside(t, gone) && t.lock.Fanning? && t.lock.todo != []
    ensures Like(FanOutOne(t), FanOutOne(u), gone) && Aside(FanOutOne(t), gone)
  {
  }

  /** Steps that neither read nor write operations and rows. */
  lemma SteadyStepsLike(t: State, u: State, gone: set<OpId>, step: Step)
    requires Like(t, u, gone) && Aside(t, gone) && Enabled(t, step) && Enabled(u, step)
    requires step.Connect? || step.Disconnect? || step.Traffic? || step.FanoutOne? || step.WakeSend? || step.ReplayEnd?
             || step.StartSnapshot? || step.EndSnapshot? || step.Restart?
    ensures Like(Next(t, step), Next(u, step), gone) && Aside(Next(t, step), gone)
  {
    if step.FanoutOne? {
      hide Like, Aside, FanOutOne;
      FanOutOneLike(t, u, gone);
    } else {
      hide FanOutOne, Marked, Record, WithoutOps, ReplayNext;
    }
  }

  lemma DeletionsLike(t: State, u: State, gone: set<OpId>, step: Step)
    requires Like(t, u, gone) && Aside(t, gone) && Enabled(t, step) && Enabled(u, step)
    requires step.DeleteOp? || step.DeleteSnapshot?
    ensures Like(Next(t, step), Next(u, step), gone) && Aside(Next(t, step), gone)
  {
    if step.DeleteSnapshot? {
      DeleteLike(t, u, gone, OpsIn(t, step.snapshot), OpsIn(u, step.snapshot));
    } else if step.op in gone {
      DeleteLike(t, u, gone, {step.op}, {});
      assert WithoutOps(u, {}) == u by {
        assert u.ops - {} == u.ops && (set row | row in u.rows && row.0 !in {}) == u.rows;
      }
    } else {
      DeleteLike(t, u, gone, {step.op}, {step.op});
    }
  }

  lemma RecordingLike(t: State, u: State, gone: set<OpId>, step: Step)
    requires Like(t, u, gone) && Aside(t, gone) && Enabled(t, step) && Enabled(u, step)
    requires step.FanoutBegin? || step.FanoutEnd? || step.WakeRecord? || step.RecordOther?
    ensures Like(Next(t, step), Next(u, step), gone) && Aside(Next(t, step), gone)
  {
    hide Marked, Record;
    if step.FanoutBegin? {
      RecordLike(t, u, gone, Command, step.origin);
    } else if step.FanoutEnd? {
      MarkedLike(t, u, gone, t.lock.op, set d | d in t.lock.delivered);
    } else if step.WakeRecord? {
      RecordMarkedLike(t, u, gone, Wake, step.origin, t.woken[step.origin]);
    } else {
      RecordMarkedLike(t, u, gone, Other, step.origin, step.delivered);
    }
  }

  lemma RecordMarkedLike(t: State, u: State, gone: set<OpId>, kind: Kind, origin: Origin, devices: set<Device>)
    requires Like(t, u, gone) && Aside(t, gone)
    ensures var (v, op) := Record(t, kind, origin);
            var (w, same) := Record(u, kind, origin);
            op == same && Like(Marked(v, op, devices), Marked(w, op, devices), gone)
                && Aside(Marked(v, op, devices), gone)
  {
    RecordLike(t, u, gone, kind, origin);
    MarkedLike(Record(t, kind, origin).0, Record(u, kind, origin).0, gone, Record(t, kind, origin).1, devices);
    hide Record, Like;
  }

  lemma NextLike(t: State, u: State, gone: set<OpId>, step: Step)
    requires Like(t, u, gone) && Aside(t, gone) && Enabled(t, step) && Quiet(t, step)
    ensures Enabled(u, step) && Quiet(u, step) && Like(Next(t, step), Next(u, step), gone) && Aside(Next(t, step), gone)
  {
    assert Enabled(u, step) && Quiet(u, step);
    hide Like, Aside, Enabled, Quiet, ReplayNext;
    match step
    case FanoutBegin(_, _) => RecordingLike(t, u, gone, step);
    case FanoutEnd => RecordingLike(t, u, gone, step);
    case WakeRecord(_) => RecordingLike(t, u, gone, step);
    case RecordOther(_, _) => RecordingLike(t, u, gone, step);
    case ReplayBegin(_) => ReplayBeginLike(t, u, gone, step);
    case ReplayOne(_) => ReplayOneLike(t, u, gone, step);
    case DeleteOp(_, _) => DeletionsLike(t, u, gone, step);
    case DeleteSnapshot(_) => DeletionsLike(t, u, gone, step);
    case _ => SteadyStepsLike(t, u, gone, step);
  }

  lemma ReplayBeginLike(t: State, u: State, gone: set<OpId>, step: Step)
    requires Like(t, u, gone) && Aside(t, gone) && step.ReplayBegin? && Enabled(t, step) && Enabled(u, step)
    ensures Like(Next(t, step), Next(u, step), gone) && Aside(Next(t, step), gone)
  {
    SameOps(t.ops, gone, t.active.value, t.nextOp);
    OpsOfAre(t.ops, t.active.value, t.nextOp);
    hide OpsOf;
  }

  lemma ReplayOneLike(t: State, u: State, gone: set<OpId>, step: Step)
    requires Like(t, u, gone) && Aside(t, gone) && step.ReplayOne? && Enabled(t, step) && Enabled(u, step)
    ensures Like(Next(t, step), Next(u, step), gone) && Aside(Next(t, step), gone)
  {
    ReplayNextLike(t, u, gone, step.succeeds);
    hide Like, Aside, ReplayNext;
  }

  /** Step by step beside the run without those operations, which keeps the ledger's invariant. */
  lemma {:induction false} NeverTwice(states: seq<State>, steps: seq<Step>, u: State, gone: set<OpId>, n: nat)
    returns (v: State)
    requires QuietSteps(states, steps) && n < |states| && Like(states[0], u, gone) && Aside(states[0], gone) && Inv(u)
    ensures Like(states[n], v, gone) && Aside(states[n], gone) && Inv(v)
  {
    hide Inv, Enabled, Next, Quiet, Like, Aside;
    if n == 0 {
      v := u;
    } else {
      var w := NeverTwice(states, steps, u, gone, n - 1);
      NextLike(states[n - 1], w, gone, steps[n - 1]);
      StepKeepsInv(w, steps[n - 1]);
      v := Next(w, steps[n - 1]);
    }
  }

  lemma LikeIsSentAlike(t: State, u: State, gone: set<OpId>)
    requires Like(t, u, gone)
    ensures SentTwice(u) <==> SentTwice(t)
  {
    assert forall o, d :: Times(u, o, d) == Times(t, o, d);
    hide Times;
  }

  lemma WithoutMissing(s: State)
    requires Sound(s)
    ensures Like(s, WithoutOps(s, Missing(s)), Missing(s)) && Inv(WithoutOps(s, Missing(s)))
  {
    var u := WithoutOps(s, Missing(s));
    assert forall o, d :: Times(u, o, d) == Times(s, o, d);
    assert forall id, d :: id in u.ops && u.ops[id].kind != Other && Times(s, s.ops[id].origin, d) >= 1 ==>
             (id, d) in s.rows;
    FreeLockIsOk(u);
    hide Times, FanoutOk, ReplayOk, Tidy;
    assert Exact(u);
  }

  lemma MarkedIsSafe(s: State)
    requires Sound(s) && forall id, d :: !Unmarked(s, id, d)
    ensures !CanSendTwice(s)
  {
    var gone := Missing(s);
    var u := WithoutOps(s, gone);
    WithoutMissing(s);
    MissingIsAside(s);
    hide Sound, Unmarked, Missing, WithoutOps, Inv, Aside;
    if CanSendTwice(s) {
      var t :| QuietlyReachable(s, t) && SentTwice(t);
      var states, steps :| QuietSteps(states, steps) && states[0] == s && states[|steps|] == t;
      var v := NeverTwice(states, steps, u, gone, |steps|);
      LikeIsSentAlike(t, v, gone);
      SoundIsNotTwice(v);
    }
  }

  lemma MissingIsAside(s: State)
    requires Sound(s) && forall id, d :: !Unmarked(s, id, d)
    ensures Aside(s, Missing(s))
  {
    forall id | id in Missing(s) ensures s.active != Some(s.ops[id].snapshot) {
      var d :| Times(s, s.ops[id].origin, d) >= 1 && (id, d) !in s.rows;
      assert !Unmarked(s, id, d);
    }
    hide Times, Once, WokenOk, Unmarked;
  }

  /** Whatever rows were lost: some operation can come to reach a device twice if and only if one of the active snapshot
      has reached a device without the ledger knowing. */
  lemma SafeExactlyIfMarked(s: State)
    requires Sound(s)
    ensures CanSendTwice(s) <==> exists id, d :: Unmarked(s, id, d)
  {
    if id, d :| Unmarked(s, id, d) {
      UnmarkedIsSentAgain(s, id, d);
    } else {
      MarkedIsSafe(s);
    }
  }

  // ----- What can lose a row -----

  /** A fan-out ends, but its rows are written only for the devices of `kept`. */
  function MarksLost(s: State, kept: set<Device>): State
    requires s.lock.Fanning?
  {
    Marked(s, s.lock.op, set d | d in s.lock.delivered && d in kept).(lock := Free)
  }

  /** The next operation of a replay is executed, but its row is not written and the replay goes no further. */
  function ReplayMarkLost(s: State, succeeds: bool): State
    requires s.lock.Replaying? && s.lock.left != []
  {
    ReplayNext(s, succeeds).(lock := Free, rows := s.rows)
  }

  lemma MarksLostIsSound(s: State, kept: set<Device>)
    requires Inv(s) && Tidy(s) && s.lock.Fanning?
    ensures Sound(MarksLost(s, kept))
  {
    var t, marked := MarksLost(s, kept), set d | d in s.lock.delivered && d in kept;
    assert forall o, d :: Times(t, o, d) == Times(s, o, d);
    MarkedRows(s, s.lock.op, marked);
    hide Marked, Times, ReplayOk, Distinct;
  }

  lemma ReplayMarkLostIsSound(s: State, succeeds: bool)
    requires Inv(s) && Tidy(s) && s.lock.Replaying? && s.lock.left != []
    ensures Sound(ReplayMarkLost(s, succeeds))
  {
    var t, e := ReplayMarkLost(s, succeeds), s.lock.left[0];
    ReplayOneEffect(s, succeeds);
    ReplayKeepsSnapshots(s, succeeds);
    assert forall o, d :: Times(t, o, d) == Times(ReplayNext(s, succeeds), o, d);
    assert e in s.lock.left;
    hide ReplayNext, Times, FanoutOk, Distinct;
  }

  /** The fan-out's operation is still recorded, its snapshot is active, and a device was served whose row is not
      kept. */
  ghost predicate LosesActiveRow(s: State, kept: set<Device>)
    requires s.lock.Fanning?
  {
    && s.lock.op.Some? && s.lock.op.value in s.ops && s.active == Some(s.ops[s.lock.op.value].snapshot)
    && exists d :: d in s.lock.delivered && d !in kept
  }

  /** A fan-out whose rows are partly lost, as when the process stops while writing them, repeats a send some time if
      and only if its operation is still recorded, its snapshot is active, and a device was served without a row; so too
      if the process restarts. */
  lemma LostMarksMatterExactlyWhen(states: seq<State>, steps: seq<Step>, kept: set<Device>)
    requires QuietRun(states, steps) && states[|steps|].lock.Fanning?
    ensures var s := states[|steps|];
            && (CanSendTwice(MarksLost(s, kept)) <==> LosesActiveRow(s, kept))
            && (CanSendTwice(Next(MarksLost(s, kept), Restart)) <==> LosesActiveRow(s, kept))
  {
    RunKeepsTidy(states, steps, |steps|);
    var s := states[|steps|];
    var t := MarksLost(s, kept);
    hide *;
    MarksLostIsSound(s, kept);
    SafeAfterAll(t);
    UnmarkedAfterFanout(s, kept);
  }

  lemma SafeAfterAll(s: State)
    requires Sound(s)
    ensures CanSendTwice(s) <==> exists id, d :: Unmarked(s, id, d)
    ensures CanSendTwice(Next(s, Restart)) <==> exists id, d :: Unmarked(s, id, d)
  {
    RestartIsSound(s);
    SafeExactlyIfMarked(s);
    SafeExactlyIfMarked(Next(s, Restart));
    RestartKeepsUnmarked(s);
    hide CanSendTwice, Tidy, OpsOk, Once, WokenOk, Unmarked;
  }

  lemma RestartIsSound(s: State)
    requires Sound(s)
    ensures Sound(Next(s, Restart))
  {
    assert forall o, d :: Times(Next(s, Restart), o, d) == Times(s, o, d);
    hide Times;
  }

  lemma RestartKeepsUnmarked(s: State)
    requires s.lock.Free?
    ensures forall id, d :: Unmarked(Next(s, Restart), id, d) <==> Unmarked(s, id, d)
  {
    assert forall o, d :: Times(Next(s, Restart), o, d) == Times(s, o, d);
    hide Times;
  }

  lemma UnmarkedAfterFanout(s: State, kept: set<Device>)
    requires Inv(s) && Tidy(s) && s.lock.Fanning?
    ensures (exists id, d :: Unmarked(MarksLost(s, kept), id, d)) <==> LosesActiveRow(s, kept)
  {
    var t, marked := MarksLost(s, kept), set d | d in s.lock.delivered && d in kept;
    assert forall o, d :: Times(t, o, d) == Times(s, o, d);
    MarkedRows(s, s.lock.op, marked);
    assert t.ops == s.ops && t.active == s.active;
    hide Marked, Times, MarksLost, ReplayOk, WokenOk, Distinct, Once;
    forall id, d ensures Unmarked(t, id, d) <==>
                           && s.lock.op == Some(id) && id in s.ops && s.active == Some(s.ops[id].snapshot)
                           && d in s.lock.delivered && d !in kept
    {
      assert id in s.ops && s.ops[id].kind != Other && s.lock.op != Some(id) ==>
               Times(s, s.ops[id].origin, d) == Count((id, d) in s.rows);
      assert s.lock.op == Some(id) ==> (id, d) !in s.rows && Times(s, s.lock.origin, d) == Count(d in s.lock.delivered);
    }
  }

  /** A replayed operation whose row is lost is repeated some time if and only if it was executed as a command or
      wake-up, is still recorded, and its snapshot is still active; so too if the process restarts. */
  lemma LostReplayMarkMattersExactlyWhen(states: seq<State>, steps: seq<Step>, succeeds: bool)
    requires QuietRun(states, steps) && states[|steps|].lock.Replaying? && states[|steps|].lock.left != []
    ensures var s := states[|steps|];
            var e := s.lock.left[0];
            var harmful := Executed(s, succeeds) && e.op.kind != Other && e.id in s.ops
                && s.active == Some(e.op.snapshot);
            && (CanSendTwice(ReplayMarkLost(s, succeeds)) <==> harmful)
            && (CanSendTwice(Next(ReplayMarkLost(s, succeeds), Restart)) <==> harmful)
  {
    RunKeepsTidy(states, steps, |steps|);
    var s := states[|steps|];
    var t := ReplayMarkLost(s, succeeds);
    hide *;
    ReplayMarkLostIsSound(s, succeeds);
    SafeAfterAll(t);
    UnmarkedAfterReplay(s, succeeds);
  }

  lemma UnmarkedAfterReplay(s: State, succeeds: bool)
    requires Inv(s) && Tidy(s) && s.lock.Replaying? && s.lock.left != []
    ensures var e := s.lock.left[0];
            (exists id, d :: Unmarked(ReplayMarkLost(s, succeeds), id, d)) <==>
              Executed(s, succeeds) && e.op.kind != Other && e.id in s.ops && s.active == Some(e.op.snapshot)
  {
    var t, e := ReplayMarkLost(s, succeeds), s.lock.left[0];
    ReplayOneEffect(s, succeeds);
    ReplayKeepsSnapshots(s, succeeds);
    assert forall o, d :: Times(t, o, d) == Times(ReplayNext(s, succeeds), o, d);
    assert t.ops == s.ops && t.active == s.active && t.rows == s.rows && e in s.lock.left;
    hide ReplayNext, Times, ReplayMarkLost, FanoutOk, WokenOk, Distinct, Once;
    forall id, d ensures Unmarked(t, id, d) <==>
                           && id == e.id && d == s.lock.device && Executed(s, succeeds) && e.op.kind != Other
                           && id in s.ops && s.active == Some(e.op.snapshot)
    {
      assert id in s.ops && s.ops[id].kind != Other ==> Times(s, s.ops[id].origin, d) == Count((id, d) in s.rows);
    }
    hide Unmarked, Executed;
    assert Unmarked(t, e.id, s.lock.device) <==>
             Executed(s, succeeds) && e.op.kind != Other && e.id in s.ops && s.active == Some(e.op.snapshot);
  }

  /** It happens: a command is served to its only device, and the process stops before the row is written. */
  lemma LostMarkSendsTwice() returns (states: seq<State>, steps: seq<Step>)
    ensures QuietRun(states, steps) && states[|steps|].lock.Fanning?
    ensures CanSendTwice(MarksLost(states[|steps|], {})) && CanSendTwice(Next(MarksLost(states[|steps|], {}), Restart))
  {
    states, steps := CommandUnderWay();
    CommandDelivered();
    states, steps := Extended(states, steps, FanoutOne);
    assert 1 in states[|steps|].lock.delivered;
    hide CanSendTwice, MarksLost, EndFanout, BeginReplay, FanOutOne;
    LostMarksMatterExactlyWhen(states, steps, {});
  }
}
