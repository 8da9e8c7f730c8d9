/** A room's operation snapshot: recorded fleet-wide operations, the delivery ledger, and replay to late devices. */
module Ledger {
  import opened Common

  type Device = int
  type OpId = nat
  type SnapshotId = nat

  /** Who asked for an operation: an administrator of the room, or a request relayed by the cloud. */
  datatype Origin = Local(n: nat) | Relayed(request: nat)
  datatype Kind = Command | Wake | Other
  datatype Op = Op(snapshot: SnapshotId, kind: Kind, origin: Origin)
  datatype Entry = Entry(id: OpId, op: Op)

  /** One successful send of an operation's command or magic packet to a device. */
  datatype Send = Send(origin: Origin, device: Device)

  /** Who holds the manager's lock: a fan-out with the devices still to serve and those served, or a replay with the
      operations still to look at. */
  datatype Lock =
    | Free
    | Fanning(origin: Origin, op: Option<OpId>, todo: seq<Device>, delivered: seq<Device>)
    | Replaying(device: Device, left: seq<Entry>)

  /** `queued` has the connected devices and the messages waiting in their send buffers; `woken` the wake-ups sent but
      not recorded yet. */
  datatype State = State(active: Option<SnapshotId>, nextSnapshot: SnapshotId, ops: map<OpId, Op>, nextOp: OpId,
                         rows: set<(OpId, Device)>,
                         lock: Lock, woken: map<Origin, set<Device>>, queued: map<Device, nat>, used: set<Origin>,
                         sent: multiset<Send>)

  datatype Step =
    | Connect(device: Device)
    | Disconnect(device: Device)
    | Traffic(device: Device, waiting: nat)
    | FanoutBegin(origin: Origin, children: seq<Device>)
    | FanoutOne
    | FanoutEnd
    | WakeSend(origin: Origin, devices: set<Device>)
    | WakeRecord(origin: Origin)
    | RecordOther(origin: Origin, delivered: set<Device>)
    | ReplayBegin(device: Device)
    | ReplayOne(succeeds: bool)
    | ReplayEnd
    | StartSnapshot
    | EndSnapshot(snapshot: SnapshotId)
    | DeleteOp(snapshot: SnapshotId, op: OpId)
    | DeleteSnapshot(snapshot: SnapshotId)
    | Restart

  const SEND_BUFFER: nat := 64

  /** A process may stop at any point except between a recorded operation's send and its ledger row. */
  ghost predicate Enabled(s: State, step: Step) {
    match step
    case Traffic(device, waiting) => device in s.queued && waiting <= SEND_BUFFER
    case FanoutBegin(origin, children) => s.lock.Free? && origin !in s.used && Distinct(children)
    case FanoutOne => s.lock.Fanning? && s.lock.todo != []
    case FanoutEnd => s.lock.Fanning? && s.lock.todo == []
    case WakeSend(origin, _) => origin !in s.used
    case WakeRecord(origin) => s.lock.Free? && origin in s.woken
    case RecordOther(origin, _) => s.lock.Free? && origin !in s.used
    case ReplayBegin(_) => s.lock.Free? && s.active.Some?
    case ReplayOne(_) => s.lock.Replaying? && s.lock.left != []
    case ReplayEnd => s.lock.Replaying? && s.lock.left == []
    case EndSnapshot(_) => s.lock.Free?
    case DeleteOp(_, _) => s.lock.Free?
    case Restart => s.lock.Fanning? && s.lock.op.Some? ==> s.lock.delivered == []
    case _ => true
  }

  predicate CanSend(s: State, device: Device) {
    device in s.queued && s.queued[device] < SEND_BUFFER
  }

  function TrySend(s: State, origin: Origin, device: Device): State
    requires CanSend(s, device)
  {
    s.(queued := s.queued[device := s.queued[device] + 1], sent := s.sent + multiset{Send(origin, device)})
  }

  /** Appends an operation to the active snapshot, if there is one. */
  function Record(s: State, kind: Kind, origin: Origin): (State, Option<OpId>) {
    var t := s.(used := s.used + {origin});
    if s.active.None? then (t, None)
    else (t.(ops := s.ops[s.nextOp := Op(s.active.value, kind, origin)], nextOp := s.nextOp + 1), Some(s.nextOp))
  }

  function Marked(s: State, op: Option<OpId>, devices: set<Device>): State {
    if op.None? then s else s.(rows := s.rows + set d | d in devices :: (op.value, d))
  }

  lemma MarkedRows(s: State, op: Option<OpId>, devices: set<Device>)
    ensures forall row :: row in Marked(s, op, devices).rows <==>
              row in s.rows || (op == Some(row.0) && row.1 in devices)
  {
    forall id: OpId, d | op == Some(id) && d in devices ensures (id, d) in Marked(s, op, devices).rows {
      assert (id, d) in (set x | x in devices :: (id, x));
    }
  }

  /** The operations of a snapshot in the order they were recorded. */
  function OpsOf(ops: map<OpId, Op>, snapshot: SnapshotId, below: OpId): seq<Entry> {
    if below == 0 then []
    else OpsOf(ops, snapshot, below - 1)
         + if below - 1 in ops && ops[below - 1].snapshot == snapshot then [Entry(below - 1, ops[below - 1])] else []
  }

  function BeginFanout(s: State, origin: Origin, children: seq<Device>): State {
    var (t, op) := Record(s, Command, origin);
    t.(lock := Fanning(origin, op, children, []))
  }

  function FanOutOne(s: State): State
    requires s.lock.Fanning? && s.lock.todo != []
  {
    var Fanning(origin, op, todo, delivered) := s.lock;
    if CanSend(s, todo[0]) then
      TrySend(s, origin, todo[0]).(lock := Fanning(origin, op, todo[1..], delivered + [todo[0]]))
    else s.(lock := Fanning(origin, op, todo[1..], delivered))
  }

  function EndFanout(s: State): State
    requires s.lock.Fanning?
  {
    Marked(s, s.lock.op, set d | d in s.lock.delivered).(lock := Free)
  }

  /** Wake-ups go out at once; the operation is recorded afterwards. */
  function SendWakes(s: State, origin: Origin, devices: set<Device>): State {
    s.(used := s.used + {origin}, woken := s.woken[origin := devices],
       sent := s.sent + multiset(set d | d in devices :: Send(origin, d)))
  }

  function BeginReplay(s: State, device: Device): State
    requires s.active.Some?
  {
    s.(lock := Replaying(device, OpsOf(s.ops, s.active.value, s.nextOp)))
  }

  /** Executing a recorded operation for one device: whether it worked, and what it sent. */
  function Execute(s: State, op: Op, device: Device, succeeds: bool): (State, bool) {
    match op.kind
    case Command => if CanSend(s, device) then (TrySend(s, op.origin, device), true) else (s, false)
    case Wake => if succeeds then (s.(sent := s.sent + multiset{Send(op.origin, device)}), true) else (s, false)
    case Other => (s, succeeds)
  }

  /** The next operation, unless the ledger has it, is executed for the device and marked; a failed one stays
      unmarked. */
  function ReplayNext(s: State, succeeds: bool): State
    requires s.lock.Replaying? && s.lock.left != []
  {
    var Replaying(device, left) := s.lock;
    var t := s.(lock := Replaying(device, left[1..]));
    if (left[0].id, device) in s.rows then t
    else
      var (u, ok) := Execute(t, left[0].op, device, succeeds);
      if ok then u.(rows := u.rows + {(left[0].id, device)}) else u
  }

  function WithoutOps(s: State, gone: set<OpId>): State {
    s.(ops := s.ops - gone, rows := set row | row in s.rows && row.0 !in gone)
  }

  function OpsIn(s: State, snapshot: SnapshotId): set<OpId> {
    set id | id in s.ops && s.ops[id].snapshot == snapshot
  }

  function Next(s: State, step: Step): State
    requires Enabled(s, step)
  {
    match step
    case Connect(device) => s.(queued := s.queued[device := 1])
    case Disconnect(device) => s.(queued := s.queued - {device})
    case Traffic(device, waiting) => s.(queued := s.queued[device := waiting])
    case FanoutBegin(origin, children) => BeginFanout(s, origin, children)
    case FanoutOne => FanOutOne(s)
    case FanoutEnd => EndFanout(s)
    case WakeSend(origin, devices) => SendWakes(s, origin, devices)
    case WakeRecord(origin) =>
      var (t, op) := Record(s, Wake, origin);
      Marked(t, op, s.woken[origin]).(woken := s.woken - {origin})
    case RecordOther(origin, delivered) =>
      var (t, op) := Record(s, Other, origin);
      Marked(t, op, delivered)
    case ReplayBegin(device) => BeginReplay(s, device)
    case ReplayOne(succeeds) => ReplayNext(s, succeeds)
    case ReplayEnd => s.(lock := Free)
    case StartSnapshot => s.(active := Some(s.nextSnapshot), nextSnapshot := s.nextSnapshot + 1)
    case EndSnapshot(snapshot) => if s.active == Some(snapshot) then s.(active := None) else s
    case DeleteOp(snapshot, op) => if op in s.ops && s.ops[op].snapshot == snapshot then WithoutOps(s, {op}) else s
    case DeleteSnapshot(snapshot) => WithoutOps(s, OpsIn(s, snapshot)).(active := if s.active == Some(snapshot)
        then None else s.active)
    case Restart => s.(lock := Free, woken := map[], queued := map[])
  }

  // ----- Invariant -----

  function Times(s: State, origin: Origin, device: Device): nat {
    s.sent[Send(origin, device)]
  }

  function Count(b: bool): nat {
    if b then 1 else 0
  }

  predicate InFanout(s: State, id: OpId) {
    s.lock.Fanning? && s.lock.op == Some(id)
  }

  /** The ledger is exact: a command or wake-up was sent to a device once if its row exists and never otherwise. */
  ghost predicate Exact(s: State) {
    forall id, d :: id in s.ops && s.ops[id].kind != Other && !InFanout(s, id) ==>
        Times(s, s.ops[id].origin, d) == Count((id, d) in s.rows)
  }

  ghost predicate Once(s: State) {
    forall origin, d :: Times(s, origin, d) <= 1 && (Times(s, origin, d) > 0 ==> origin in s.used)
  }

  ghost predicate OpsOk(s: State) {
    && (forall id :: id in s.ops ==> id < s.nextOp && s.ops[id].origin in s.used && s.ops[id].origin !in s.woken)
    && (forall row :: row in s.rows ==> row.0 < s.nextOp)
    && (forall i, j :: i in s.ops && j in s.ops && s.ops[i].origin == s.ops[j].origin ==> i == j)
  }

  ghost predicate WokenOk(s: State) {
    forall origin :: origin in s.woken ==> origin in s.used && forall d ::
        Times(s, origin, d) == Count(d in s.woken[origin])
  }

  ghost predicate FanoutOk(s: State) {
    s.lock.Fanning? ==>
      && s.lock.origin in s.used && s.lock.origin !in s.woken
      && Distinct(s.lock.todo) && (forall d :: d in s.lock.todo ==> d !in s.lock.delivered)
      && (forall d :: Times(s, s.lock.origin, d) == Count(d in s.lock.delivered))
      && (forall id :: id in s.ops && s.ops[id].origin == s.lock.origin ==> s.lock.op == Some(id))
      && (s.lock.op.Some? ==> s.lock.op.value < s.nextOp && (forall row :: row in s.rows ==> row.0 != s.lock.op.value)
                              && (s.lock.op.value in s.ops ==> s.ops[s.lock.op.value].origin == s.lock.origin))
  }

  ghost predicate ReplayOk(s: State) {
    s.lock.Replaying? ==>
      && (forall e :: e in s.lock.left ==> e.id < s.nextOp && e.op.origin in s.used && e.op.origin !in s.woken)
      && (forall e :: e in s.lock.left ==> forall id :: id in s.ops ==>
          (s.ops[id].origin == e.op.origin <==> id == e.id) && (id == e.id ==> s.ops[id] == e.op))
      && (forall i, j :: 0 <= i < j < |s.lock.left| ==>
          s.lock.left[i].op.origin != s.lock.left[j].op.origin && s.lock.left[i].id != s.lock.left[j].id)
      && (forall e :: e in s.lock.left && e.op.kind != Other ==>
          Times(s, e.op.origin, s.lock.device) == Count((e.id, s.lock.device) in s.rows))
  }

  ghost predicate Inv(s: State) {
    Exact(s) && Once(s) && OpsOk(s) && WokenOk(s) && FanoutOk(s) && ReplayOk(s)
  }

  ghost predicate Initial(s: State) {
    s == State(None, 0, map[], 0, {}, Free, map[], map[], {}, multiset{})
  }

  /** Deleting a snapshot takes no lock: it is quiet if no replay under way still holds an operation of it that already
      reached the device. */
  ghost predicate Quiet(s: State, step: Step) {
    step.DeleteSnapshot? && s.lock.Replaying? ==>
      forall e :: e in s.lock.left && e.op.kind != Other && e.id in s.ops && s.ops[e.id].snapshot == step.snapshot ==>
          (e.id, s.lock.device) !in s.rows
  }

  lemma {:induction false} OpsOfAre(ops: map<OpId, Op>, snapshot: SnapshotId, below: OpId)
    ensures forall e :: e in OpsOf(ops, snapshot, below) <==>
              e.id < below && e.id in ops && ops[e.id] == e.op && e.op.snapshot == snapshot
    ensures forall i, j :: 0 <= i < j < |OpsOf(ops, snapshot, below)| ==>
              OpsOf(ops, snapshot, below)[i].id < OpsOf(ops, snapshot, below)[j].id
  {
    if below > 0 {
      OpsOfAre(ops, snapshot, below - 1);
    }
  }

  /** Steps that neither send, mark nor record: the lock may be given up, connections and the active snapshot change. */
  ghost predicate Idles(s: State, t: State) {
    && t.ops == s.ops && t.nextOp == s.nextOp && t.rows == s.rows && t.used == s.used && t.sent == s.sent
    && (t.woken == s.woken || t.woken == map[])
    && (t.lock == s.lock || (t.lock.Free? && (s.lock.Fanning? && s.lock.op.Some? ==> s.lock.delivered == [])))
  }

  lemma QuietStepsIdle(s: State, step: Step)
    requires Enabled(s, step)
    requires step.Connect? || step.Disconnect? || step.Traffic? || step.ReplayEnd? || step.StartSnapshot?
             || step.EndSnapshot? || step.Restart?
    ensures Idles(s, Next(s, step))
  {
  }

  lemma IdlingKeepsTables(s: State, t: State)
    requires Inv(s) && Idles(s, t)
    ensures Exact(t) && Once(t) && OpsOk(t) && WokenOk(t)
  {
    assert forall origin, d :: Times(t, origin, d) == Times(s, origin, d);
    hide Times, ReplayOk, Distinct;
  }

  lemma IdlingKeepsLock(s: State, t: State)
    requires Inv(s) && Idles(s, t)
    ensures FanoutOk(t) && ReplayOk(t)
  {
    assert forall origin, d :: Times(t, origin, d) == Times(s, origin, d);
    hide Times, Distinct, Exact, Once, OpsOk, WokenOk;
  }

  lemma QuietStepsKeepInv(s: State, step: Step)
    requires Inv(s) && Enabled(s, step)
    requires step.Connect? || step.Disconnect? || step.Traffic? || step.ReplayEnd? || step.StartSnapshot?
             || step.EndSnapshot? || step.Restart?
    ensures Inv(Next(s, step))
  {
    hide Enabled, Exact, Once, OpsOk, WokenOk, FanoutOk, ReplayOk, Idles;
    QuietStepsIdle(s, step);
    IdlingKeepsTables(s, Next(s, step));
    IdlingKeepsLock(s, Next(s, step));
  }

  lemma BeginningKeepsTables(s: State, origin: Origin, children: seq<Device>)
    requires Inv(s) && Enabled(s, FanoutBegin(origin, children))
    ensures var t := BeginFanout(s, origin, children); Exact(t) && Once(t) && OpsOk(t) && WokenOk(t)
  {
    var t := BeginFanout(s, origin, children);
    assert forall o, d :: Times(t, o, d) == Times(s, o, d);
    hide Times, FanoutOk, ReplayOk, Distinct;
  }

  lemma FanoutBeginKeepsInv(s: State, origin: Origin, children: seq<Device>)
    requires Inv(s) && Enabled(s, FanoutBegin(origin, children))
    ensures Inv(Next(s, FanoutBegin(origin, children)))
  {
    BeginningKeepsTables(s, origin, children);
    var t := BeginFanout(s, origin, children);
    assert forall o, d :: Times(t, o, d) == Times(s, o, d);
    hide Times, Exact, ReplayOk, WokenOk;
    assert FanoutOk(t);
    hide FanoutOk, Once, OpsOk;
    assert ReplayOk(t) by { NotReplaying(t); }
  }

  lemma FreeLockIsOk(s: State)
    requires s.lock.Free?
    ensures FanoutOk(s) && ReplayOk(s)
  {
  }

  lemma NotReplaying(s: State)
    requires !s.lock.Replaying?
    ensures ReplayOk(s)
  {
  }

  lemma FanoutOneTimes(s: State)
    requires s.lock.Fanning? && s.lock.todo != []
    ensures forall o, d ::
              Times(FanOutOne(s), o, d) == Times(s, o, d)
                  + Count(CanSend(s, s.lock.todo[0]) && o == s.lock.origin && d == s.lock.todo[0])
    ensures var Fanning(origin, op, todo, delivered), t := s.lock, FanOutOne(s);
            && t.lock == Fanning(origin, op, todo[1..], if CanSend(s, todo[0]) then delivered + [todo[0]]
                                 else delivered)
            && t.ops == s.ops && t.nextOp == s.nextOp && t.rows == s.rows && t.used == s.used && t.woken == s.woken
  {
  }

  lemma FanoutOneKeepsTables(s: State)
    requires Inv(s) && Enabled(s, FanoutOne)
    ensures var t := FanOutOne(s); Exact(t) && Once(t) && OpsOk(t) && WokenOk(t) && ReplayOk(t)
  {
    FanoutOneTimes(s);
    hide Times, FanOutOne, CanSend, Distinct;
    assert s.lock.todo[0] in s.lock.todo;
  }

  lemma FanoutOneKeepsInv(s: State)
    requires Inv(s) && Enabled(s, FanoutOne)
    ensures Inv(Next(s, FanoutOne))
  {
    FanoutOneKeepsTables(s);
    FanoutOneTimes(s);
    hide Times, FanOutOne, CanSend, Exact, Once, OpsOk, WokenOk, ReplayOk;
    assert forall d :: d in s.lock.todo[1..] ==> d in s.lock.todo && d != s.lock.todo[0];
  }

  lemma FanoutEndKeepsInv(s: State)
    requires Inv(s) && Enabled(s, FanoutEnd)
    ensures Inv(Next(s, FanoutEnd))
  {
    var t := Next(s, FanoutEnd);
    assert forall o, d :: Times(t, o, d) == Times(s, o, d);
    MarkedRows(s, s.lock.op, set d | d in s.lock.delivered);
    hide Marked, Times, ReplayOk, Distinct;
    FreeLockIsOk(t);
  }

  /** Wake-ups of a new operation went to the devices, and nothing else changed. */
  ghost predicate WakesSent(s: State, t: State, origin: Origin, devices: set<Device>) {
    && (forall o, d :: Times(t, o, d) == Times(s, o, d) + Count(o == origin && d in devices))
    && t.ops == s.ops && t.rows == s.rows && t.lock == s.lock && t.nextOp == s.nextOp
    && t.used == s.used + {origin} && t.woken == s.woken[origin := devices]
  }

  lemma WakesKeepTables(s: State, t: State, origin: Origin, devices: set<Device>)
    requires Inv(s) && origin !in s.used && WakesSent(s, t, origin, devices)
    ensures Exact(t) && Once(t) && OpsOk(t) && WokenOk(t)
  {
    hide Times, FanoutOk, ReplayOk;
  }

  lemma WakesKeepLock(s: State, t: State, origin: Origin, devices: set<Device>)
    requires Inv(s) && origin !in s.used && WakesSent(s, t, origin, devices)
    ensures FanoutOk(t) && ReplayOk(t)
  {
    hide Times, Exact, OpsOk, WokenOk, Distinct;
    assert forall d :: Times(s, origin, d) == 0;
    assert FanoutOk(t) by { hide ReplayOk, Once; }
    assert ReplayOk(t) by { hide FanoutOk, Once; }
  }

  lemma WakeSendKeepsInv(s: State, origin: Origin, devices: set<Device>)
    requires Inv(s) && Enabled(s, WakeSend(origin, devices))
    ensures Inv(Next(s, WakeSend(origin, devices)))
  {
    var t := SendWakes(s, origin, devices);
    assert WakesSent(s, t, origin, devices);
    hide WakesSent, Exact, Once, OpsOk, WokenOk, FanoutOk, ReplayOk;
    WakesKeepTables(s, t, origin, devices);
    WakesKeepLock(s, t, origin, devices);
  }

  /** With the lock free, an operation may have been recorded, and then its devices have rows; nothing was sent. */
  ghost predicate Notes(s: State, t: State, kind: Kind, origin: Origin, devices: set<Device>) {
    && s.lock.Free? && t.lock.Free? && (forall o, d :: Times(t, o, d) == Times(s, o, d))
    && t.used == s.used + {origin} && t.woken == s.woken - {origin}
    && (|| (t.ops == s.ops && t.nextOp == s.nextOp && t.rows == s.rows)
        || (exists snapshot ::
              && t.ops == s.ops[s.nextOp := Op(snapshot, kind, origin)] && t.nextOp == s.nextOp + 1
              && forall row :: row in t.rows <==> row in s.rows || (row.0 == s.nextOp && row.1 in devices)))
  }

  lemma NotingKeepsExact(s: State, t: State, kind: Kind, origin: Origin, devices: set<Device>)
    requires Inv(s) && Notes(s, t, kind, origin, devices)
    requires kind != Other ==> forall d :: Times(s, origin, d) == Count(d in devices)
    ensures Exact(t)
  {
    hide Times, Once, WokenOk, FanoutOk, ReplayOk;
  }

  lemma NotingKeepsTables(s: State, t: State, kind: Kind, origin: Origin, devices: set<Device>)
    requires Inv(s) && Notes(s, t, kind, origin, devices)
    requires origin in s.used ==> origin in s.woken
    ensures Once(t) && OpsOk(t) && WokenOk(t)
  {
    hide Times, Exact, FanoutOk, ReplayOk;
  }

  lemma NotingKeepsInv(s: State, t: State, kind: Kind, origin: Origin, devices: set<Device>)
    requires Inv(s) && Notes(s, t, kind, origin, devices)
    requires origin in s.used ==> origin in s.woken
    requires kind != Other ==> forall d :: Times(s, origin, d) == Count(d in devices)
    ensures Inv(t)
  {
    NotingKeepsExact(s, t, kind, origin, devices);
    NotingKeepsTables(s, t, kind, origin, devices);
    FreeLockIsOk(t);
    hide Times, Exact, Once, OpsOk, WokenOk, FanoutOk, ReplayOk;
  }

  lemma WakeRecordKeepsInv(s: State, origin: Origin)
    requires Inv(s) && Enabled(s, WakeRecord(origin))
    ensures Inv(Next(s, WakeRecord(origin)))
  {
    var t := Next(s, WakeRecord(origin));
    assert Notes(s, t, Wake, origin, s.woken[origin]) by {
      hide Inv;
      MarkedRows(Record(s, Wake, origin).0, Record(s, Wake, origin).1, s.woken[origin]);
    }
    assert forall d :: Times(s, origin, d) == Count(d in s.woken[origin]) by { hide Notes; }
    hide *;
    NotingKeepsInv(s, t, Wake, origin, s.woken[origin]);
  }

  lemma RecordOtherKeepsInv(s: State, origin: Origin, delivered: set<Device>)
    requires Inv(s) && Enabled(s, RecordOther(origin, delivered))
    ensures Inv(Next(s, RecordOther(origin, delivered)))
  {
    var t := Next(s, RecordOther(origin, delivered));
    assert origin !in s.woken && origin !in s.used;
    assert Notes(s, t, Other, origin, delivered) by {
      hide Inv;
      MarkedRows(Record(s, Other, origin).0, Record(s, Other, origin).1, delivered);
    }
    hide *;
    NotingKeepsInv(s, t, Other, origin, delivered);
  }

  lemma ReplayBeginKeepsInv(s: State, device: Device)
    requires Inv(s) && Enabled(s, ReplayBegin(device))
    ensures Inv(Next(s, ReplayBegin(device)))
  {
    var t := Next(s, ReplayBegin(device));
    OpsOfAre(s.ops, s.active.value, s.nextOp);
    hide OpsOf;
    assert forall o, d :: Times(t, o, d) == Times(s, o, d);
  }

  predicate Executed(s: State, succeeds: bool)
    requires s.lock.Replaying? && s.lock.left != []
  {
    && (s.lock.left[0].id, s.lock.device) !in s.rows
    && if s.lock.left[0].op.kind == Command then CanSend(s, s.lock.device) else succeeds
  }

  lemma ReplayOneEffect(s: State, succeeds: bool)
    requires s.lock.Replaying? && s.lock.left != []
    ensures var t, Replaying(device, left) := ReplayNext(s, succeeds), s.lock;
            && (forall o, d ::
                Times(t, o, d) == Times(s, o, d)
                    + Count(Executed(s, succeeds) && left[0].op.kind != Other && o == left[0].op.origin && d == device))
            && (forall row :: row in t.rows <==>
                row in s.rows || (Executed(s, succeeds) && row == (left[0].id, device)))
            && t.lock == Replaying(device, left[1..]) && t.ops == s.ops && t.nextOp == s.nextOp && t.woken == s.woken
               && t.used == s.used
  {
    if Executed(s, succeeds) {
      ExecutedSends(s.(lock := Replaying(s.lock.device, s.lock.left[1..])), s.lock.left[0].op, s.lock.device, succeeds);
      hide Execute;
    }
  }

  lemma ExecutedSends(s: State, op: Op, device: Device, succeeds: bool)
    requires if op.kind == Command then CanSend(s, device) else succeeds
    ensures var (t, ok) := Execute(s, op, device, succeeds);
            && ok && (forall o, d ::
                      Times(t, o, d) == Times(s, o, d) + Count(op.kind != Other && o == op.origin && d == device))
            && t == s.(queued := t.queued, sent := t.sent)
  {
  }

  lemma ReplayOneKeepsTables(s: State, t: State, succeeds: bool)
    requires Inv(s) && s.lock.Replaying? && s.lock.left != [] && t == ReplayNext(s, succeeds)
    ensures Once(t) && OpsOk(t) && WokenOk(t) && Exact(t)
  {
    ReplayOneEffect(s, succeeds);
    hide Executed, ReplayNext, Times;
    assert s.lock.left[0] in s.lock.left;
  }

  lemma ReplayOneKeepsRest(s: State, t: State, succeeds: bool)
    requires Inv(s) && s.lock.Replaying? && s.lock.left != [] && t == ReplayNext(s, succeeds)
    ensures ReplayOk(t) && FanoutOk(t)
  {
    var left := s.lock.left;
    ReplayOneEffect(s, succeeds);
    hide Executed, ReplayNext, Times, Exact, Once, OpsOk, WokenOk;
    assert forall e :: e in left[1..] ==> e in left && e.op.origin != left[0].op.origin && e.id != left[0].id;
  }

  lemma ReplayOneKeepsInv(s: State, succeeds: bool)
    requires Inv(s) && Enabled(s, ReplayOne(succeeds))
    ensures Inv(ReplayNext(s, succeeds))
  {
    hide Exact, Once, OpsOk, WokenOk, FanoutOk, ReplayOk, ReplayNext;
    ReplayOneKeepsTables(s, ReplayNext(s, succeeds), succeeds);
    ReplayOneKeepsRest(s, ReplayNext(s, succeeds), succeeds);
  }

  lemma DeleteOpKeepsInv(s: State, snapshot: SnapshotId, op: OpId)
    requires Inv(s) && Enabled(s, DeleteOp(snapshot, op))
    ensures Inv(Next(s, DeleteOp(snapshot, op)))
  {
    var t := Next(s, DeleteOp(snapshot, op));
    assert forall o, d :: Times(t, o, d) == Times(s, o, d);
  }

  lemma QuietDeletionKeepsInv(s: State, snapshot: SnapshotId)
    requires Inv(s) && Quiet(s, DeleteSnapshot(snapshot))
    ensures Inv(Next(s, DeleteSnapshot(snapshot)))
  {
    var t := Next(s, DeleteSnapshot(snapshot));
    assert forall o, d :: Times(t, o, d) == Times(s, o, d);
  }

  lemma StepKeepsInv(s: State, step: Step)
    requires Inv(s) && Enabled(s, step) && Quiet(s, step)
    ensures Inv(Next(s, step))
  {
    hide Inv, Quiet;
    match step
    case FanoutBegin(origin, children) => FanoutBeginKeepsInv(s, origin, children);
    case FanoutOne => FanoutOneKeepsInv(s);
    case FanoutEnd => FanoutEndKeepsInv(s);
    case WakeSend(origin, devices) => WakeSendKeepsInv(s, origin, devices);
    case WakeRecord(origin) => WakeRecordKeepsInv(s, origin);
    case RecordOther(origin, delivered) => RecordOtherKeepsInv(s, origin, delivered);
    case ReplayBegin(device) => ReplayBeginKeepsInv(s, device);
    case ReplayOne(succeeds) => ReplayOneKeepsInv(s, succeeds);
    case DeleteOp(snapshot, op) => DeleteOpKeepsInv(s, snapshot, op);
    case DeleteSnapshot(snapshot) => QuietDeletionKeepsInv(s, snapshot);
    case _ => QuietStepsKeepInv(s, step);
  }

  // ----- Runs -----

  ghost predicate Follows(states: seq<State>, steps: seq<Step>) {
    && |states| == |steps| + 1
    && forall i :: 0 <= i < |steps| ==> Enabled(states[i], steps[i]) && states[i + 1] == Next(states[i], steps[i])
  }

  ghost predicate IsRun(states: seq<State>, steps: seq<Step>) {
    Follows(states, steps) && Initial(states[0])
  }

  ghost predicate QuietRun(states: seq<State>, steps: seq<Step>) {
    IsRun(states, steps) && forall i :: 0 <= i < |steps| ==> Quiet(states[i], steps[i])
  }

  lemma {:induction false} RunKeepsInv(states: seq<State>, steps: seq<Step>, n: nat)
    requires QuietRun(states, steps) && n < |states|
    ensures Inv(states[n])
  {
    if n > 0 {
      RunKeepsInv(states, steps, n - 1);
      hide Inv, Next, Quiet;
      StepKeepsInv(states[n - 1], steps[n - 1]);
    }
  }

  /** Ledger exactness: with the lock free, every recorded command or wake-up was sent to a device exactly as often as
      the ledger says, once or never; and no operation ever reaches a device twice. */
  lemma LedgerIsExact(states: seq<State>, steps: seq<Step>)
    requires QuietRun(states, steps)
    ensures var s := states[|steps|];
            && (s.lock.Free? ==> forall id, d :: id in s.ops && s.ops[id].kind != Other ==>
                s.sent[Send(s.ops[id].origin, d)] == Count((id, d) in s.rows))
            && (forall send :: s.sent[send] <= 1)
  {
    RunKeepsInv(states, steps, |steps|);
    var s := states[|steps|];
    forall send ensures s.sent[send] <= 1 {
      assert Times(s, send.origin, send.device) <= 1;
    }
  }

  lemma Extended(states: seq<State>, steps: seq<Step>, step: Step) returns (more: seq<State>, moreSteps: seq<Step>)
    requires Follows(states, steps) && Enabled(states[|steps|], step)
    ensures |more| == |moreSteps| + 1 && Follows(more, moreSteps) && more[0] == states[0] && |moreSteps| == |steps| + 1
            && more[|moreSteps|] == Next(states[|steps|], step)
    ensures more == states + [Next(states[|steps|], step)] && moreSteps == steps + [step]
  {
    hide Enabled, Next;
    more, moreSteps := states + [Next(states[|steps|], step)], steps + [step];
    forall i | 0 <= i < |moreSteps|
      ensures Enabled(more[i], moreSteps[i]) && more[i + 1] == Next(more[i], moreSteps[i])
    {
      if i < |steps| {
        assert more[i] == states[i] && more[i + 1] == states[i + 1] && moreSteps[i] == steps[i];
      }
    }
  }

  const ONLY_OP: Op := Op(0, Command, Local(0))

  /** A snapshot with one command under way to device 1. */
  function OneCommand(todo: seq<Device>, delivered: seq<Device>, waiting: nat): State {
    State(Some(0), 1, map[0 := ONLY_OP], 1, {}, Fanning(Local(0), Some(0), todo, delivered), map[], map[1 := waiting],
          {Local(0)},
          if delivered == [] then multiset{} else multiset{Send(Local(0), 1)})
  }

  lemma CommandUnderWay() returns (states: seq<State>, steps: seq<Step>)
    ensures QuietRun(states, steps) && states[|steps|] == OneCommand([1], [], 1)
  {
    var s0 := State(None, 0, map[], 0, {}, Free, map[], map[], {}, multiset{});
    var s1 := s0.(active := Some(0), nextSnapshot := 1);
    var s2 := s1.(queued := map[1 := 1]);
    assert Next(s0, StartSnapshot) == s1 && Next(s1, Connect(1)) == s2;
    assert BeginFanout(s2, Local(0), [1]) == OneCommand([1], [], 1);
    states, steps := [s0, s1, s2, OneCommand([1], [], 1)], [StartSnapshot, Connect(1), FanoutBegin(Local(0), [1])];
  }

  lemma CommandDelivered()
    ensures FanOutOne(OneCommand([1], [], 1)) == OneCommand([], [1], 2)
    ensures EndFanout(OneCommand([], [1], 2)) == OneCommand([], [1], 2).(rows := {(0, 1)}, lock := Free)
    ensures BeginReplay(OneCommand([], [1], 2).(rows := {(0, 1)}, lock := Free), 1)
            == OneCommand([], [1], 2).(rows := {(0, 1)}, lock := Replaying(1, [Entry(0, ONLY_OP)]))
  {
    var s, t := OneCommand([1], [], 1), OneCommand([], [1], 2);
    assert CanSend(s, 1) && s.lock.todo[1..] == [] && s.lock.delivered + [1] == [1];
    assert TrySend(s, Local(0), 1).sent == t.sent && TrySend(s, Local(0), 1).queued == t.queued;
    assert (set d | d in t.lock.delivered) == {1};
    MarkedRows(t, Some(0), {1});
    assert Marked(t, Some(0), {1}).rows == {(0, 1)};
    assert OpsOf(t.ops, 0, 1) == OpsOf(t.ops, 0, 0) + [Entry(0, ONLY_OP)] == [Entry(0, ONLY_OP)];
  }

  /** A deletion that is not quiet really does harm: the operation is sent to its device a second time. */
  lemma DeletionDuringReplayCanSendTwice() returns (states: seq<State>, steps: seq<Step>)
    ensures IsRun(states, steps) && states[|steps|].sent[Send(Local(0), 1)] == 2
  {
    states, steps := CommandUnderWay();
    CommandDelivered();
    hide FanOutOne, EndFanout, BeginReplay;
    states, steps := Extended(states, steps, FanoutOne);
    states, steps := Extended(states, steps, FanoutEnd);
    states, steps := Extended(states, steps, ReplayBegin(1));
    var s := states[|steps|];
    var t := Next(s, DeleteSnapshot(0));
    assert 0 in OpsIn(s, 0) && t.rows == {} && t.lock == s.lock && CanSend(t, 1);
    states, steps := Extended(states, steps, DeleteSnapshot(0));
    states, steps := Extended(states, steps, ReplayOne(true));
    assert states[|steps|].sent == s.sent + multiset{Send(Local(0), 1)};
  }

  // ----- The exact condition -----

  ghost predicate QuietSteps(states: seq<State>, steps: seq<Step>) {
    Follows(states, steps) && forall i :: 0 <= i < |steps| ==> Quiet(states[i], steps[i])
  }

  /** Some steps lead from `s` to `t`, all of them quiet. */
  ghost predicate QuietlyReachable(s: State, t: State) {
    exists states, steps :: QuietSteps(states, steps) && states[0] == s && states[|steps|] == t
  }

  lemma QuietlyReachesItself(s: State)
    ensures QuietlyReachable(s, s)
  {
    var states: seq<State>, steps: seq<Step> := [s], [];
    assert QuietSteps(states, steps);
  }

  lemma QuietlyReachesNext(s: State, t: State, step: Step)
    requires QuietlyReachable(s, t) && Enabled(t, step) && Quiet(t, step)
    ensures QuietlyReachable(s, Next(t, step))
  {
    hide Enabled, Next, Quiet;
    var states, steps :| QuietSteps(states, steps) && states[0] == s && states[|steps|] == t;
    var more, moreSteps := states + [Next(t, step)], steps + [step];
    forall i | 0 <= i < |moreSteps|
      ensures Enabled(more[i], moreSteps[i]) && more[i + 1] == Next(more[i], moreSteps[i])
              && Quiet(more[i], moreSteps[i])
    {
      if i < |steps| {
        assert more[i] == states[i] && more[i + 1] == states[i + 1] && moreSteps[i] == steps[i];
      }
    }
    assert QuietSteps(more, moreSteps);
  }

  lemma {:induction false} QuietStepsKeepAll(states: seq<State>, steps: seq<Step>, n: nat)
    requires QuietSteps(states, steps) && n < |states| && Inv(states[0])
    ensures Inv(states[n])
  {
    hide Inv, Enabled, Next, Quiet;
    if n > 0 {
      QuietStepsKeepAll(states, steps, n - 1);
      StepKeepsInv(states[n - 1], steps[n - 1]);
    }
  }

  ghost predicate SentTwice(s: State) {
    exists origin, d :: Times(s, origin, d) > 1
  }

  /** Without any further disturbance, some operation can reach a device twice. */
  ghost predicate CanSendTwice(s: State) {
    exists t :: QuietlyReachable(s, t) && SentTwice(t)
  }

  /** Deleting a snapshot, which takes no lock, lets some operation reach a device twice if and only if it is not quiet:
      a replay under way holds an operation of it that the ledger already has for the device. */
  lemma DeletionIsSafeExactlyWhenQuiet(s: State, snapshot: SnapshotId)
    requires Inv(s)
    ensures CanSendTwice(Next(s, DeleteSnapshot(snapshot))) <==> !Quiet(s, DeleteSnapshot(snapshot))
  {
    var t := Next(s, DeleteSnapshot(snapshot));
    if Quiet(s, DeleteSnapshot(snapshot)) {
      QuietDeletionKeepsInv(s, snapshot);
      if CanSendTwice(t) {
        var u :| QuietlyReachable(t, u) && SentTwice(u);
        var states, steps :| QuietSteps(states, steps) && states[0] == t && states[|steps|] == u;
        QuietStepsKeepAll(states, steps, |steps|);
        SoundIsNotTwice(u);
      }
    } else {
      var e :| e in s.lock.left && e.op.kind != Other && e.id in s.ops && s.ops[e.id].snapshot == snapshot
          && (e.id, s.lock.device) in s.rows;
      var k :| 0 <= k < |s.lock.left| && s.lock.left[k] == e;
      DeletedIsForgotten(s, snapshot, k);
      QuietlyReachesItself(t);
      hide Next, Inv, QuietlyReachable;
      var u := ForgottenIsSentAgain(t, t, k);
    }
  }

  lemma SoundIsNotTwice(s: State)
    requires Inv(s)
    ensures !SentTwice(s)
  {
    hide Exact, OpsOk, WokenOk, FanoutOk, ReplayOk, Times;
  }

  /** Entry k of the replay was sent to its device, yet has no row; no entry before it has its id. */
  ghost predicate Forgotten(s: State, k: nat) {
    && s.lock.Replaying? && k < |s.lock.left| && s.lock.left[k].op.kind != Other
    && (s.lock.left[k].id, s.lock.device) !in s.rows && Times(s, s.lock.left[k].op.origin, s.lock.device) >= 1
    && forall i :: 0 <= i < k ==> s.lock.left[i].id != s.lock.left[k].id
  }

  lemma DeletedIsForgotten(s: State, snapshot: SnapshotId, k: nat)
    requires Inv(s) && s.lock.Replaying? && k < |s.lock.left| && s.lock.left[k].op.kind != Other
             && s.lock.left[k].id in s.ops
    requires s.ops[s.lock.left[k].id].snapshot == snapshot && (s.lock.left[k].id, s.lock.device) in s.rows
    ensures Forgotten(Next(s, DeleteSnapshot(snapshot)), k)
  {
    var t, e := Next(s, DeleteSnapshot(snapshot)), s.lock.left[k];
    assert t.lock == s.lock && t.sent == s.sent && e in s.lock.left;
    assert Times(t, e.op.origin, s.lock.device) == Times(s, e.op.origin, s.lock.device);
    assert e.id in OpsIn(s, snapshot);
  }

  lemma {:induction false} ForgottenIsSentAgain(s0: State, s: State, k: nat) returns (t: State)
    requires QuietlyReachable(s0, s) && Forgotten(s, k)
    ensures QuietlyReachable(s0, t) && SentTwice(t)
    decreases k
  {
    hide QuietlyReachable;
    if k > 0 {
      QuietlyReachesNext(s0, s, ReplayOne(false));
      PassedOver(s, k);
      hide Forgotten, SentTwice, ReplayNext;
      t := ForgottenIsSentAgain(s0, ReplayNext(s, false), k - 1);
    } else {
      var u := WithRoom(s0, s);
      QuietlyReachesNext(s0, u, ReplayOne(true));
      t := ReplayNext(u, true);
      ReplayOneEffect(u, true);
      hide ReplayNext, Quiet;
      assert Times(t, s.lock.left[0].op.origin, s.lock.device) > 1;
    }
  }

  lemma PassedOver(s: State, k: nat)
    requires Forgotten(s, k) && k > 0
    ensures Forgotten(ReplayNext(s, false), k - 1)
  {
    ReplayOneEffect(s, false);
    hide ReplayNext, Executed;
    assert s.lock.left[k] == s.lock.left[1..][k - 1];
  }

  /** The device connects, or its buffer drains. */
  lemma WithRoom(s0: State, s: State) returns (t: State)
    requires QuietlyReachable(s0, s) && Forgotten(s, 0)
    ensures QuietlyReachable(s0, t) && Forgotten(t, 0) && CanSend(t, t.lock.device) && t.lock == s.lock
  {
    var device := s.lock.device;
    var step := if device in s.queued then Traffic(device, 0) else Connect(device);
    QuietlyReachesNext(s0, s, step);
    hide QuietlyReachable;
    t := Next(s, step);
    assert Times(t, s.lock.left[0].op.origin, device) == Times(s, s.lock.left[0].op.origin, device);
  }

  // ----- The manager itself -----

  /** A fan-out from its first send to its last, with nothing in between. */
  ghost function FannedOut(s: State, n: nat): (t: State)
    requires s.lock.Fanning? && n <= |s.lock.todo|
    ensures t.lock.Fanning? && t.lock.todo == s.lock.todo[n..] && t.lock.op == s.lock.op
  {
    if n == 0 then s else FanOutOne(FannedOut(s, n - 1))
  }

  /** A replay's first n operations. */
  ghost function Replayed(s: State, n: nat, succeeds: OpId -> bool): (t: State)
    requires s.lock.Replaying? && n <= |s.lock.left|
    ensures t.lock == Replaying(s.lock.device, s.lock.left[n..])
  {
    if n == 0 then s else ReplayNext(Replayed(s, n - 1, succeeds), succeeds(s.lock.left[n - 1].id))
  }

  ghost predicate Reachable(s: State, t: State) {
    exists states, steps :: Follows(states, steps) && states[0] == s && states[|steps|] == t
  }

  lemma StaysReachable(s: State, t: State, step: Step)
    requires Reachable(s, t) && Enabled(t, step)
    ensures Reachable(s, Next(t, step))
  {
    var states, steps :| Follows(states, steps) && states[0] == s && states[|steps|] == t;
    hide Enabled, Next, Follows;
    states, steps := Extended(states, steps, step);
  }

  lemma {:induction false} FannedOutIsReachable(s: State, start: State, n: nat)
    requires start.lock.Fanning? && n <= |start.lock.todo| && Reachable(s, start)
    ensures Reachable(s, FannedOut(start, n)) && FannedOut(start, n).lock.op == start.lock.op
  {
    if n > 0 {
      FannedOutIsReachable(s, start, n - 1);
      hide Reachable;
      StaysReachable(s, FannedOut(start, n - 1), FanoutOne);
    }
  }

  lemma ReplayOneIsReachable(s: State, t: State, succeeds: bool)
    requires t.lock.Replaying? && t.lock.left != [] && Reachable(s, t)
    ensures Reachable(s, ReplayNext(t, succeeds))
  {
    hide Reachable, ReplayNext;
    StaysReachable(s, t, ReplayOne(succeeds));
  }

  lemma {:induction false} ReplayedIsReachable(s: State, start: State, n: nat, succeeds: OpId -> bool)
    requires start.lock.Replaying? && n <= |start.lock.left| && Reachable(s, start)
    ensures Reachable(s, Replayed(start, n, succeeds))
  {
    if n > 0 {
      ReplayedIsReachable(s, start, n - 1, succeeds);
      hide Reachable, ReplayNext;
      ReplayOneIsReachable(s, Replayed(start, n - 1, succeeds), succeeds(start.lock.left[n - 1].id));
    }
  }

  /** From s to t, a fan-out tried the given devices and served exactly those with room in their buffers. */
  ghost predicate Served(s: State, t: State, tried: seq<Device>)
    requires s.lock.Fanning? && t.lock.Fanning?
  {
    && (forall d :: d in t.lock.delivered <==> d in tried && CanSend(s, d))
    && t.queued.Keys == s.queued.Keys
       && (forall d :: d in s.queued ==> t.queued[d] == s.queued[d] + Count(d in t.lock.delivered))
    && (forall o, d :: Times(t, o, d) == Times(s, o, d) + Count(o == s.lock.origin && d in t.lock.delivered))
    && t.(lock := s.lock, queued := s.queued, sent := s.sent) == s && t.lock.origin == s.lock.origin
  }

  lemma OneMoreServed(s: State, t: State, tried: seq<Device>)
    requires s.lock.Fanning? && t.lock.Fanning? && t.lock.todo != [] && Served(s, t, tried) && t.lock.todo[0] !in tried
    ensures Served(s, FanOutOne(t), tried + [t.lock.todo[0]])
  {
    var u, device := FanOutOne(t), t.lock.todo[0];
    assert CanSend(t, device) <==> CanSend(s, device);
    assert forall o, d ::
             Times(u, o, d) == Times(t, o, d) + Count(CanSend(s, device) && o == s.lock.origin && d == device);
  }

  lemma {:induction false} FannedOutEffect(s: State, n: nat)
    requires s.lock.Fanning? && n <= |s.lock.todo| && Distinct(s.lock.todo) && s.lock.delivered == []
    ensures Served(s, FannedOut(s, n), s.lock.todo[..n])
  {
    hide Served, FanOutOne, Distinct;
    if n == 0 {
      NobodyServed(s);
    } else {
      FannedOutEffect(s, n - 1);
      NewToFanout(s.lock.todo, n - 1);
      OneMoreServed(s, FannedOut(s, n - 1), s.lock.todo[..n - 1]);
    }
  }

  lemma NobodyServed(s: State)
    requires s.lock.Fanning? && s.lock.delivered == []
    ensures Served(s, s, s.lock.todo[..0])
  {
    assert forall d :: !(d in s.lock.delivered);
    assert Count(false) == 0;
    forall o, d ensures Times(s, o, d) == Times(s, o, d) + Count(o == s.lock.origin && d in s.lock.delivered) {
      assert !(o == s.lock.origin && d in s.lock.delivered);
    }
  }

  lemma NewToFanout(todo: seq<Device>, n: nat)
    requires n < |todo| && Distinct(todo)
    ensures todo[..n + 1] == todo[..n] + [todo[n]] && todo[n] !in todo[..n] && todo[n..][0] == todo[n]
  {
  }

  /** What the first n operations of a replay leave behind: no row disappears or belongs to another device, a command
      the device still lacks means the device cannot take one, and any other operation has its row if it succeeded. */
  ghost predicate ReplayLeaves(s: State, t: State, n: nat, succeeds: OpId -> bool)
    requires s.lock.Replaying? && n <= |s.lock.left|
  {
    var device, left := s.lock.device, s.lock.left;
    && s.rows <= t.rows && t.ops == s.ops && (!CanSend(s, device) ==> !CanSend(t, device))
    && (forall row :: row in t.rows - s.rows ==>
        row.1 == device && exists i ::
            0 <= i < n && left[i].id == row.0 && (left[i].op.kind == Command || succeeds(row.0)))
    && (forall i :: 0 <= i < n && left[i].op.kind != Command && succeeds(left[i].id) ==> (left[i].id, device) in t.rows)
    && (forall i :: 0 <= i < n && left[i].op.kind == Command && (left[i].id, device) !in t.rows ==> !CanSend(t, device))
  }

  lemma {:induction false} ReplayedEffect(s: State, n: nat, succeeds: OpId -> bool)
    requires s.lock.Replaying? && n <= |s.lock.left|
    ensures ReplayLeaves(s, Replayed(s, n, succeeds), n, succeeds)
  {
    if n > 0 {
      hide ReplayLeaves, ReplayNext, CanSend;
      ReplayedEffect(s, n - 1, succeeds);
      var before := Replayed(s, n - 1, succeeds);
      assert before.lock.left[0] == s.lock.left[n - 1];
      ReplayNextKeeps(before, succeeds(s.lock.left[n - 1].id));
      ReplayLeavesMore(s, before, Replayed(s, n, succeeds), n, succeeds);
    }
  }

  lemma ReplayLeavesMore(s: State, t: State, u: State, n: nat, succeeds: OpId -> bool)
    requires s.lock.Replaying? && 0 < n <= |s.lock.left| && ReplayLeaves(s, t, n - 1, succeeds)
    requires var e, device := s.lock.left[n - 1], s.lock.device;
             && t.rows <= u.rows && u.ops == t.ops && (!CanSend(t, device) ==> !CanSend(u, device))
             && (forall row :: row in u.rows - t.rows ==>
                 row == (e.id, device) && (e.op.kind == Command || succeeds(e.id)))
             && (e.op.kind != Command && succeeds(e.id) ==> (e.id, device) in u.rows)
             && (e.op.kind == Command && (e.id, device) !in u.rows ==> !CanSend(u, device))
    ensures ReplayLeaves(s, u, n, succeeds)
  {
    hide CanSend;
    var device, left := s.lock.device, s.lock.left;
    forall row | row in u.rows - s.rows
      ensures row.1 == device && exists i ::
                0 <= i < n && left[i].id == row.0 && (left[i].op.kind == Command || succeeds(row.0))
    {
      if row in t.rows {
        var i :| 0 <= i < n - 1 && left[i].id == row.0 && (left[i].op.kind == Command || succeeds(row.0));
      } else {
        assert row in u.rows - t.rows;
        assert left[n - 1].id == row.0 && (left[n - 1].op.kind == Command || succeeds(row.0));
      }
    }
  }

  lemma ReplayNextKeeps(s: State, succeeds: bool)
    requires s.lock.Replaying? && s.lock.left != []
    ensures var t, device, e := ReplayNext(s, succeeds), s.lock.device, s.lock.left[0];
            && s.rows <= t.rows && (forall row :: row in t.rows - s.rows ==>
                                    row == (e.id, device) && (e.op.kind == Command || succeeds))
            && (e.op.kind != Command && succeeds ==> (e.id, device) in t.rows)
            && (e.op.kind == Command && (e.id, device) !in t.rows ==> !CanSend(t, device))
            && (!CanSend(s, device) ==> !CanSend(t, device))
            && t.ops == s.ops
  {
  }

  /** What stays of the operations and their rows: all, or all but those of `gone`. */
  ghost predicate Keeps(s: State, t: State, gone: set<OpId>) {
    && (forall id :: id in t.ops <==> id in s.ops && id !in gone)
       && (forall id :: id in t.ops ==> t.ops[id] == s.ops[id])
    && (forall row :: row in t.rows <==> row in s.rows && row.0 !in gone)
    && t.sent == s.sent && t.queued == s.queued && t.lock == s.lock
  }

  /** A new snapshot takes over, and ending touches the active one alone; neither forgets anything. */
  lemma SnapshotsEffect(s: State, snapshot: SnapshotId)
    requires s.lock.Free?
    ensures var t := Next(s, StartSnapshot); Keeps(s, t, {}) && t.active == Some(s.nextSnapshot)
    ensures var t := Next(s, EndSnapshot(snapshot));
            Keeps(s, t, {}) && t.active == if s.active == Some(snapshot) then None else s.active
  {
  }

  /** Deleting forgets exactly the operation named, if it is in that snapshot, or all of a snapshot's. */
  lemma DeletionsEffect(s: State, snapshot: SnapshotId, op: OpId)
    requires s.lock.Free?
    ensures var t := Next(s, DeleteOp(snapshot, op));
            && Keeps(s, t, if op in s.ops && s.ops[op].snapshot == snapshot then {op} else {})
            && t.active == s.active
    ensures var t := Next(s, DeleteSnapshot(snapshot));
            && Keeps(s, t, set id | id in s.ops && s.ops[id].snapshot == snapshot)
            && t.active == if s.active == Some(snapshot) then None else s.active
  {
    WithoutOpsKeeps(s, {op});
    WithoutOpsKeeps(s, OpsIn(s, snapshot));
    NothingGone(s);
    var t := Next(s, DeleteSnapshot(snapshot));
    assert t == WithoutOps(s, OpsIn(s, snapshot)).(active := t.active);
    hide WithoutOps;
    KeepsWhateverIsActive(s, WithoutOps(s, OpsIn(s, snapshot)), OpsIn(s, snapshot), t.active);
    hide Keeps;
  }

  lemma NothingGone(s: State)
    ensures Keeps(s, s, {})
  {
  }

  lemma KeepsWhateverIsActive(s: State, t: State, gone: set<OpId>, active: Option<SnapshotId>)
    requires Keeps(s, t, gone)
    ensures Keeps(s, t.(active := active), gone)
  {
  }

  lemma WithoutOpsKeeps(s: State, gone: set<OpId>)
    ensures Keeps(s, WithoutOps(s, gone), gone)
    ensures WithoutOps(s, gone) == s.(ops := WithoutOps(s, gone).ops, rows := WithoutOps(s, gone).rows)
  {
  }

  /** Wakes go out at once, one to each device, and are recorded with a row for each if a snapshot is active by then. */
  lemma WakesAreSentAndRecorded(s: State, origin: Origin, devices: set<Device>)
    requires s.lock.Free? && origin !in s.used
    ensures var t := Next(s, WakeSend(origin, devices));
            && (forall o, d :: Times(t, o, d) == Times(s, o, d) + Count(o == origin && d in devices))
            && Enabled(t, WakeRecord(origin))
            && var u := Next(t, WakeRecord(origin));
               Recorded(s, u, Wake, origin, devices) && u.sent == t.sent && origin !in u.woken
  {
    var sends := set d | d in devices :: Send(origin, d);
    assert forall o, d :: multiset(sends)[Send(o, d)] == Count(o == origin && d in devices);
    var t := Next(s, WakeSend(origin, devices));
    var (recorded, op) := Record(t, Wake, origin);
    MarkedRows(recorded, op, devices);
    MarkedOnlyRows(recorded, op, devices);
    hide Marked;
  }

  /** With a snapshot active, an operation is recorded under it, with a row for exactly the given devices; otherwise
      nothing is. */
  ghost predicate Recorded(s: State, t: State, kind: Kind, origin: Origin, devices: set<Device>) {
    && t.active == s.active
    && if s.active.Some? then
         && t.ops == s.ops[s.nextOp := Op(s.active.value, kind, origin)] && t.nextOp == s.nextOp + 1
         && forall row :: row in t.rows <==> row in s.rows || (row.0 == s.nextOp && row.1 in devices)
       else t.ops == s.ops && t.nextOp == s.nextOp && t.rows == s.rows
  }

  lemma ExplainedIsRecorded(s: State, t: State, origin: Origin, served: set<Device>)
    requires FanoutExplained(s, t, origin, served)
    ensures Recorded(s, t, Command, origin, served)
  {
    var (recorded, op) := Record(s, Command, origin);
    MarkedRows(recorded, op, served);
    hide Marked;
    MarkedOnlyRows(recorded, op, served);
  }

  lemma MarkedOnlyRows(s: State, op: Option<OpId>, devices: set<Device>)
    ensures Marked(s, op, devices) == s.(rows := Marked(s, op, devices).rows)
    ensures op.None? ==> Marked(s, op, devices) == s
  {
  }

  /** A command's row per device, as written before anything is sent. */
  datatype Child = Child(device: Device, dispatched: bool)

  function Devices(children: seq<Child>): seq<Device> {
    seq(|children|, i requires 0 <= i < |children| => children[i].device)
  }

  function Dispatched(children: seq<Child>): seq<Device> {
    if children == [] then [] else
      var last := children[|children| - 1];
      Dispatched(children[..|children| - 1]) + if last.dispatched then [last.device] else []
  }

  lemma {:induction false} DispatchedAre(children: seq<Child>)
    requires Distinct(Devices(children))
    ensures Distinct(Dispatched(children))
    ensures forall d :: d in Dispatched(children) <==> Child(d, true) in children
  {
    if children != [] {
      var front := children[..|children| - 1];
      assert Devices(front) == Devices(children)[..|front|];
      DispatchedAre(front);
      forall c | c in front ensures c.device != children[|front|].device {
        var i :| 0 <= i < |front| && front[i] == c;
        assert Devices(children)[i] == c.device && Devices(children)[|front|] == children[|front|].device;
      }
    }
  }

  class SnapshotManager {
    var active: Option<SnapshotId>
    var nextSnapshot: SnapshotId
    var ops: map<OpId, Op>
    var nextOp: OpId
    var rows: set<(OpId, Device)>
    var queued: map<Device, nat>
    ghost var lock: Lock
    ghost var woken: map<Origin, set<Device>>
    ghost var used: set<Origin>
    ghost var sent: multiset<Send>

    ghost function View(): State
      reads this
    {
      State(active, nextSnapshot, ops, nextOp, rows, lock, woken, queued, used, sent)
    }

    /** One row per requested device, without repetition; only a connected one counts as dispatched. */
    method Materialize(ids: seq<Device>) returns (children: seq<Child>)
      ensures IsSelection(Devices(children), ids)
      ensures forall c :: c in children ==> (c.dispatched <==> c.device in queued)
    {
      children := [];
      var seen: set<Device> := {};
      for n := 0 to |ids|
        invariant IsSelection(Devices(children), ids[..n])
        invariant forall d :: d in seen <==> d in Devices(children)
        invariant forall c :: c in children ==> (c.dispatched <==> c.device in queued)
      {
        var id := ids[n];
        assert ids[..n + 1] == ids[..n] + [id];
        if id > 0 && id !in seen {
          ghost var before := Devices(children);
          children := children + [Child(id, id in queued)];
          assert Devices(children) == before + [id];
          seen := seen + {id};
        }
      }
      assert ids[..|ids|] == ids;
    }

    /** One non-blocking push onto a device's send buffer, by the fan-out that holds the lock. */
    method Dispatch(device: Device) returns (accepted: bool)
      requires lock.Fanning? && lock.todo != [] && lock.todo[0] == device
      modifies this`queued, this`sent, this`lock
      ensures View() == FanOutOne(old(View()))
      ensures accepted <==> CanSend(old(View()), device)
    {
      accepted := device in queued && queued[device] < SEND_BUFFER;
      if accepted {
        queued := queued[device := queued[device] + 1];
        sent := sent + multiset{Send(lock.origin, device)};
      }
      lock := Fanning(lock.origin, lock.op, lock.todo[1..], if accepted then lock.delivered + [device]
                      else lock.delivered);
    }

    /** Pushes every dispatched child onto its device's buffer; a device gone or full fails on its own. */
    method SendPrepared(children: seq<Child>) returns (delivered: seq<Device>)
      requires lock.Fanning? && lock.delivered == [] && lock.todo == Dispatched(children)
      modifies this`queued, this`sent, this`lock
      ensures View() == FannedOut(old(View()), |Dispatched(children)|) && delivered == lock.delivered
    {
      ghost var s := View();
      delivered := [];
      ghost var tried := 0;
      for n := 0 to |children|
        invariant tried == |Dispatched(children[..n])| <= |Dispatched(children)| && View() == FannedOut(s, tried)
        invariant delivered == lock.delivered
      {
        DispatchedStep(children, n);
        if children[n].dispatched {
          var accepted := Dispatch(children[n].device);
          if accepted {
            delivered := delivered + [children[n].device];
          }
          tried := tried + 1;
        }
      }
      assert children[..|children|] == children;
    }

    method MarkDelivered(op: OpId, delivered: seq<Device>)
      modifies this`rows
      ensures forall row :: row in rows <==> row in old(rows) || (row.0 == op && row.1 in delivered)
    {
      for n := 0 to |delivered|
        invariant forall row :: row in rows <==> row in old(rows) || (row.0 == op && row.1 in delivered[..n])
      {
        rows := rows + {(op, delivered[n])};
      }
    }

    method RecordLocked(kind: Kind, origin: Origin) returns (op: Option<OpId>)
      modifies this`ops, this`nextOp, this`used
      ensures (View(), op) == Record(old(View()), kind, origin)
      ensures op.Some? <==> active.Some?
      ensures op.Some? ==>
                && op == Some(old(nextOp)) && nextOp == old(nextOp) + 1
                && ops == old(ops)[old(nextOp) := Op(active.value, kind, origin)]
      ensures op.None? ==> ops == old(ops) && nextOp == old(nextOp)
    {
      used := used + {origin};
      if active.None? {
        return None;
      }
      op := Some(nextOp);
      ops := ops[nextOp := Op(active.value, kind, origin)];
      nextOp := nextOp + 1;
    }

    /** Records the operation, sends it to every prepared child, and marks exactly the devices whose send was
        accepted. */
    method ObserveFanout(origin: Origin, children: seq<Child>) returns (delivered: seq<Device>)
      requires lock.Free? && origin !in used && Distinct(Devices(children))
      modifies this
      ensures View() == Observed(old(View()), origin, Dispatched(children))
      ensures Reachable(old(View()), View()) && lock.Free?
      ensures forall d :: d in (set d' | d' in delivered) <==> Child(d, true) in children && CanSend(old(View()), d)
      ensures FanoutExplained(old(View()), View(), origin, set d | d in delivered)
      ensures Recorded(old(View()), View(), Command, origin, set d | d in delivered)
    {
      ghost var before := View();
      DispatchedAre(children);
      ObservedExplained(View(), origin, Dispatched(children));
      hide Dispatched, Reachable, FanoutExplained, Observed, Distinct, Devices;
      delivered := Fanout(origin, children);
      hide Recorded;
      ExplainedIsRecorded(before, View(), origin, set d | d in delivered);
    }

    method Fanout(origin: Origin, children: seq<Child>) returns (delivered: seq<Device>)
      modifies this
      ensures View() == Observed(old(View()), origin, Dispatched(children))
      ensures (set d | d in delivered) == ServedBy(old(View()), origin, Dispatched(children))
    {
      hide Dispatched, FannedOut, EndFanout;
      var op := RecordLocked(Command, origin);
      lock := Fanning(origin, op, Dispatched(children), []);
      delivered := SendPrepared(children);
      Finish(op, delivered);
    }

    /** Marks what was served and lets go of the lock. */
    method Finish(op: Option<OpId>, delivered: seq<Device>)
      requires lock.Fanning? && lock.op == op && (set d | d in delivered) == set d | d in lock.delivered
      modifies this`rows, this`lock
      ensures View() == EndFanout(old(View()))
    {
      ghost var before := View();
      if op.Some? {
        MarkDelivered(op.value, delivered);
      }
      lock := Free;
      MarkedRows(before, op, set d | d in delivered);
      assert View().rows == Marked(before, op, set d | d in delivered).rows;
    }

    /** Records an operation whose sends are already over. */
    method RecordLocal(kind: Kind, origin: Origin, delivered: seq<Device>)
      modifies this`ops, this`nextOp, this`used, this`rows
      ensures var (recorded, op) := Record(old(View()), kind, origin);
              View() == Marked(recorded, op, set d | d in delivered)
      ensures Recorded(old(View()), View(), kind, origin, set d | d in delivered)
    {
      ghost var recorded, id := Record(View(), kind, origin).0, Record(View(), kind, origin).1;
      var op := RecordLocked(kind, origin);
      if op.Some? {
        MarkDelivered(op.value, delivered);
      }
      MarkedRows(recorded, id, set d | d in delivered);
      assert rows == Marked(recorded, id, set d | d in delivered).rows;
    }

    method ExecuteLocal(op: Op, device: Device, succeeds: bool) returns (ok: bool)
      modifies this`queued, this`sent
      ensures (View(), ok) == Execute(old(View()), op, device, succeeds)
    {
      match op.kind {
        case Command =>
          if device !in queued || queued[device] >= SEND_BUFFER {
            return false;
          }
          queued := queued[device := queued[device] + 1];
          sent := sent + multiset{Send(op.origin, device)};
          return true;
        case Wake =>
          if succeeds {
            sent := sent + multiset{Send(op.origin, device)};
          }
          return succeeds;
        case Other =>
          return succeeds;
      }
    }

    method ReplayOperation(e: Entry, device: Device, succeeds: bool)
      requires lock.Replaying? && lock.left != [] && lock.left[0] == e && lock.device == device
      modifies this`queued, this`sent, this`lock, this`rows
      ensures View() == ReplayNext(old(View()), succeeds)
    {
      hide Execute;
      lock := Replaying(device, lock.left[1..]);
      if (e.id, device) !in rows {
        var ok := ExecuteLocal(e.op, device, succeeds);
        if ok {
          rows := rows + {(e.id, device)};
        }
      }
    }

    method ListOps(snapshot: SnapshotId) returns (entries: seq<Entry>)
      ensures entries == OpsOf(ops, snapshot, nextOp)
    {
      entries := [];
      for id := 0 to nextOp
        invariant entries == OpsOf(ops, snapshot, id)
      {
        if id in ops && ops[id].snapshot == snapshot {
          entries := entries + [Entry(id, ops[id])];
        }
      }
    }

    /** Brings a connected device up to date with the active snapshot. */
    method ReplayToDevice(device: Device, succeeds: OpId -> bool)
      requires lock.Free? && forall id :: id in ops ==> id < nextOp
      modifies this`queued, this`sent, this`lock, this`rows
      ensures View() == CaughtUp(old(View()), device, succeeds)
      ensures Reachable(old(View()), View()) && lock.Free?
      ensures UpToDate(old(View()), View(), device, succeeds)
    {
      CaughtUpIsUpToDate(View(), device, succeeds);
      hide OpsOf, UpToDate, Reachable, ReplayNext, Next, Enabled;
      if device !in queued || active.None? {
        return;
      }
      var entries := ListOps(active.value);
      lock := Replaying(device, entries);
      hide Replayed;
      ReplayOperations(entries, device, succeeds);
      lock := Free;
    }

    method ReplayOperations(entries: seq<Entry>, device: Device, succeeds: OpId -> bool)
      requires lock == Replaying(device, entries)
      modifies this`queued, this`sent, this`lock, this`rows
      ensures View() == Replayed(old(View()), |entries|, succeeds)
    {
      hide ReplayNext;
      for n := 0 to |entries|
        invariant View() == Replayed(old(View()), n, succeeds)
      {
        ReplayOperation(entries[n], device, succeeds(entries[n].id));
      }
    }
  }

  // ----- What the whole operations do -----

  /** A fan-out with nothing in between. */
  ghost function Observed(s: State, origin: Origin, children: seq<Device>): State
  {
    EndFanout(FannedOut(BeginFanout(s, origin, children), |children|))
  }

  ghost function ServedBy(s: State, origin: Origin, children: seq<Device>): set<Device> {
    set d | d in FannedOut(BeginFanout(s, origin, children), |children|).lock.delivered
  }

  /** One send to each device served, one row for each of them if a snapshot is active, and nothing else. */
  ghost predicate FanoutExplained(s: State, t: State, origin: Origin, served: set<Device>) {
    var (recorded, op) := Record(s, Command, origin);
    && (forall o, d :: Times(t, o, d) == Times(s, o, d) + Count(o == origin && d in served))
    && t.queued.Keys == s.queued.Keys && (forall d :: d in s.queued ==> t.queued[d] == s.queued[d] + Count(d in served))
    && t == Marked(recorded, op, served).(queued := t.queued, sent := t.sent)
  }

  lemma ObservedExplained(s: State, origin: Origin, children: seq<Device>)
    requires s.lock.Free? && origin !in s.used && Distinct(children)
    ensures Reachable(s, Observed(s, origin, children))
    ensures forall d :: d in ServedBy(s, origin, children) <==> d in children && CanSend(s, d)
    ensures FanoutExplained(s, Observed(s, origin, children), origin, ServedBy(s, origin, children))
  {
    var start := BeginFanout(s, origin, children);
    assert Reachable(s, s) by { assert Follows([s], []); }
    StaysReachable(s, s, FanoutBegin(origin, children));
    FannedOutIsReachable(s, start, |children|);
    FannedOutEffect(start, |children|);
    assert children[..|children|] == children;
    hide Reachable;
    StaysReachable(s, FannedOut(start, |children|), FanoutEnd);
    ServedIsExplained(s, start, FannedOut(start, |children|), origin, children);
  }

  lemma ServedIsExplained(s: State, start: State, t: State, origin: Origin, children: seq<Device>)
    requires s.lock.Free? && origin !in s.used && Distinct(children)
    requires start == BeginFanout(s, origin, children)
    requires t.lock.Fanning? && t.lock.todo == [] && t.lock.op == start.lock.op && Served(start, t, children)
    ensures forall d :: d in t.lock.delivered <==> d in children && CanSend(s, d)
    ensures FanoutExplained(s, EndFanout(t), origin, set d | d in t.lock.delivered)
  {
    forall d ensures d in t.lock.delivered <==> d in children && CanSend(s, d) {
      assert CanSend(start, d) <==> CanSend(s, d);
    }
    var u := EndFanout(t);
    assert forall o, d :: Times(u, o, d) == Times(t, o, d);
    assert forall o, d :: Times(start, o, d) == Times(s, o, d);
  }

  /** A replay with nothing in between. */
  ghost function CaughtUp(s: State, device: Device, succeeds: OpId -> bool): State
    requires s.lock.Free?
  {
    if device !in s.queued || s.active.None? then s
    else
      var start := BeginReplay(s, device);
      Replayed(start, |start.lock.left|, succeeds).(lock := Free)
  }

  /** Rows are only added, for this device and the active snapshot; a command the connected device still lacks means its
      buffer is full, and any other operation gets its row exactly if it succeeds. */
  ghost predicate UpToDate(s: State, t: State, device: Device, succeeds: OpId -> bool) {
    && s.rows <= t.rows && (forall row :: row in t.rows - s.rows ==>
                            row.1 == device && row.0 in s.ops && s.active == Some(s.ops[row.0].snapshot))
    && (device in s.queued ==>
          forall id :: id in s.ops && s.active == Some(s.ops[id].snapshot) && s.ops[id].kind == Command ==>
              (id, device) in t.rows || !CanSend(t, device))
    && (device in s.queued ==>
          forall id :: id in s.ops && s.active == Some(s.ops[id].snapshot) && s.ops[id].kind != Command ==>
              ((id, device) in t.rows <==> (id, device) in s.rows || succeeds(id)))
    && (device !in s.queued ==> t == s)
  }

  lemma CaughtUpIsUpToDate(s: State, device: Device, succeeds: OpId -> bool)
    requires s.lock.Free? && forall id :: id in s.ops ==> id < s.nextOp
    ensures Reachable(s, CaughtUp(s, device, succeeds)) && UpToDate(s, CaughtUp(s, device, succeeds), device, succeeds)
  {
    assert Reachable(s, s) by { assert Follows([s], []); }
    hide Reachable, UpToDate, Replayed, OpsOf;
    if device in s.queued && s.active.Some? {
      CaughtUpIsReachable(s, device, succeeds);
      ReplayIsUpToDate(s, device, succeeds);
    } else {
      NothingToCatchUp(s, device, succeeds);
    }
  }

  lemma NothingToCatchUp(s: State, device: Device, succeeds: OpId -> bool)
    requires s.lock.Free? && (device !in s.queued || s.active.None?)
    ensures UpToDate(s, s, device, succeeds)
  {
  }

  lemma ReplayIsUpToDate(s: State, device: Device, succeeds: OpId -> bool)
    requires s.lock.Free? && device in s.queued && s.active.Some? && forall id :: id in s.ops ==> id < s.nextOp
    ensures var start := BeginReplay(s, device);
            UpToDate(s, Replayed(start, |start.lock.left|, succeeds).(lock := Free), device, succeeds)
  {
    var start := BeginReplay(s, device);
    var left := start.lock.left;
    var t := Replayed(start, |left|, succeeds);
    ReplayedEffect(start, |left|, succeeds);
    OpsOfAre(s.ops, s.active.value, s.nextOp);
    hide OpsOf, Replayed, UpToDate;
    assert forall d :: CanSend(t.(lock := Free), d) == CanSend(t, d) && CanSend(start, d) == CanSend(s, d);
    hide CanSend;
    EffectIsUpToDate(s, t.(lock := Free), device, left, succeeds);
  }

  lemma CaughtUpIsReachable(s: State, device: Device, succeeds: OpId -> bool)
    requires s.lock.Free? && s.active.Some? && Reachable(s, s)
    ensures var start := BeginReplay(s, device);
            Reachable(s, Replayed(start, |start.lock.left|, succeeds).(lock := Free))
  {
    var start := BeginReplay(s, device);
    hide Reachable, Replayed, OpsOf, ReplayNext, EndFanout, FanOutOne, Record, Marked, WithoutOps;
    StaysReachable(s, s, ReplayBegin(device));
    ReplayedIsReachable(s, start, |start.lock.left|, succeeds);
    StaysReachable(s, Replayed(start, |start.lock.left|, succeeds), ReplayEnd);
  }

  lemma EffectIsUpToDate(s: State, t: State, device: Device, left: seq<Entry>, succeeds: OpId -> bool)
    requires device in s.queued && s.rows <= t.rows
    requires forall e ::
               (e in left <==>
                e.id < s.nextOp && e.id in s.ops && s.ops[e.id] == e.op && s.active == Some(e.op.snapshot))
    requires forall row :: row in t.rows - s.rows ==> row.1 == device && exists i ::
               0 <= i < |left| && left[i].id == row.0 && (left[i].op.kind == Command || succeeds(row.0))
    requires forall i :: 0 <= i < |left| && left[i].op.kind != Command && succeeds(left[i].id) ==>
               (left[i].id, device) in t.rows
    requires forall i :: 0 <= i < |left| && left[i].op.kind == Command && (left[i].id, device) !in t.rows ==>
               !CanSend(t, device)
    requires forall id :: id in s.ops ==> id < s.nextOp
    ensures UpToDate(s, t, device, succeeds)
  {
    hide CanSend;
    forall id | id in s.ops && s.active == Some(s.ops[id].snapshot) && s.ops[id].kind == Command
      ensures (id, device) in t.rows || !CanSend(t, device)
    {
      assert Entry(id, s.ops[id]) in left;
      var i :| 0 <= i < |left| && left[i] == Entry(id, s.ops[id]);
    }
    forall id | id in s.ops && s.active == Some(s.ops[id].snapshot) && s.ops[id].kind != Command
      ensures (id, device) in t.rows <==> (id, device) in s.rows || succeeds(id)
    {
      assert Entry(id, s.ops[id]) in left;
      var i :| 0 <= i < |left| && left[i] == Entry(id, s.ops[id]);
      if (id, device) in t.rows - s.rows {
        var j :| 0 <= j < |left| && left[j].id == id && (left[j].op.kind == Command || succeeds(id));
        assert left[j] in left;
      }
    }
    forall row | row in t.rows - s.rows ensures row.0 in s.ops && s.active == Some(s.ops[row.0].snapshot) {
      var i :| 0 <= i < |left| && left[i].id == row.0 && (left[i].op.kind == Command || succeeds(row.0));
      assert left[i] in left;
    }
  }

  lemma DispatchedStep(children: seq<Child>, n: nat)
    requires n < |children|
    ensures Dispatched(children[..n + 1]) == Dispatched(children[..n])
            + if children[n].dispatched then [children[n].device] else []
    ensures Dispatched(children[..n + 1]) <= Dispatched(children)
  {
    assert children[..n + 1][..n] == children[..n];
    DispatchedPrefix(children, n + 1);
  }

  lemma {:induction false} DispatchedPrefix(children: seq<Child>, n: nat)
    requires n <= |children|
    ensures Dispatched(children[..n]) <= Dispatched(children)
  {
    if n < |children| {
      var front := children[..|children| - 1];
      DispatchedPrefix(front, n);
      assert front[..n] == children[..n];
    } else {
      assert children[..n] == children;
    }
  }
}
