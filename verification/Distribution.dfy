/** A file distribution task: a run over files and devices with transfer ids, retries, stops, restarts, and a ledger of
    confirmed files. */
module Distribution {
  import opened Common
  import Assets

  type Device = int
  type Transfer = nat

  datatype Status = Waiting | Downloading | Verifying | Executing | Completed | Failed | Stalled | Cancelled
  datatype TaskStatus = Running | AllCompleted | TaskFailed | Stopped
  datatype Progress = Progress(status: Status, transfer: Option<Transfer>, attempts: nat, updatedAt: int)

  datatype Task = Task(files: seq<string>, hashes: map<string, string>, hasPostCommand: bool, status: TaskStatus,
                       activeFile: Option<string>, activeIdx: nat, results: set<(string, Device)>,
                       progress: map<Device, Progress>)

  /** Where the run goroutine stands; Idle means its completion channel is closed, Gone that a new process found no
      version of the task on disk. */
  datatype Pc = Idle | Entering(index: nat) | Starting(index: nat) | Polling(index: nat, deadline: int) | Finishing
      | Closing | Gone

  /** A start message that reached a device's send buffer. */
  datatype Message = Message(device: Device, transfer: Transfer, file: Option<string>, withPostCommand: bool)

  /** What sendLocked needs from outside, per device: a fresh transfer id, and whether the send buffer takes the
      message. */
  datatype Supply = Supply(transferFor: Device -> Transfer, accepts: Device -> bool)

  datatype Report = Report(transfer: Option<Transfer>, status: Status, digest: string, advanced: bool)

  /** `persisted` is the task as last written to disk with success, if it ever was; `automatic` counts the run's own
      sends per device for the active file. */
  datatype State = State(task: Task, pc: Pc, clock: int, persisted: Option<Task>, lastPersist: int, used: set<Transfer>,
                         messages: set<Message>, automatic: map<Device, nat>)

  datatype Step =
    | Enter
    | Serve(started: bool, now: int, supply: Supply)
    | Poll(now: int, supply: Supply)
    | Finish
    | Close(now: int, wrote: bool)
    | Receive(device: Device, report: Report, now: int)
    | Stop
    | Retry(device: Device, filesUnchanged: bool, now: int, supply: Supply)
    | Publish(now: int, wrote: bool)
    | Restart

  const FILE_TIMEOUT: int := 1800
  const STALL_TIMEOUT: int := 180
  const RESEND_DELAY: int := 10
  const MAX_ATTEMPTS: nat := 3
  const PERSIST_INTERVAL: int := 2

  predicate Unused(s: State, supply: Supply) {
    && (forall d :: d in s.task.progress ==> supply.transferFor(d) !in s.used)
    && (forall c, d ::
        c in s.task.progress && d in s.task.progress && supply.transferFor(c) == supply.transferFor(d) ==> c == d)
  }

  /** Each polling pass sleeps a second first. */
  predicate Enabled(s: State, step: Step) {
    match step
    case Enter => s.pc.Entering?
    case Serve(_, now, supply) => s.pc.Starting? && s.pc.index < |s.task.files| && now >= s.clock && Unused(s, supply)
    case Poll(now, supply) => s.pc.Polling? && now >= s.clock + 1 && Unused(s, supply)
    case Finish => s.pc.Finishing?
    case Close(now, _) => s.pc.Closing? && now >= s.clock
    case Receive(_, _, now) => now >= s.clock
    case Retry(_, _, now, supply) => now >= s.clock && Unused(s, supply)
    case Publish(now, _) => now >= s.clock
    case _ => true
  }

  function Targets(task: Task): set<Device> {
    task.progress.Keys
  }

  function ExpectedDigest(task: Task): string {
    if task.activeFile.Some? then Get(task.hashes, task.activeFile.value, "") else ""
  }

  /** Issues a transfer of the active file. */
  function Issued(p: Progress, now: int, transfer: Transfer, accepted: bool): Progress {
    Progress(if accepted then Downloading else Failed, Some(transfer), p.attempts + 1, now)
  }

  /** The post command goes only with the last file. */
  function StartMessage(task: Task, device: Device, transfer: Transfer): Message {
    Message(device, transfer, task.activeFile, task.hasPostCommand && task.activeIdx == |task.files| - 1)
  }

  function Transfers(devices: set<Device>, supply: Supply): set<Transfer> {
    set d | d in devices :: supply.transferFor(d)
  }

  function Messages(task: Task, devices: set<Device>, supply: Supply): set<Message> {
    set d | d in devices && supply.accepts(d) :: StartMessage(task, d, supply.transferFor(d))
  }

  function Entered(s: State): State
    requires s.pc.Entering?
  {
    var i := s.pc.index;
    if i >= |s.task.files| || s.task.status != Running then s.(pc := Finishing)
    else s.(task := s.task.(activeFile := Some(s.task.files[i]), activeIdx := i), pc := Starting(i))
  }

  function Confirmed(task: Task, file: string, device: Device): bool {
    (file, device) in task.results
  }

  function AfterFirstSend(p: Progress, confirmed: bool, d: Device, now: int, supply: Supply): Progress {
    var reset := p.(attempts := 0);
    if confirmed then reset.(status := Completed) else Issued(reset, now, supply.transferFor(d), supply.accepts(d))
  }

  function Unconfirmed(task: Task, file: string): set<Device> {
    set d | d in task.progress && !Confirmed(task, file, d)
  }

  /** The file's server is up and every device that lacks the file is told to fetch it, or the task fails. */
  function Served(s: State, started: bool, now: int, supply: Supply): State
    requires s.pc.Starting? && s.pc.index < |s.task.files|
  {
    var task, i := s.task, s.pc.index;
    if !started then
      s.(task := task.(status := TaskFailed, progress := map d | d in task.progress ::
                       task.progress[d].(status := Failed)), pc := Finishing, clock := now)
    else if task.status != Running then s.(pc := Finishing, clock := now)
    else
      var devices := Unconfirmed(task, task.files[i]);
      s.(task := task.(progress := map d | d in task.progress ::
                       AfterFirstSend(task.progress[d], Confirmed(task, task.files[i], d), d, now, supply)),
         pc := Polling(i, now + FILE_TIMEOUT), clock := now,
         used := s.used + Transfers(devices, supply), messages := s.messages + Messages(task, devices, supply),
         automatic := map d | d in task.progress :: if d in devices then 1 else 0)
  }

  function AfterStallCheck(p: Progress, now: int): Progress {
    if p.status != Completed && now - p.updatedAt > STALL_TIMEOUT then p.(status := Stalled) else p
  }

  predicate Resends(p: Progress, now: int) {
    var q := AfterStallCheck(p, now);
    q.attempts < MAX_ATTEMPTS && now - q.updatedAt >= RESEND_DELAY
        && (q.status == Failed || q.status == Stalled || q.status == Cancelled)
  }

  function AfterPoll(p: Progress, d: Device, now: int, supply: Supply): Progress {
    if Resends(p, now) then Issued(AfterStallCheck(p, now), now, supply.transferFor(d), supply.accepts(d))
    else AfterStallCheck(p, now)
  }

  /** Nothing more can be expected of this device. */
  predicate Exhausted(p: Progress) {
    p.status == Completed || !(p.attempts < MAX_ATTEMPTS || p.status == Downloading || p.status == Verifying
                               || p.status == Executing)
  }

  predicate Complete(task: Task) {
    forall d :: d in task.progress ==> task.progress[d].status == Completed
  }

  function GivenUp(progress: map<Device, Progress>): map<Device, Progress> {
    map d | d in progress :: if progress[d].status == Completed then progress[d] else progress[d].(status := Failed)
  }

  function Resending(task: Task, now: int): set<Device> {
    set d | d in task.progress && Resends(task.progress[d], now)
  }

  function PassOver(task: Task, now: int, supply: Supply): map<Device, Progress> {
    map d | d in task.progress :: AfterPoll(task.progress[d], d, now, supply)
  }

  function Count(b: bool): nat {
    if b then 1 else 0
  }

  function Polled(s: State, now: int, supply: Supply): State
    requires s.pc.Polling?
  {
    var task := s.task;
    if task.status != Running then s.(pc := Finishing, clock := now)
    else if Complete(task) then s.(pc := Entering(s.pc.index + 1), clock := now)
    else
      var progress := PassOver(task, now, supply);
      var devices := Resending(task, now);
      var t := s.(clock := now, used := s.used + Transfers(devices, supply),
                  messages := s.messages + Messages(task, devices, supply),
                  automatic := map d | d in task.progress :: Get(s.automatic, d, 0) + Count(d in devices));
      if (forall d :: d in progress ==> Exhausted(progress[d])) || now > s.pc.deadline then
        t.(task := task.(status := TaskFailed, progress := GivenUp(progress)), pc := Finishing)
      else t.(task := task.(progress := progress))
  }

  predicate KnownStatus(status: Status) {
    status != Waiting && status != Stalled
  }

  /** A report counts only for a running task, with the transfer id last issued to its device, and not after
      completion. */
  function Received(s: State, device: Device, report: Report, now: int): State {
    var task, t := s.task, s.(clock := now);
    if device !in task.progress || task.status != Running then t
    else
      var p := task.progress[device];
      if report.transfer.None? then
        t.(task := task.(progress := task.progress[device := p.(status := Failed, attempts := MAX_ATTEMPTS)]))
      else if report.transfer != p.transfer || p.status == Completed || !KnownStatus(report.status) then t
      else
        var status := if report.status == Completed && report.digest != ExpectedDigest(task) then Failed
            else report.status;
        var updated := p.(status := status, updatedAt := if report.advanced || p.status != status then now
                          else p.updatedAt);
        if status == Completed && task.activeFile.None? then Restarted(t)
        else t.(task := task.(progress := task.progress[device := updated],
                              results := if status == Completed then task.results + {(task.activeFile.value, device)}
                                  else task.results))
  }

  function Halted(s: State): State {
    s.(task := s.task.(status := Stopped,
                       progress := map d | d in s.task.progress ::
                           if s.task.progress[d].status == Completed then s.task.progress[d]
                           else s.task.progress[d].(status := Cancelled)))
  }

  /** The active file is sent to one device. */
  function SentTo(s: State, device: Device, now: int, supply: Supply): State
    requires device in s.task.progress
  {
    var sent := Issued(s.task.progress[device], now, supply.transferFor(device), supply.accepts(device));
    s.(clock := now, task := s.task.(progress := s.task.progress[device := sent]),
       used := s.used + {supply.transferFor(device)}, messages := s.messages + Messages(s.task, {device}, supply))
  }

  /** Sends again to one device of a running task, or starts a new run of a finished one whose source files are
      unchanged. */
  function Retried(s: State, device: Device, filesUnchanged: bool, now: int, supply: Supply): State {
    var task, t := s.task, s.(clock := now);
    if device != 0 && device !in task.progress then t
    else if task.status == Running then
      if device !in task.progress || task.progress[device].status == Completed then t
      else SentTo(s, device, now, supply)
    else if !s.pc.Idle? || !filesUnchanged then t
    else t.(task := task.(status := Running), pc := Entering(0))
  }

  /** Progress is written to disk at most every two seconds, the end of a run always; whether the write succeeds is
      not looked at. */
  function Published(s: State, now: int, finished: bool, wrote: bool): State {
    if s.pc.Gone? || !(finished || now - s.lastPersist > PERSIST_INTERVAL) then s.(clock := now)
    else s.(persisted := if wrote then Some(s.task) else s.persisted, lastPersist := now, clock := now)
  }

  /** A new process: the task as on disk, and a run that was under way has failed; a task that was never written is
      gone with all its confirmations. */
  function Restarted(s: State): State {
    var t := s.(lastPersist := s.clock - PERSIST_INTERVAL - 1);
    match s.persisted
    case Some(task) =>
      t.(task := if task.status == Running then task.(status := TaskFailed) else task, pc := Idle)
    case None =>
      t.(task := s.task.(status := TaskFailed, activeFile := None, activeIdx := 0, results := {}), pc := Gone)
  }

  function Next(s: State, step: Step): State
    requires Enabled(s, step)
  {
    match step
    case Enter => Entered(s)
    case Serve(started, now, supply) => Served(s, started, now, supply)
    case Poll(now, supply) => Polled(s, now, supply)
    case Finish => s.(task := if s.task.status == Running then s.task.(status := AllCompleted)
                      else s.task, pc := Closing)
    case Close(now, wrote) => Published(s, now, true, wrote).(pc := Idle)
    case Receive(device, report, now) => Received(s, device, report, now)
    case Stop => Halted(s)
    case Retry(device, filesUnchanged, now, supply) => Retried(s, device, filesUnchanged, now, supply)
    case Publish(now, wrote) => Published(s, now, false, wrote)
    case Restart => Restarted(s)
  }

  // ----- Invariant -----

  /** The first n files are confirmed on every device. */
  predicate AllConfirmed(files: seq<string>, devices: set<Device>, results: set<(string, Device)>, n: nat) {
    n <= |files| && forall k, d :: 0 <= k < n && d in devices ==> (files[k], d) in results
  }

  predicate FilesDone(task: Task, n: nat) {
    AllConfirmed(task.files, Targets(task), task.results, n)
  }

  /** The task's own consistency, on disk as in memory: every file before the active one is confirmed on every
      target. */
  ghost predicate TaskOk(task: Task) {
    && task.files != [] && Distinct(task.files) && (forall f :: f in task.files ==> f in task.hashes)
    && task.activeIdx < |task.files|
       && (if task.activeFile.Some? then task.activeFile.value == task.files[task.activeIdx] else task.activeIdx == 0)
    && FilesDone(task, task.activeIdx)
    && (task.status == AllCompleted ==> FilesDone(task, |task.files|))
    && (forall r :: r in task.results ==> r.0 in task.files && r.1 in task.progress)
  }

  predicate SameTask(a: Task, b: Task) {
    a.files == b.files && a.hashes == b.hashes && a.hasPostCommand == b.hasPostCommand
        && a.progress.Keys == b.progress.Keys
  }

  ghost predicate PcOk(s: State) {
    match s.pc
    case Idle => s.task.status != Running
    case Gone => s.task.status != Running
    case Entering(i) => FilesDone(s.task, i)
    case Starting(i) => i < |s.task.files| && s.task.activeIdx == i && s.task.activeFile.Some?
    case Polling(i, _) =>
      && i < |s.task.files| && s.task.activeIdx == i && s.task.activeFile.Some?
      && forall d :: d in s.task.progress && s.task.progress[d].status == Completed ==>
           (s.task.files[i], d) in s.task.results
    case Finishing => s.task.status == Running ==> FilesDone(s.task, |s.task.files|)
    case Closing => s.task.status != Running
  }

  ghost predicate SentOk(s: State) {
    && (forall m :: m in s.messages ==> m.transfer in s.used)
    && (forall m, n :: m in s.messages && n in s.messages && m.transfer == n.transfer ==> m == n)
    && (forall m :: m in s.messages && m.file.Some? ==> m.file.value in s.task.files)
  }

  ghost predicate AutomaticOk(s: State) {
    && (forall d :: d in s.automatic ==> s.automatic[d] <= MAX_ATTEMPTS)
    && (s.pc.Polling? ==> forall d :: d in s.task.progress ==>
        d in s.automatic && s.automatic[d] <= s.task.progress[d].attempts)
  }

  /** What is on disk is an earlier version of the task. */
  ghost predicate DiskOk(task: Task, persisted: Option<Task>) {
    persisted.Some? ==>
      TaskOk(persisted.value) && SameTask(task, persisted.value) && persisted.value.results <= task.results
  }

  /** The confirmations a restart finds. */
  function OnDisk(s: State): set<(string, Device)> {
    if s.persisted.Some? then s.persisted.value.results else {}
  }

  ghost predicate Inv(s: State) {
    && TaskOk(s.task) && DiskOk(s.task, s.persisted) && PcOk(s) && SentOk(s) && AutomaticOk(s)
  }

  ghost predicate Initial(s: State) {
    && TaskOk(s.task) && s.task.status == Running && s.task.activeFile.None? && s.task.results == {}
    && s.pc == Entering(0) && (s.persisted == Some(s.task) || s.persisted == None) && s.lastPersist == s.clock
       && s.used == {} && s.messages == {}
       && s.automatic == map[]
  }

  /** A task just created, whose first write to disk may have failed. */
  function NewState(task: Task, now: int, wrote: bool): State {
    State(task, Entering(0), now, if wrote then Some(task) else None, now, {}, {}, map[])
  }

  /** Confirmations only accumulate, and status changes that do not claim completion keep the task consistent. */
  lemma MoreResultsStayOk(a: Task, b: Task)
    requires TaskOk(a) && SameTask(a, b) && a.results <= b.results && a.activeIdx == b.activeIdx
             && a.activeFile == b.activeFile
    requires b.status == AllCompleted ==> a.status == AllCompleted
    requires forall r :: r in b.results ==> r.0 in b.files && r.1 in b.progress
    ensures TaskOk(b)
    ensures forall n :: FilesDone(a, n) ==> FilesDone(b, n)
  {
  }

  lemma EnterKeepsInv(s: State)
    requires Inv(s) && s.pc.Entering?
    ensures Inv(Entered(s))
  {
  }

  lemma MessagesAre(task: Task, devices: set<Device>, supply: Supply)
    ensures forall m :: m in Messages(task, devices, supply) <==>
              m.device in devices && supply.accepts(m.device)
                  && m == StartMessage(task, m.device, supply.transferFor(m.device))
  {
  }

  lemma SendingKeepsSent(s: State, t: State, devices: set<Device>, supply: Supply)
    requires SentOk(s) && TaskOk(s.task) && Unused(s, supply) && devices <= s.task.progress.Keys
    requires t.messages == s.messages + Messages(s.task, devices, supply)
             && t.used == s.used + Transfers(devices, supply) && t.task.files == s.task.files
    ensures SentOk(t)
  {
    MessagesAre(s.task, devices, supply);
    hide Messages;
  }

  ghost predicate ServedOk(s: State, t: State, now: int, supply: Supply) {
    s.pc.Starting? && s.pc.index < |s.task.files| && s.task.status == Running && Unused(s, supply)
        && t == Served(s, true, now, supply)
  }

  lemma ServingKeepsTask(s: State, t: State, now: int, supply: Supply)
    requires TaskOk(s.task) && PcOk(s) && ServedOk(s, t, now, supply)
    ensures TaskOk(t.task) && PcOk(t) && SameTask(s.task, t.task) && t.task.results == s.task.results
            && t.persisted == s.persisted
  {
    hide Messages, Transfers, Unused;
    MoreResultsStayOk(s.task, t.task);
    hide TaskOk;
  }

  lemma ServingKeepsSent(s: State, t: State, now: int, supply: Supply)
    requires TaskOk(s.task) && SentOk(s) && ServedOk(s, t, now, supply)
    ensures SentOk(t) && AutomaticOk(t)
  {
    assert AutomaticOk(t) by { hide Messages, Transfers, TaskOk; }
    hide AutomaticOk;
    SendingKeepsSent(s, t, Unconfirmed(s.task, s.task.files[s.pc.index]), supply);
  }

  lemma ServeKeepsInv(s: State, started: bool, now: int, supply: Supply)
    requires Inv(s) && Enabled(s, Serve(started, now, supply))
    ensures Inv(Served(s, started, now, supply))
  {
    if started && s.task.status == Running {
      hide Served, TaskOk, SentOk, AutomaticOk, PcOk, Unused;
      ServingKeepsTask(s, Served(s, started, now, supply), now, supply);
      ServingKeepsSent(s, Served(s, started, now, supply), now, supply);
    } else {
      MoreResultsStayOk(s.task, Served(s, started, now, supply).task);
      hide TaskOk, SentOk, Unused;
    }
  }

  lemma PassOverOne(p: Progress, d: Device, now: int, supply: Supply)
    ensures AfterPoll(p, d, now, supply).status == Completed <==> p.status == Completed
    ensures AfterPoll(p, d, now, supply).attempts == p.attempts + Count(Resends(p, now))
    ensures Resends(p, now) ==> p.attempts < MAX_ATTEMPTS
  {
  }

  /** A pass credits nobody: a device it leaves completed was completed before. */
  lemma PassProgress(task: Task, now: int, supply: Supply, after: map<Device, Progress>)
    requires after == PassOver(task, now, supply) || after == GivenUp(PassOver(task, now, supply))
    ensures after.Keys == task.progress.Keys
    ensures forall d :: d in task.progress ==>
              && (after[d].status == Completed <==> task.progress[d].status == Completed)
              && after[d].attempts == task.progress[d].attempts + Count(Resends(task.progress[d], now))
              && (Resends(task.progress[d], now) ==> task.progress[d].attempts < MAX_ATTEMPTS)
  {
    forall d | d in task.progress {
      PassOverOne(task.progress[d], d, now, supply);
    }
    hide AfterPoll, Resends;
  }

  lemma UnfinishedPass(s: State, now: int, supply: Supply)
    requires s.pc.Polling? && s.task.status == Running && !Complete(s.task)
    ensures var t := Polled(s, now, supply);
            && t.automatic == (map d | d in s.task.progress ::
                               Get(s.automatic, d, 0) + Count(d in Resending(s.task, now)))
            && t.task == s.task.(progress := t.task.progress, status := t.task.status)
            && ((t.pc == s.pc && t.task.status == Running && t.task.progress == PassOver(s.task, now, supply))
                || (t.pc == Finishing && t.task.status == TaskFailed
                    && t.task.progress == GivenUp(PassOver(s.task, now, supply))))
            && t.used == s.used + Transfers(Resending(s.task, now), supply)
            && t.messages == s.messages + Messages(s.task, Resending(s.task, now), supply)
            && t.persisted == s.persisted
  {
    hide Messages, Exhausted, AfterPoll, Resending, GivenUp;
  }

  lemma PassStaysAutomatic(s: State, t: State, now: int)
    requires AutomaticOk(s) && s.pc.Polling? && t.task.progress.Keys == s.task.progress.Keys
    requires t.automatic == map d | d in s.task.progress :: Get(s.automatic, d, 0) + Count(d in Resending(s.task, now))
    requires forall d :: d in s.task.progress ==>
               && t.task.progress[d].attempts == s.task.progress[d].attempts + Count(Resends(s.task.progress[d], now))
               && (Resends(s.task.progress[d], now) ==> s.task.progress[d].attempts < MAX_ATTEMPTS)
    ensures AutomaticOk(t)
  {
    hide Resends;
  }

  ghost predicate Unfinished(s: State, t: State, now: int, supply: Supply) {
    s.pc.Polling? && s.task.status == Running && !Complete(s.task) && Unused(s, supply) && t == Polled(s, now, supply)
  }

  lemma UnfinishedPassKeepsTask(s: State, t: State, now: int, supply: Supply)
    requires TaskOk(s.task) && PcOk(s) && Unfinished(s, t, now, supply)
    ensures TaskOk(t.task) && PcOk(t) && SameTask(s.task, t.task) && t.task.results == s.task.results
            && t.persisted == s.persisted
  {
    UnfinishedPass(s, now, supply);
    PassProgress(s.task, now, supply, t.task.progress);
    hide Polled, PassOver, GivenUp, Complete, Resends, Messages, Unused, Transfers, Resending;
    PassedTaskOk(s, t);
  }

  lemma PassedTaskOk(s: State, t: State)
    requires TaskOk(s.task) && PcOk(s) && s.pc.Polling? && s.task.status == Running
    requires t.task == s.task.(progress := t.task.progress, status := t.task.status)
             && t.task.progress.Keys == s.task.progress.Keys
    requires forall d :: d in s.task.progress ==>
               (t.task.progress[d].status == Completed <==> s.task.progress[d].status == Completed)
    requires (t.pc == s.pc && t.task.status == Running) || (t.pc == Finishing && t.task.status == TaskFailed)
    ensures TaskOk(t.task) && PcOk(t)
  {
    MoreResultsStayOk(s.task, t.task);
    hide TaskOk;
  }

  lemma UnfinishedPassKeepsSent(s: State, t: State, now: int, supply: Supply)
    requires TaskOk(s.task) && SentOk(s) && AutomaticOk(s) && Unfinished(s, t, now, supply)
    ensures SentOk(t) && AutomaticOk(t)
  {
    UnfinishedPass(s, now, supply);
    PassProgress(s.task, now, supply, t.task.progress);
    hide Polled, PassOver, GivenUp, Complete, Resends, Messages;
    PassStaysAutomatic(s, t, now);
    hide AutomaticOk;
    SendingKeepsSent(s, t, Resending(s.task, now), supply);
  }

  lemma PollKeepsInv(s: State, now: int, supply: Supply)
    requires Inv(s) && Enabled(s, Poll(now, supply))
    ensures Inv(Polled(s, now, supply))
  {
    if s.task.status == Running && !Complete(s.task) {
      hide Polled, Complete, TaskOk, SentOk, AutomaticOk, Unused, PcOk;
      UnfinishedPassKeepsTask(s, Polled(s, now, supply), now, supply);
      UnfinishedPassKeepsSent(s, Polled(s, now, supply), now, supply);
    } else {
      assert s.task.status == Running ==> FilesDone(s.task, s.pc.index + 1);
      hide TaskOk, SentOk, Unused;
    }
  }

  lemma ReceiveKeepsInv(s: State, device: Device, report: Report, now: int)
    requires Inv(s) && Enabled(s, Receive(device, report, now))
    ensures Inv(Received(s, device, report, now))
  {
    var t := Received(s, device, report, now);
    if Crashes(s, device, report) {
      RestartKeepsInv(s.(clock := now));
    } else {
      ReceiveChanges(s, device, report, now);
      hide Received, Crashes;
      MoreResultsStayOk(s.task, t.task);
      hide TaskOk, SentOk;
    }
  }

  /** The report counts, as a success of whatever file is active. */
  predicate CountsAsSuccess(task: Task, device: Device, report: Report) {
    && device in task.progress && task.status == Running
    && report.transfer.Some? && report.transfer == task.progress[device].transfer
       && task.progress[device].status != Completed
    && report.status == Completed && report.digest == ExpectedDigest(task)
  }

  /** A success while no file is active writes to a map that was never made. */
  predicate Crashes(s: State, device: Device, report: Report) {
    CountsAsSuccess(s.task, device, report) && s.task.activeFile.None?
  }

  /** What a report can change: its own device's progress, and with it one confirmation of the active file. */
  lemma ReceiveChanges(s: State, device: Device, report: Report, now: int)
    requires TaskOk(s.task) && !Crashes(s, device, report)
    ensures var t := Received(s, device, report, now);
            && t == s.(clock := now, task := s.task.(progress := t.task.progress, results := t.task.results))
            && t.task.progress.Keys == s.task.progress.Keys
            && (forall d :: d in s.task.progress ==>
                s.task.progress[d].attempts <= t.task.progress[d].attempts
                    || t.task.progress[d].attempts == MAX_ATTEMPTS)
            && (forall d :: d in s.task.progress && t.task.progress[d].status == Completed ==>
                  s.task.progress[d].status == Completed
                      || (s.task.activeFile.Some? && (s.task.activeFile.value, d) in t.task.results))
            && s.task.results <= t.task.results
            && (t.task.results == s.task.results
                || (s.task.activeFile.Some? && device in s.task.progress
                    && t.task.results == s.task.results + {(s.task.activeFile.value, device)}))
            && (s.task.status != Running ==> t.task == s.task)
  {
  }

  /** A report that counts: from a target of a running task that has not completed the file, with the transfer id last
      issued to it and a status a client may send. */
  predicate Counts(task: Task, device: Device, report: Report) {
    && task.status == Running && device in task.progress && task.progress[device].status != Completed
    && report.transfer.Some? && report.transfer == task.progress[device].transfer
    && report.status in {Downloading, Verifying, Executing, Completed, Failed, Cancelled}
  }

  /** What a report makes of its device: completed only by the active file's digest, failed by a failure or another
      digest, otherwise whatever it says it is; its time is moved by news alone. One without a transfer id, as old
      clients send it, fails the device for good, and any other report changes nothing. */
  ghost predicate Takes(task: Task, device: Device, report: Report, now: int, after: Task) {
    && after == task.(progress := after.progress, results := after.results)
    && after.progress.Keys == task.progress.Keys
    && (forall d :: d in task.progress && d != device ==> after.progress[d] == task.progress[d])
    && (device in task.progress ==>
          var p, q := task.progress[device], after.progress[device];
          if Counts(task, device, report) then
            && q == p.(status := q.status, updatedAt := q.updatedAt)
            && (q.status == Completed <==> report.status == Completed && report.digest == ActiveDigest(task))
            && (q.status == Failed <==>
                  report.status == Failed || (report.status == Completed && report.digest != ActiveDigest(task)))
            && (report.status != Completed ==> q.status == report.status)
            && (q.updatedAt == now || (q.updatedAt == p.updatedAt && !report.advanced && q.status == p.status))
            && (report.advanced || q.status != p.status ==> q.updatedAt == now)
          else if task.status == Running && report.transfer.None? then
            q == p.(status := Failed, attempts := 3)
          else q == p)
    && after.results == task.results
         + if Counts(task, device, report) && report.status == Completed && report.digest == ActiveDigest(task)
             && task.activeFile.Some? then {(task.activeFile.value, device)} else {}
  }

  function ActiveDigest(task: Task): string {
    if task.activeFile.Some? && task.activeFile.value in task.hashes then task.hashes[task.activeFile.value] else ""
  }

  /** Every report is taken so, except for the one that stops the process. */
  lemma ReportIsTaken(s: State, device: Device, report: Report, now: int)
    requires !Crashes(s, device, report)
    ensures var t := Received(s, device, report, now);
            Takes(s.task, device, report, now, t.task) && t == s.(clock := now, task := t.task)
  {
  }

  lemma FinishKeepsInv(s: State)
    requires Inv(s) && s.pc.Finishing?
    ensures Inv(Next(s, Finish))
  {
    hide AllConfirmed, Distinct;
  }

  lemma PublishKeepsInv(s: State, now: int, finished: bool, wrote: bool)
    requires Inv(s)
    ensures Inv(Published(s, now, finished, wrote))
            && (finished && s.pc.Closing? ==> Inv(Published(s, now, finished, wrote).(pc := Idle)))
  {
    hide TaskOk, FilesDone;
  }

  lemma StopKeepsInv(s: State)
    requires Inv(s)
    ensures Inv(Halted(s))
  {
    MoreResultsStayOk(s.task, Halted(s).task);
    hide TaskOk, FilesDone;
  }

  lemma RestartKeepsInv(s: State)
    requires Inv(s)
    ensures Inv(Restarted(s))
  {
    if s.persisted.Some? {
      hide AllConfirmed, Distinct;
    } else {
      hide Distinct;
    }
  }

  lemma RetrySendKeepsInv(s: State, t: State, device: Device, now: int, supply: Supply)
    requires Inv(s) && Unused(s, supply) && device in s.task.progress && s.task.status == Running
             && s.task.progress[device].status != Completed
    requires t == SentTo(s, device, now, supply)
    ensures Inv(t)
  {
    MoreResultsStayOk(s.task, t.task);
    assert Transfers({device}, supply) == {supply.transferFor(device)};
    SendingKeepsSent(s, t, {device}, supply);
    hide TaskOk, SentOk, Messages, Unused, FilesDone;
  }

  lemma RetryKeepsInv(s: State, device: Device, filesUnchanged: bool, now: int, supply: Supply)
    requires Inv(s) && Enabled(s, Retry(device, filesUnchanged, now, supply))
    ensures Inv(Retried(s, device, filesUnchanged, now, supply))
  {
    var t := Retried(s, device, filesUnchanged, now, supply);
    if t.used != s.used {
      hide Inv, Messages, Unused;
      RetrySendKeepsInv(s, t, device, now, supply);
    } else {
      MoreResultsStayOk(s.task, t.task);
      hide TaskOk, SentOk, Messages, Unused;
    }
  }

  lemma StepKeepsInv(s: State, step: Step)
    requires Inv(s) && Enabled(s, step)
    ensures Inv(Next(s, step))
  {
    hide Inv;
    match step
    case Enter => EnterKeepsInv(s);
    case Serve(started, now, supply) => ServeKeepsInv(s, started, now, supply);
    case Poll(now, supply) => PollKeepsInv(s, now, supply);
    case Receive(device, report, now) => ReceiveKeepsInv(s, device, report, now);
    case Retry(device, filesUnchanged, now, supply) => RetryKeepsInv(s, device, filesUnchanged, now, supply);
    case Finish => FinishKeepsInv(s);
    case Close(now, wrote) => PublishKeepsInv(s, now, true, wrote);
    case Stop => StopKeepsInv(s);
    case Publish(now, wrote) => PublishKeepsInv(s, now, false, wrote);
    case Restart => RestartKeepsInv(s);
  }

  // ----- Runs -----

  ghost predicate Follows(states: seq<State>, steps: seq<Step>) {
    && |states| == |steps| + 1
    && forall i :: 0 <= i < |steps| ==> Enabled(states[i], steps[i]) && states[i + 1] == Next(states[i], steps[i])
  }

  ghost predicate IsRun(states: seq<State>, steps: seq<Step>) {
    Follows(states, steps) && Initial(states[0])
  }

  lemma {:induction false} RunKeepsInv(states: seq<State>, steps: seq<Step>, n: nat)
    requires IsRun(states, steps) && n < |states|
    ensures Inv(states[n])
  {
    if n > 0 {
      RunKeepsInv(states, steps, n - 1);
      hide Inv, Next;
      StepKeepsInv(states[n - 1], steps[n - 1]);
    }
  }

  /** Distribution is sound: a task that says it completed has every file confirmed on every target. */
  lemma CompletedTaskReachedEveryTarget(states: seq<State>, steps: seq<Step>, file: string, device: Device)
    requires IsRun(states, steps)
    requires states[|steps|].task.status == AllCompleted && file in states[|steps|].task.files
             && device in states[|steps|].task.progress
    ensures (file, device) in states[|steps|].task.results
  {
    RunKeepsInv(states, steps, |steps|);
    var k :| 0 <= k < |states[|steps|].task.files| && states[|steps|].task.files[k] == file;
  }

  predicate Restarts(s: State, step: Step) {
    step.Restart? || (step.Receive? && Crashes(s, step.device, step.report))
  }

  lemma OnlyRestartsForget(s: State, step: Step)
    requires Inv(s) && Enabled(s, step) && !Restarts(s, step)
    ensures s.task.results <= Next(s, step).task.results
    ensures !step.Receive? ==> s.task.results == Next(s, step).task.results
  {
    if step.Receive? {
      ReceiveChanges(s, step.device, step.report, step.now);
    }
    hide Inv, Received, PassOver, Messages;
  }

  /** Confirmations are only lost by a process restart, and then exactly if some were not on disk yet. Ending a run
      puts all of them there if that write succeeds, and there they stay until the next run. */
  lemma ConfirmationsSurvive(s: State, step: Step)
    requires Inv(s) && Enabled(s, step)
    ensures s.task.results <= Next(s, step).task.results <==> (Restarts(s, step) ==> OnDisk(s) == s.task.results)
    ensures step.Close? && step.wrote ==> OnDisk(Next(s, step)) == Next(s, step).task.results == s.task.results
    ensures s.task.status != Running && OnDisk(s) == s.task.results ==>
              OnDisk(Next(s, step)) == Next(s, step).task.results == s.task.results
  {
    if !Restarts(s, step) {
      OnlyRestartsForget(s, step);
    }
    hide TaskOk, PcOk, SentOk, AutomaticOk, PassOver, Messages;
  }

  /** It happens to any target: confirmed before the next write is due, its first file is unconfirmed after a
      restart. */
  lemma ConfirmationCanBeLost(s: State, d: Device) returns (t: State)
    requires Initial(s) && d in s.task.progress
    ensures Reaches(s, t) && (s.task.files[0], d) in t.task.results && Enabled(t, Restart)
    ensures (s.task.files[0], d) !in Next(t, Restart).task.results
  {
    var entered := Next(s, Enter);
    var supply := Fresh(entered);
    ReachesItself(s);
    ReachesNext(s, s, Enter);
    ReachesNext(s, entered, Serve(true, s.clock, supply));
    hide Reaches;
    FirstServed(s, d, supply);
    var served := Next(entered, Serve(true, s.clock, supply));
    hide Next;
    t := FirstConfirmed(s, served, d);
  }

  lemma FirstServed(s: State, d: Device, supply: Supply)
    requires Initial(s) && d in s.task.progress && Unused(Next(s, Enter), supply) && forall c :: supply.accepts(c)
    ensures var entered := Next(s, Enter);
            && Enabled(entered, Serve(true, s.clock, supply))
            && var served := Next(entered, Serve(true, s.clock, supply));
               && served.task.activeFile == Some(s.task.files[0]) && served.task.status == Running
               && OnDisk(served) == {} && d in served.task.progress && served.task.progress[d].transfer.Some?
               && served.task.progress[d].status == Downloading
  {
    hide Messages, Transfers;
  }

  lemma FirstConfirmed(s: State, served: State, d: Device) returns (t: State)
    requires Reaches(s, served) && d in served.task.progress && served.task.status == Running
             && served.task.activeFile.Some? && OnDisk(served) == {}
    requires served.task.progress[d].transfer.Some? && served.task.progress[d].status == Downloading
    ensures Reaches(s, t) && (served.task.activeFile.value, d) in t.task.results
    ensures (served.task.activeFile.value, d) !in Next(t, Restart).task.results
  {
    var report := Report(served.task.progress[d].transfer, Completed, ExpectedDigest(served.task), true);
    t := Next(served, Receive(d, report, served.clock));
    ReachesNext(s, served, Receive(d, report, served.clock));
    hide Reaches;
  }

  /** Every confirmation is written on a report with the transfer id last issued to that device and the digest of that
      file, while the task runs. */
  lemma EveryConfirmationHasItsReport(s: State, step: Step, file: string, device: Device)
    requires Inv(s) && Enabled(s, step) && (file, device) !in s.task.results
             && (file, device) in Next(s, step).task.results
    ensures s.task.status == Running && s.task.activeFile == Some(file) && device in s.task.progress
            && s.task.progress[device].status != Completed
    ensures step.Receive? && step.device == device && step.report.status == Completed
    ensures step.report.transfer.Some? && step.report.transfer == s.task.progress[device].transfer
    ensures file in s.task.hashes && step.report.digest == s.task.hashes[file]
  {
    if !Restarts(s, step) {
      OnlyRestartsForget(s, step);
    }
    hide PcOk, SentOk, AutomaticOk;
  }

  /** A report ends the process exactly if it crashes, and a device can send such a report exactly if a transfer was
      issued to it, and has not completed, while the task runs without an active file; every other success is written
      down. */
  lemma CrashesExactlyWhen(s: State, device: Device, report: Report, now: int)
    requires Inv(s) && Enabled(s, Receive(device, report, now))
    ensures var t := Received(s, device, report, now);
            && (Crashes(s, device, report) <==> t.pc != s.pc)
            && (CountsAsSuccess(s.task, device, report) && t.pc == s.pc ==>
                s.task.activeFile.Some? && (s.task.activeFile.value, device) in t.task.results)
    ensures (exists r :: Crashes(s, device, r)) <==>
              && s.task.status == Running && s.task.activeFile.None? && device in s.task.progress
              && s.task.progress[device].transfer.Some? && s.task.progress[device].status != Completed
  {
    hide TaskOk, SentOk, AutomaticOk;
    if device in s.task.progress && s.task.progress[device].transfer.Some? {
      var r := Report(s.task.progress[device].transfer, Completed, ExpectedDigest(s.task), true);
      assert Crashes(s, device, r) <==>
               s.task.status == Running && s.task.activeFile.None? && s.task.progress[device].status != Completed;
    }
  }

  /** It happens: retried before its first file is active, a new task sends a transfer of no file, and a success for it
      stops the process. */
  lemma CrashIsReachable(s: State, device: Device) returns (t: State, report: Report)
    requires Initial(s) && device in s.task.progress && s.task.progress[device].status == Waiting
    ensures Reaches(s, t) && Crashes(t, device, report)
    ensures Next(t, Receive(device, report, t.clock)).pc == (if s.persisted.Some? then Idle else Gone)
            && Next(t, Receive(device, report, t.clock)).task.status == TaskFailed
  {
    var supply := Fresh(s);
    ReachesItself(s);
    ReachesNext(s, s, Retry(device, true, s.clock, supply));
    t := Next(s, Retry(device, true, s.clock, supply));
    report := Report(Some(supply.transferFor(device)), Completed, "", true);
    hide Reaches;
  }

  // ----- Which file a report confirms -----

  /** A message about a file, and its device's report that this file arrived: the message's transfer, and the digest of
      the file it named. */
  predicate HonestAbout(task: Task, m: Message, report: Report) {
    && m.file.Some? && report.transfer == Some(m.transfer) && report.status == Completed
    && report.digest == Get(task.hashes, m.file.value, "")
  }

  /** A file other than the one its message named becomes confirmed on the device. */
  ghost predicate ConfirmsAnother(s: State, t: State, m: Message) {
    exists f :: m.file != Some(f) && (f, m.device) !in s.task.results && (f, m.device) in t.task.results
  }

  /** An honest report confirms a file other than its own exactly if, while the message's transfer is still the device's
      last one and not completed, the task has moved on to another file of the same content that the device has not
      confirmed. */
  lemma HonestReportConfirmsItsFile(s: State, m: Message, report: Report, now: int)
    requires Inv(s) && Enabled(s, Receive(m.device, report, now)) && m in s.messages && HonestAbout(s.task, m, report)
    ensures var task := s.task;
            ConfirmsAnother(s, Next(s, Receive(m.device, report, now)), m) <==>
              && task.status == Running && m.device in task.progress
              && task.progress[m.device].transfer == Some(m.transfer) && task.progress[m.device].status != Completed
              && task.activeFile.Some? && task.activeFile != m.file
              && task.hashes[task.activeFile.value] == task.hashes[m.file.value]
              && (task.activeFile.value, m.device) !in task.results
  {
    var t := Received(s, m.device, report, now);
    assert m.file.value in s.task.files;
    hide PcOk, AutomaticOk, SentOk;
    if s.task.activeFile.Some? {
      assert s.task.activeFile.value in s.task.files;
      assert forall f :: (f, m.device) in t.task.results && (f, m.device) !in s.task.results ==>
               f == s.task.activeFile.value;
    }
  }

  /** `t` lies on some run from `s`. */
  ghost predicate Reaches(s: State, t: State) {
    exists states, steps :: Follows(states, steps) && states[0] == s && states[|steps|] == t
  }

  lemma ReachesItself(s: State)
    ensures Reaches(s, s)
  {
    var states: seq<State>, steps: seq<Step> := [s], [];
    assert Follows(states, steps);
  }

  lemma ReachesNext(s: State, t: State, step: Step)
    requires Reaches(s, t) && Enabled(t, step)
    ensures Reaches(s, Next(t, step))
  {
    hide Enabled, Next;
    var states, steps :| Follows(states, steps) && states[0] == s && states[|steps|] == t;
    var more, moreSteps := states + [Next(t, step)], steps + [step];
    forall i | 0 <= i < |moreSteps|
      ensures Enabled(more[i], moreSteps[i]) && more[i + 1] == Next(more[i], moreSteps[i])
    {
      if i < |steps| {
        assert more[i] == states[i] && more[i + 1] == states[i + 1] && moreSteps[i] == steps[i];
      }
    }
    assert Follows(more, moreSteps);
  }

  /** One step further on a run from `s`. */
  lemma Go(s: State, t: State, step: Step)
    requires Reaches(s, t) && Inv(t) && Enabled(t, step)
    ensures Reaches(s, Next(t, step)) && Inv(Next(t, step))
  {
    hide *;
    ReachesNext(s, t, step);
    StepKeepsInv(t, step);
  }

  lemma ReachedKeepsInv(s: State, t: State)
    requires Reaches(s, t) && Initial(s)
    ensures Inv(t)
  {
    hide Initial, Inv, Enabled, Next;
    var states, steps :| Follows(states, steps) && states[0] == s && states[|steps|] == t;
    RunKeepsInv(states, steps, |steps|);
  }

  /** Some run leads to an honest report about one file that confirms another. */
  ghost predicate CanMislead(s: State) {
    exists t, m, report :: Reaches(s, t) && Misleads(t, m, report)
  }

  ghost predicate Misleads(t: State, m: Message, report: Report) {
    && m in t.messages && HonestAbout(t.task, m, report)
    && ConfirmsAnother(t, Next(t, Receive(m.device, report, t.clock)), m)
  }

  ghost predicate DigestsDiffer(task: Task) {
    forall f, g :: f in task.files && g in task.files && Get(task.hashes, f, "") == Get(task.hashes, g, "") ==> f == g
  }

  lemma {:induction false} TaskStaysTheSame(states: seq<State>, steps: seq<Step>, n: nat)
    requires IsRun(states, steps) && n < |states|
    ensures SameTask(states[0].task, states[n].task)
  {
    hide *;
    SameTaskIsTransitive(states[0].task, states[0].task, states[0].task);
    if n > 0 {
      TaskStaysTheSame(states, steps, n - 1);
      LastStep(states, steps, n);
      StepKeepsTask(states[n - 1], steps[n - 1]);
      SameTaskIsTransitive(states[0].task, states[n - 1].task, states[n].task);
    }
  }

  lemma LastStep(states: seq<State>, steps: seq<Step>, n: nat)
    requires IsRun(states, steps) && 0 < n < |states|
    ensures |states| == |steps| + 1
    ensures Inv(states[n - 1]) && Enabled(states[n - 1], steps[n - 1]) && states[n] == Next(states[n - 1], steps[n - 1])
  {
    RunKeepsInv(states, steps, n - 1);
    hide Inv, Enabled, Next, Initial;
  }

  lemma SameTaskIsTransitive(a: Task, b: Task, c: Task)
    ensures SameTask(a, a) && (SameTask(a, b) && SameTask(b, c) ==> SameTask(a, c))
  {
  }

  lemma StepKeepsTask(s: State, step: Step)
    requires Inv(s) && Enabled(s, step)
    ensures SameTask(s.task, Next(s, step).task)
  {
    hide TaskOk, PcOk, SentOk, AutomaticOk, Unused, Polled, Served;
    match step
    case Poll(now, supply) => PollKeepsTask(s, now, supply);
    case Serve(started, now, supply) => ServeKeepsTask(s, started, now, supply);
    case Retry(_, _, _, _) => hide Received, Messages;
    case Receive(_, _, _) => hide Retried;
    case _ => hide Received, Retried;
  }

  lemma PollKeepsTask(s: State, now: int, supply: Supply)
    requires s.pc.Polling?
    ensures SameTask(s.task, Polled(s, now, supply).task)
  {
    hide Messages, Transfers, AfterPoll, Complete, Exhausted, Resending;
  }

  lemma ServeKeepsTask(s: State, started: bool, now: int, supply: Supply)
    requires s.pc.Starting? && s.pc.index < |s.task.files|
    ensures SameTask(s.task, Served(s, started, now, supply).task)
  {
    hide Messages, Transfers, AfterFirstSend, Unconfirmed;
  }

  /** A report can be credited to the wrong file in some run of a new task exactly if two of its files have the same
      content. */
  lemma WrongConfirmationExactlyWhen(s: State)
    requires Initial(s) && s.task.progress.Keys != {}
    ensures CanMislead(s) <==> !DigestsDiffer(s.task)
  {
    if !DigestsDiffer(s.task) {
      var f, g :| f in s.task.files && g in s.task.files && Get(s.task.hashes, f, "") == Get(s.task.hashes, g, "")
          && f != g;
      var i :| 0 <= i < |s.task.files| && s.task.files[i] == f;
      var j :| 0 <= j < |s.task.files| && s.task.files[j] == g;
      SomeDevice(s.task.progress.Keys);
      var d :| d in s.task.progress.Keys;
      hide Initial, Misleads;
      var t, m, report := SameContentConfirmsTheWrongFile(s, if i < j then i else j, if i < j then j else i, d);
    }
    if CanMislead(s) {
      var t, m, report :| Reaches(s, t) && Misleads(t, m, report);
      DifferentContentsAreSafe(s, t, m, report);
    }
  }

  lemma DifferentContentsAreSafe(s: State, t: State, m: Message, report: Report)
    requires Initial(s) && Reaches(s, t) && Misleads(t, m, report)
    ensures !DigestsDiffer(s.task)
  {
    ReachedKeepsInv(s, t);
    var states, steps :| Follows(states, steps) && states[0] == s && states[|steps|] == t;
    TaskStaysTheSame(states, steps, |steps|);
    HonestReportConfirmsItsFile(t, m, report, t.clock);
    hide Next, Initial, Follows, Misleads;
    assert m.file.value in t.task.files && t.task.activeFile.value in t.task.files;
  }

  // ----- A run that goes wrong whenever two contents agree -----

  function NumberOf(d: Device): nat {
    if d >= 0 then 2 * d else -2 * d - 1
  }

  lemma {:induction false} Bound(used: set<Transfer>) returns (b: nat)
    ensures forall x :: x in used ==> x < b
  {
    if used == {} {
      b := 0;
    } else {
      SomeTransfer(used);
      var x :| x in used;
      var c := Bound(used - {x});
      b := if x < c then c else x + 1;
      assert forall y :: y in used ==> y == x || y in used - {x};
    }
  }

  lemma SomeTransfer(used: set<Transfer>)
    requires used != {}
    ensures exists x :: x in used
  {
    assert (forall x :: x !in used) ==> used == {};
  }

  /** Fresh transfer ids can always be issued, and buffers may take every message. */
  lemma Fresh(s: State) returns (supply: Supply)
    ensures Unused(s, supply) && forall d :: supply.accepts(d)
  {
    var b := Bound(s.used);
    supply := Supply(d => b + NumberOf(d), _ => true);
  }

  /** About to begin file k of a running task, with the first n files confirmed everywhere, and file g neither sent to
      anyone nor confirmed on d. */
  ghost predicate Ready(s: State, k: nat, n: nat, g: string, d: Device) {
    && Inv(s) && s.pc == Entering(k) && s.task.status == Running && FilesDone(s.task, n) && Untouched(s, g, d)
  }

  ghost predicate Untouched(s: State, g: string, d: Device) {
    d in s.task.progress && (g, d) !in s.task.results && forall m :: m in s.messages ==> m.file != Some(g)
  }

  /** File k is active and its server about to start. */
  ghost predicate Begins(s: State, k: nat, n: nat, g: string, d: Device) {
    && Inv(s) && s.pc == Starting(k) && k < |s.task.files| && s.task.activeFile == Some(s.task.files[k])
       && s.task.status == Running
    && FilesDone(s.task, n) && Untouched(s, g, d)
  }

  /** The same files and devices, and the transfers last issued. */
  ghost predicate SameTransfers(s: State, t: State) {
    SameTask(s.task, t.task) && t.messages == s.messages && forall d :: d in s.task.progress ==>
        t.task.progress[d].transfer == s.task.progress[d].transfer
  }

  lemma BeginFileK(s0: State, s: State, k: nat, n: nat, g: string, d: Device) returns (t: State)
    requires Reaches(s0, s) && Ready(s, k, n, g, d) && k < |s.task.files|
    ensures Reaches(s0, t) && Begins(t, k, n, g, d) && SameTransfers(s, t)
  {
    t := Next(s, Enter);
    Go(s0, s, Enter);
    hide Inv, Reaches;
  }

  /** In the middle of file k: devices have it or are fetching it. */
  ghost predicate UnderWay(s: State, k: nat, n: nat, g: string, d: Device) {
    && Inv(s) && s.pc.Polling? && s.pc.index == k && k < |s.task.files| && s.task.activeFile == Some(s.task.files[k])
       && s.task.status == Running
    && FilesDone(s.task, n) && Untouched(s, g, d)
    && forall c :: c in s.task.progress ==>
         s.task.progress[c].status == Completed
             || (s.task.progress[c].status == Downloading && s.task.progress[c].transfer.Some?)
  }

  lemma ServeFileK(s0: State, s: State, k: nat, n: nat, g: string, d: Device) returns (t: State)
    requires Reaches(s0, s) && Begins(s, k, n, g, d) && s.task.files[k] != g
    ensures Reaches(s0, t) && UnderWay(t, k, n, g, d) && SameTask(s.task, t.task)
    ensures k < n ==> SameTransfers(s, t) && Complete(t.task)
  {
    var supply := Fresh(s);
    t := Next(s, Serve(true, s.clock, supply));
    Go(s0, s, Serve(true, s.clock, supply));
    ServedStates(s, t, supply);
    NewMessagesName(s, t, k, supply);
    if k < n {
      NothingToServe(s, t, k, n, supply);
    }
    ServedIsUnderWay(s, t, k, n, g, d);
    hide *;
  }

  /** Every device has the file already, or is sent it now. */
  ghost predicate ServedAll(s: State, t: State, k: nat)
    requires k < |s.task.files|
  {
    && t.task == s.task.(progress := t.task.progress) && t.task.progress.Keys == s.task.progress.Keys
    && forall c :: c in s.task.progress ==>
         if Confirmed(s.task, s.task.files[k], c) then
           t.task.progress[c].status == Completed && t.task.progress[c].transfer == s.task.progress[c].transfer
         else t.task.progress[c].status == Downloading && t.task.progress[c].transfer.Some?
  }

  lemma ServedIsUnderWay(s: State, t: State, k: nat, n: nat, g: string, d: Device)
    requires Begins(s, k, n, g, d) && s.task.files[k] != g && Inv(t) && t.pc.Polling? && t.pc.index == k
             && ServedAll(s, t, k)
    requires forall m :: m in t.messages ==> m in s.messages || m.file == Some(s.task.files[k])
    requires k < n ==> t.messages == s.messages && forall c :: c in s.task.progress ==>
               Confirmed(s.task, s.task.files[k], c)
    ensures UnderWay(t, k, n, g, d) && SameTask(s.task, t.task)
    ensures k < n ==> SameTransfers(s, t) && Complete(t.task)
  {
    hide Inv;
  }

  lemma NewMessagesName(s: State, t: State, k: nat, supply: Supply)
    requires k < |s.task.files| && s.task.activeFile == Some(s.task.files[k])
    requires t.messages == s.messages + Messages(s.task, Unconfirmed(s.task, s.task.files[k]), supply)
    ensures forall m :: m in t.messages ==> m in s.messages || m.file == Some(s.task.files[k])
  {
    MessagesAre(s.task, Unconfirmed(s.task, s.task.files[k]), supply);
    hide Messages, Unconfirmed;
  }

  lemma NothingToServe(s: State, t: State, k: nat, n: nat, supply: Supply)
    requires k < n && FilesDone(s.task, n)
    requires t.messages == s.messages + Messages(s.task, Unconfirmed(s.task, s.task.files[k]), supply)
    ensures t.messages == s.messages && forall c :: c in s.task.progress ==> Confirmed(s.task, s.task.files[k], c)
  {
    assert forall c :: c in s.task.progress ==> (s.task.files[k], c) in s.task.results;
    assert Unconfirmed(s.task, s.task.files[k]) == {};
  }

  lemma ServedStates(s: State, t: State, supply: Supply)
    requires s.pc.Starting? && s.pc.index < |s.task.files| && s.task.status == Running
             && (forall c :: supply.accepts(c))
    requires t == Served(s, true, s.clock, supply)
    ensures t.pc == Polling(s.pc.index, s.clock + FILE_TIMEOUT) && ServedAll(s, t, s.pc.index)
    ensures t.messages == s.messages + Messages(s.task, Unconfirmed(s.task, s.task.files[s.pc.index]), supply)
  {
    hide Messages, Transfers;
  }

  function Lacking(task: Task): set<Device> {
    set c | c in task.progress && task.progress[c].status != Completed
  }

  lemma SameTransfersChain(s: State, t: State, u: State)
    ensures SameTask(s.task, t.task) && SameTask(t.task, u.task) ==> SameTask(s.task, u.task)
    ensures SameTransfers(s, t) && SameTransfers(t, u) ==> SameTransfers(s, u)
  {
  }

  /** All devices still fetching report success. */
  lemma {:induction false} ReportAll(s0: State, s: State, k: nat, n: nat, g: string, d: Device) returns (t: State)
    requires Reaches(s0, s) && UnderWay(s, k, n, g, d) && s.task.files[k] != g
    ensures Reaches(s0, t) && UnderWay(t, k, n, g, d) && Complete(t.task) && SameTransfers(s, t)
    decreases Lacking(s.task)
  {
    if Lacking(s.task) == {} {
      assert forall c :: c in s.task.progress ==> c !in Lacking(s.task);
      t := s;
    } else {
      SomeDevice(Lacking(s.task));
      var c :| c in Lacking(s.task);
      hide UnderWay, Reaches, Complete, Lacking, SameTransfers;
      var u := ReportOne(s0, s, k, n, g, d, c);
      t := ReportAll(s0, u, k, n, g, d);
      SameTransfersChain(s, u, t);
    }
  }

  lemma ReportOne(s0: State, s: State, k: nat, n: nat, g: string, d: Device, c: Device) returns (t: State)
    requires Reaches(s0, s) && UnderWay(s, k, n, g, d) && s.task.files[k] != g && c in Lacking(s.task)
    ensures Reaches(s0, t) && UnderWay(t, k, n, g, d) && SameTransfers(s, t) && t.task.files == s.task.files
    ensures Lacking(t.task) < Lacking(s.task)
  {
    var report := Report(s.task.progress[c].transfer, Completed, ExpectedDigest(s.task), true);
    t := Next(s, Receive(c, report, s.clock));
    Go(s0, s, Receive(c, report, s.clock));
    hide Inv, Reaches;
    var completed := s.task.progress[c].(status := Completed, updatedAt := s.clock);
    assert t.task == s.task.(progress := s.task.progress[c := completed],
                             results := s.task.results + {(s.task.files[k], c)});
    assert c !in Lacking(t.task);
  }

  /** One file later. */
  lemma FinishFileK(s0: State, s: State, k: nat, n: nat, g: string, d: Device) returns (t: State)
    requires Reaches(s0, s) && Begins(s, k, n, g, d) && s.task.files[k] != g && k <= n
    ensures Reaches(s0, t) && Ready(t, k + 1, if k < n then n else k + 1, g, d) && SameTask(s.task, t.task)
    ensures k < n ==> SameTransfers(s, t)
  {
    var u := ServeFileK(s0, s, k, n, g, d);
    var v := ReportAll(s0, u, k, n, g, d);
    t := MoveOn(s0, v, k, n, g, d);
    hide *;
    SameTransfersChain(s, u, v);
    SameTransfersChain(s, v, t);
  }

  lemma MoveOn(s0: State, s: State, k: nat, n: nat, g: string, d: Device) returns (t: State)
    requires Reaches(s0, s) && UnderWay(s, k, n, g, d) && Complete(s.task) && k <= n
    ensures Reaches(s0, t) && Ready(t, k + 1, if k < n then n else k + 1, g, d) && SameTask(s.task, t.task)
            && SameTransfers(s, t)
  {
    var supply := Fresh(s);
    t := Next(s, Poll(s.clock + 1, supply));
    Go(s0, s, Poll(s.clock + 1, supply));
    CompletePollMovesOn(s, supply);
    assert FilesDone(t.task, k + 1) && t.task == s.task && t.messages == s.messages by {
      hide Reaches, TaskOk, SentOk, AutomaticOk, Polled, Unused;
    }
    hide Reaches, Next, Enabled, Unused, Complete, Inv, FilesDone;
  }

  lemma CompletePollMovesOn(s: State, supply: Supply)
    requires s.pc.Polling? && s.task.status == Running && Complete(s.task)
    ensures Polled(s, s.clock + 1, supply) == s.(pc := Entering(s.pc.index + 1), clock := s.clock + 1)
  {
  }

  /** Up to file j, none of whose predecessors is g. */
  lemma {:induction false} UpToFile(s0: State, s: State, k: nat, j: nat, n: nat, g: string, d: Device)
    returns (t: State)
    requires Reaches(s0, s) && Ready(s, k, n, g, d) && k <= j < |s.task.files| && k <= n
    requires forall x :: 0 <= x < j ==> s.task.files[x] != g
    ensures Reaches(s0, t) && Ready(t, j, if n < j then j else n, g, d) && SameTask(s.task, t.task)
    ensures j <= n ==> SameTransfers(s, t)
    decreases j - k
  {
    hide Reaches, Ready, Begins;
    if k == j {
      t := s;
    } else {
      var u := BeginFileK(s0, s, k, n, g, d);
      var v := FinishFileK(s0, u, k, n, g, d);
      t := UpToFile(s0, v, k + 1, j, if k < n then n else k + 1, g, d);
    }
  }

  /** Stopped, with the first n files confirmed everywhere. */
  ghost predicate Halting(s: State, n: nat, g: string, d: Device) {
    Inv(s) && s.task.status == Stopped && FilesDone(s.task, n) && Untouched(s, g, d)
  }

  lemma StopReady(s0: State, s: State, k: nat, n: nat, g: string, d: Device) returns (t: State)
    requires Reaches(s0, s) && Ready(s, k, n, g, d)
    ensures Reaches(s0, t) && Halting(t, n, g, d) && SameTask(s.task, t.task) && t.pc == Entering(k)
  {
    t := Next(s, Stop);
    Go(s0, s, Stop);
    hide Inv, Reaches;
  }

  lemma EndHalted(s0: State, s: State, step: Step, n: nat, g: string, d: Device) returns (t: State)
    requires Reaches(s0, s) && Halting(s, n, g, d) && Enabled(s, step) && (step.Enter? || step.Finish? || step.Close?)
    ensures Reaches(s0, t) && Halting(t, n, g, d) && SameTask(s.task, t.task)
    ensures t.pc == if step.Enter? then Finishing else if step.Finish? then Closing else Idle
  {
    t := Next(s, step);
    Go(s0, s, step);
    hide Inv, Reaches;
  }

  lemma RetryHalted(s0: State, s: State, n: nat, g: string, d: Device) returns (t: State)
    requires Reaches(s0, s) && Halting(s, n, g, d) && s.pc.Idle?
    ensures Reaches(s0, t) && Ready(t, 0, n, g, d) && SameTask(s.task, t.task)
  {
    var supply := Fresh(s);
    t := Next(s, Retry(0, true, s.clock, supply));
    Go(s0, s, Retry(0, true, s.clock, supply));
    hide Inv, Reaches, Unused;
  }

  lemma {:induction false} AnotherName(files: seq<string>) returns (g: string)
    ensures forall f :: f in files ==> |f| < |g|
  {
    if files == [] {
      g := "x";
    } else {
      var shorter := AnotherName(files[1..]);
      g := if |shorter| > |files[0]| then shorter else files[0] + "x";
      assert forall f :: f in files ==> f == files[0] || f in files[1..];
    }
  }

  /** Every new task can run to its end: with all files confirmed on every target, and so on disk. */
  lemma TaskCanComplete(s: State, d: Device) returns (t: State)
    requires Initial(s) && d in s.task.progress
    ensures Reaches(s, t) && t.task.status == AllCompleted && t.pc == Idle && t.persisted == Some(t.task)
    ensures forall f, c :: f in s.task.files && c in s.task.progress ==> (f, c) in t.task.results
  {
    var g := AnotherName(s.task.files);
    var last := |s.task.files| - 1;
    ReachesItself(s);
    assert s.task.files != [] && g !in s.task.files && Inv(s) && FilesDone(s.task, 0) && Untouched(s, g, d);
    hide Reaches, Ready, Begins, Initial, Inv, FilesDone;
    var a := UpToFile(s, s, 0, last, 0, g, d);
    var b := BeginFileK(s, a, last, last, g, d);
    var c := FinishFileK(s, b, last, last, g, d);
    t := EndDone(s, c, g, d);
  }

  lemma EndDone(s0: State, s: State, g: string, d: Device) returns (t: State)
    requires Reaches(s0, s) && Ready(s, |s.task.files|, |s.task.files|, g, d)
    ensures Reaches(s0, t) && t.task.status == AllCompleted && t.pc == Idle && t.persisted == Some(t.task)
    ensures forall f, c :: f in s.task.files && c in s.task.progress ==> (f, c) in t.task.results
  {
    var u := Next(s, Enter);
    Go(s0, s, Enter);
    var v := Next(u, Finish);
    Go(s0, u, Finish);
    t := Next(v, Close(v.clock, true));
    Go(s0, v, Close(v.clock, true));
    hide Reaches, Inv;
    forall f, c | f in s.task.files && c in s.task.progress ensures (f, c) in t.task.results {
      var k :| 0 <= k < |s.task.files| && s.task.files[k] == f;
    }
  }

  /** A stop, the end of the run, and a retry bring the task back to its first file. */
  lemma BeginAgain(s0: State, s: State, k: nat, n: nat, g: string, d: Device) returns (t: State)
    requires Reaches(s0, s) && Ready(s, k, n, g, d)
    ensures Reaches(s0, t) && Ready(t, 0, n, g, d) && SameTask(s.task, t.task)
  {
    hide Reaches, Ready, Halting;
    t := StopReady(s0, s, k, n, g, d);
    t := EndHalted(s0, t, Enter, n, g, d);
    t := EndHalted(s0, t, Finish, n, g, d);
    t := EndHalted(s0, t, Close(t.clock, true), n, g, d);
    t := RetryHalted(s0, t, n, g, d);
  }

  /** A report without a transfer id, as old clients send it, marks the device failed even if it had completed. */
  lemma LegacyReport(s0: State, s: State, k: nat, n: nat, g: string, d: Device) returns (t: State)
    requires Reaches(s0, s) && Begins(s, k, n, g, d)
    ensures Reaches(s0, t) && Begins(t, k, n, g, d) && SameTransfers(s, t) && t.task.progress[d].status == Failed
  {
    var report := Report(None, Failed, "", false);
    t := Next(s, Receive(d, report, s.clock));
    Go(s0, s, Receive(d, report, s.clock));
    hide Inv, Reaches;
  }

  /** After such a report, a retry sends the active file to a device that has confirmed it. */
  lemma SendOnceMore(s0: State, s: State, k: nat, n: nat, g: string, d: Device) returns (t: State, m: Message)
    requires Reaches(s0, s) && Begins(s, k, n, g, d) && s.task.files[k] != g
    ensures Reaches(s0, t) && Begins(t, k, n, g, d) && SameTask(s.task, t.task)
    ensures m in t.messages && m.device == d && m.file == Some(s.task.files[k])
    ensures d in t.task.progress && t.task.progress[d].transfer == Some(m.transfer)
  {
    var u := LegacyReport(s0, s, k, n, g, d);
    var supply := Fresh(u);
    t := Next(u, Retry(d, true, u.clock, supply));
    m := StartMessage(u.task, d, supply.transferFor(d));
    Go(s0, u, Retry(d, true, u.clock, supply));
    MessagesAre(u.task, {d}, supply);
    hide Inv, Reaches, Messages, Unused;
  }

  /** Of two files of one content the later one is confirmed on a device it was never sent to, by an honest report about
      the earlier one. */
  lemma SameContentConfirmsTheWrongFile(s: State, i: nat, j: nat, d: Device)
    returns (t: State, m: Message, report: Report)
    requires Initial(s) && d in s.task.progress && i < j < |s.task.files|
    requires Get(s.task.hashes, s.task.files[i], "") == Get(s.task.hashes, s.task.files[j], "")
    ensures Reaches(s, t) && Misleads(t, m, report) && m.device == d && m.file == Some(s.task.files[i])
    ensures (s.task.files[j], d) in Next(t, Receive(d, report, t.clock)).task.results
    ensures forall sent :: sent in t.messages ==> sent.file != Some(s.task.files[j])
  {
    var g, h := s.task.files[j], Get(s.task.hashes, s.task.files[i], "");
    ReachesItself(s);
    assert Inv(s) && forall x :: 0 <= x < j ==> s.task.files[x] != g;
    assert FilesDone(s.task, 0) && Untouched(s, g, d);
    hide Reaches, Ready, Begins, Initial, Inv;
    var a := UpToFile(s, s, 0, j, 0, g, d);
    var b := BeginAgain(s, a, j, j, g, d);
    var c := UpToFile(s, b, 0, i, j, g, d);
    t, m := StaleTransfer(s, c, i, j, g, d);
    report := Report(Some(m.transfer), Completed, h, true);
    MisledAtLast(t, j, g, d, m, report);
  }

  /** From file i on to file j, with the message about file i still the device's last. */
  lemma StaleTransfer(s0: State, s: State, i: nat, j: nat, g: string, d: Device) returns (t: State, m: Message)
    requires Reaches(s0, s) && Ready(s, i, j, g, d) && i < j < |s.task.files| && forall x :: 0 <= x < j ==>
               s.task.files[x] != g
    ensures Reaches(s0, t) && Begins(t, j, j, g, d) && SameTask(s.task, t.task) && t.task.progress[d].status == Failed
    ensures m in t.messages && m.device == d && m.file == Some(s.task.files[i])
            && t.task.progress[d].transfer == Some(m.transfer)
  {
    hide Reaches, Ready, Begins;
    var e := BeginFileK(s0, s, i, j, g, d);
    var u;
    u, m := SendOnceMore(s0, e, i, j, g, d);
    var v := FinishFileK(s0, u, i, j, g, d);
    var w := UpToFile(s0, v, i + 1, j, j, g, d);
    var x := BeginFileK(s0, w, j, j, g, d);
    t := LegacyReport(s0, x, j, j, g, d);
  }

  lemma MisledAtLast(t: State, j: nat, g: string, d: Device, m: Message, report: Report)
    requires Begins(t, j, j, g, d) && t.task.files[j] == g && t.task.progress[d].status == Failed
    requires m in t.messages && m.device == d && m.file.Some? && HonestAbout(t.task, m, report)
    requires t.task.progress[d].transfer == Some(m.transfer) && report.digest == Get(t.task.hashes, g, "")
    ensures Misleads(t, m, report) && (g, d) in Next(t, Receive(d, report, t.clock)).task.results
    ensures forall sent :: sent in t.messages ==> sent.file != Some(g)
  {
    hide Inv;
    assert m.file != Some(g);
  }

  /** The post command goes out only with the last file, once every earlier file is confirmed on every target. */
  lemma PostCommandGate(states: seq<State>, steps: seq<Step>, i: nat, m: Message)
    requires IsRun(states, steps) && i < |steps|
    requires m in states[i + 1].messages && m !in states[i].messages && m.withPostCommand
    ensures var task := states[i].task;
            && task.hasPostCommand && FilesDone(task, |task.files| - 1)
            && (m.file.Some? ==> m.file.value == task.files[|task.files| - 1])
            && (m.file.None? ==> |task.files| == 1)
  {
    RunKeepsInv(states, steps, i);
    NewMessagesAreStartMessages(states[i], steps[i], m);
  }

  lemma NewMessagesAreStartMessages(s: State, step: Step, m: Message)
    requires Enabled(s, step) && m in Next(s, step).messages && m !in s.messages
    ensures m == StartMessage(s.task, m.device, m.transfer) && m.device in s.task.progress
  {
    hide AfterPoll, PassOver, Resends, GivenUp, AfterFirstSend;
  }

  /** The run itself sends a file to a device at most three times, counting every step up to the last pass, even one
      that resends and gives up. */
  lemma AtMostThreeAutomaticSends(states: seq<State>, steps: seq<Step>, device: Device)
    requires IsRun(states, steps)
    ensures Get(states[|steps|].automatic, device, 0) <= 3
    ensures states[|steps|].pc.Polling? && device in states[|steps|].task.progress ==>
              device in states[|steps|].automatic
  {
    RunKeepsInv(states, steps, |steps|);
  }

  /** The count is of attempts: serving a file starts it at the attempts just made, a pass adds those it makes, and the
      run's other steps make none. */
  lemma AutomaticCountsSends(s: State, step: Step, device: Device)
    requires Inv(s) && Enabled(s, step) && OfTheRun(step) && device in s.task.progress
    ensures var t := Next(s, step);
            && device in t.task.progress
            && var made, counted := t.task.progress[device].attempts, Get(t.automatic, device, 0);
            && (t.automatic != s.automatic || made != s.task.progress[device].attempts ==> step.Serve? || step.Poll?)
            && (step.Serve? && t.pc.Polling? ==> counted == made)
            && (step.Poll? ==> counted == Get(s.automatic, device, 0) + made - s.task.progress[device].attempts)
  {
    hide Inv, TaskOk, PcOk, SentOk, Messages, Transfers, Unused;
    if step.Poll? && s.task.status == Running && !Complete(s.task) {
      UnfinishedPass(s, step.now, step.supply);
      PassProgress(s.task, step.now, step.supply, Next(s, step).task.progress);
      hide Polled, PassOver, GivenUp, Complete, Resends;
    }
  }

  /** After the pass the device has completed the file, or was tried three times and is not at work. */
  predicate Hopeless(p: Progress, d: Device, now: int, supply: Supply) {
    var q := AfterPoll(p, d, now, supply);
    q.status == Completed || (q.attempts >= 3 && q.status !in {Downloading, Verifying, Executing})
  }

  /** A new process has the task as on disk, idle, a run that was under way as failed and any other status kept; without
      a version on disk it does not have it. */
  lemma RestartFindsWhatIsOnDisk(s: State)
    ensures var t := Next(s, Restart);
            && t.persisted == s.persisted && t.messages == s.messages
            && (s.persisted.Some? ==>
                  && t.pc == Idle && t.task == s.persisted.value.(status := t.task.status)
                  && t.task.status == if s.persisted.value.status == Running then TaskFailed
                     else s.persisted.value.status)
            && (s.persisted.None? ==> t.pc == Gone && t.task.results == {} && t.task.status != Running)
  {
  }

  /** Progress more than two seconds after the last write is written, and so is the end of a run; before that, nothing
      is. */
  lemma PublishWrites(s: State, now: int, wrote: bool)
    requires Enabled(s, Publish(now, wrote)) && !s.pc.Gone?
    ensures var t := Next(s, Publish(now, wrote));
            && t.persisted == (if now > s.lastPersist + 2 && wrote then Some(s.task) else s.persisted)
            && t.lastPersist == (if now > s.lastPersist + 2 then now else s.lastPersist) && t.task == s.task
    ensures s.pc.Closing? ==>
              var t := Next(s, Close(now, wrote));
              t.persisted == (if wrote then Some(s.task) else s.persisted) && t.pc == Idle && t.task == s.task
  {
  }

  /** However a run gives up, no device is left in between: each has completed the file or failed; and it only gives up
      before the deadline once every device that has not completed was tried three times. */
  lemma GivingUpSettlesEveryDevice(s: State, now: int, supply: Supply)
    requires Inv(s) && Enabled(s, Poll(now, supply)) && s.task.status == Running
    ensures var t := Polled(s, now, supply);
            && (now > s.pc.deadline ==> !t.pc.Polling?)
            && (t.pc.Entering? <==> Complete(s.task))
            && (t.pc.Finishing? <==>
                  !t.pc.Entering?
                  && (now > s.pc.deadline || forall d :: d in s.task.progress ==>
                      Hopeless(s.task.progress[d], d, now, supply)))
            && (t.pc.Finishing? ==> t.task.status == TaskFailed && forall d :: d in t.task.progress ==>
                t.task.progress[d].status == Completed || t.task.progress[d].status == Failed)
            && (t.pc.Finishing? && now <= s.pc.deadline ==> forall d ::
                d in t.task.progress && t.task.progress[d].status != Completed ==>
                    t.task.progress[d].attempts >= MAX_ATTEMPTS)
  {
    var after := PassOver(s.task, now, supply);
    hide Inv, AfterPoll, Messages, Resends;
    assert forall d :: d in s.task.progress ==> (Exhausted(after[d]) <==> Hopeless(s.task.progress[d], d, now, supply));
    assert after.Keys == s.task.progress.Keys;
  }

  /** A file that cannot be served fails the task and every device. */
  lemma NoServerFailsTheTask(s: State, now: int, supply: Supply)
    requires Enabled(s, Serve(false, now, supply))
    ensures var t := Next(s, Serve(false, now, supply));
            && t.task.status == TaskFailed && t.messages == s.messages && t.task.results == s.task.results
            && t.task.progress.Keys == s.task.progress.Keys
            && forall d :: d in t.task.progress ==> t.task.progress[d].status == Failed
  {
    hide Unused;
  }

  /** A device is due if it failed, was cancelled, or had no news for three minutes; its last change is ten seconds old;
      and attempts are left. */
  lemma DueIsResent(p: Progress, d: Device, now: int, supply: Supply)
    ensures Resends(p, now) <==>
              && p.attempts < 3 && now - p.updatedAt >= 10
              && (p.status == Failed || p.status == Stalled || p.status == Cancelled
                  || (p.status != Completed && now - p.updatedAt > 180))
    ensures AfterPoll(p, d, now, supply).transfer == if Resends(p, now) then Some(supply.transferFor(d)) else p.transfer
    ensures Resends(p, now) ==> AfterPoll(p, d, now, supply).status == if supply.accepts(d) then Downloading else Failed
  {
  }

  /** The next pass over an incomplete file tries every due device again, with a fresh transfer id of the active file in
      a message if its buffer takes one, and nobody else. */
  lemma DueDevicesAreTriedAgain(s: State, now: int, supply: Supply, d: Device)
    requires Inv(s) && Enabled(s, Poll(now, supply)) && s.task.status == Running && !Complete(s.task)
             && d in s.task.progress
    ensures var p, t := s.task.progress[d], Polled(s, now, supply);
            && t.task.progress[d].transfer == (if Resends(p, now) then Some(supply.transferFor(d)) else p.transfer)
            && supply.transferFor(d) !in s.used
            && (StartMessage(s.task, d, supply.transferFor(d)) in t.messages - s.messages <==>
                Resends(p, now) && supply.accepts(d))
            && (Resends(p, now) && t.pc.Polling? ==>
                t.task.progress[d].status == if supply.accepts(d) then Downloading else Failed)
  {
    var t := Polled(s, now, supply);
    UnfinishedPass(s, now, supply);
    DueIsResent(s.task.progress[d], d, now, supply);
    MessagesAre(s.task, Resending(s.task, now), supply);
    assert d in Resending(s.task, now) <==> Resends(s.task.progress[d], now);
    assert SentOk(s);
    hide Inv, Polled, AfterPoll, Resends, Messages, Resending, Complete, Exhausted;
  }

  /** A device that reports a failure, a cancellation or the wrong content is sent the file again by any pass at least
      ten seconds later, while attempts are left. */
  lemma FailureIsRetried(s: State, d: Device, report: Report, now: int, later: int, supply: Supply)
    requires Inv(s) && Enabled(s, Receive(d, report, now)) && s.pc.Polling? && Counts(s.task, d, report)
    requires report.status in {Failed, Cancelled}
             || (report.status == Completed && report.digest != ActiveDigest(s.task))
    requires var t := Next(s, Receive(d, report, now));
             && t.pc.Polling? && Enabled(t, Poll(later, supply)) && s.task.progress[d].attempts < 3
             && later >= t.task.progress[d].updatedAt + 10
    ensures var t := Next(s, Receive(d, report, now));
            var u := Next(t, Poll(later, supply));
            && d in u.task.progress && u.task.progress[d].transfer == Some(supply.transferFor(d))
            && supply.transferFor(d) !in t.used
            && (supply.accepts(d) ==> exists m :: m in u.messages - t.messages && m.device == d
                                       && m.file == s.task.activeFile && m.transfer == supply.transferFor(d))
  {
    var t := Next(s, Receive(d, report, now));
    assert !Crashes(s, d, report);
    ReportIsTaken(s, d, report, now);
    StepKeepsInv(s, Receive(d, report, now));
    hide Received, Inv;
    assert !Complete(t.task);
    DueDevicesAreTriedAgain(t, later, supply, d);
    DueIsResent(t.task.progress[d], d, later, supply);
    hide Polled, Resends, Unused;
    assert supply.accepts(d) ==> StartMessage(t.task, d, supply.transferFor(d)) in Polled(t, later, supply).messages
                                   - t.messages;
  }

  /** A device that reports work is left alone for the next three minutes. */
  lemma WorkIsNotInterrupted(s: State, d: Device, report: Report, now: int, later: int, supply: Supply)
    requires Inv(s) && Enabled(s, Receive(d, report, now)) && s.pc.Polling? && Counts(s.task, d, report)
    requires report.status in {Downloading, Verifying, Executing}
    requires var t := Next(s, Receive(d, report, now));
             t.pc.Polling? && Enabled(t, Poll(later, supply)) && later <= t.task.progress[d].updatedAt + 180
    ensures var t := Next(s, Receive(d, report, now));
            var u := Next(t, Poll(later, supply));
            d in u.task.progress && u.task.progress[d].transfer == t.task.progress[d].transfer
  {
    var t := Next(s, Receive(d, report, now));
    assert !Crashes(s, d, report);
    ReportIsTaken(s, d, report, now);
    StepKeepsInv(s, Receive(d, report, now));
    hide Received, Inv;
    assert !Complete(t.task);
    DueDevicesAreTriedAgain(t, later, supply, d);
    DueIsResent(t.task.progress[d], d, later, supply);
    hide Polled, Resends, Unused;
  }

  /** Every message names the active file with a fresh transfer id, and carries the post command, if there is one,
      exactly with the last file. */
  lemma MessagesSayWhatToFetch(states: seq<State>, steps: seq<Step>, i: nat, m: Message)
    requires IsRun(states, steps) && i < |steps| && m in states[i + 1].messages && m !in states[i].messages
    ensures var task := states[i].task;
            && task.files != [] && m.device in task.progress && m.file == task.activeFile
            && m.transfer !in states[i].used
            && (m.file.Some? ==>
                  (m.withPostCommand <==> task.hasPostCommand && m.file.value == task.files[|task.files| - 1]))
  {
    RunKeepsInv(states, steps, i);
    NewMessagesAreStartMessages(states[i], steps[i], m);
    NewTransfersAreFresh(states[i], steps[i], m);
    assert TaskOk(states[i].task);
    hide Inv, Next, Enabled;
  }

  lemma NewTransfersAreFresh(s: State, step: Step, m: Message)
    requires Enabled(s, step) && m in Next(s, step).messages && m !in s.messages
    ensures m.transfer !in s.used
  {
    hide AfterPoll, PassOver, Resends, GivenUp, AfterFirstSend;
  }

  /** Once stopped, nothing more is sent or confirmed until someone retries, or the process restarts. */
  lemma StoppedStaysQuiet(s: State, step: Step)
    requires Inv(s) && Enabled(s, step) && s.task.status == Stopped && !step.Retry? && !Restarts(s, step)
    ensures Next(s, step).task.status == Stopped
            || (step.Serve? && !step.started && Next(s, step).task.status == TaskFailed)
    ensures Next(s, step).task.results == s.task.results && Next(s, step).messages == s.messages
    ensures step.Poll? || step.Enter? ==> Next(s, step).pc == Finishing
  {
    hide Inv, AfterPoll, PassOver, Messages, Resends, GivenUp;
  }

  lemma NotRunningStaysQuiet(s: State, step: Step)
    requires Inv(s) && Enabled(s, step) && s.task.status != Running && !step.Retry? && !Restarts(s, step)
    ensures Next(s, step).task.status != Running
    ensures Next(s, step).task.results == s.task.results && Next(s, step).messages == s.messages
  {
    hide Inv, AfterPoll, PassOver, Messages, Resends, GivenUp;
  }

  /** Nothing was sent or confirmed between the two states, and the task does not run. */
  ghost predicate Quiet(s: State, t: State) {
    t.task.status != Running && t.messages == s.messages && t.task.results == s.task.results
  }

  lemma StopIsQuiet(s: State)
    ensures Quiet(s, Halted(s))
  {
  }

  lemma StaysQuiet(s: State, t: State, step: Step)
    requires Quiet(s, t) && Inv(t) && Enabled(t, step) && !step.Retry? && !Restarts(t, step)
    ensures Quiet(s, Next(t, step))
  {
    hide Inv, Enabled, Restarts, Next;
    NotRunningStaysQuiet(t, step);
  }

  /** A stop is final: whatever reports and passes follow, no message goes out and nothing is confirmed before a retry
      or a restart. */
  lemma {:induction false} NothingAfterStop(states: seq<State>, steps: seq<Step>, n: nat, m: nat)
    requires IsRun(states, steps) && n < m < |states| && |steps| == |states| - 1 && steps[n].Stop?
    requires forall i :: n < i < m ==> !steps[i].Retry? && !Restarts(states[i], steps[i])
    ensures states[m].task.status != Running
    ensures states[m].messages == states[n].messages && states[m].task.results == states[n].task.results
    decreases m
  {
    hide *;
    assert Quiet(states[n], states[m]) by {
      LastStep(states, steps, m);
      if m > n + 1 {
        NothingAfterStop(states, steps, n, m - 1);
        QuietIs(states[n], states[m - 1]);
        StaysQuiet(states[n], states[m - 1], steps[m - 1]);
      } else {
        StopIsQuiet(states[n]);
        NextStop(states[n]);
      }
    }
    QuietIs(states[n], states[m]);
  }

  lemma QuietIs(s: State, t: State)
    ensures Quiet(s, t) <==> t.task.status != Running && t.messages == s.messages && t.task.results == s.task.results
  {
  }

  lemma NextStop(s: State)
    ensures Enabled(s, Stop) ==> Next(s, Stop) == Halted(s)
  {
  }

  // ----- Termination -----

  function Max(a: int, b: int): int {
    if a < b then b else a
  }

  const FILE_RANK: int := FILE_TIMEOUT + 5

  /** How many steps of its own a run can still take. */
  function Rank(s: State): int {
    var n := |s.task.files|;
    match s.pc
    case Idle => 0
    case Gone => 0
    case Closing => 1
    case Finishing => 2
    case Entering(i) => Max(0, n - i) * FILE_RANK + 3
    case Starting(i) => Max(0, n - i) * FILE_RANK + 2
    case Polling(i, deadline) => Max(0, n - 1 - i) * FILE_RANK + 4 + Max(0, deadline - s.clock + 1)
  }

  predicate OfTheRun(step: Step) {
    step.Enter? || step.Serve? || step.Poll? || step.Finish? || step.Close?
  }

  predicate BeginsRun(s: State, step: Step) {
    step.Retry? && s.pc.Idle? && s.task.status != Running
  }

  lemma PollUsesRank(s: State, now: int, supply: Supply)
    requires s.pc.Polling? && s.pc.index < |s.task.files| && now >= s.clock + 1
    ensures 0 <= Rank(Polled(s, now, supply)) < Rank(s)
  {
    PollGoesOnOrEnds(s, now, supply);
    hide Polled;
  }

  lemma PollGoesOnOrEnds(s: State, now: int, supply: Supply)
    requires s.pc.Polling?
    ensures var t := Polled(s, now, supply);
            && t.task.files == s.task.files && t.clock == now
            && (t.pc == Finishing || t.pc == Entering(s.pc.index + 1) || (t.pc == s.pc && now <= s.pc.deadline))
  {
    hide PassOver, Messages, Transfers, Resending, GivenUp, Exhausted, Complete;
  }

  lemma ServeUsesRank(s: State, started: bool, now: int, supply: Supply)
    requires s.pc.Starting? && s.pc.index < |s.task.files|
    ensures 0 <= Rank(Served(s, started, now, supply)) < Rank(s)
  {
    hide AfterFirstSend, Messages, Transfers, Unconfirmed;
  }

  lemma OtherOwnStepsUseRank(s: State, step: Step)
    requires Enabled(s, step) && (step.Enter? || step.Finish? || step.Close?)
    ensures 0 <= Rank(Next(s, step)) < Rank(s)
  {
  }

  lemma OutsideKeepsRank(s: State, step: Step)
    requires TaskOk(s.task) && DiskOk(s.task, s.persisted) && Enabled(s, step) && !OfTheRun(step)
             && !BeginsRun(s, step)
    requires s.pc.Idle? ==> s.task.status != Running
    ensures 0 <= Rank(Next(s, step)) <= Rank(s)
  {
    if step.Receive? && !Crashes(s, step.device, step.report) {
      ReceiveChanges(s, step.device, step.report, step.now);
      hide Received;
    }
    hide TaskOk, Messages, Unused, Issued, Distinct;
  }

  /** With a clock that moves by at least a second per pass, every step of the run uses up rank, and nothing from
      outside adds any. */
  lemma RankGoesDown(s: State, step: Step)
    requires Inv(s) && Enabled(s, step) && !BeginsRun(s, step)
    ensures 0 <= Rank(Next(s, step)) <= Rank(s)
    ensures OfTheRun(step) ==> Rank(Next(s, step)) < Rank(s)
  {
    assert s.pc.Polling? ==> s.pc.index < |s.task.files|;
    assert s.pc.Idle? ==> s.task.status != Running;
    hide Rank, PcOk, SentOk, AutomaticOk, TaskOk, Entered, Served, Polled, Received, Retried, Published, Restarted,
    Halted, Unused, Crashes, BeginsRun;
    match step
    case Poll(now, supply) => PollUsesRank(s, now, supply);
    case Serve(started, now, supply) => ServeUsesRank(s, started, now, supply);
    case Enter => OtherOwnStepsUseRank(s, step);
    case Finish => OtherOwnStepsUseRank(s, step);
    case Close(_, _) => OtherOwnStepsUseRank(s, step);
    case _ => OutsideKeepsRank(s, step);
  }

  function RunSteps(steps: seq<Step>): nat {
    if steps == [] then 0 else RunSteps(steps[..|steps| - 1]) + if OfTheRun(steps[|steps| - 1]) then 1 else 0
  }

  /** A run ends: until a new one is begun, it takes at most a number of steps fixed by the number of files and the file
      timeout, whatever reports, retries and stops arrive. */
  lemma {:induction false} RunsEnd(states: seq<State>, steps: seq<Step>)
    requires Follows(states, steps) && Inv(states[0])
    requires forall i :: 0 <= i < |steps| ==> !BeginsRun(states[i], steps[i])
    ensures Inv(states[|steps|]) && RunSteps(steps) + Rank(states[|steps|]) <= Rank(states[0])
    ensures states[0].pc == Entering(0) ==> RunSteps(steps) <= |states[0].task.files| * FILE_RANK + 3
  {
    hide *;
    RunsEndBy(states, steps, |steps|);
    assert steps[..|steps|] == steps;
    RankIsNatural(states[0]);
    RankIsNatural(states[|steps|]);
  }

  lemma {:induction false} RunsEndBy(states: seq<State>, steps: seq<Step>, n: nat)
    requires Follows(states, steps) && Inv(states[0]) && n <= |steps|
    requires forall i :: 0 <= i < |steps| ==> !BeginsRun(states[i], steps[i])
    ensures |states| == |steps| + 1 && Inv(states[n]) && RunSteps(steps[..n]) + Rank(states[n]) <= Rank(states[0])
  {
    hide *;
    RunStepsOf(states, steps, n);
    if n > 0 {
      RunsEndBy(states, steps, n - 1);
      RunsEndStep(states, steps, n - 1);
    }
  }

  lemma RunStepsOf(states: seq<State>, steps: seq<Step>, n: nat)
    requires Follows(states, steps) && n <= |steps|
    ensures |states| == |steps| + 1
    ensures n == 0 ==> RunSteps(steps[..n]) == 0
    ensures n > 0 ==> RunSteps(steps[..n]) == RunSteps(steps[..n - 1]) + if OfTheRun(steps[n - 1]) then 1 else 0
  {
    hide Enabled, Next, OfTheRun;
    if n > 0 {
      assert steps[..n][..n - 1] == steps[..n - 1];
    }
  }

  lemma RankIsNatural(s: State)
    ensures 0 <= Rank(s)
    ensures s.pc == Entering(0) ==> Rank(s) == |s.task.files| * FILE_RANK + 3
  {
  }

  lemma RunsEndStep(states: seq<State>, steps: seq<Step>, n: nat)
    requires Follows(states, steps) && n < |steps| && Inv(states[n]) && !BeginsRun(states[n], steps[n])
    ensures Inv(states[n + 1]) && Rank(states[n + 1]) + (if OfTheRun(steps[n]) then 1 else 0) <= Rank(states[n])
  {
    hide Inv, Enabled, Next, Rank, BeginsRun, OfTheRun;
    StepKeepsInv(states[n], steps[n]);
    RankGoesDown(states[n], steps[n]);
  }

  // ----- The task itself -----

  /** One more device looked at: its transfer and its message join those of the devices served so far. */
  lemma OneMoreServed(task: Task, other: Task, devices: set<Device>, todo: set<Device>, d: Device, supply: Supply)
    requires d in todo && other == task.(progress := other.progress)
    ensures Messages(task, devices - (todo - {d}), supply) == Messages(task, devices - todo, supply)
            + if d in devices && supply.accepts(d) then {StartMessage(other, d, supply.transferFor(d))} else {}
    ensures Transfers(devices - (todo - {d}), supply) == Transfers(devices - todo, supply)
            + if d in devices then {supply.transferFor(d)} else {}
  {
    var before, after := devices - todo, devices - (todo - {d});
    MessagesAre(task, before, supply);
    MessagesAre(task, after, supply);
    if d in devices {
      assert after == before + {d};
      forall x ensures x in Transfers(after, supply) <==> x in Transfers(before, supply) + {supply.transferFor(d)} {
      }
    } else {
      assert after == before;
    }
  }

  lemma NobodyServed(task: Task, devices: set<Device>, supply: Supply)
    ensures var none := {};
            Messages(task, devices - devices, supply) == none && Transfers(devices - devices, supply) == {}
    ensures Messages(task, devices - {}, supply) == Messages(task, devices, supply)
            && Transfers(devices - {}, supply) == Transfers(devices, supply)
  {
    assert devices - devices == {} && devices - {} == devices;
    MessagesAre(task, {}, supply);
  }

  lemma SomeDevice(devices: set<Device>)
    requires devices != {}
    ensures exists d :: d in devices
  {
    assert (forall d :: d !in devices) ==> devices == {};
  }

  lemma CompletedIsLeftAlone(p: Progress, d: Device, now: int, supply: Supply)
    requires p.status == Completed
    ensures AfterPoll(p, d, now, supply) == p && !Resends(p, now) && Exhausted(p)
  {
  }

  lemma PassOneMore(task: Task, before: Task, after: Task, used0: set<Transfer>, messages0: set<Message>,
                    used1: set<Transfer>, messages1: set<Message>,
                    used2: set<Transfer>, messages2: set<Message>, todo: set<Device>, d: Device, now: int,
                    supply: Supply)
    requires PassedValues(before, used1, messages1, task, used0, messages0, todo, now, supply) && d in todo
    requires after == before.(progress := before.progress[d := AfterPoll(before.progress[d], d, now, supply)])
    requires used2 == used1 + if Resends(before.progress[d], now) then {supply.transferFor(d)} else {}
    requires messages2 == messages1
             + if Resends(before.progress[d], now) && supply.accepts(d)
                 then {StartMessage(before, d, supply.transferFor(d))} else {}
    ensures PassedValues(after, used2, messages2, task, used0, messages0, todo - {d}, now, supply)
  {
    OneMoreServed(task, before, Resending(task, now), todo, d, supply);
    assert d in Resending(task, now) <==> Resends(before.progress[d], now);
    hide AfterPoll, Resends, StartMessage, Messages, Transfers, Resending;
  }

  lemma OneMoreExhausted(before: map<Device, Progress>, after: map<Device, Progress>, todo: set<Device>, d: Device,
                         exhausted: bool, hopeless: bool)
    requires d in before && d in after && d in todo && after == before[d := after[d]]
             && (hopeless <==> Exhausted(after[d]))
    requires exhausted <==> forall c :: c in before && c !in todo ==> Exhausted(before[c])
    ensures exhausted && hopeless <==> forall c :: c in after && c !in todo - {d} ==> Exhausted(after[c])
  {
    hide Exhausted;
    assert forall c :: c in before <==> c in after;
    assert forall c :: c in before && c != d ==> after[c] == before[c];
  }

  /** From `task` to `now`, exactly the devices outside `todo` have been dealt with. */
  ghost predicate PassedValues(after: Task, used: set<Transfer>, messages: set<Message>, task: Task,
                               used0: set<Transfer>, messages0: set<Message>, todo: set<Device>, now: int,
                               supply: Supply) {
    && after == task.(progress := after.progress) && after.progress.Keys == task.progress.Keys
       && todo <= task.progress.Keys
    && (forall d :: d in task.progress ==>
        after.progress[d] == if d in todo then task.progress[d] else AfterPoll(task.progress[d], d, now, supply))
    && used == used0 + Transfers(Resending(task, now) - todo, supply)
    && messages == messages0 + Messages(task, Resending(task, now) - todo, supply)
  }

  predicate FileNameAllowed(name: string) {
    name != "" && Assets.IsBaseName(name) && name[0] != '.'
  }

  /** What a request for a new task must bring: files that exist under plain names, and positive device numbers. */
  ghost predicate Startable(files: seq<string>, digests: map<string, string>, targets: seq<Device>) {
    && files != [] && (forall f :: f in files ==> FileNameAllowed(f) && f in digests)
    && targets != [] && (forall d :: d in targets ==> d > 0)
  }

  /** The files of a request, each once, with their digests; None at the first that may not be sent. `digests` has the
      regular files of the upload folder. */
  method CollectFiles(files: seq<string>, digests: map<string, string>)
    returns (ok: bool, names: seq<string>, hashes: map<string, string>)
    ensures ok <==> forall f :: f in files ==> FileNameAllowed(f) && f in digests
    ensures ok ==>
              Distinct(names) && (forall f :: f in names <==> f in files) && (forall f :: f in hashes <==> f in files)
    ensures ok ==> forall f :: f in hashes ==> f in digests && hashes[f] == digests[f]
  {
    names, hashes := [], map[];
    for n := 0 to |files|
      invariant Distinct(names) && (forall f :: f in names <==> f in files[..n])
                && (forall f :: f in hashes <==> f in files[..n])
      invariant forall f :: f in hashes ==> f in digests && hashes[f] == digests[f]
      invariant forall f :: f in files[..n] ==> FileNameAllowed(f) && f in digests
    {
      var name := files[n];
      assert files[..n + 1] == files[..n] + [name] && name in files;
      if !FileNameAllowed(name) {
        return false, [], map[];
      }
      if name !in hashes {
        if name !in digests {
          return false, [], map[];
        }
        names, hashes := names + [name], hashes[name := digests[name]];
      }
    }
    assert files[..|files|] == files;
    ok := true;
  }

  method CollectTargets(targets: seq<Device>) returns (ok: bool, progress: map<Device, Progress>)
    ensures ok <==> forall d :: d in targets ==> d > 0
    ensures ok ==> (forall d :: d in progress <==> d in targets) && forall d :: d in progress ==>
              progress[d] == Progress(Waiting, None, 0, 0)
  {
    progress := map[];
    for n := 0 to |targets|
      invariant (forall d :: d in progress <==> d in targets[..n]) && forall d :: d in progress ==>
                  progress[d] == Progress(Waiting, None, 0, 0)
      invariant forall d :: d in targets[..n] ==> d > 0
    {
      var device := targets[n];
      assert targets[..n + 1] == targets[..n] + [device] && device in targets;
      if device <= 0 {
        return false, map[];
      }
      if device !in progress {
        progress := progress[device := Progress(Waiting, None, 0, 0)];
      }
    }
    assert targets[..|targets|] == targets;
    ok := true;
  }

  /** A new task unless one is still running: for the requested devices, or all known ones if none are named. It is the
      start of a run of the machine above. */
  method StartTask(busy: bool, files: seq<string>, digests: map<string, string>, requested: seq<Device>,
                   known: seq<Device>, postCommand: bool) returns (task: Option<Task>)
    ensures task.Some? <==> !busy && Startable(files, digests, if requested == [] then known else requested)
    ensures task.Some? ==>
              (forall f :: f in task.value.files <==> f in files)
                  && (forall f :: f in task.value.hashes <==> f in files)
    ensures task.Some? ==> forall f :: f in task.value.hashes ==> f in digests && task.value.hashes[f] == digests[f]
    ensures task.Some? ==> forall d :: d in task.value.progress <==> d in if requested == [] then known else requested
    ensures task.Some? ==> task.value.hasPostCommand == postCommand && forall now, wrote ::
              Initial(NewState(task.value, now, wrote))
  {
    if busy || files == [] {
      return None;
    }
    var targets := if requested == [] then known else requested;
    if targets == [] {
      return None;
    }
    var ok, names, hashes := CollectFiles(files, digests);
    if !ok {
      return None;
    }
    var positive, progress := CollectTargets(targets);
    if !positive {
      return None;
    }
    assert files[0] in names;
    return Some(Task(names, hashes, postCommand, Running, None, 0, {}, progress));
  }

  class DistributeTask {
    const files: seq<string>
    const hashes: map<string, string>
    const hasPostCommand: bool
    var status: TaskStatus
    var activeFile: Option<string>
    var activeIdx: nat
    var results: set<(string, Device)>
    var progress: map<Device, Progress>
    ghost var used: set<Transfer>
    ghost var messages: set<Message>

    function Snapshot(): Task
      reads this
    {
      Task(files, hashes, hasPostCommand, status, activeFile, activeIdx, results, progress)
    }

    constructor (task: Task)
      ensures Snapshot() == task && messages == {} && used == {}
    {
      files, hashes, hasPostCommand := task.files, task.hashes, task.hasPostCommand;
      status, activeFile, activeIdx, results, progress :=
          task.status, task.activeFile, task.activeIdx, task.results, task.progress;
      used, messages := {}, {};
    }

    /** Issues a fresh transfer of the active file to one device. */
    method SendLocked(d: Device, now: int, supply: Supply)
      requires d in progress
      modifies this`progress, this`used, this`messages
      ensures progress == old(progress)[d := Issued(old(progress)[d], now, supply.transferFor(d), supply.accepts(d))]
      ensures used == old(used) + {supply.transferFor(d)}
      ensures messages == old(messages)
              + if supply.accepts(d) then {StartMessage(old(Snapshot()), d, supply.transferFor(d))} else {}
      ensures progress[d].transfer == Some(supply.transferFor(d)) && progress[d].updatedAt == now
              && progress[d].attempts == old(progress)[d].attempts + 1
              && progress[d].status == if supply.accepts(d) then Downloading else Failed
      ensures supply.accepts(d) ==>
                Message(d, supply.transferFor(d), activeFile, hasPostCommand && activeIdx + 1 == |files|) in messages
    {
      var p := progress[d];
      var transfer := supply.transferFor(d);
      used := used + {transfer};
      var next := Downloading;
      if supply.accepts(d) {
        messages := messages + {StartMessage(Snapshot(), d, transfer)};
      } else {
        next := Failed;
      }
      progress := progress[d := Progress(next, Some(transfer), p.attempts + 1, now)];
    }

    method ServeDevice(file: string, d: Device, now: int, supply: Supply)
      requires d in progress
      modifies this`progress, this`used, this`messages
      ensures progress == old(progress)[d := AfterFirstSend(old(progress)[d], (file, d) in results, d, now, supply)]
      ensures used == old(used) + if (file, d) in results then {} else {supply.transferFor(d)}
      ensures messages == old(messages)
              + if (file, d) !in results && supply.accepts(d)
                  then {StartMessage(old(Snapshot()), d, supply.transferFor(d))} else {}
    {
      progress := progress[d := progress[d].(attempts := 0)];
      if (file, d) in results {
        progress := progress[d := progress[d].(status := Completed)];
      } else {
        SendLocked(d, now, supply);
      }
    }

    /** Since `task`, `used0` and `messages0`, all devices but those of `todo` have been served the file. */
    ghost predicate Begun(task: Task, used0: set<Transfer>, messages0: set<Message>, file: string, todo: set<Device>,
                          now: int, supply: Supply)
      reads this
    {
      && Snapshot() == task.(progress := progress) && progress.Keys == task.progress.Keys && todo <= progress.Keys
      && (forall d :: d in progress ==>
          progress[d] == if d in todo then task.progress[d]
              else AfterFirstSend(task.progress[d], (file, d) in results, d, now, supply))
      && used == used0 + Transfers(Unconfirmed(task, file) - todo, supply)
      && messages == messages0 + Messages(task, Unconfirmed(task, file) - todo, supply)
    }

    method BeginDevice(ghost task: Task, ghost used0: set<Transfer>, ghost messages0: set<Message>, file: string,
                       ghost todo: set<Device>, d: Device, now: int, supply: Supply)
      requires Begun(task, used0, messages0, file, todo, now, supply) && d in todo
      modifies this`progress, this`used, this`messages
      ensures Begun(task, used0, messages0, file, todo - {d}, now, supply)
    {
      OneMoreServed(task, Snapshot(), Unconfirmed(task, file), todo, d, supply);
      hide AfterFirstSend, Messages, StartMessage, Transfers;
      ServeDevice(file, d, now, supply);
    }

    /** The start of a file: every device that lacks it is told to fetch it, in any order. */
    method BeginFile(i: nat, now: int, supply: Supply)
      requires i < |files| && activeIdx == i && activeFile == Some(files[i])
      modifies this`progress, this`used, this`messages
      ensures progress == map d | d in old(progress) ::
                AfterFirstSend(old(progress)[d], (files[i], d) in results, d, now, supply)
      ensures used == old(used) + Transfers(Unconfirmed(old(Snapshot()), files[i]), supply)
      ensures messages == old(messages) + Messages(old(Snapshot()), Unconfirmed(old(Snapshot()), files[i]), supply)
    {
      ghost var task := Snapshot();
      hide Begun;
      NobodyBegun(files[i], now, supply);
      var todo := progress.Keys;
      while todo != {}
        invariant Begun(task, old(used), old(messages), files[i], todo, now, supply)
        decreases |todo|
      {
        SomeDevice(todo);
        var d :| d in todo;
        BeginDevice(task, old(used), old(messages), files[i], todo, d, now, supply);
        todo := todo - {d};
      }
      AllBegun(task, old(used), old(messages), files[i], now, supply);
    }

    lemma NobodyBegun(file: string, now: int, supply: Supply)
      ensures Begun(Snapshot(), used, messages, file, progress.Keys, now, supply)
    {
      var lacking := Unconfirmed(Snapshot(), file);
      NobodyServed(Snapshot(), lacking, supply);
      assert lacking - progress.Keys == lacking - lacking;
    }

    lemma AllBegun(task: Task, used0: set<Transfer>, messages0: set<Message>, file: string, now: int, supply: Supply)
      requires Begun(task, used0, messages0, file, {}, now, supply)
      ensures progress == map d | d in task.progress ::
                AfterFirstSend(task.progress[d], (file, d) in results, d, now, supply)
      ensures used == used0 + Transfers(Unconfirmed(task, file), supply)
      ensures messages == messages0 + Messages(task, Unconfirmed(task, file), supply)
    {
      NobodyServed(task, Unconfirmed(task, file), supply);
    }

    /** One pass over the devices of a file that is not complete yet: stalled ones are noticed, and failed ones sent
        again while attempts last. */
    method PollOnce(now: int, deadline: int, supply: Supply) returns (complete: bool, over: bool)
      modifies this`status, this`progress, this`used, this`messages
      ensures complete <==> old(status) == Running && Complete(old(Snapshot()))
      ensures over <==> old(status) != Running || status == TaskFailed
      ensures old(status) != Running || complete ==>
                Snapshot() == old(Snapshot()) && used == old(used) && messages == old(messages)
      ensures old(status) == Running && !complete ==>
                var after := PassOver(old(Snapshot()), now, supply);
                && (status == TaskFailed <==> (forall d :: d in after ==> Exhausted(after[d])) || now > deadline)
                   && (status == TaskFailed || status == Running)
                && progress == (if status == TaskFailed then GivenUp(after) else after)
                && used == old(used) + Transfers(Resending(old(Snapshot()), now), supply)
                && messages == old(messages) + Messages(old(Snapshot()), Resending(old(Snapshot()), now), supply)
    {
      if status != Running {
        return false, true;
      }
      var exhausted;
      complete, exhausted := PassDevices(now, supply);
      over := false;
      if !complete && (exhausted || now > deadline) {
        status := TaskFailed;
        progress := map d | d in progress ::
            if progress[d].status == Completed then progress[d] else progress[d].(status := Failed);
        over := true;
      }
    }

    /** A pass over one device that has not completed the file. */
    method PassDevice(d: Device, now: int, supply: Supply) returns (hopeless: bool)
      requires d in progress && progress[d].status != Completed
      modifies this`progress, this`used, this`messages
      ensures progress == old(progress)[d := AfterPoll(old(progress)[d], d, now, supply)]
      ensures hopeless <==> Exhausted(progress[d])
      ensures used == old(used) + if Resends(old(progress)[d], now) then {supply.transferFor(d)} else {}
      ensures messages == old(messages)
              + if Resends(old(progress)[d], now) && supply.accepts(d)
                  then {StartMessage(old(Snapshot()), d, supply.transferFor(d))} else {}
    {
      if now - progress[d].updatedAt > STALL_TIMEOUT {
        progress := progress[d := progress[d].(status := Stalled)];
      }
      var p := progress[d];
      if p.attempts < MAX_ATTEMPTS && now - p.updatedAt >= RESEND_DELAY
          && (p.status == Failed || p.status == Stalled || p.status == Cancelled) {
        SendLocked(d, now, supply);
      }
      p := progress[d];
      return !(p.attempts < MAX_ATTEMPTS || p.status == Downloading || p.status == Verifying || p.status == Executing);
    }

    /** Since `task`, `used0` and `messages0`, the pass has dealt with all devices but those of `todo`. */
    ghost predicate Passed(task: Task, used0: set<Transfer>, messages0: set<Message>, todo: set<Device>, now: int,
                           supply: Supply, complete: bool, exhausted: bool)
      reads this
    {
      && Snapshot() == task.(progress := progress) && progress.Keys == task.progress.Keys && todo <= progress.Keys
      && (forall d :: d in progress ==>
          progress[d] == if d in todo then task.progress[d] else AfterPoll(task.progress[d], d, now, supply))
      && (complete <==> forall d :: d in progress && d !in todo ==> task.progress[d].status == Completed)
      && (exhausted <==> forall d :: d in progress && d !in todo ==> Exhausted(progress[d]))
      && used == used0 + Transfers(Resending(task, now) - todo, supply)
      && messages == messages0 + Messages(task, Resending(task, now) - todo, supply)
    }

    method PassOn(ghost task: Task, ghost used0: set<Transfer>, ghost messages0: set<Message>, ghost todo: set<Device>,
                  d: Device, now: int, supply: Supply, complete: bool, exhausted: bool)
      returns (stillComplete: bool, stillExhausted: bool)
      requires Passed(task, used0, messages0, todo, now, supply, complete, exhausted) && d in todo
      modifies this`progress, this`used, this`messages
      ensures Passed(task, used0, messages0, todo - {d}, now, supply, stillComplete, stillExhausted)
    {
      ghost var before, usedBefore, messagesBefore := Snapshot(), used, messages;
      if progress[d].status == Completed {
        hide Passed;
        CompletedIsPassed(task, used0, messages0, todo, d, now, supply, complete, exhausted);
        return complete, exhausted;
      }
      PassedSoFar(task, used0, messages0, todo, d, now, supply, complete, exhausted);
      hide Passed, AfterPoll, Resends, Exhausted, StartMessage, Messages, Transfers, Resending;
      var hopeless := PassDevice(d, now, supply);
      OneMorePassed(task, before, used0, messages0, usedBefore, messagesBefore, todo, d, now, supply, exhausted,
                    hopeless);
      return false, exhausted && hopeless;
    }

    lemma PassedSoFar(task: Task, used0: set<Transfer>, messages0: set<Message>, todo: set<Device>, d: Device, now: int,
                      supply: Supply, complete: bool, exhausted: bool)
      requires Passed(task, used0, messages0, todo, now, supply, complete, exhausted) && d in todo
      ensures d in progress && progress[d] == task.progress[d]
      ensures PassedValues(Snapshot(), used, messages, task, used0, messages0, todo, now, supply)
              && (exhausted <==> forall c :: c in progress && c !in todo ==> Exhausted(progress[c]))
    {
      hide AfterPoll, Resends, Messages, Transfers, Resending;
    }

    lemma OneMorePassed(task: Task, before: Task, used0: set<Transfer>, messages0: set<Message>,
                        usedBefore: set<Transfer>, messagesBefore: set<Message>,
                        todo: set<Device>, d: Device, now: int, supply: Supply, exhausted: bool, hopeless: bool)
      requires PassedValues(before, usedBefore, messagesBefore, task, used0, messages0, todo, now, supply) && d in todo
               && task.progress[d].status != Completed
      requires exhausted <==> forall c :: c in before.progress && c !in todo ==> Exhausted(before.progress[c])
      requires Snapshot() == before.(progress := progress)
               && progress == before.progress[d := AfterPoll(before.progress[d], d, now, supply)]
      requires hopeless <==> Exhausted(progress[d])
      requires used == usedBefore + if Resends(before.progress[d], now) then {supply.transferFor(d)} else {}
      requires messages == messagesBefore
               + if Resends(before.progress[d], now) && supply.accepts(d)
                   then {StartMessage(before, d, supply.transferFor(d))} else {}
      ensures Passed(task, used0, messages0, todo - {d}, now, supply, false, exhausted && hopeless)
    {
      PassOneMore(task, before, Snapshot(), used0, messages0, usedBefore, messagesBefore, used, messages, todo, d, now,
                  supply);
      OneMoreExhausted(before.progress, progress, todo, d, exhausted, hopeless);
      assert before.progress[d] == task.progress[d];
      hide AfterPoll, Resends, Exhausted, StartMessage, Messages, Transfers, Resending, PassedValues;
      PassedIs(task, used0, messages0, todo - {d}, d, now, supply, exhausted && hopeless);
    }

    /** A pass that has met the incomplete device d is not complete. */
    lemma PassedIs(task: Task, used0: set<Transfer>, messages0: set<Message>, todo: set<Device>, d: Device, now: int,
                   supply: Supply, exhausted: bool)
      requires PassedValues(Snapshot(), used, messages, task, used0, messages0, todo, now, supply)
      requires d in task.progress && d !in todo && task.progress[d].status != Completed
      requires exhausted <==> forall c :: c in progress && c !in todo ==> Exhausted(progress[c])
      ensures Passed(task, used0, messages0, todo, now, supply, false, exhausted)
    {
      hide AfterPoll, Exhausted, Messages, Transfers, Resending;
    }

    lemma CompletedIsPassed(task: Task, used0: set<Transfer>, messages0: set<Message>, todo: set<Device>, d: Device,
                            now: int, supply: Supply, complete: bool, exhausted: bool)
      requires Passed(task, used0, messages0, todo, now, supply, complete, exhausted) && d in todo
               && progress[d].status == Completed
      ensures Passed(task, used0, messages0, todo - {d}, now, supply, complete, exhausted)
    {
      CompletedIsLeftAlone(progress[d], d, now, supply);
      assert Resending(task, now) - (todo - {d}) == Resending(task, now) - todo;
      hide AfterPoll, Resends, Exhausted, Messages, Transfers, Resending;
    }

    method PassDevices(now: int, supply: Supply) returns (complete: bool, exhausted: bool)
      modifies this`progress, this`used, this`messages
      ensures complete <==> Complete(old(Snapshot()))
      ensures progress == PassOver(old(Snapshot()), now, supply)
      ensures exhausted <==> forall d :: d in progress ==> Exhausted(progress[d])
      ensures used == old(used) + Transfers(Resending(old(Snapshot()), now), supply)
      ensures messages == old(messages) + Messages(old(Snapshot()), Resending(old(Snapshot()), now), supply)
    {
      ghost var task := Snapshot();
      hide Passed;
      NobodyPassed(now, supply);
      var todo := progress.Keys;
      complete, exhausted := true, true;
      while todo != {}
        invariant Passed(task, old(used), old(messages), todo, now, supply, complete, exhausted)
        decreases |todo|
      {
        SomeDevice(todo);
        var d :| d in todo;
        complete, exhausted := PassOn(task, old(used), old(messages), todo, d, now, supply, complete, exhausted);
        todo := todo - {d};
      }
      AllPassed(task, old(used), old(messages), now, supply, complete, exhausted);
    }

    lemma NobodyPassed(now: int, supply: Supply)
      ensures Passed(Snapshot(), used, messages, progress.Keys, now, supply, true, true)
    {
      var resending := Resending(Snapshot(), now);
      NobodyServed(Snapshot(), resending, supply);
      assert resending - progress.Keys == resending - resending;
    }

    lemma AllPassed(task: Task, used0: set<Transfer>, messages0: set<Message>, now: int, supply: Supply, complete: bool,
                    exhausted: bool)
      requires Passed(task, used0, messages0, {}, now, supply, complete, exhausted)
      ensures (complete <==> Complete(task)) && progress == PassOver(task, now, supply)
              && (exhausted <==> forall d :: d in progress ==> Exhausted(progress[d]))
      ensures used == used0 + Transfers(Resending(task, now), supply)
              && messages == messages0 + Messages(task, Resending(task, now), supply)
    {
      NobodyServed(task, Resending(task, now), supply);
      hide AfterPoll, Resends, Exhausted, Messages, Transfers, Resending;
    }

    /** Cancels every device that has not completed; what is confirmed or completed stays. */
    method StopTask(ghost s: State)
      requires s.task == Snapshot()
      modifies this`status, this`progress
      ensures Snapshot() == Halted(s).task
      ensures forall d :: d in progress <==> d in old(progress)
      ensures forall d :: d in progress ==>
                (progress[d].status == Completed && progress[d] == old(progress)[d]) || progress[d].status == Cancelled
    {
      status := Stopped;
      progress := map d | d in progress ::
          if progress[d].status == Completed then progress[d] else progress[d].(status := Cancelled);
    }

    /** A device's report, counted only as `Received` says; one that would confirm the empty file name is what crashes
        the process. */
    method HandleProgressReport(d: Device, report: Report, now: int, ghost s: State)
      requires s.task == Snapshot() && !Crashes(s, d, report)
      modifies this`progress, this`results
      ensures Snapshot() == Received(s, d, report, now).task
      ensures Takes(old(Snapshot()), d, report, now, Snapshot())
    {
      ReportIsTaken(s, d, report, now);
      hide Takes;
      if d !in progress || status != Running {
        return;
      }
      var p := progress[d];
      if report.transfer.None? {
        progress := progress[d := p.(status := Failed, attempts := MAX_ATTEMPTS)];
        return;
      }
      if report.transfer != p.transfer || p.status == Completed || report.status == Waiting || report.status
          == Stalled {
        return;
      }
      var reported := report.status;
      if reported == Completed && report.digest != (if activeFile.Some? && activeFile.value in hashes
                                                    then hashes[activeFile.value] else "") {
        reported := Failed;
      }
      progress := progress[d := p.(status := reported, updatedAt := if report.advanced || p.status != reported then now
                                   else p.updatedAt)];
      if reported == Completed {
        results := results + {(activeFile.value, d)};
      }
    }

    /** Sends once more to a device still waiting; a finished task is begun again. */
    method RetryDevice(d: Device, runOver: bool, filesUnchanged: bool, now: int, supply: Supply, ghost s: State)
      returns (restarted: bool)
      requires s.task == Snapshot() && s.used == used && s.messages == messages && (runOver <==> s.pc.Idle?)
      modifies this`status, this`progress, this`used, this`messages
      ensures var t := Retried(s, d, filesUnchanged, now, supply);
              Snapshot() == t.task && used == t.used && messages == t.messages
      ensures restarted <==> status == Running && old(status) != Running
      ensures restarted <==> old(status) != Running && runOver && filesUnchanged && (d == 0 || d in old(progress))
      ensures old(status) == Running && d in old(progress) && old(progress)[d].status != Completed ==>
                progress[d].transfer == Some(supply.transferFor(d))
      ensures !(old(status) == Running && d in old(progress) && old(progress)[d].status != Completed) ==>
                progress == old(progress) && messages == old(messages)
    {
      if d != 0 && d !in progress {
        return false;
      }
      if status == Running {
        if d !in progress || progress[d].status == Completed {
          return false;
        }
        MessagesAre(Snapshot(), {d}, supply);
        SendLocked(d, now, supply);
        return false;
      }
      if !runOver || !filesUnchanged {
        return false;
      }
      status := Running;
      return true;
    }
  }
}
