/** The cloud's durable job queue, its relay connections, and the delivery pass that sends jobs over them. */
module Cloud {
  import opened Common
  import R = Relay

  type Id = R.Id
  type Request = R.Request
  type Response = R.Response
  type Room = nat
  type Conn = nat

  datatype Status = Queued | Sent | Completed | Failed | Unclear | Cancelled

  /** When a job was last sent: the column is empty, a time in seconds, or a text that is no time but sorts among the
      texts of times. */
  datatype SentAt = Never | At(time: int) | Unreadable(place: int)
  datatype Job = Job(room: Room, request: Request, status: Status, sentAt: SentAt, response: Option<Response>)

  /** A row as the delivery query returned it, which may be out of date by the time it is used. */
  datatype Row = Row(id: Id, room: Room, status: Status, sentAt: SentAt)

  /** Where the single delivery goroutine stands. */
  datatype Pass =
    | Idle
    | Scanning(rows: seq<Row>, picked: seq<Id>)
    | Sending(todo: seq<Id>)
    | Holding(job: Id, conn: Conn, todo: seq<Id>)
    | Marked(job: Id, conn: Conn, todo: seq<Id>)

  datatype Transmission = Transmission(job: Id, conn: Conn, ok: bool)

  datatype State = State(jobs: map<Id, Job>, online: map<Room, Conn>, issued: set<Conn>, pass: Pass,
                         log: seq<Transmission>)

  datatype Step =
    | Enqueue(id: Id, room: Room, request: Request)
    | Hello(room: Room, conn: Conn)
    | Lost(room: Room)
    | Answer(room: Room, response: Response)
    | Cancel(id: Id)
    | Restart
    | Query(rows: seq<Row>, now: int)
    | CheckRow(now: int)
    | StartSending
    | PickConnection
    | MarkSent(now: int, ok: bool)
    | Transmit(ok: bool)

  const RETRY_SECONDS: int := 20

  /** Whether a stored job should be handed to a room; a sent job never is while its room is connected. */
  function ShouldDeliver(status: Status, sentAt: SentAt, roomOnline: bool, now: int): bool {
    match status
    case Queued => true
    case Sent => !roomOnline && (sentAt.At? ==> now - sentAt.time >= RETRY_SECONDS)
    case _ => false
  }

  function SortsAs(sentAt: SentAt): int
    requires !sentAt.Never?
  {
    match sentAt
    case At(time) => time
    case Unreadable(place) => place
  }

  /** The query compares the stored text with that of a time twenty seconds ago. */
  predicate Selectable(job: Job, now: int) {
    match job.status
    case Queued => true
    case Sent => job.sentAt.Never? || SortsAs(job.sentAt) < now - RETRY_SECONDS
    case _ => false
  }

  function RowOf(id: Id, job: Job): Row {
    Row(id, job.room, job.status, job.sentAt)
  }

  /** At most 100 distinct rows of the query, each as it stood when read. */
  ghost predicate QueryResult(jobs: map<Id, Job>, rows: seq<Row>, now: int) {
    && |rows| <= 100
    && (forall i | 0 <= i < |rows| ::
        rows[i].id in jobs && Selectable(jobs[rows[i].id], now) && rows[i] == RowOf(rows[i].id, jobs[rows[i].id]))
    && (forall i, j :: 0 <= i < j < |rows| ==> rows[i].id != rows[j].id)
  }

  ghost predicate Enabled(s: State, step: Step) {
    match step
    case Enqueue(id, _, request) => id !in s.jobs && request.id == id && !request.isGet
    case Hello(_, conn) => conn !in s.issued
    case Lost(room) => room in s.online
    case Answer(room, _) => room in s.online
    case Query(rows, now) => s.pass.Idle? && QueryResult(s.jobs, rows, now)
    case CheckRow(_) => s.pass.Scanning? && s.pass.rows != []
    case StartSending => s.pass.Scanning? && s.pass.rows == []
    case PickConnection => s.pass.Sending?
    case MarkSent(_, _) => s.pass.Holding?
    case Transmit(_) => s.pass.Marked?
    case _ => true
  }

  function NewJob(room: Room, request: Request): Job {
    Job(room, request, Queued, Never, None)
  }

  /** A second relay with the identity of a connected one is rejected and nothing else happens. */
  function Connect(s: State, room: Room, conn: Conn): State {
    if room in s.online then s.(issued := s.issued + {conn})
    else s.(online := s.online[room := conn], issued := s.issued + {conn})
  }

  function Requeued(job: Job): Job {
    if job.status == Sent then job.(status := Queued, sentAt := Never) else job
  }

  /** Losing a connection frees the room and puts everything that was in flight to it back in the queue. */
  function Teardown(s: State, room: Room): State {
    s.(online := s.online - {room},
       jobs := map id | id in s.jobs :: if s.jobs[id].room == room then Requeued(s.jobs[id]) else s.jobs[id])
  }

  function StatusOf(response: Response): Status {
    if response.status == 409 then Unclear else if response.status >= 400 then Failed else Completed
  }

  /** An answer settles the job it names in the answering room; 102 only keeps the text of a pending job. */
  function RecordAnswer(s: State, room: Room, response: Response): State {
    var id := response.id;
    if id !in s.jobs || s.jobs[id].room != room then s
    else if response.status == 102 then
      if s.jobs[id].status == Queued || s.jobs[id].status == Sent then
        s.(jobs := s.jobs[id := s.jobs[id].(response := Some(response))])
      else s
    else s.(jobs := s.jobs[id := s.jobs[id].(status := StatusOf(response), response := Some(response))])
  }

  function CancelQueued(s: State, id: Id): State {
    if id in s.jobs && s.jobs[id].status == Queued then s.(jobs := s.jobs[id := s.jobs[id].(status := Cancelled)])
    else s
  }

  function NextConnection(s: State): State
    requires s.pass.Sending?
  {
    var todo := s.pass.todo;
    if todo == [] then s.(pass := Idle)
    else if todo[0] !in s.jobs || s.jobs[todo[0]].room !in s.online then s.(pass := Sending(todo[1..]))
    else s.(pass := Holding(todo[0], s.online[s.jobs[todo[0]].room], todo[1..]))
  }

  /** The row is marked only while pending, but the pass goes on to send whether or not a row changed. */
  function Mark(s: State, now: int, ok: bool): State
    requires s.pass.Holding?
  {
    var Holding(id, conn, todo) := s.pass;
    if !ok then s.(pass := Sending(todo))
    else s.(pass := Marked(id, conn, todo),
            jobs := if id in s.jobs && (s.jobs[id].status == Queued || s.jobs[id].status == Sent)
                    then s.jobs[id := s.jobs[id].(status := Sent, sentAt := At(now))] else s.jobs)
  }

  function Send(s: State, ok: bool): State
    requires s.pass.Marked?
  {
    var Marked(id, conn, todo) := s.pass;
    s.(pass := Sending(todo), log := s.log + [Transmission(id, conn, ok)],
       jobs := if !ok && id in s.jobs then s.jobs[id := Requeued(s.jobs[id])] else s.jobs)
  }

  function Next(s: State, step: Step): State
    requires Enabled(s, step)
  {
    match step
    case Enqueue(id, room, request) => s.(jobs := s.jobs[id := NewJob(room, request)])
    case Hello(room, conn) => Connect(s, room, conn)
    case Lost(room) => Teardown(s, room)
    case Answer(room, response) => RecordAnswer(s, room, response)
    case Cancel(id) => CancelQueued(s, id)
    case Restart => s.(online := map[], pass := Idle)
    case Query(rows, _) => s.(pass := Scanning(rows, []))
    case CheckRow(now) =>
      var row := s.pass.rows[0];
      var deliver := ShouldDeliver(row.status, row.sentAt, row.room in s.online, now);
      s.(pass := Scanning(s.pass.rows[1..], if deliver then s.pass.picked + [row.id] else s.pass.picked))
    case StartSending => s.(pass := Sending(s.pass.picked))
    case PickConnection => NextConnection(s)
    case MarkSent(now, ok) => Mark(s, now, ok)
    case Transmit(ok) => Send(s, ok)
  }

  // ----- No redelivery over a live connection -----

  ghost predicate Carried(s: State, conn: Conn, id: Id) {
    exists n :: 0 <= n < |s.log| && s.log[n] == Transmission(id, conn, true)
  }

  function RowIds(rows: seq<Row>): seq<Id> {
    if rows == [] then [] else [rows[0].id] + RowIds(rows[1..])
  }

  lemma {:induction false} RowIdsAre(rows: seq<Row>)
    ensures |RowIds(rows)| == |rows| && forall i :: 0 <= i < |rows| ==> RowIds(rows)[i] == rows[i].id
  {
    if rows != [] {
      RowIdsAre(rows[1..]);
      forall i | 0 <= i < |rows| ensures RowIds(rows)[i] == rows[i].id {
        assert i > 0 ==> RowIds(rows)[i] == RowIds(rows[1..])[i - 1];
      }
    }
  }

  /** The jobs the current pass may still transmit, apart from the one in hand. */
  function Pending(pass: Pass): seq<Id> {
    match pass
    case Idle => []
    case Scanning(rows, picked) => picked + RowIds(rows)
    case Sending(todo) => todo
    case Holding(id, _, todo) => [id] + todo
    case Marked(id, _, todo) => [id] + todo
  }

  predicate LiveFor(s: State, conn: Conn, id: Id) {
    id in s.jobs && s.jobs[id].room in s.online && s.online[s.jobs[id].room] == conn
  }

  /** While the connection that carried a job lives, the job is neither queued nor about to be picked or sent again. */
  ghost predicate Settled(s: State, conn: Conn, id: Id) {
    && id in s.jobs && s.jobs[id].status != Queued
    && match s.pass
       case Scanning(rows, picked) => id !in picked && forall i :: 0 <= i < |rows| && rows[i].id == id ==>
           rows[i].status == Sent && rows[i].room == s.jobs[id].room
       case _ => id !in Pending(s.pass)
  }

  ghost predicate ConnectionsOk(s: State) {
    && (forall room :: room in s.online ==> s.online[room] in s.issued)
    && (forall n :: 0 <= n < |s.log| ==> s.log[n].conn in s.issued && s.log[n].job in s.jobs)
    && (s.pass.Holding? || s.pass.Marked? ==>
        s.pass.conn in s.issued && s.pass.job in s.jobs && !Carried(s, s.pass.conn, s.pass.job))
  }

  ghost predicate MarkedOk(s: State) {
    s.pass.Marked? && LiveFor(s, s.pass.conn, s.pass.job) ==> s.jobs[s.pass.job].status != Queued
  }

  ghost predicate CarriedOk(s: State) {
    forall conn, id :: Carried(s, conn, id) && LiveFor(s, conn, id) ==> Settled(s, conn, id)
  }

  /** Between two transmissions of a job, the connection of a successful first one was lost, and it is not the one used
      again. */
  ghost predicate LogOk(s: State) {
    forall m, n :: 0 <= m < n < |s.log| && s.log[m].ok && s.log[m].job == s.log[n].job ==>
      !LiveFor(s, s.log[m].conn, s.log[m].job) && (s.log[n].ok ==> s.log[m].conn != s.log[n].conn)
  }

  ghost predicate Inv(s: State) {
    ConnectionsOk(s) && MarkedOk(s) && Distinct(Pending(s.pass)) && CarriedOk(s) && LogOk(s)
  }

  ghost predicate Initial(s: State) {
    s == State(map[], map[], {}, Idle, [])
  }

  /** Steps that leave the log and the pass alone and neither queue a job nor revive a connection for it. */
  lemma TableStepKeepsInv(s: State, t: State)
    requires Inv(s) && t.log == s.log && t.pass == s.pass && s.issued <= t.issued
    requires forall id :: id in s.jobs ==> id in t.jobs && t.jobs[id].room == s.jobs[id].room
    requires forall id :: id in s.jobs && t.jobs[id].room in t.online && t.jobs[id].status == Queued ==>
               s.jobs[id].status == Queued || t.online[t.jobs[id].room] !in s.issued
    requires forall id :: id in t.jobs && id !in s.jobs && t.jobs[id].room in s.online ==> t.jobs[id].status == Queued
    requires forall room :: room in t.online ==>
               t.online[room] in t.issued && (t.online[room] in s.issued ==>
                                              room in s.online && s.online[room] == t.online[room])
    ensures Inv(t)
  {
    assert forall conn, id :: Carried(t, conn, id) <==> Carried(s, conn, id);
    forall conn, id | Carried(t, conn, id) && LiveFor(t, conn, id) ensures Settled(t, conn, id) {
      assert LiveFor(s, conn, id) && Settled(s, conn, id);
    }
  }

  lemma TableStepsKeepInv(s: State, step: Step)
    requires Inv(s) && Enabled(s, step)
    requires step.Enqueue? || step.Hello? || step.Lost? || step.Answer? || step.Cancel?
    ensures Inv(Next(s, step))
  {
    hide LogOk, CarriedOk, MarkedOk, Distinct;
    TableStepKeepsInv(s, Next(s, step));
  }

  lemma RestartKeepsInv(s: State)
    requires Inv(s)
    ensures Inv(Next(s, Restart))
  {
  }

  /** Steps of the pass before anything is sent. */
  lemma PassStepsKeepInv(s: State, step: Step)
    requires Inv(s) && Enabled(s, step)
    requires step.Query? || step.CheckRow? || step.StartSending? || step.PickConnection?
    ensures Inv(Next(s, step))
  {
    var t := Next(s, step);
    assert forall conn, id :: Carried(t, conn, id) <==> Carried(s, conn, id);
    PendingAfter(s, step);
    forall conn, id | Carried(t, conn, id) && LiveFor(t, conn, id) ensures Settled(t, conn, id) {
      assert LiveFor(s, conn, id) && Settled(s, conn, id);
    }
    if t.pass.Holding? {
      assert s.pass.todo[0] in Pending(s.pass);
      assert LiveFor(s, t.pass.conn, t.pass.job);
    }
  }

  lemma PendingAfter(s: State, step: Step)
    requires Distinct(Pending(s.pass)) && Enabled(s, step)
    requires step.Query? || step.CheckRow? || step.StartSending? || step.PickConnection?
    ensures Distinct(Pending(Next(s, step).pass))
  {
    PendingMoves(s, step);
    if step.Query? {
      RowIdsAre(step.rows);
      hide Pending, RowIds;
    } else if step.CheckRow? {
      var row, picked, rest := s.pass.rows[0], s.pass.picked, RowIds(s.pass.rows[1..]);
      hide Enabled, Next, Pending, RowIds, Distinct;
      if Pending(s.pass) == picked + [row.id] + rest {
        RemovingKeepsDistinct(picked, row.id, rest);
      }
    } else {
      hide Enabled, Next, Pending;
      RestStaysDistinct(Pending(s.pass));
    }
  }

  /** What a step does to the jobs the pass may still transmit: a query puts those of its rows there, checking a row
      keeps it or takes it out, and other steps take out the first or none, or all. */
  lemma PendingMoves(s: State, step: Step)
    requires Enabled(s, step)
    ensures var p, q := Pending(s.pass), Pending(Next(s, step).pass);
            if step.Query? then q == RowIds(step.rows)
            else if step.CheckRow? then
              var picked, rest := s.pass.picked, RowIds(s.pass.rows[1..]);
              p == picked + [s.pass.rows[0].id] + rest && (q == p || q == picked + rest)
            else if step.PickConnection? || step.MarkSent? || step.Transmit? then q == p || (p != [] && q == p[1..])
            else q == p || (step.Restart? && q == [])
  {
    if step.CheckRow? {
      CheckedRow(s.pass.rows, s.pass.picked);
      hide ShouldDeliver, RowIds, Pending;
    } else if step.PickConnection? || step.MarkSent? || step.Transmit? {
      hide RowIds;
    } else {
      hide RecordAnswer, QueryResult;
    }
  }

  lemma CheckedRow(rows: seq<Row>, picked: seq<Id>)
    requires rows != []
    ensures var row, rest := rows[0].id, RowIds(rows[1..]);
            && Pending(Scanning(rows, picked)) == picked + [row] + rest
            && Pending(Scanning(rows[1..], picked)) == picked + rest
            && Pending(Scanning(rows[1..], picked + [row])) == picked + [row] + rest
  {
    assert RowIds(rows) == [rows[0].id] + RowIds(rows[1..]);
    hide RowIds;
    assert picked + ([rows[0].id] + RowIds(rows[1..])) == picked + [rows[0].id] + RowIds(rows[1..]);
  }

  lemma RestStaysDistinct(ids: seq<Id>)
    requires Distinct(ids)
    ensures ids != [] ==> Distinct(ids[1..])
  {
  }

  lemma RemovingKeepsDistinct(a: seq<Id>, x: Id, b: seq<Id>)
    requires Distinct(a + [x] + b)
    ensures Distinct(a + b)
  {
    var whole, rest := a + [x] + b, a + b;
    forall i, j | 0 <= i < j < |rest| ensures rest[i] != rest[j] {
      var i', j' := if i < |a| then i else i + 1, if j < |a| then j else j + 1;
      assert whole[i'] == rest[i] && whole[j'] == rest[j];
    }
  }

  lemma MarkKeepsInv(s: State, now: int, ok: bool)
    requires Inv(s) && s.pass.Holding?
    ensures Inv(Mark(s, now, ok))
  {
    var t := Mark(s, now, ok);
    assert forall conn, id :: Carried(t, conn, id) <==> Carried(s, conn, id);
    assert Pending(t.pass) == if ok then Pending(s.pass) else Pending(s.pass)[1..];
    forall conn, id | Carried(t, conn, id) && LiveFor(t, conn, id) ensures Settled(t, conn, id) {
      assert LiveFor(s, conn, id) && Settled(s, conn, id);
    }
  }

  lemma SendKeepsInv(s: State, ok: bool)
    requires Inv(s) && s.pass.Marked?
    ensures Inv(Send(s, ok))
  {
    var t := Send(s, ok);
    var Marked(job, c, todo) := s.pass;
    assert Pending(t.pass) == Pending(s.pass)[1..];
    forall conn, id ensures Carried(t, conn, id) <==> Carried(s, conn, id) || (ok && conn == c && id == job) {
      if Carried(s, conn, id) {
        var n :| 0 <= n < |s.log| && s.log[n] == Transmission(id, conn, true);
        assert t.log[n] == s.log[n];
      }
      if ok && conn == c && id == job {
        assert t.log[|s.log|] == Transmission(id, conn, true);
      }
    }
    forall conn, id | Carried(t, conn, id) && LiveFor(t, conn, id) ensures Settled(t, conn, id) {
      if Carried(s, conn, id) {
        assert LiveFor(s, conn, id) && Settled(s, conn, id);
      } else {
        assert Pending(s.pass)[0] == job;
      }
    }
    forall m | 0 <= m < |s.log| && s.log[m].ok && s.log[m].job == job
      ensures !LiveFor(t, s.log[m].conn, job) && s.log[m].conn != c
    {
      assert Carried(s, s.log[m].conn, job) && job in Pending(s.pass);
      assert !Settled(s, s.log[m].conn, job);
    }
  }

  lemma StepKeepsInv(s: State, step: Step)
    requires Inv(s) && Enabled(s, step)
    ensures Inv(Next(s, step))
  {
    hide ConnectionsOk, MarkedOk, CarriedOk, LogOk, Distinct;
    match step
    case Restart => RestartKeepsInv(s);
    case MarkSent(now, ok) => MarkKeepsInv(s, now, ok);
    case Transmit(ok) => SendKeepsInv(s, ok);
    case Query(_, _) => PassStepsKeepInv(s, step);
    case CheckRow(_) => PassStepsKeepInv(s, step);
    case StartSending => PassStepsKeepInv(s, step);
    case PickConnection => PassStepsKeepInv(s, step);
    case _ => TableStepsKeepInv(s, step);
  }

  // ----- Runs -----

  ghost predicate Follows(states: seq<State>, steps: seq<Step>) {
    && |states| == |steps| + 1
    && forall i :: 0 <= i < |steps| ==> Enabled(states[i], steps[i]) && states[i + 1] == Next(states[i], steps[i])
  }

  ghost predicate IsRun(states: seq<State>, steps: seq<Step>) {
    Follows(states, steps) && Initial(states[0])
  }

  lemma {:induction false} RunKeepsInv(states: seq<State>, steps: seq<Step>, n: nat)
    requires IsRun(states, steps) && n < |states|
    ensures Inv(states[n])
  {
    if n > 0 {
      RunKeepsInv(states, steps, n - 1);
      hide Inv, Next;
      StepKeepsInv(states[n - 1], steps[n - 1]);
    }
  }

  /** No redelivery while connected: a job successfully sent is only sent again after the connection that carried it is
      gone, and never over that connection. */
  lemma NoRedeliveryWhileConnected(states: seq<State>, steps: seq<Step>)
    requires IsRun(states, steps)
    ensures var s := states[|steps|];
            forall m, n | 0 <= m < n < |s.log| && s.log[m].ok && s.log[m].job == s.log[n].job ::
              !LiveFor(s, s.log[m].conn, s.log[m].job) && (s.log[n].ok ==> s.log[m].conn != s.log[n].conn)
    ensures forall i, m | 0 <= i < |steps| && steps[i].Transmit? && 0 <= m < |states[i].log| ::
              states[i].log[m].ok && states[i].log[m].job == states[i].pass.job ==>
                  !LiveFor(states[i], states[i].log[m].conn, states[i].pass.job)
  {
    RunKeepsInv(states, steps, |steps|);
    forall i, m | 0 <= i < |steps| && steps[i].Transmit? && 0 <= m < |states[i].log| && states[i].log[m].ok
        && states[i].log[m].job == states[i].pass.job
      ensures !LiveFor(states[i], states[i].log[m].conn, states[i].pass.job)
    {
      RunKeepsInv(states, steps, i);
      assert Carried(states[i], states[i].log[m].conn, states[i].pass.job);
      assert states[i].pass.job in Pending(states[i].pass);
      assert !Settled(states[i], states[i].log[m].conn, states[i].pass.job);
    }
  }

  /** A duplicate of a connected relay is turned away without requeueing, unmarking or sending anything. */
  lemma RejectedRelayChangesNothing(s: State, room: Room, conn: Conn, step: Step)
    requires room in s.online && conn !in s.issued && Enabled(s, step)
    ensures var t := Next(s, Hello(room, conn));
            t.jobs == s.jobs && t.online == s.online && t.log == s.log && t.pass == s.pass
    ensures step.Hello? || (Enabled(Next(s, Hello(room, conn)), step)
              && Next(Next(s, Hello(room, conn)), step) == Next(s, step).(issued := Next(s, step).issued + {conn}))
  {
  }

  /** A job in flight when its room's connection is lost is handed out again: it is settled meanwhile, or any later
      query at any time selects it and any pass delivers it, and no other room's jobs are touched. */
  lemma {:induction false} LostJobIsDeliverableAgain(states: seq<State>, steps: seq<Step>, n: nat, m: nat, id: Id,
                                                     now: int)
    requires Follows(states, steps) && n < m < |states| && steps[n].Lost? && id in states[n].jobs
    requires states[n].jobs[id].status == Sent
    requires forall i :: n < i < m ==> !steps[i].MarkSent?
    ensures states[n].jobs[id].room == steps[n].room ==>
              id in states[m].jobs
              && (Over(states[m].jobs[id].status)
                  || (Selectable(states[m].jobs[id], now) && forall online ::
                      ShouldDeliver(states[m].jobs[id].status, states[m].jobs[id].sentAt, online, now)))
    ensures m == n + 1 && states[n].jobs[id].room != steps[n].room ==> states[m].jobs[id] == states[n].jobs[id]
    decreases m
  {
    if states[n].jobs[id].room == steps[n].room {
      QueuedUntilMarked(states, steps, n, m, id);
    }
  }

  lemma {:induction false} QueuedUntilMarked(states: seq<State>, steps: seq<Step>, n: nat, m: nat, id: Id)
    requires Follows(states, steps) && n < m < |states| && steps[n].Lost? && id in states[n].jobs
    requires states[n].jobs[id].status == Sent && states[n].jobs[id].room == steps[n].room
    requires forall i :: n < i < m ==> !steps[i].MarkSent?
    ensures id in states[m].jobs && (Over(states[m].jobs[id].status) || states[m].jobs[id].status == Queued)
    decreases m
  {
    if m > n + 1 {
      QueuedUntilMarked(states, steps, n, m - 1, id);
      assert Enabled(states[m - 1], steps[m - 1]) && !steps[m - 1].MarkSent?;
    }
  }

  /** Jobs are neither lost nor rewritten: each keeps its room and its request for ever. */
  lemma {:induction false} JobsAreConserved(states: seq<State>, steps: seq<Step>, n: nat, m: nat, id: Id)
    requires Follows(states, steps) && n <= m < |states| && id in states[n].jobs
    ensures id in states[m].jobs && states[m].jobs[id].room == states[n].jobs[id].room
            && states[m].jobs[id].request == states[n].jobs[id].request
  {
    if n < m {
      JobsAreConserved(states, steps, n, m - 1, id);
      assert Enabled(states[m - 1], steps[m - 1]);
    }
  }

  predicate Over(status: Status) {
    status != Queued && status != Sent
  }

  predicate OutOfPlay(s: State, id: Id) {
    id in s.jobs && Over(s.jobs[id].status) && id !in Pending(s.pass)
  }

  lemma StepKeepsOutOfPlay(s: State, step: Step, id: Id)
    requires Enabled(s, step) && OutOfPlay(s, id)
    ensures OutOfPlay(Next(s, step), id)
    ensures forall n :: |s.log| <= n < |Next(s, step).log| ==> Next(s, step).log[n].job != id
  {
    SettledStays(s, step, id);
    NothingNewPending(s, step, id);
    OnlyPendingIsLogged(s, step);
    hide Over, Pending, Next, Enabled;
  }

  lemma SettledStays(s: State, step: Step, id: Id)
    requires Enabled(s, step) && id in s.jobs && Over(s.jobs[id].status)
    ensures id in Next(s, step).jobs && Over(Next(s, step).jobs[id].status)
  {
  }

  lemma NothingNewPending(s: State, step: Step, id: Id)
    requires Enabled(s, step) && OutOfPlay(s, id)
    ensures id !in Pending(Next(s, step).pass)
  {
    PendingMoves(s, step);
    if step.Query? {
      RowIdsAre(step.rows);
      assert forall k :: 0 <= k < |step.rows| ==> step.rows[k].id != id;
    }
    hide RowIds, Pending, Next, Enabled;
  }

  lemma OnlyPendingIsLogged(s: State, step: Step)
    requires Enabled(s, step)
    ensures |s.log| <= |Next(s, step).log| && forall n :: |s.log| <= n < |Next(s, step).log| ==>
              Next(s, step).log[n].job in Pending(s.pass)
  {
    hide RowIds;
  }

  /** A settled job that the pass has not already picked is never transmitted again, whatever happens. */
  lemma {:induction false} SettledJobIsNeverSent(states: seq<State>, steps: seq<Step>, m: nat, id: Id)
    requires Follows(states, steps) && m < |states| && OutOfPlay(states[0], id)
    ensures OutOfPlay(states[m], id)
    ensures |states[0].log| <= |states[m].log| && forall n :: |states[0].log| <= n < |states[m].log| ==>
              states[m].log[n].job != id
  {
    if m > 0 {
      SettledJobIsNeverSent(states, steps, m - 1, id);
      hide OutOfPlay;
      StepKeepsOutOfPlay(states[m - 1], steps[m - 1], id);
    }
  }

  /** `t` lies on some run from `s`. */
  ghost predicate Reaches(s: State, t: State) {
    exists states, steps :: Follows(states, steps) && states[0] == s && states[|steps|] == t
  }

  lemma ReachesItself(s: State)
    ensures Reaches(s, s)
  {
    var states: seq<State>, steps: seq<Step> := [s], [];
    assert Follows(states, steps);
  }

  lemma ReachesNext(s: State, t: State, step: Step)
    requires Reaches(s, t) && Enabled(t, step)
    ensures Reaches(s, Next(t, step))
  {
    hide Enabled, Next;
    var states, steps :| Follows(states, steps) && states[0] == s && states[|steps|] == t;
    var more, moreSteps := states + [Next(t, step)], steps + [step];
    forall i | 0 <= i < |moreSteps|
      ensures Enabled(more[i], moreSteps[i]) && more[i + 1] == Next(more[i], moreSteps[i])
    {
      if i < |steps| {
        assert more[i] == states[i] && more[i + 1] == states[i + 1] && moreSteps[i] == steps[i];
      }
    }
    assert Follows(more, moreSteps);
  }

  /** Between `s` and `t` the job was handed to a connection. */
  ghost predicate SentBetween(s: State, t: State, id: Id) {
    exists n :: |s.log| <= n < |t.log| && t.log[n].job == id
  }

  ghost predicate CanStillBeSent(s: State, id: Id) {
    exists t :: Reaches(s, t) && SentBetween(s, t, id)
  }

  /** Rows were pending when the query read them. */
  ghost predicate RowsPending(s: State) {
    s.pass.Scanning? ==> forall row :: row in s.pass.rows ==> row.status == Queued || row.status == Sent
  }

  lemma {:induction false} RunKeepsRowsPending(states: seq<State>, steps: seq<Step>, n: nat)
    requires IsRun(states, steps) && n < |states|
    ensures RowsPending(states[n])
  {
    if n > 0 {
      RunKeepsRowsPending(states, steps, n - 1);
      StepKeepsRowsPending(states[n - 1], steps[n - 1]);
    }
  }

  lemma StepKeepsRowsPending(s: State, step: Step)
    requires RowsPending(s) && Enabled(s, step)
    ensures RowsPending(Next(s, step))
  {
  }

  /** Being picked is the exact exception: in any reachable state, a settled job can still be transmitted if and only if
      the pass holds it, as a row to check, picked, or in hand. */
  lemma SettledJobIsSentExactlyWhenPicked(states: seq<State>, steps: seq<Step>, id: Id)
    requires IsRun(states, steps) && id in states[|steps|].jobs && Over(states[|steps|].jobs[id].status)
    ensures CanStillBeSent(states[|steps|], id) <==> id in Pending(states[|steps|].pass)
  {
    var s := states[|steps|];
    if id in Pending(s.pass) {
      RunKeepsRowsPending(states, steps, |steps|);
      ReachesItself(s);
      var t := PickedIsSent(s, s, id);
    } else if CanStillBeSent(s, id) {
      var t :| Reaches(s, t) && SentBetween(s, t, id);
      var more, moreSteps :| Follows(more, moreSteps) && more[0] == s && more[|moreSteps|] == t;
      SettledJobIsNeverSent(more, moreSteps, |moreSteps|, id);
    }
  }

  /** What the proof below keeps while it leads a picked job to a connection. */
  ghost predicate OnTheWay(s0: State, s: State, id: Id) {
    && Reaches(s0, s) && |s0.log| <= |s.log| && id in s.jobs && id in s0.jobs && s.jobs[id].room == s0.jobs[id].room
    && (Over(s0.jobs[id].status) ==> s.jobs[id] == s0.jobs[id])
  }

  lemma PickedIsSent(s0: State, s: State, id: Id) returns (t: State)
    requires OnTheWay(s0, s, id) && RowsPending(s) && id in Pending(s.pass)
    ensures OnTheWay(s0, t, id) && SentBetween(s0, t, id)
  {
    match s.pass
    case Idle =>
    case Scanning(rows, picked) =>
      var u := ScanIsSent(s0, s, id);
      t := TodoIsSent(s0, u, id);
    case Sending(_) => t := TodoIsSent(s0, s, id);
    case Holding(job, _, todo) =>
      if job == id {
        t := HeldIsSent(s0, s, id);
      } else {
        ReachesNext(s0, s, MarkSent(0, false));
        hide Reaches;
        t := TodoIsSent(s0, Next(s, MarkSent(0, false)), id);
      }
    case Marked(job, _, todo) =>
      ReachesNext(s0, s, Transmit(true));
      hide Reaches;
      var u := Next(s, Transmit(true));
      if job == id {
        t := u;
        assert t.log[|s.log|].job == id;
      } else {
        t := TodoIsSent(s0, u, id);
      }
  }

  lemma HeldIsSent(s0: State, s: State, id: Id) returns (t: State)
    requires OnTheWay(s0, s, id) && s.pass.Holding? && s.pass.job == id
    ensures OnTheWay(s0, t, id) && SentBetween(s0, t, id)
  {
    var u := Next(s, MarkSent(0, true));
    ReachesNext(s0, s, MarkSent(0, true));
    t := Next(u, Transmit(true));
    ReachesNext(s0, u, Transmit(true));
    hide Reaches;
    assert t.log[|s.log|].job == id;
  }

  lemma {:induction false} Unissued(issued: set<Conn>) returns (conn: Conn)
    ensures forall c :: c in issued ==> c < conn
  {
    if issued == {} {
      conn := 0;
    } else {
      assert (forall c :: c !in issued) ==> issued == {};
      var c :| c in issued;
      var above := Unissued(issued - {c});
      conn := if c < above then above else c + 1;
      assert forall d :: d in issued ==> d == c || d in issued - {c};
    }
  }

  /** A room can always connect. */
  lemma Connected(s0: State, s: State, id: Id) returns (t: State)
    requires OnTheWay(s0, s, id)
    ensures OnTheWay(s0, t, id) && t.pass == s.pass && t.jobs[id].room in t.online
  {
    if s.jobs[id].room in s.online {
      t := s;
    } else {
      var conn := Unissued(s.issued);
      ReachesNext(s0, s, Hello(s.jobs[id].room, conn));
      t := Next(s, Hello(s.jobs[id].room, conn));
    }
  }

  /** Jobs before it in the list are skipped or fail to be marked. */
  lemma {:induction false} TodoIsSent(s0: State, s: State, id: Id) returns (t: State)
    requires OnTheWay(s0, s, id) && s.pass.Sending? && id in s.pass.todo
    ensures OnTheWay(s0, t, id) && SentBetween(s0, t, id)
    decreases |s.pass.todo|
  {
    var u := Connected(s0, s, id);
    ReachesNext(s0, u, PickConnection);
    var v := Next(u, PickConnection);
    if s.pass.todo[0] == id {
      hide Reaches;
      t := HeldIsSent(s0, v, id);
    } else if v.pass.Sending? {
      hide Reaches;
      t := TodoIsSent(s0, v, id);
    } else {
      ReachesNext(s0, v, MarkSent(0, false));
      hide Reaches;
      t := TodoIsSent(s0, Next(v, MarkSent(0, false)), id);
    }
  }

  /** A row is picked once its room is offline and long enough ago. */
  lemma PickedRow(s0: State, s: State, id: Id) returns (t: State, now: int)
    requires OnTheWay(s0, s, id) && RowsPending(s) && s.pass.Scanning? && s.pass.rows != []
    ensures OnTheWay(s0, t, id) && t.pass == s.pass
    ensures var row := t.pass.rows[0]; ShouldDeliver(row.status, row.sentAt, row.room in t.online, now)
  {
    var row := s.pass.rows[0];
    now := if row.sentAt.At? then row.sentAt.time + RETRY_SECONDS else 0;
    if row.room in s.online {
      ReachesNext(s0, s, Lost(row.room));
      t := Next(s, Lost(row.room));
    } else {
      t := s;
    }
    assert row in s.pass.rows;
  }

  /** Checking a row then picks it, so the pass holds the same jobs. */
  lemma PickingKeepsPending(s: State, now: int)
    requires s.pass.Scanning? && s.pass.rows != []
    requires var row := s.pass.rows[0]; ShouldDeliver(row.status, row.sentAt, row.room in s.online, now)
    ensures var t := Next(s, CheckRow(now));
            && t == s.(pass := t.pass) && t.pass.Scanning? && |t.pass.rows| < |s.pass.rows|
            && Pending(t.pass) == Pending(s.pass) && (RowsPending(s) ==> RowsPending(t))
  {
    CheckedRow(s.pass.rows, s.pass.picked);
    hide ShouldDeliver, Pending, RowIds;
  }

  lemma ScannedIsPicked(s: State, id: Id)
    requires s.pass.Scanning? && s.pass.rows == [] && id in Pending(s.pass)
    ensures id in s.pass.picked
  {
  }

  lemma {:induction false} ScanIsSent(s0: State, s: State, id: Id) returns (t: State)
    requires OnTheWay(s0, s, id) && RowsPending(s) && s.pass.Scanning? && id in Pending(s.pass)
    ensures OnTheWay(s0, t, id) && t.pass.Sending? && id in t.pass.todo
    decreases |s.pass.rows|
  {
    hide Reaches, ShouldDeliver, RowsPending, Pending;
    if s.pass.rows == [] {
      ReachesNext(s0, s, StartSending);
      ScannedIsPicked(s, id);
      t := Next(s, StartSending);
    } else {
      var u, now := PickedRow(s0, s, id);
      ReachesNext(s0, u, CheckRow(now));
      PickingKeepsPending(u, now);
      RowsOnly(s, u);
      t := ScanIsSent(s0, Next(u, CheckRow(now)), id);
    }
  }

  lemma RowsOnly(s: State, t: State)
    requires t.pass == s.pass
    ensures RowsPending(s) ==> RowsPending(t)
  {
  }

  lemma QueriedAlone(s: State, id: Id)
    requires s.pass.Idle? && id in s.jobs && s.jobs[id].status == Queued
    ensures var query := Query([RowOf(id, s.jobs[id])], 0);
            && Enabled(s, query)
            && var t := Next(s, query);
               && t == s.(pass := Scanning([RowOf(id, s.jobs[id])], [])) && id in Pending(t.pass) && RowsPending(t)
  {
    RowIdsAre([RowOf(id, s.jobs[id])]);
    assert Pending(Scanning([RowOf(id, s.jobs[id])], []))[0] == id;
  }

  /** A job can be cancelled and yet be sent: whenever one is queued and the pass is idle, a pass may pick it, an
      administrator cancel it successfully, and the pass still transmit it, while it stays cancelled. */
  lemma CancelledJobCanStillBeSent(s0: State, s: State, id: Id) returns (t: State, u: State)
    requires Reaches(s0, s) && s.pass.Idle? && id in s.jobs && s.jobs[id].status == Queued
    ensures Reaches(s0, t) && Enabled(t, Cancel(id)) && id in t.jobs && t.jobs[id].status == Queued
    ensures Next(t, Cancel(id)).jobs[id].status == Cancelled
    ensures Reaches(Next(t, Cancel(id)), u) && SentBetween(t, u, id) && id in u.jobs && u.jobs[id].status == Cancelled
  {
    var query := Query([RowOf(id, s.jobs[id])], 0);
    QueriedAlone(s, id);
    ReachesNext(s0, s, query);
    t := Next(s, query);
    var cancelled := Next(t, Cancel(id));
    ReachesItself(cancelled);
    hide Reaches, Pending, Enabled, QueryResult;
    RowsOnly(t, cancelled);
    hide RowsPending;
    u := PickedIsSent(cancelled, cancelled, id);
  }

  /** Such a run from the start: enqueue, query, cancel, send. */
  lemma CancelledJobIsSent(s0: State, request: Request) returns (t: State, u: State)
    requires Initial(s0) && !request.isGet
    ensures Reaches(s0, t) && request.id in t.jobs && t.jobs[request.id].status == Queued
    ensures Next(t, Cancel(request.id)).jobs[request.id].status == Cancelled
    ensures Reaches(Next(t, Cancel(request.id)), u) && SentBetween(t, u, request.id) && request.id in u.jobs
            && u.jobs[request.id].status == Cancelled
  {
    var enqueue := Enqueue(request.id, 0, request);
    ReachesItself(s0);
    ReachesNext(s0, s0, enqueue);
    t, u := CancelledJobCanStillBeSent(s0, Next(s0, enqueue), request.id);
  }

  /** A pass that finds one queued job of a connected room: the query, the choice, the mark and the send, after which
      the pass is idle again, the job counts as sent, and the log has it. */
  lemma QueuedJobGoesOut(s: State, id: Id) returns (states: seq<State>, steps: seq<Step>)
    requires s.pass.Idle? && id in s.jobs && s.jobs[id].status == Queued && s.jobs[id].room in s.online
    ensures Follows(states, steps) && states[0] == s
    ensures forall step :: step in steps ==> !step.Enqueue? && !step.Answer? && !step.Restart?
    ensures states[|steps|] == s.(jobs := s.jobs[id := s.jobs[id].(status := Sent, sentAt := At(0))],
                                  log := s.log + [Transmission(id, s.online[s.jobs[id].room], true)])
  {
    var row, conn := RowOf(id, s.jobs[id]), s.online[s.jobs[id].room];
    states := [s, s.(pass := Scanning([row], [])), s.(pass := Scanning([], [id])), s.(pass := Sending([id])),
               s.(pass := Holding(id, conn, [])), MarkedOut(s, id), SentOut(s, id), SentOut(s, id).(pass := Idle)];
    steps := [Query([row], 0), CheckRow(0), StartSending, PickConnection, MarkSent(0, true), Transmit(true),
              PickConnection];
    FirstHalf(s, id);
    SecondHalf(s, id);
    hide Next, Enabled;
  }

  /** The job marked as sent, and then sent. */
  function MarkedOut(s: State, id: Id): State
    requires id in s.jobs && s.jobs[id].room in s.online
  {
    s.(jobs := s.jobs[id := s.jobs[id].(status := Sent, sentAt := At(0))],
       pass := Pass.Marked(id, s.online[s.jobs[id].room], []))
  }

  function SentOut(s: State, id: Id): State
    requires id in s.jobs && s.jobs[id].room in s.online
  {
    MarkedOut(s, id).(log := s.log + [Transmission(id, s.online[s.jobs[id].room], true)], pass := Sending([]))
  }

  lemma FirstHalf(s: State, id: Id)
    requires s.pass.Idle? && id in s.jobs && s.jobs[id].status == Queued
    ensures var row := RowOf(id, s.jobs[id]);
            var queried, picked := s.(pass := Scanning([row], [])), s.(pass := Scanning([], [id]));
            && Enabled(s, Query([row], 0)) && Next(s, Query([row], 0)) == queried
            && Enabled(queried, CheckRow(0)) && Next(queried, CheckRow(0)) == picked
            && Enabled(picked, StartSending) && Next(picked, StartSending) == s.(pass := Sending([id]))
  {
    var row := RowOf(id, s.jobs[id]);
    assert [row][1..] == [] && [] + [row.id] == [id];
  }

  lemma SecondHalf(s: State, id: Id)
    requires id in s.jobs && s.jobs[id].status == Queued && s.jobs[id].room in s.online
    ensures var sending, held := s.(pass := Sending([id])), s.(pass := Holding(id, s.online[s.jobs[id].room], []));
            && Enabled(sending, PickConnection) && Next(sending, PickConnection) == held
            && Enabled(held, MarkSent(0, true)) && Next(held, MarkSent(0, true)) == MarkedOut(s, id)
            && Enabled(MarkedOut(s, id), Transmit(true)) && Next(MarkedOut(s, id), Transmit(true)) == SentOut(s, id)
            && Enabled(SentOut(s, id), PickConnection)
            && Next(SentOut(s, id), PickConnection) == SentOut(s, id).(pass := Idle)
  {
    assert [id][1..] == [];
  }
}
