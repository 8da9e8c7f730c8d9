/** The cloud server's operations on its job table and connections, each tied to the steps of the Cloud machine. */
module Federation {
  import opened Common
  import R = Relay
  import opened Cloud

  type Device = int

  /** What a queued job addresses in its room. */
  datatype Target = EveryDevice | Devices(ids: seq<Device>)

  /** The rooms' last reported device lists. */
  type Fleet = map<Room, seq<Device>>

  ghost predicate AllSelected(fleet: Fleet, roomIds: seq<Room>, targets: map<Room, seq<Device>>) {
    && (exists room :: room in fleet && fleet[room] != [])
    && (forall room :: room in fleet && fleet[room] != [] ==>
          room in roomIds && forall device :: device in fleet[room] ==> device in Get(targets, room, []))
  }

  ghost predicate SelectionAllowed(room: Room, targets: map<Room, seq<Device>>) {
    room in targets && targets[room] != [] && forall d :: d in targets[room] ==> d > 0
  }

  ghost predicate Rejects(fleet: Fleet, roomIds: seq<Room>, targets: map<Room, seq<Device>>, fleetWide: bool) {
    roomIds == [] || (!fleetWide && exists room ::
                      room in roomIds && (room !in fleet || !SelectionAllowed(room, targets)))
  }

  /** The rows one Queue call inserts: for each addressed room exactly one queued job, for the whole room or for the
      selection made there. */
  ghost predicate OneJobPerRoom(rooms: seq<Room>, ids: seq<Id>, added: map<Id, Job>, addressed: map<Id, Target>,
                                targets: map<Room, seq<Device>>, fleetWide: bool) {
    && Distinct(ids) && added.Keys == addressed.Keys == (set id | id in ids)
    && (forall id :: id in added ==>
        added[id] == NewJob(added[id].room, R.Request(id, true, false, R.LocalHandler)) && added[id].room in rooms)
    && (forall room :: room in rooms ==> exists id :: id in added && added[id].room == room)
    && (forall i, j :: i in added && j in added && added[i].room == added[j].room ==> i == j)
    && (forall id :: id in added ==>
          if fleetWide then addressed[id] == EveryDevice
          else addressed[id].Devices? && IsSelection(addressed[id].ids, Get(targets, added[id].room, [])))
  }

  lemma NoJobs(targets: map<Room, seq<Device>>, fleetWide: bool)
    ensures OneJobPerRoom([], [], map[], map[], targets, fleetWide)
  {
  }

  lemma SameRoomsSameJobs(rooms: seq<Room>, more: seq<Room>, ids: seq<Id>, added: map<Id, Job>,
                          addressed: map<Id, Target>, targets: map<Room, seq<Device>>, fleetWide: bool)
    requires OneJobPerRoom(rooms, ids, added, addressed, targets, fleetWide)
    requires forall room :: room in rooms <==> room in more
    ensures OneJobPerRoom(more, ids, added, addressed, targets, fleetWide)
  {
    hide IsSelection;
  }

  lemma AddJob(rooms: seq<Room>, room: Room, ids: seq<Id>, id: Id, added: map<Id, Job>, addressed: map<Id, Target>,
               target: Target, targets: map<Room, seq<Device>>, fleetWide: bool)
    requires OneJobPerRoom(rooms, ids, added, addressed, targets, fleetWide) && room !in rooms && id !in ids
    requires if fleetWide then target == EveryDevice
             else target.Devices? && IsSelection(target.ids, Get(targets, room, []))
    ensures OneJobPerRoom(rooms + [room], ids + [id],
                          added[id := NewJob(room, R.Request(id, true, false, R.LocalHandler))],
                          addressed[id := target], targets, fleetWide)
  {
    hide IsSelection;
    var after := added[id := NewJob(room, R.Request(id, true, false, R.LocalHandler))];
    forall r | r in rooms + [room] ensures exists i :: i in after && after[i].room == r {
      if r in rooms {
        var i :| i in added && added[i].room == r;
        assert i in after && after[i].room == r;
      } else {
        assert after[id].room == r;
      }
    }
  }

  method Selection(requested: seq<Device>) returns (selected: seq<Device>)
    ensures IsSelection(selected, requested)
  {
    selected := [];
    var seen: set<Device> := {};
    for n := 0 to |requested|
      invariant IsSelection(selected, requested[..n])
      invariant forall d :: d in seen <==> d in selected
    {
      var device := requested[n];
      assert requested[..n + 1] == requested[..n] + [device];
      if device > 0 && device !in seen {
        selected := selected + [device];
        seen := seen + {device};
      }
    }
    assert requested[..|requested|] == requested;
  }

  /** A precise job needs a non-empty selection of positive device numbers, to keep mistakes from becoming
      broadcasts. */
  method CheckSelection(room: Room, targets: map<Room, seq<Device>>) returns (allowed: bool)
    ensures allowed <==> SelectionAllowed(room, targets)
  {
    if room !in targets || targets[room] == [] {
      return false;
    }
    for i := 0 to |targets[room]|
      invariant forall k :: 0 <= k < i ==> targets[room][k] > 0
    {
      if targets[room][i] <= 0 {
        assert targets[room][i] in targets[room];
        return false;
      }
    }
    return true;
  }

  /** The loop of one Queue transaction: the jobs to insert, or None at the first room that cannot be addressed. */
  method BuildJobs(fleet: Fleet, rooms: seq<Room>, targets: map<Room, seq<Device>>, fleetWide: bool, uuids: seq<Id>)
    returns (result: Option<seq<Id>>, added: map<Id, Job>, addressed: map<Id, Target>)
    requires Distinct(uuids) && |uuids| >= |rooms|
    ensures result.None? <==>
              exists room :: room in rooms && (room !in fleet || (!fleetWide && !SelectionAllowed(room, targets)))
    ensures result.Some? ==>
              OneJobPerRoom(rooms, result.value, added, addressed, targets, fleetWide) && result.value <= uuids
  {
    var seen: set<Room> := {};
    var ids: seq<Id> := [];
    added, addressed := map[], map[];
    NoJobs(targets, fleetWide);
    hide IsSelection, OneJobPerRoom, SelectionAllowed;
    for n := 0 to |rooms|
      invariant |ids| <= n && ids == uuids[..|ids|]
      invariant forall room :: room in seen <==> room in rooms[..n]
      invariant OneJobPerRoom(rooms[..n], ids, added, addressed, targets, fleetWide)
      invariant forall room :: room in rooms[..n] ==> room in fleet && (fleetWide || SelectionAllowed(room, targets))
    {
      var room := rooms[n];
      assert rooms[..n + 1] == rooms[..n] + [room];
      if room in seen {
        SameRoomsSameJobs(rooms[..n], rooms[..n + 1], ids, added, addressed, targets, fleetWide);
        continue;
      }
      seen := seen + {room};
      if room !in fleet {
        return None, added, addressed;
      }
      var target := EveryDevice;
      if !fleetWide {
        var allowed := CheckSelection(room, targets);
        if !allowed {
          return None, added, addressed;
        }
        var selected := Selection(Get(targets, room, []));
        target := Devices(selected);
      }
      var id := uuids[|ids|];
      AddJob(rooms[..n], room, ids, id, added, addressed, target, targets, fleetWide);
      added, addressed := added[id := NewJob(room, R.Request(id, true, false, R.LocalHandler))],
      addressed[id := target];
      ids := ids + [id];
    }
    assert rooms[..|rooms|] == rooms;
    result := Some(ids);
  }

  /** The queried jobs a pass decides to hand out. */
  function Chosen(rows: seq<Row>, online: map<Room, Conn>, now: int): seq<Id> {
    if rows == [] then [] else
      var row := rows[|rows| - 1];
      Chosen(rows[..|rows| - 1], online, now)
          + if ShouldDeliver(row.status, row.sentAt, row.room in online, now) then [row.id] else []
  }

  ghost function Sends(ids: seq<Id>, jobs: map<Id, Job>, online: map<Room, Conn>,
                       sendOk: Id -> bool): seq<Transmission> {
    if ids == [] then [] else
      var id := ids[|ids| - 1];
      Sends(ids[..|ids| - 1], jobs, online, sendOk)
      + if id in jobs && jobs[id].room in online then [Transmission(id, online[jobs[id].room], sendOk(id))] else []
  }

  function Attempted(job: Job, now: int, ok: bool): Job {
    if ok then job.(status := Sent, sentAt := At(now)) else job.(status := Queued, sentAt := Never)
  }

  ghost predicate Queried(rows: seq<Row>, id: Id) {
    exists i :: 0 <= i < |rows| && rows[i].id == id
  }

  lemma Join(states: seq<State>, steps: seq<Step>, more: seq<State>, moreSteps: seq<Step>)
    returns (all: seq<State>, allSteps: seq<Step>)
    requires Follows(states, steps) && Follows(more, moreSteps) && states[|steps|] == more[0]
    ensures Follows(all, allSteps) && all[0] == states[0] && all[|allSteps|] == more[|moreSteps|]
  {
    hide Next, Enabled;
    all, allSteps := states + more[1..], steps + moreSteps;
    forall i | 0 <= i < |allSteps| ensures Enabled(all[i], allSteps[i]) && all[i + 1] == Next(all[i], allSteps[i]) {
      if i >= |steps| {
        assert all[i] == more[i - |steps|] && all[i + 1] == more[i - |steps| + 1]
               && allSteps[i] == moreSteps[i - |steps|];
      }
    }
  }

  /** The second half of a pass, one job at a time. */
  ghost function SendNext(s: State, now: int, ok: bool): (t: State)
    requires s.pass.Sending? && s.pass.todo != []
    ensures t.pass == Sending(s.pass.todo[1..]) && t.online == s.online && t.issued == s.issued
  {
    var picked := NextConnection(s);
    if picked.pass.Holding? then Send(Mark(picked, now, true), ok) else picked
  }

  ghost function Delivered(s: State, n: nat, now: int, sendOk: Id -> bool): (t: State)
    requires s.pass.Sending? && n <= |s.pass.todo|
    ensures t.pass == Sending(s.pass.todo[n..]) && t.online == s.online && t.issued == s.issued
  {
    if n == 0 then s else SendNext(Delivered(s, n - 1, now, sendOk), now, sendOk(s.pass.todo[n - 1]))
  }

  lemma SendNextEffect(s: State, now: int, ok: bool)
    requires s.pass.Sending? && s.pass.todo != [] && s.pass.todo[0] in s.jobs
    requires s.jobs[s.pass.todo[0]].room in s.online ==> s.jobs[s.pass.todo[0]].status == Queued
    ensures var t, id := SendNext(s, now, ok), s.pass.todo[0];
            && t.jobs == (if s.jobs[id].room in s.online then s.jobs[id := Attempted(s.jobs[id], now, ok)] else s.jobs)
            && t.log == s.log + if s.jobs[id].room in s.online then [Transmission(id, s.online[s.jobs[id].room], ok)]
               else []
  {
  }

  /** From s to t, exactly the jobs of `sent` with a connected room were sent, once each. */
  ghost predicate OnceSent(s: State, t: State, sent: seq<Id>, now: int, sendOk: Id -> bool) {
    && t.jobs.Keys == s.jobs.Keys
    && (forall id :: id in s.jobs ==>
        t.jobs[id] == if id in sent && s.jobs[id].room in s.online then Attempted(s.jobs[id], now, sendOk(id))
            else s.jobs[id])
    && t.log == s.log + Sends(sent, s.jobs, s.online, sendOk)
  }

  predicate Sendable(s: State, ids: seq<Id>) {
    forall id :: id in ids ==> id in s.jobs && (s.jobs[id].room in s.online ==> s.jobs[id].status == Queued)
  }

  lemma OneMoreSent(s: State, u: State, sent: seq<Id>, id: Id, now: int, sendOk: Id -> bool)
    requires OnceSent(s, u, sent, now, sendOk) && id !in sent && id in s.jobs && u.online == s.online
    requires s.jobs[id].room in s.online ==> s.jobs[id].status == Queued
    requires u.pass.Sending? && u.pass.todo != [] && u.pass.todo[0] == id
    ensures OnceSent(s, SendNext(u, now, sendOk(id)), sent + [id], now, sendOk)
  {
    assert u.jobs[id] == s.jobs[id];
    SendNextEffect(u, now, sendOk(id));
    hide SendNext;
    OnceMore(s, u, SendNext(u, now, sendOk(id)), sent, id, now, sendOk);
  }

  lemma OnceMore(s: State, u: State, t: State, sent: seq<Id>, id: Id, now: int, sendOk: Id -> bool)
    requires OnceSent(s, u, sent, now, sendOk) && id !in sent && id in s.jobs
    requires t.jobs == if s.jobs[id].room in s.online then u.jobs[id := Attempted(s.jobs[id], now, sendOk(id))]
               else u.jobs
    requires t.log == u.log + if s.jobs[id].room in s.online
               then [Transmission(id, s.online[s.jobs[id].room], sendOk(id))] else []
    ensures OnceSent(s, t, sent + [id], now, sendOk)
  {
    SendsOneMore(sent, id, s.jobs, s.online, sendOk);
    hide Sends, Attempted;
    forall x | x in s.jobs
      ensures x in t.jobs && t.jobs[x] == if x in sent + [id] && s.jobs[x].room in s.online
                then Attempted(s.jobs[x], now, sendOk(x)) else s.jobs[x]
    {
      assert x in sent + [id] <==> x in sent || x == id;
    }
  }

  lemma SendsOneMore(sent: seq<Id>, id: Id, jobs: map<Id, Job>, online: map<Room, Conn>, sendOk: Id -> bool)
    requires id in jobs
    ensures Sends(sent + [id], jobs, online, sendOk)
            == Sends(sent, jobs, online, sendOk)
                + if jobs[id].room in online then [Transmission(id, online[jobs[id].room], sendOk(id))] else []
  {
    assert (sent + [id])[..|sent|] == sent;
  }

  lemma {:induction false} DeliveredEffect(s: State, n: nat, now: int, sendOk: Id -> bool)
    requires s.pass.Sending? && n <= |s.pass.todo| && Distinct(s.pass.todo) && Sendable(s, s.pass.todo)
    ensures OnceSent(s, Delivered(s, n, now, sendOk), s.pass.todo[..n], now, sendOk)
  {
    if n > 0 {
      DeliveredEffect(s, n - 1, now, sendOk);
      var done, id := s.pass.todo[..n - 1], s.pass.todo[n - 1];
      assert s.pass.todo[..n] == done + [id];
      hide SendNext, OnceSent;
      OneMoreSent(s, Delivered(s, n - 1, now, sendOk), done, id, now, sendOk);
    }
  }

  lemma SendNextIsRun(s: State, now: int, ok: bool) returns (states: seq<State>, steps: seq<Step>)
    requires s.pass.Sending? && s.pass.todo != []
    ensures Follows(states, steps) && states[0] == s && states[|steps|] == SendNext(s, now, ok)
  {
    var picked := NextConnection(s);
    if picked.pass.Holding? {
      var marked := Mark(picked, now, true);
      states, steps := [s, picked, marked, Send(marked, ok)], [PickConnection, MarkSent(now, true), Transmit(ok)];
    } else {
      states, steps := [s, picked], [PickConnection];
    }
  }

  lemma {:induction false} DeliveredIsRun(s: State, n: nat, now: int, sendOk: Id -> bool)
    returns (states: seq<State>, steps: seq<Step>)
    requires s.pass.Sending? && n <= |s.pass.todo|
    ensures Follows(states, steps) && states[0] == s && states[|steps|] == Delivered(s, n, now, sendOk)
  {
    if n == 0 {
      return [s], [];
    }
    states, steps := DeliveredIsRun(s, n - 1, now, sendOk);
    hide Follows, SendNext;
    var more, moreSteps := SendNextIsRun(Delivered(s, n - 1, now, sendOk), now, sendOk(s.pass.todo[n - 1]));
    states, steps := Join(states, steps, more, moreSteps);
  }

  /** What is chosen is queried and distinct, and for a connected room it is exactly what is queued. */
  lemma {:induction false} ChosenRows(jobs: map<Id, Job>, rows: seq<Row>, online: map<Room, Conn>, now: int)
    requires QueryResult(jobs, rows, now)
    ensures Distinct(Chosen(rows, online, now))
    ensures forall id :: id in Chosen(rows, online, now) ==> Queried(rows, id) && id in jobs
    ensures forall id :: id in jobs && jobs[id].room in online ==>
              (id in Chosen(rows, online, now) <==> Queried(rows, id) && jobs[id].status == Queued)
  {
    if rows != [] {
      var shorter, row := rows[..|rows| - 1], rows[|rows| - 1];
      ChosenRows(jobs, shorter, online, now);
      assert forall id :: Queried(rows, id) <==> Queried(shorter, id) || id == row.id;
      assert !Queried(shorter, row.id);
    }
  }

  lemma PassEnds(s: State)
    requires s.pass == Sending([])
    ensures Follows([s, s.(pass := Idle)], [PickConnection])
  {
  }

  lemma SentIsQueued(s: State, t: State, rows: seq<Row>, chosen: seq<Id>, now: int, sendOk: Id -> bool)
    requires OnceSent(s, t, chosen, now, sendOk)
    requires forall id :: id in s.jobs && s.jobs[id].room in s.online ==>
               (id in chosen <==> Queried(rows, id) && s.jobs[id].status == Queued)
    ensures t.log == s.log + Sends(chosen, s.jobs, s.online, sendOk) && t.jobs.Keys == s.jobs.Keys
    ensures forall id :: id in t.jobs ==>
              t.jobs[id] == if Queried(rows, id) && s.jobs[id].status == Queued && s.jobs[id].room in s.online
                            then Attempted(s.jobs[id], now, sendOk(id)) else s.jobs[id]
  {
    hide Queried, Attempted, Sends;
  }

  /** The first n rows of a query looked at. */
  ghost function Picked(s: State, rows: seq<Row>, now: int, n: nat): State
    requires n <= |rows|
  {
    s.(pass := Scanning(rows[n..], Chosen(rows[..n], s.online, now)))
  }

  lemma {:induction false} PickingIsRun(s: State, rows: seq<Row>, now: int, n: nat)
    returns (states: seq<State>, steps: seq<Step>)
    requires s.pass == Idle && QueryResult(s.jobs, rows, now) && n <= |rows|
    ensures Follows(states, steps) && states[0] == s && states[|steps|] == Picked(s, rows, now, n)
  {
    if n == 0 {
      assert rows[0..] == rows && rows[..0] == [];
      return [s, Picked(s, rows, now, 0)], [Query(rows, now)];
    }
    states, steps := PickingIsRun(s, rows, now, n - 1);
    assert rows[n - 1..][1..] == rows[n..] && rows[..n][..n - 1] == rows[..n - 1];
    var before, after := Picked(s, rows, now, n - 1), Picked(s, rows, now, n);
    assert rows[n - 1..][0] == rows[n - 1] == rows[..n][n - 1];
    assert before.pass.picked + [] == before.pass.picked;
    assert Next(before, CheckRow(now)) == after;
    assert Follows([before, after], [CheckRow(now)]);
    hide Follows, Picked;
    states, steps := Join(states, steps, [before, after], [CheckRow(now)]);
  }

  lemma ChoosingIsRun(s: State, rows: seq<Row>, now: int) returns (states: seq<State>, steps: seq<Step>)
    requires s.pass == Idle && QueryResult(s.jobs, rows, now)
    ensures Follows(states, steps) && states[0] == s
            && states[|steps|] == s.(pass := Sending(Chosen(rows, s.online, now)))
  {
    states, steps := PickingIsRun(s, rows, now, |rows|);
    assert rows[|rows|..] == [] && rows[..|rows|] == rows;
    var last := states[|steps|];
    assert Follows([last, last.(pass := Sending(last.pass.picked))], [StartSending]);
    hide Follows, Picked;
    states, steps := Join(states, steps, [last, last.(pass := Sending(last.pass.picked))], [StartSending]);
  }

  /** A row to hand out: queued, or sent to a room that is gone, and if its time can be read, twenty seconds ago. */
  predicate Due(row: Row, online: map<Room, Conn>, now: int) {
    row.status == Queued || (row.status == Sent && row.room !in online
                             && (row.sentAt.At? ==> row.sentAt.time + 20 <= now))
  }

  /** What an answer makes of its job: 102 only replaces the text a pending job shows; any other answer is kept and
      settles the job, as completed exactly if it is a success, as unclear exactly if it is 409, else as failed. */
  predicate Settles(before: Job, after: Job, response: Response) {
    && after.room == before.room && after.request == before.request && after.sentAt == before.sentAt
    && if response.status == 102 then
         after.status == before.status
         && after.response == if before.status in {Queued, Sent} then Some(response) else before.response
       else
         && after.response == Some(response) && after.status in {Completed, Failed, Unclear}
         && (after.status == Completed <==> R.Succeeded(response))
            && (after.status == Unclear <==> response.status == 409)
  }

  class CloudServer {
    var jobs: map<Id, Job>
    var targetOf: map<Id, Target>
    var online: map<Room, Conn>
    ghost var issued: set<Conn>
    ghost var pass: Pass
    ghost var log: seq<Transmission>

    ghost function View(): State
      reads this
    {
      State(jobs, online, issued, pass, log)
    }

    method Connect(room: Room, conn: Conn) returns (accepted: bool)
      requires conn !in issued
      modifies this
      ensures View() == Next(old(View()), Hello(room, conn)) && targetOf == old(targetOf)
      ensures accepted <==> room !in old(online)
      ensures online == (if accepted then old(online)[room := conn] else old(online)) && jobs == old(jobs)
    {
      issued := issued + {conn};
      if room in online {
        return false;
      }
      online := online[room := conn];
      return true;
    }

    method Disconnect(room: Room)
      requires room in online
      modifies this
      ensures View() == Next(old(View()), Lost(room)) && targetOf == old(targetOf)
      ensures online == old(online) - {room} && jobs.Keys == old(jobs).Keys
      ensures forall id :: id in jobs ==>
                jobs[id] == if old(jobs)[id].room == room && old(jobs)[id].status == Sent
                            then old(jobs)[id].(status := Queued, sentAt := Never) else old(jobs)[id]
    {
      online := online - {room};
      jobs := map id | id in jobs :: if jobs[id].room == room then Requeued(jobs[id]) else jobs[id];
    }

    method HandleResponse(room: Room, response: Response)
      requires room in online
      modifies this
      ensures View() == Next(old(View()), Answer(room, response)) && targetOf == old(targetOf)
      ensures online == old(online) && jobs.Keys == old(jobs).Keys
      ensures forall id :: id in jobs ==>
                if id == response.id && old(jobs)[id].room == room then Settles(old(jobs)[id], jobs[id], response)
                else jobs[id] == old(jobs)[id]
    {
      var id := response.id;
      var status := Completed;
      if response.status >= 400 {
        status := Failed;
      }
      if response.status == 409 {
        status := Unclear;
      }
      if id in jobs && jobs[id].room == room {
        if response.status == 102 {
          if jobs[id].status == Queued || jobs[id].status == Sent {
            jobs := jobs[id := jobs[id].(response := Some(response))];
          }
        } else {
          jobs := jobs[id := jobs[id].(status := status, response := Some(response))];
        }
      }
    }

    method CancelJob(id: Id) returns (cancelled: bool)
      modifies this
      ensures View() == Next(old(View()), Cancel(id)) && targetOf == old(targetOf)
      ensures cancelled <==> id in old(jobs) && old(jobs)[id].status == Queued
      ensures jobs == if cancelled then old(jobs)[id := old(jobs)[id].(status := Cancelled)] else old(jobs)
    {
      if id in jobs && jobs[id].status == Queued {
        jobs := jobs[id := jobs[id].(status := Cancelled)];
        return true;
      }
      return false;
    }

    /** Whether a request addresses every reported device of every room; only then may it count as a fleet operation. */
    method AllDevicesSelected(fleet: Fleet, rooms: seq<Room>, roomIds: seq<Room>, targets: map<Room, seq<Device>>)
      returns (all: bool)
      requires forall room :: room in rooms <==> room in fleet
      ensures all <==> AllSelected(fleet, roomIds, targets)
    {
      var total := 0;
      for n := 0 to |rooms|
        invariant total > 0 <==> exists room :: room in rooms[..n] && fleet[room] != []
        invariant total >= 0
        invariant forall room :: room in rooms[..n] && fleet[room] != [] ==>
                    room in roomIds && forall device :: device in fleet[room] ==> device in Get(targets, room, [])
      {
        var room := rooms[n];
        assert rooms[..n + 1] == rooms[..n] + [room];
        if fleet[room] != [] {
          if room !in roomIds {
            return false;
          }
          var wanted := Get(targets, room, []);
          assert room in rooms;
          for i := 0 to |fleet[room]|
            invariant forall k :: 0 <= k < i ==> fleet[room][k] in wanted
          {
            if fleet[room][i] !in wanted {
              var device := fleet[room][i];
              assert room in fleet && device in fleet[room] && device !in Get(targets, room, []);
              assert !AllSelected(fleet, roomIds, targets);
              return false;
            }
          }
          total := total + |fleet[room]|;
        }
      }
      assert rooms[..|rooms|] == rooms;
      return total > 0;
    }

    /** Queues one operation in a transaction; `uuids` supplies the fresh ids. A precise selection is never widened to
        the fleet. */
    method Queue(fleet: Fleet, order: seq<Room>, roomIds: seq<Room>, targets: map<Room, seq<Device>>,
                 snapshotRunning: bool, uuids: seq<Id>)
      returns (queued: Option<seq<Id>>, fleetWide: bool)
      requires forall room :: room in order <==> room in fleet
      requires Distinct(uuids) && |uuids| >= |order| + |roomIds| && forall id :: id in uuids ==>
                 id !in jobs && id !in targetOf
      modifies this`jobs, this`targetOf
      ensures fleetWide <==> roomIds != [] && snapshotRunning && AllSelected(fleet, roomIds, targets)
      ensures queued.None? <==> Rejects(fleet, roomIds, targets, fleetWide)
      ensures queued.None? ==> jobs == old(jobs) && targetOf == old(targetOf)
      ensures queued.Some? ==>
                exists added: map<Id, Job>, addressed: map<Id, Target> ::
                  OneJobPerRoom(if fleetWide then order
                                else roomIds, queued.value, added, addressed, targets, fleetWide)
                  && jobs == old(jobs) + added && targetOf == old(targetOf) + addressed
      ensures queued.Some? ==> forall id :: id in queued.value ==> id in uuids
    {
      if roomIds == [] {
        return None, false;
      }
      fleetWide := false;
      if snapshotRunning {
        fleetWide := AllDevicesSelected(fleet, order, roomIds, targets);
      }
      var rooms := if fleetWide then order else roomIds;
      var ids, added, addressed := BuildJobs(fleet, rooms, targets, fleetWide, uuids);
      hide AllSelected, OneJobPerRoom, SelectionAllowed;
      if ids.None? {
        return None, fleetWide;
      }
      jobs, targetOf := jobs + added, targetOf + addressed;
      return ids, fleetWide;
    }

    /** First half of a pass: the rows are read and the jobs to hand out are chosen. */
    method ChooseJobs(rows: seq<Row>, now: int) returns (chosen: seq<Id>)
      requires pass == Idle && QueryResult(jobs, rows, now)
      modifies this`pass
      ensures View() == old(View()).(pass := Sending(chosen)) && chosen == Chosen(rows, online, now)
      ensures forall id :: id in chosen <==>
                exists i :: 0 <= i < |rows| && rows[i].id == id && Due(rows[i], online, now)
    {
      chosen := [];
      for n := 0 to |rows|
        invariant chosen == Chosen(rows[..n], online, now)
        invariant forall id :: id in chosen <==> exists i :: 0 <= i < n && rows[i].id == id && Due(rows[i], online, now)
      {
        var row := rows[n];
        assert rows[..n + 1][..n] == rows[..n];
        assert ShouldDeliver(row.status, row.sentAt, row.room in online, now) <==> Due(row, online, now);
        if ShouldDeliver(row.status, row.sentAt, row.room in online, now) {
          chosen := chosen + [row.id];
        }
      }
      assert rows[..|rows|] == rows;
      pass := Sending(chosen);
    }

    /** One turn of the second half: the next chosen job goes out over its room's connection, if there still is one. */
    method SendJob(id: Id, now: int, ok: bool)
      requires pass.Sending? && pass.todo != [] && pass.todo[0] == id
      modifies this`pass, this`jobs, this`log
      ensures View() == SendNext(old(View()), now, ok)
      ensures pass == Sending(old(pass).todo[1..])
      ensures id !in old(jobs) || old(jobs)[id].room !in online ==> jobs == old(jobs) && log == old(log)
      ensures id in old(jobs) && old(jobs)[id].room in online ==>
                && log == old(log) + [Transmission(id, online[old(jobs)[id].room], ok)]
                && jobs == old(jobs)[id := if old(jobs)[id].status !in {Queued, Sent} then old(jobs)[id]
                                           else if ok then old(jobs)[id].(status := Sent, sentAt := At(now))
                                           else old(jobs)[id].(status := Queued, sentAt := Never)]
    {
      ghost var todo := pass.todo[1..];
      if id !in jobs || jobs[id].room !in online {
        pass := Sending(todo);
        return;
      }
      var conn := online[jobs[id].room];
      if jobs[id].status == Queued || jobs[id].status == Sent {
        jobs := jobs[id := jobs[id].(status := Sent, sentAt := At(now))];
      }
      if !ok {
        jobs := jobs[id := Requeued(jobs[id])];
      }
      log := log + [Transmission(id, conn, ok)];
      pass := Sending(todo);
    }

    /** One delivery pass with nothing in between: exactly the queried jobs that are queued for a connected room are
        sent, each once, over that room's connection. */
    method DeliverJobs(rows: seq<Row>, now: int, sendOk: Id -> bool)
      returns (ghost states: seq<State>, ghost steps: seq<Step>)
      requires pass == Idle && QueryResult(jobs, rows, now)
      modifies this`pass, this`jobs, this`log
      ensures Follows(states, steps) && states[0] == old(View()) && states[|steps|] == View()
      ensures pass == Idle
      ensures log == old(log) + Sends(Chosen(rows, online, now), old(jobs), online, sendOk)
      ensures jobs.Keys == old(jobs).Keys
      ensures forall id :: id in jobs ==>
                jobs[id] == if Queried(rows, id) && old(jobs)[id].status == Queued && old(jobs)[id].room in online
                            then Attempted(old(jobs)[id], now, sendOk(id)) else old(jobs)[id]
    {
      ChosenRows(jobs, rows, online, now);
      hide QueryResult, Chosen, Queried, Follows, Delivered, SendNext, OnceSent, Attempted, Sends;
      ghost var s0 := View();
      states, steps := ChoosingIsRun(View(), rows, now);
      var chosen := ChooseJobs(rows, now);
      ghost var start := View();
      assert start.jobs == s0.jobs && start.online == s0.online && Sendable(start, chosen);
      var n := 0;
      while n < |chosen|
        invariant n <= |chosen| && View() == Delivered(start, n, now, sendOk)
        invariant pass == Sending(chosen[n..])
      {
        SendJob(chosen[n], now, sendOk(chosen[n]));
        n := n + 1;
      }
      assert chosen[..n] == chosen && chosen[n..] == [];
      DeliveredEffect(start, n, now, sendOk);
      ghost var moreStates, moreSteps := DeliveredIsRun(start, n, now, sendOk);
      states, steps := Join(states, steps, moreStates, moreSteps);
      ghost var last := View();
      pass := Idle;
      PassEnds(last);
      states, steps := Join(states, steps, [last, View()], [PickConnection]);
      SentIsQueued(start, last, rows, chosen, now, sendOk);
    }
  }
}
