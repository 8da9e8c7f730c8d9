/** A room's hub: which connection speaks for a device, through reconnects and late goodbyes. */
module Hub {
  import opened Common

  type Device = int
  type Conn = nat

  /** `seen` are the connections registered so far; `closed` counts how often each one's done channel was closed. */
  datatype State = State(clients: map<Device, Conn>, seen: map<Conn, Device>, closed: multiset<Conn>)

  datatype Step = Register(device: Device, conn: Conn) | Unregister(conn: Conn)

  /** A connection registers once and says goodbye for the device it registered for, possibly late and possibly more
      than once. */
  predicate Enabled(s: State, step: Step) {
    match step
    case Register(_, conn) => conn !in s.seen
    case Unregister(conn) => conn in s.seen
  }

  function Next(s: State, step: Step): State
    requires Enabled(s, step)
  {
    match step
    case Register(device, conn) =>
      State(s.clients[device := conn], s.seen[conn := device], if device in s.clients
            then s.closed + multiset{s.clients[device]} else s.closed)
    case Unregister(conn) =>
      var device := s.seen[conn];
      if device in s.clients && s.clients[device] == conn then
        s.(clients := s.clients - {device}, closed := s.closed + multiset{conn})
      else s
  }

  /** A connection is open exactly while it is the registered one of its device, and it is closed once. */
  ghost predicate Inv(s: State) {
    && (forall device :: device in s.clients ==> s.clients[device] in s.seen && s.seen[s.clients[device]] == device)
    && (forall conn :: conn in s.seen ==>
        s.closed[conn] == if s.seen[conn] in s.clients && s.clients[s.seen[conn]] == conn then 0 else 1)
    && (forall conn :: conn !in s.seen ==> s.closed[conn] == 0)
  }

  lemma RegisterKeepsInv(s: State, device: Device, conn: Conn)
    requires Inv(s) && conn !in s.seen
    ensures Inv(Next(s, Register(device, conn)))
  {
    var t := Next(s, Register(device, conn));
    assert forall c :: t.closed[c] == s.closed[c] + if device in s.clients && s.clients[device] == c then 1 else 0;
  }

  lemma UnregisterKeepsInv(s: State, conn: Conn)
    requires Inv(s) && conn in s.seen
    ensures Inv(Next(s, Unregister(conn)))
  {
    var t := Next(s, Unregister(conn));
    assert forall c ::
             t.closed[c] == s.closed[c] + if c == conn && s.seen[c] in s.clients && s.clients[s.seen[c]] == c then 1
                 else 0;
  }

  lemma StepKeepsInv(s: State, step: Step)
    requires Inv(s) && Enabled(s, step)
    ensures Inv(Next(s, step))
  {
    hide Inv, Next;
    match step
    case Register(device, conn) => RegisterKeepsInv(s, device, conn);
    case Unregister(conn) => UnregisterKeepsInv(s, conn);
  }

  function Run(steps: seq<Step>): Option<State> {
    if steps == [] then Some(State(map[], map[], multiset{}))
    else
      var before := Run(steps[..|steps| - 1]);
      if before.Some? && Enabled(before.value, steps[|steps| - 1]) then Some(Next(before.value, steps[|steps| - 1]))
      else None
  }

  /** Over any reconnects and goodbyes no done channel is closed twice, and a device's latest connection stays open
      until it says goodbye itself. */
  lemma {:induction false} ClosedAtMostOnce(steps: seq<Step>)
    requires Run(steps).Some?
    ensures Inv(Run(steps).value)
    ensures forall conn :: Run(steps).value.closed[conn] <= 1
    ensures forall device :: device in Run(steps).value.clients ==>
              Run(steps).value.closed[Run(steps).value.clients[device]] == 0
  {
    if steps != [] {
      ClosedAtMostOnce(steps[..|steps| - 1]);
      StepKeepsInv(Run(steps[..|steps| - 1]).value, steps[|steps| - 1]);
    }
  }

  class Registry {
    var clients: map<Device, Conn>
    ghost var seen: map<Conn, Device>
    ghost var closed: multiset<Conn>

    ghost function View(): State
      reads this
    {
      State(clients, seen, closed)
    }

    /** A new connection takes over its device; the one it replaces is closed. */
    method Register(device: Device, conn: Conn) returns (replaced: Option<Conn>)
      requires conn !in seen
      modifies this
      ensures View() == Next(old(View()), Step.Register(device, conn))
      ensures clients == old(clients)[device := conn]
      ensures replaced == if device in old(clients) then Some(old(clients)[device]) else None
    {
      replaced := None;
      if device in clients {
        replaced := Some(clients[device]);
        closed := closed + multiset{clients[device]};
      }
      clients, seen := clients[device := conn], seen[conn := device];
    }

    /** Only the device's current connection takes it offline. */
    method Unregister(device: Device, conn: Conn) returns (removed: bool)
      requires conn in seen && seen[conn] == device
      modifies this
      ensures View() == Next(old(View()), Step.Unregister(conn))
      ensures removed <==> device in old(clients) && old(clients)[device] == conn
      ensures clients == if removed then old(clients) - {device} else old(clients)
    {
      if device in clients && clients[device] == conn {
        clients, closed := clients - {device}, closed + multiset{conn};
        return true;
      }
      return false;
    }
  }
}
