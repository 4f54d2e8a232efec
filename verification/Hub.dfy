/** What the hub does to the Send channel of one client, and to all of them over a run. */
module HubDelivery {
  /** A broadcast reaches every client; a direct message (to a user, or a pong) only some. */
  datatype Message = Broadcast(body: string) | Direct(body: string)

  /** A client's Send channel: what is queued, what the write pump took out, whether it is closed. */
  datatype Chan = Chan(user: string, capacity: nat, queue: seq<Message>, received: seq<Message>, closed: bool)

  predicate HasRoom(c: Chan) { |c.queue| < c.capacity }

  function Queued(c: Chan, m: Message): Chan { c.(queue := c.queue + [m]) }

  /** A client that cannot take a broadcast is cut off. */
  function Offered(c: Chan, m: Message): Chan { if HasRoom(c) then Queued(c, m) else c.(closed := true) }

  /** A direct message that does not fit is dropped. */
  function Tried(c: Chan, m: Message): Chan { if HasRoom(c) then Queued(c, m) else c }

  function Taken(c: Chan): Chan
    requires c.queue != []
  {
    c.(received := c.received + [c.queue[0]], queue := c.queue[1..])
  }

  /** A registration: the channel, whether the hub still has the client in its map, how many
      broadcasts had been processed when it joined and when it left, and whether the hub ever
      sent on, or closed, the channel when it was closed already (which would panic). */
  datatype Conn = Conn(chan: Chan, member: bool, joined: nat, left: nat, panicked: bool)

  datatype State = State(conns: map<string, Conn>, processed: seq<Message>)

  datatype Event =
    | Register(id: string, user: string, capacity: nat)
    | Unregister(id: string)
    | ToAll(body: string)
    | ToUser(user: string, body: string)
    | Pong(id: string)
    | Receive(id: string)

  // ----- One registration; n is the number of broadcasts processed so far -----

  function Removed(c: Conn, n: nat): Conn {
    if c.member then Conn(c.chan.(closed := true), false, c.joined, n, c.panicked || c.chan.closed) else c
  }

  function Served(c: Conn, m: Message, n: nat): Conn {
    if !c.member then c
    else
      var stays := HasRoom(c.chan);
      Conn(Offered(c.chan, m), stays, c.joined, if stays then c.left else n, c.panicked || c.chan.closed)
  }

  function ServedDirect(c: Conn, m: Message): Conn {
    if !c.member then c else c.(chan := Tried(c.chan, m), panicked := c.panicked || c.chan.closed)
  }

  /** The client's own goroutine answers a ping while its channel is open and has room. */
  function Ponged(c: Conn): Conn {
    if c.chan.closed || !HasRoom(c.chan) then c else c.(chan := Queued(c.chan, Direct("pong")))
  }

  function Read(c: Conn): Conn { if c.chan.queue == [] then c else c.(chan := Taken(c.chan)) }

  /** What an event does to the registration `id`. */
  function Felt(c: Conn, e: Event, id: string, n: nat): Conn {
    match e
    case Register(_, _, _) => c
    case Unregister(i) => if i == id then Removed(c, n) else c
    case ToAll(body) => Served(c, Broadcast(body), n)
    case ToUser(user, body) => if c.chan.user == user then ServedDirect(c, Direct(body)) else c
    case Pong(i) => if i == id then Ponged(c) else c
    case Receive(i) => if i == id then Read(c) else c
  }

  /** An id is registered at most once. */
  function Step(s: State, e: Event): State {
    var n := |s.processed|;
    var felt := map id | id in s.conns :: Felt(s.conns[id], e, id, n);
    match e
    case Register(id, user, capacity) =>
      if id in s.conns then s
      else s.(conns := s.conns[id := Conn(Chan(user, capacity, [], [], false), true, n, n, false)])
    case ToAll(body) => State(felt, s.processed + [Broadcast(body)])
    case _ => s.(conns := felt)
  }

  function Run(events: seq<Event>): State {
    if events == [] then State(map[], []) else Step(Run(events[..|events| - 1]), events[|events| - 1])
  }

  lemma RunSnoc(events: seq<Event>, e: Event)
    ensures Run(events + [e]) == Step(Run(events), e)
  {
    assert (events + [e])[..|events|] == events;
  }

  // ----- What a client has got -----

  function Broadcasts(ms: seq<Message>): seq<Message> {
    if ms == [] then []
    else Broadcasts(ms[..|ms| - 1]) + (if ms[|ms| - 1].Broadcast? then [ms[|ms| - 1]] else [])
  }

  /** Everything that went into the channel, oldest first. */
  function Delivered(c: Chan): seq<Message> { c.received + c.queue }

  /** How many broadcasts had been processed when the client left, or by now. */
  function Until(c: Conn, n: nat): nat { if c.member then n else c.left }

  /** Members have open channels and everybody else's is closed, the hub never panicked over this
      one, and its broadcasts are those processed between joining and leaving, in order, no gap. */
  ghost predicate Sound(c: Conn, processed: seq<Message>) {
    && !c.panicked
    && (c.chan.closed <==> !c.member)
    && c.joined <= Until(c, |processed|) <= |processed|
    && Broadcasts(Delivered(c.chan)) == processed[c.joined..Until(c, |processed|)]
  }

  lemma BroadcastsSnoc(ms: seq<Message>, m: Message)
    ensures Broadcasts(ms + [m]) == Broadcasts(ms) + (if m.Broadcast? then [m] else [])
  {
    assert (ms + [m])[..|ms|] == ms;
  }

  lemma QueuedDelivers(c: Chan, m: Message)
    ensures Broadcasts(Delivered(Queued(c, m))) == Broadcasts(Delivered(c)) + (if m.Broadcast? then [m] else [])
  {
    assert Delivered(Queued(c, m)) == Delivered(c) + [m];
    BroadcastsSnoc(Delivered(c), m);
  }

  lemma TakenDelivers(c: Chan)
    requires c.queue != []
    ensures Delivered(Taken(c)) == Delivered(c)
  {
  }

  lemma ServedIsSound(c: Conn, processed: seq<Message>, m: Message)
    requires Sound(c, processed) && m.Broadcast?
    ensures Sound(Served(c, m, |processed|), processed + [m])
  {
    if c.member && HasRoom(c.chan) {
      QueuedIsSound(c, processed, m);
    } else {
      var u := Until(c, |processed|);
      assert (processed + [m])[c.joined..u] == processed[c.joined..u];
    }
  }

  lemma QueuedIsSound(c: Conn, processed: seq<Message>, m: Message)
    requires Sound(c, processed) && m.Broadcast? && c.member
    ensures Sound(c.(chan := Queued(c.chan, m)), processed + [m])
  {
    QueuedDelivers(c.chan, m);
    assert (processed + [m])[c.joined..|processed| + 1] == processed[c.joined..] + [m];
  }

  lemma DirectIsSound(c: Conn, processed: seq<Message>, body: string)
    requires Sound(c, processed)
    ensures Sound(c.(chan := Queued(c.chan, Direct(body))), processed)
  {
    QueuedDelivers(c.chan, Direct(body));
  }

  lemma ReadIsSound(c: Conn, processed: seq<Message>)
    requires Sound(c, processed)
    ensures Sound(Read(c), processed)
  {
    if c.chan.queue != [] {
      TakenDelivers(c.chan);
    }
  }

  lemma FeltIsSound(c: Conn, e: Event, id: string, processed: seq<Message>)
    requires Sound(c, processed)
    ensures Sound(Felt(c, e, id, |processed|), if e.ToAll? then processed + [Broadcast(e.body)] else processed)
  {
    match e
    case ToAll(body) => ServedIsSound(c, processed, Broadcast(body));
    case ToUser(_, body) => DirectIsSound(c, processed, body);
    case Pong(_) => DirectIsSound(c, processed, "pong");
    case Receive(_) => ReadIsSound(c, processed);
    case _ =>
  }

  /** In every run, for every client: the hub never panics and its broadcasts have no gap. */
  lemma {:induction false} HubIsSound(events: seq<Event>, id: string)
    requires id in Run(events).conns
    ensures Sound(Run(events).conns[id], Run(events).processed)
  {
    var before, e := events[..|events| - 1], events[|events| - 1];
    var s := Run(before);
    if id in s.conns {
      HubIsSound(before, id);
      FeltIsSound(s.conns[id], e, id, s.processed);
    }
  }

  lemma FeltFits(c: Conn, e: Event, id: string, n: nat)
    requires |c.chan.queue| <= c.chan.capacity
    ensures |Felt(c, e, id, n).chan.queue| <= Felt(c, e, id, n).chan.capacity
  {
  }

  /** No channel ever holds more than its capacity. */
  lemma {:induction false} QueueFits(events: seq<Event>, id: string)
    requires id in Run(events).conns
    ensures |Run(events).conns[id].chan.queue| <= Run(events).conns[id].chan.capacity
  {
    var before, e := events[..|events| - 1], events[|events| - 1];
    var s := Run(before);
    if id in s.conns {
      QueueFits(before, id);
      FeltFits(s.conns[id], e, id, |s.processed|);
    }
  }

  /** A broadcast reaches every client in the map whose queue is not full, and cuts off, once, every
      other; those that have left feel nothing. */
  lemma BroadcastEffect(events: seq<Event>, body: string, id: string)
    requires id in Run(events).conns
    ensures id in Run(events + [ToAll(body)]).conns
    ensures var c, d := Run(events).conns[id], Run(events + [ToAll(body)]).conns[id];
      && d.chan.received == c.chan.received
      && (d.member <==> c.member && |c.chan.queue| < c.chan.capacity)
      && (d.chan.closed <==> !d.member)
      && d.chan.queue == c.chan.queue + (if d.member then [Broadcast(body)] else [])
      && d.left == if c.member && !d.member then |Run(events).processed| else c.left
  {
    RunSnoc(events, ToAll(body));
    HubIsSound(events, id);
  }

  /** A message to a user is queued for each of the user's clients in the map that has room, and a pong for
      its own client; nobody is cut off and nothing else changes. */
  lemma DirectEffect(events: seq<Event>, e: Event, id: string)
    requires id in Run(events).conns && (e.ToUser? || e.Pong?)
    ensures id in Run(events + [e]).conns && Run(events + [e]).processed == Run(events).processed
    ensures var c, d := Run(events).conns[id], Run(events + [e]).conns[id];
      var meant := if e.ToUser? then e.user == c.chan.user else e.id == id;
      var body := if e.ToUser? then e.body else "pong";
      d == if c.member && meant && |c.chan.queue| < c.chan.capacity
           then c.(chan := c.chan.(queue := c.chan.queue + [Direct(body)]))
           else c
  {
    RunSnoc(events, e);
    HubIsSound(events, id);
  }

  /** An unregistration closes the channel of that client, if it is still in the map, and touches nobody
      else; what is queued stays there to be read. */
  lemma UnregisterEffect(events: seq<Event>, i: string, id: string)
    requires id in Run(events).conns
    ensures id in Run(events + [Unregister(i)]).conns
    ensures var c, d := Run(events).conns[id], Run(events + [Unregister(i)]).conns[id];
      if i == id && c.member
      then d == Conn(c.chan.(closed := true), false, c.joined, |Run(events).processed|, c.panicked)
      else d == c
  {
    RunSnoc(events, Unregister(i));
    HubIsSound(events, id);
  }

  /** The write pump takes out the oldest message, from a closed channel too, and changes nothing else. */
  lemma ReceiveEffect(events: seq<Event>, i: string, id: string)
    requires id in Run(events).conns
    ensures id in Run(events + [Receive(i)]).conns
    ensures var c, d := Run(events).conns[id], Run(events + [Receive(i)]).conns[id];
      if i == id && c.chan.queue != []
      then d == c.(chan := c.chan.(queue := d.chan.queue, received := d.chan.received))
        && d.chan.received == c.chan.received + [c.chan.queue[0]] && [c.chan.queue[0]] + d.chan.queue == c.chan.queue
      else d == c
  {
    RunSnoc(events, Receive(i));
  }

  /** What counts as a panic: closing, or sending on, a closed channel of a client in the map. */
  lemma PanicsExactly(c: Conn, e: Event, id: string, n: nat)
    ensures Felt(c, e, id, n).panicked <==>
      c.panicked
      || (c.member && c.chan.closed
          && (e == Unregister(id) || e.ToAll? || (e.ToUser? && e.user == c.chan.user)))
  {
  }

  lemma FeltWhenClosed(c: Conn, e: Event, id: string, n: nat)
    requires c.chan.closed && !c.member
    ensures var d := Felt(c, e, id, n);
      && d.chan.closed && !d.member && d.left == c.left && Delivered(d.chan) == Delivered(c.chan)
      && (e != Receive(id) ==> d == c)
  {
    if c.chan.queue != [] {
      TakenDelivers(c.chan);
    }
  }

  /** Once a channel is closed, the hub neither closes it again nor sends on it in any further
      run; all that still happens is the client emptying it. */
  lemma {:induction false} ClosedIsFinal(events: seq<Event>, more: seq<Event>, id: string)
    requires id in Run(events).conns && Run(events).conns[id].chan.closed
    ensures id in Run(events + more).conns
    ensures var c, d := Run(events).conns[id], Run(events + more).conns[id];
      d.chan.closed && !d.member && d.left == c.left && Delivered(d.chan) == Delivered(c.chan)
  {
    if more == [] {
      assert events + more == events;
      HubIsSound(events, id);
    } else {
      var before, e := events + more[..|more| - 1], more[|more| - 1];
      ClosedIsFinal(events, more[..|more| - 1], id);
      FeltWhenClosed(Run(before).conns[id], e, id, |Run(before).processed|);
      assert events + more == before + [e];
      RunSnoc(before, e);
    }
  }
}

module WebSocketHub {
  import opened HubDelivery

  class Client {
    const id: string
    const user: string
    const capacity: nat
    var queue: seq<Message>
    var received: seq<Message>
    var closed: bool

    constructor (id: string, user: string, capacity: nat)
      ensures this.id == id && this.user == user && this.capacity == capacity
      ensures State() == Chan(user, capacity, [], [], false)
    {
      this.id, this.user, this.capacity := id, user, capacity;
      queue, received, closed := [], [], false;
    }

    ghost function State(): Chan reads this { Chan(user, capacity, queue, received, closed) }

    /** A send with a default branch. Sending on a closed channel would panic. */
    method TrySend(m: Message) returns (sent: bool)
      requires !closed
      modifies this`queue
      ensures sent <==> old(HasRoom(State()))
      ensures State() == Tried(old(State()), m)
    {
      sent := |queue| < capacity;
      if sent {
        queue := queue + [m];
      }
    }

    /** Closing a closed channel would panic. */
    method Close()
      requires !closed
      modifies this`closed
      ensures State() == old(State()).(closed := true)
    {
      closed := true;
    }

    /** One wake-up of WritePump: the message that woke it, then as many as are queued by then. If no
        writer can be had, the first message is lost with the connection. */
    method WriteBatch(writerOpens: bool, writerCloses: bool) returns (goesOn: bool)
      requires queue != []
      modifies this`queue, this`received
      ensures received + queue == old(received + queue)
      ensures writerOpens ==> queue == []
      ensures !writerOpens ==> queue == old(queue)[1..]
      ensures goesOn <==> writerOpens && writerCloses
    {
      received, queue := received + [queue[0]], queue[1..];
      if !writerOpens {
        return false;
      }
      var n := |queue|;
      var i := 0;
      while i < n
        invariant 0 <= i <= n && |queue| == n - i
        invariant received + queue == old(received) + old(queue)
      {
        received, queue := received + [queue[0]], queue[1..];
        i := i + 1;
      }
      return writerCloses;
    }
  }

  class Hub {
    var clients: map<string, Client>

    ghost predicate Valid() reads this, clients.Values {
      forall id :: id in clients ==> clients[id].id == id && !clients[id].closed
    }

    constructor ()
      ensures Valid() && clients == map[]
    {
      clients := map[];
    }

    method Register(c: Client)
      requires Valid() && !c.closed
      modifies this
      ensures Valid() && clients == old(clients)[c.id := c]
    {
      clients := clients[c.id := c];
    }

    method Unregister(c: Client)
      requires Valid() && (c.id in clients ==> clients[c.id] == c)
      modifies this, c`closed
      ensures Valid() && clients == old(clients) - {c.id}
      ensures c.State() == if c.id in old(clients) then old(c.State()).(closed := true) else old(c.State())
    {
      if c.id in clients {
        clients := clients - {c.id};
        c.Close();
      }
    }

    /** One client's turn in a broadcast: it takes the message, or is closed and deleted. */
    method Serve(client: Client, m: Message) returns (sent: bool)
      requires !client.closed
      modifies this`clients, client`queue, client`closed
      ensures sent <==> old(HasRoom(client.State()))
      ensures client.State() == Offered(old(client.State()), m)
      ensures clients == if sent then old(clients) else old(clients) - {client.id}
    {
      sent := client.TrySend(m);
      if !sent {
        client.Close();
        clients := clients - {client.id};
      }
    }

    /** The broadcast branch of Run: clients without room are closed and deleted on the way. */
    method Broadcast(m: Message)
      requires Valid()
      modifies this, clients.Values
      ensures Valid()
      ensures clients == map id | id in old(clients) && old(HasRoom(clients[id].State())) :: old(clients)[id]
      ensures forall id :: id in old(clients) ==> old(clients)[id].State() == Offered(old(clients[id].State()), m)
    {
      ghost var all := clients;
      ghost var gone: set<string> := {};
      var rest := clients.Values;
      while rest != {}
        invariant rest <= all.Values && clients == all - gone
        invariant forall c :: c in rest ==> c.State() == old(c.State()) && c.id !in gone
        invariant forall c :: c in all.Values && c !in rest ==>
          c.State() == Offered(old(c.State()), m) && (c.id in gone <==> !old(HasRoom(c.State())))
        decreases rest
      {
        var client :| client in rest;
        assert client.State() == old(client.State());
        assert forall c :: c in all.Values && c.id == client.id ==> c == client;
        var sent := Serve(client, m);
        if !sent {
          gone := gone + {client.id};
        }
        rest := rest - {client};
      }
      forall id | id in clients
        ensures clients[id].id == id && !clients[id].closed
      {
        assert all[id].State() == Offered(old(all[id].State()), m);
      }
    }

    method BroadcastToUser(user: string, m: Message)
      requires Valid()
      modifies clients.Values
      ensures Valid() && clients == old(clients)
      ensures forall id :: id in clients ==>
        clients[id].State() ==
          if clients[id].user == user then Tried(old(clients[id].State()), m) else old(clients[id].State())
    {
      var rest := clients.Keys;
      while rest != {}
        invariant rest <= clients.Keys && clients == old(clients)
        invariant Valid()
        invariant forall id :: id in rest ==> clients[id].State() == old(clients[id].State())
        invariant forall id :: id in clients && id !in rest ==>
          clients[id].State() ==
            if clients[id].user == user then Tried(old(clients[id].State()), m) else old(clients[id].State())
        decreases rest
      {
        var id :| id in rest;
        if clients[id].user == user {
          var _ := clients[id].TrySend(m);
        }
        rest := rest - {id};
      }
    }
  }
}
