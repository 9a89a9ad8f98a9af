/** src/api/event_stream.py: the event buffer and the fan-out to server-sent-event clients.

    The state machine's steps are the stretches between two awaits or yields: a broadcast is a task that
    runs some time after the push that scheduled it, tasks running in the order they were scheduled. */
module EventStream {
  import opened Options

  const BUFFER_MAX := 1000
  const QUEUE_MAX := 200
  const RECENT := 20

  datatype Event = Event(organ: Option<string>, body: string)

  /** A generator: its organ filter, how many broadcasts came before it subscribed, its queue, what it
      has taken from the queue, the recent events it began with and the live events it has yielded.
      `seenAt` is how many events had been appended to the buffer when it read it. */
  datatype Client = Client(filter: Option<string>, since: nat, queue: seq<Event>, delivered: seq<Event>,
                           initial: Option<seq<Event>>, seenAt: nat, live: seq<Event>)

  /** An event appended to the buffer, by push_event or by the event bridge. */
  datatype Entry = Entry(event: Event, pushed: bool)

  /** Clients are numbered as they connect; `subscribers` are the keys of _sse_subscribers. `appended` and
      `broadcasts` are everything ever appended and broadcast. */
  datatype State = State(buffer: seq<Event>, pending: seq<Event>, clients: seq<Client>, subscribers: set<nat>,
                         appended: seq<Entry>, broadcasts: seq<Event>)

  datatype Step =
    | Push(event: Event)               // push_event
    | Broadcast                        // the oldest scheduled _broadcast_event runs
    | Connect(filter: Option<string>)  // _sse_generator up to its first yield
    | ReadRecent(client: nat)          // it reads the last 20 events of the buffer, filters and sends them
    | Deliver(client: nat)             // it takes an event from its queue and may yield it
    | Close(client: nat)               // the finally block
    | Bridge(event: Event)             // event_bridge.push_event: buffered, not broadcast
    | Poll(events: seq<Event>)         // GET /stream puts what it collected in front of the buffer
    | Refresh(events: seq<Event>)      // POST /stream/refresh empties the buffer first

  const START := State([], [], [], {}, [], [])

  function LastN<T>(s: seq<T>, n: nat): seq<T> {
    if |s| <= n then s else s[|s| - n..]
  }

  function FirstN<T>(s: seq<T>, n: nat): seq<T> {
    if |s| <= n then s else s[..n]
  }

  function Reversed<T>(s: seq<T>): seq<T> {
    seq(|s|, i requires 0 <= i < |s| => s[|s| - 1 - i])
  }

  predicate Passes(filter: Option<string>, event: Event) {
    filter == None || filter == Some("") || event.organ == filter
  }

  function Kept(filter: Option<string>, events: seq<Event>): seq<Event> {
    if |events| == 0 then []
    else
      var last := events[|events| - 1];
      Kept(filter, events[..|events| - 1]) + (if Passes(filter, last) then [last] else [])
  }

  /** The events that push_event appended. */
  function Pushed(appended: seq<Entry>): seq<Event> {
    if |appended| == 0 then []
    else
      var last := appended[|appended| - 1];
      Pushed(appended[..|appended| - 1]) + (if last.pushed then [last.event] else [])
  }

  predicate HasRoom(client: Client) {
    |client.queue| < QUEUE_MAX
  }

  function Offer(client: Client, subscribed: bool, event: Event): Client {
    if subscribed && HasRoom(client) then client.(queue := client.queue + [event]) else client
  }

  function Offered(s: State, event: Event): seq<Client> {
    seq(|s.clients|, i requires 0 <= i < |s.clients| => Offer(s.clients[i], i in s.subscribers, event))
  }

  function Taken(client: Client): Client
    requires client.queue != []
  {
    var event := client.queue[0];
    client.(queue := client.queue[1..], delivered := client.delivered + [event],
            live := client.live + (if Passes(client.filter, event) then [event] else []))
  }

  /** A step that is not possible in a state leaves it as it is. */
  function Next(s: State, step: Step): State {
    match step
    case Push(event) =>
      s.(buffer := LastN(s.buffer + [event], BUFFER_MAX), pending := s.pending + [event],
         appended := s.appended + [Entry(event, true)])
    case Broadcast =>
      if s.pending == [] then s
      else
        s.(pending := s.pending[1..], broadcasts := s.broadcasts + [s.pending[0]], clients := Offered(s, s.pending[0]),
           subscribers := set c | c in s.subscribers && c < |s.clients| && HasRoom(s.clients[c]))
    case Connect(filter) =>
      s.(clients := s.clients + [Client(filter, |s.broadcasts|, [], [], None, 0, [])],
         subscribers := s.subscribers + {|s.clients|})
    case ReadRecent(c) =>
      if c >= |s.clients| || s.clients[c].initial.Some? then s
      else
        var recent := Kept(s.clients[c].filter, LastN(s.buffer, RECENT));
        s.(clients := s.clients[c := s.clients[c].(initial := Some(recent), seenAt := |s.appended|)])
    case Deliver(c) =>
      if c >= |s.clients| || s.clients[c].initial == None || s.clients[c].queue == [] then s
      else s.(clients := s.clients[c := Taken(s.clients[c])])
    case Close(c) => s.(subscribers := s.subscribers - {c})
    case Bridge(event) =>
      s.(buffer := LastN(s.buffer + [event], BUFFER_MAX), appended := s.appended + [Entry(event, false)])
    case Poll(events) => s.(buffer := FirstN(Reversed(events) + s.buffer, BUFFER_MAX))
    case Refresh(events) => s.(buffer := FirstN(Reversed(events), BUFFER_MAX))
  }

  function Exec(s: State, steps: seq<Step>): State {
    if |steps| == 0 then s else Next(Exec(s, steps[..|steps| - 1]), steps[|steps| - 1])
  }

  function Run(steps: seq<Step>): State {
    Exec(START, steps)
  }

  // ----- What a subscriber has been given -----

  /** Delivered and queued events are an initial stretch, without gaps, of the broadcasts since the
      client subscribed; the whole of them while it is subscribed. */
  predicate ClientOk(c: Client, subscribed: bool, broadcasts: seq<Event>) {
    && c.since <= |broadcasts|
    && c.delivered + c.queue <= broadcasts[c.since..]
    && (subscribed ==> c.delivered + c.queue == broadcasts[c.since..])
    && |c.queue| <= QUEUE_MAX
    && c.live == Kept(c.filter, c.delivered)
    && (c.initial == None ==> c.delivered == [])
  }

  predicate ClientsOk(s: State) {
    && (forall c :: c in s.subscribers ==> c < |s.clients|)
    && (forall c :: 0 <= c < |s.clients| ==> ClientOk(s.clients[c], c in s.subscribers, s.broadcasts))
  }

  predicate StreamInv(s: State) {
    Pushed(s.appended) == s.broadcasts + s.pending && |s.buffer| <= BUFFER_MAX && ClientsOk(s)
  }

  lemma OfferKeeps(c: Client, subscribed: bool, broadcasts: seq<Event>, event: Event)
    requires ClientOk(c, subscribed, broadcasts)
    ensures ClientOk(Offer(c, subscribed, event), subscribed && HasRoom(c), broadcasts + [event])
  {
  }

  lemma TakeKeeps(c: Client, subscribed: bool, broadcasts: seq<Event>)
    requires ClientOk(c, subscribed, broadcasts) && c.queue != [] && c.initial.Some?
    ensures ClientOk(Taken(c), subscribed, broadcasts)
  {
    assert c.delivered + c.queue == Taken(c).delivered + Taken(c).queue;
    assert Taken(c).delivered[..|c.delivered|] == c.delivered;
  }

  lemma BroadcastKeepsClients(s: State)
    requires ClientsOk(s) && s.pending != []
    ensures ClientsOk(Next(s, Broadcast))
  {
    var t := Next(s, Broadcast);
    forall c | 0 <= c < |s.clients|
      ensures ClientOk(t.clients[c], c in t.subscribers, t.broadcasts)
    {
      OfferKeeps(s.clients[c], c in s.subscribers, s.broadcasts, s.pending[0]);
    }
  }

  lemma MovePending(broadcasts: seq<Event>, pending: seq<Event>)
    requires pending != []
    ensures broadcasts + pending == broadcasts + [pending[0]] + pending[1..]
  {
  }

  lemma PushedGrows(appended: seq<Entry>, entry: Entry)
    ensures Pushed(appended + [entry]) == Pushed(appended) + (if entry.pushed then [entry.event] else [])
  {
    assert (appended + [entry])[..|appended|] == appended;
  }

  lemma NextKeepsClients(s: State, step: Step)
    requires ClientsOk(s)
    ensures ClientsOk(Next(s, step))
  {
    if step.Broadcast? {
      if s.pending != [] {
        BroadcastKeepsClients(s);
      }
    } else if step.Deliver? && Next(s, step) != s {
      TakeKeeps(s.clients[step.client], step.client in s.subscribers, s.broadcasts);
    }
  }

  lemma OthersKeepPushes(s: State, step: Step)
    requires !step.Push? && !step.Bridge? && !step.Broadcast?
    ensures Next(s, step).appended == s.appended
    ensures Next(s, step).broadcasts == s.broadcasts && Next(s, step).pending == s.pending
  {
  }

  lemma NextKeepsPushes(s: State, step: Step)
    requires Pushed(s.appended) == s.broadcasts + s.pending
    ensures Pushed(Next(s, step).appended) == Next(s, step).broadcasts + Next(s, step).pending
  {
    match step {
      case Push(event) =>
        PushedGrows(s.appended, Entry(event, true));
        assert s.broadcasts + (s.pending + [event]) == s.broadcasts + s.pending + [event];
      case Bridge(event) =>
        PushedGrows(s.appended, Entry(event, false));
        assert s.broadcasts + s.pending + [] == s.broadcasts + s.pending;
      case Broadcast =>
        if s.pending != [] {
          MovePending(s.broadcasts, s.pending);
        }
      case _ => OthersKeepPushes(s, step);
    }
  }

  lemma NextKeepsBuffer(s: State, step: Step)
    requires |s.buffer| <= BUFFER_MAX
    ensures |Next(s, step).buffer| <= BUFFER_MAX
  {
  }

  lemma NextKeepsInv(s: State, step: Step)
    requires StreamInv(s)
    ensures StreamInv(Next(s, step))
  {
    NextKeepsClients(s, step);
    NextKeepsPushes(s, step);
    NextKeepsBuffer(s, step);
  }

  /** In every reachable state, whatever the order of steps. */
  lemma {:induction false} RunKeepsInv(steps: seq<Step>)
    ensures StreamInv(Run(steps))
  {
    if |steps| == 0 {
    } else {
      RunKeepsInv(steps[..|steps| - 1]);
      NextKeepsInv(Run(steps[..|steps| - 1]), steps[|steps| - 1]);
    }
  }

  // ----- Offering and polling on the fields -----

  /** A subscriber with fewer than 200 events queued is given one more; no other client changes. */
  lemma OfferedOnFields(s: State, event: Event)
    ensures |Offered(s, event)| == |s.clients|
    ensures forall c :: 0 <= c < |s.clients| ==>
              Offered(s, event)[c]
              == if c in s.subscribers && |s.clients[c].queue| < 200
                 then s.clients[c].(queue := s.clients[c].queue + [event]) else s.clients[c]
  {
  }

  /** A poll puts the events it collected in front, the last one first, and keeps a thousand; a refresh
      keeps nothing else. */
  lemma PollOnFields(s: State, events: seq<Event>)
    ensures var buffer := Next(s, Poll(events)).buffer;
            && |buffer| == (if |events| + |s.buffer| <= 1000 then |events| + |s.buffer| else 1000)
            && forall k :: 0 <= k < |buffer| ==>
                 buffer[k] == if k < |events| then events[|events| - 1 - k] else s.buffer[k - |events|]
    ensures var buffer := Next(s, Refresh(events)).buffer;
            && |buffer| == (if |events| <= 1000 then |events| else 1000)
            && forall k :: 0 <= k < |buffer| ==> buffer[k] == events[|events| - 1 - k]
  {
  }

  // ----- The organ filter -----

  /** An event is let through when no organ is asked for or its own organ is. */
  lemma KeptOnFields(filter: Option<string>, events: seq<Event>, event: Event)
    ensures Kept(filter, []) == []
    ensures Kept(filter, events + [event])
         == Kept(filter, events) + (if filter in {None, Some("")} || event.organ == filter then [event] else [])
  {
    assert (events + [event])[..|events|] == events;
  }

  lemma CountGrows(s: seq<Event>, x: Event, e: Event)
    ensures multiset(s + [x])[e] == multiset(s)[e] + (if x == e then 1 else 0)
  {
  }

  /** Every event of the organ asked for is kept, as often as it comes, and no other; all are when none is
      asked for. */
  lemma {:induction false} KeptCountOnFields(filter: Option<string>, events: seq<Event>, e: Event)
    ensures multiset(Kept(filter, events))[e]
         == if filter in {None, Some("")} || e.organ == filter then multiset(events)[e] else 0
    ensures filter in {None, Some("")} ==> Kept(filter, events) == events
  {
    if |events| == 0 {
    } else {
      var front, last := events[..|events| - 1], events[|events| - 1];
      assert events == front + [last];
      KeptCountOnFields(filter, front, e);
      KeptOnFields(filter, front, last);
      CountGrows(front, last, e);
      CountGrows(Kept(filter, front), last, e);
    }
  }

  /** What a client was sent first is some events of the buffer, filtered. */
  ghost predicate InitialOk(c: Client) {
    c.initial.Some? ==> exists events :: c.initial.value == Kept(c.filter, events)
  }

  lemma {:induction false} RunKeepsInitial(steps: seq<Step>)
    ensures forall c :: 0 <= c < |Run(steps).clients| ==> InitialOk(Run(steps).clients[c])
  {
    if |steps| == 0 {
    } else {
      var front, last := Run(steps[..|steps| - 1]), steps[|steps| - 1];
      RunKeepsInitial(steps[..|steps| - 1]);
      forall c | 0 <= c < |Next(front, last).clients|
        ensures InitialOk(Next(front, last).clients[c])
      {
        assert c < |front.clients| ==> InitialOk(front.clients[c]);
        if last == ReadRecent(c) && c < |front.clients| && front.clients[c].initial == None {
          assert Next(front, last).clients[c].initial == Some(Kept(front.clients[c].filter, LastN(front.buffer, RECENT)));
        }
      }
    }
  }

  /** In every reachable state: a client that asked for an organ has been sent events of that organ only,
      and of the live ones taken from its queue every such event; one that asked for none has been sent all
      it took. */
  lemma SentByOrgan(steps: seq<Step>, c: nat, e: Event)
    requires c < |Run(steps).clients|
    ensures var client := Run(steps).clients[c];
            && (client.filter in {None, Some("")} ==> client.live == client.delivered)
            && (client.filter !in {None, Some("")} ==>
                  && (e in client.live ==> e.organ == client.filter)
                  && (client.initial.Some? && e in client.initial.value ==> e.organ == client.filter)
                  && (e.organ == client.filter ==> multiset(client.live)[e] == multiset(client.delivered)[e]))
  {
    RunKeepsInv(steps);
    RunKeepsInitial(steps);
    var client := Run(steps).clients[c];
    assert ClientOk(client, c in Run(steps).subscribers, Run(steps).broadcasts) && InitialOk(client);
    KeptCountOnFields(client.filter, client.delivered, e);
    assert e in client.live <==> e in multiset(client.live);
    if client.initial.Some? {
      var events :| client.initial.value == Kept(client.filter, events);
      KeptCountOnFields(client.filter, events, e);
      assert e in client.initial.value <==> e in multiset(client.initial.value);
    }
  }

  // ----- Dropped subscribers -----

  /** A subscriber leaves by closing, or because a broadcast found its queue full. */
  lemma DroppedWhenFull(s: State, step: Step, c: nat)
    requires StreamInv(s) && c in s.subscribers
    ensures c !in Next(s, step).subscribers <==>
              step == Close(c) || (step == Broadcast && s.pending != [] && |s.clients[c].queue| == QUEUE_MAX)
  {
  }

  /** From then on it receives nothing, whatever happens: it can only empty its queue. */
  lemma {:induction false} DroppedGetsNoMore(s: State, steps: seq<Step>, c: nat)
    requires c < |s.clients| && c !in s.subscribers
    ensures var t := Exec(s, steps);
            && c < |t.clients| && c !in t.subscribers
            && t.clients[c].delivered + t.clients[c].queue == s.clients[c].delivered + s.clients[c].queue
  {
    if |steps| == 0 {
    } else {
      DroppedGetsNoMore(s, steps[..|steps| - 1], c);
    }
  }

  // ----- The code -----

  /** The module's globals, and the local variables of the generators. */
  class EventHub {
    var buffer: seq<Event>
    var pending: seq<Event>
    var clients: seq<Client>
    var subscribers: set<nat>
    var appended: seq<Entry>    // history
    var broadcasts: seq<Event>  // history

    ghost function Snapshot(): State
      reads this
    {
      State(buffer, pending, clients, subscribers, appended, broadcasts)
    }

    constructor ()
      ensures Snapshot() == START
    {
      buffer, pending, clients, subscribers := [], [], [], {};
      appended, broadcasts := [], [];
    }

    /** deque.append with maxlen */
    method Append(event: Event)
      requires |buffer| <= BUFFER_MAX
      modifies this`buffer
      ensures buffer == LastN(old(buffer) + [event], BUFFER_MAX)
      ensures buffer == (if |old(buffer)| < 1000 then old(buffer) else old(buffer)[1..]) + [event]
    {
      buffer := buffer + [event];
      if |buffer| > BUFFER_MAX {
        buffer := buffer[1..];
      }
    }

    /** deque.appendleft with maxlen */
    method AppendLeft(event: Event)
      requires |buffer| <= BUFFER_MAX
      modifies this`buffer
      ensures buffer == FirstN([event] + old(buffer), BUFFER_MAX)
      ensures buffer == [event] + (if |old(buffer)| < 1000 then old(buffer) else old(buffer)[..999])
    {
      buffer := [event] + buffer;
      if |buffer| > BUFFER_MAX {
        buffer := buffer[..BUFFER_MAX];
      }
    }

    method PushEvent(event: Event)
      requires StreamInv(Snapshot())
      modifies this
      ensures Snapshot() == Next(old(Snapshot()), Push(event))
      ensures buffer == (if |old(buffer)| < 1000 then old(buffer) else old(buffer)[1..]) + [event]
      ensures pending == old(pending) + [event] && appended == old(appended) + [Entry(event, true)]
    {
      Append(event);
      pending := pending + [event];
      appended := appended + [Entry(event, true)];
    }

    /** push_event of the event bridge */
    method BridgeEvent(event: Event)
      requires StreamInv(Snapshot())
      modifies this
      ensures Snapshot() == Next(old(Snapshot()), Bridge(event))
      ensures buffer == (if |old(buffer)| < 1000 then old(buffer) else old(buffer)[1..]) + [event]
      ensures pending == old(pending) && appended == old(appended) + [Entry(event, false)]
    {
      Append(event);
      appended := appended + [Entry(event, false)];
    }

    /** The first loop of _broadcast_event, over the subscribers in any order. */
    method OfferToAll(event: Event) returns (dead: seq<nat>)
      requires StreamInv(Snapshot())
      modifies this`clients
      ensures clients == old(Offered(Snapshot(), event))
      ensures forall c :: c in dead <==> c in subscribers && c < |old(clients)| && !HasRoom(old(clients)[c])
    {
      dead := [];
      var was := clients;
      var todo := subscribers;
      while todo != {}
        invariant todo <= subscribers && |clients| == |was|
        invariant forall c :: 0 <= c < |was| ==> clients[c] == Offer(was[c], c in subscribers - todo, event)
        invariant forall c :: c in dead <==> c in subscribers - todo && c < |was| && !HasRoom(was[c])
        decreases todo
      {
        var c :| c in todo;
        todo := todo - {c};
        if HasRoom(clients[c]) {
          clients := clients[c := clients[c].(queue := clients[c].queue + [event])];
        } else {
          dead := dead + [c];
        }
      }
    }

    method Drop(dead: seq<nat>)
      modifies this`subscribers
      ensures subscribers == set c | c in old(subscribers) && c !in dead
    {
      for k := 0 to |dead|
        invariant subscribers == set c | c in old(subscribers) && c !in dead[..k]
      {
        assert dead[..k + 1] == dead[..k] + [dead[k]];
        subscribers := subscribers - {dead[k]};
      }
      assert dead[..|dead|] == dead;
    }

    /** _broadcast_event: offer to each subscriber, then drop those whose queue was full. */
    method BroadcastEvent()
      requires StreamInv(Snapshot()) && pending != []
      modifies this
      ensures Snapshot() == Next(old(Snapshot()), Broadcast)
      ensures pending == old(pending)[1..] && broadcasts == old(broadcasts) + [old(pending)[0]]
      ensures forall c :: 0 <= c < |clients| ==>
                clients[c] == if c in old(subscribers) && |old(clients)[c].queue| < 200
                              then old(clients)[c].(queue := old(clients)[c].queue + [old(pending)[0]]) else old(clients)[c]
      ensures forall c :: c in subscribers <==>
                c in old(subscribers) && c < |old(clients)| && |old(clients)[c].queue| < 200
    {
      var event := pending[0];
      OfferedOnFields(Snapshot(), event);
      var dead := OfferToAll(event);
      pending := pending[1..];
      broadcasts := broadcasts + [event];
      Drop(dead);
    }

    /** _sse_generator up to its first yield */
    method Subscribe(filter: Option<string>) returns (client: nat)
      modifies this
      ensures Snapshot() == Next(old(Snapshot()), Connect(filter))
      ensures client == |old(clients)| && subscribers == old(subscribers) + {client}
      ensures clients == old(clients) + [Client(filter, |broadcasts|, [], [], None, 0, [])]
    {
      client := |clients|;
      clients := clients + [Client(filter, |broadcasts|, [], [], None, 0, [])];
      subscribers := subscribers + {client};
    }

    method SendRecent(client: nat)
      requires client < |clients| && clients[client].initial == None
      modifies this`clients
      ensures Snapshot() == Next(old(Snapshot()), ReadRecent(client))
      ensures var recent := if |buffer| <= 20 then buffer else buffer[|buffer| - 20..];
              var was := old(clients)[client];
              clients == old(clients)[client := was.(initial := Some(Kept(was.filter, recent)), seenAt := |appended|)]
    {
      var recent := if |buffer| <= RECENT then buffer else buffer[|buffer| - RECENT..];
      var kept: seq<Event> := [];
      for k := 0 to |recent|
        invariant kept == Kept(clients[client].filter, recent[..k])
      {
        assert recent[..k + 1][..k] == recent[..k];
        if Passes(clients[client].filter, recent[k]) {
          kept := kept + [recent[k]];
        }
      }
      assert recent[..|recent|] == recent;
      clients := clients[client := clients[client].(initial := Some(kept), seenAt := |appended|)];
    }

    /** One turn of the generator's loop that finds an event. */
    method SendLive(client: nat) returns (sent: Option<Event>)
      requires client < |clients| && clients[client].initial.Some? && clients[client].queue != []
      modifies this`clients
      ensures Snapshot() == Next(old(Snapshot()), Deliver(client))
      ensures var was := old(clients)[client];
              && sent == (if was.filter in {None, Some("")} || was.queue[0].organ == was.filter then Some(was.queue[0]) else None)
              && clients == old(clients)[client :=
                   was.(queue := was.queue[1..], delivered := was.delivered + [was.queue[0]],
                        live := was.live + (if sent.Some? then [sent.value] else []))]
    {
      var c := clients[client];
      var event := c.queue[0];
      c := c.(queue := c.queue[1..], delivered := c.delivered + [event]);
      sent := None;
      if Passes(c.filter, event) {
        c := c.(live := c.live + [event]);
        sent := Some(event);
      }
      assert c == Taken(clients[client]);
      clients := clients[client := c];
    }

    method Unsubscribe(client: nat)
      modifies this`subscribers
      ensures Snapshot() == Next(old(Snapshot()), Close(client)) && subscribers == old(subscribers) - {client}
    {
      subscribers := subscribers - {client};
    }

    method PollInto(events: seq<Event>)
      requires |buffer| <= BUFFER_MAX
      modifies this`buffer
      ensures Snapshot() == Next(old(Snapshot()), Poll(events))
    {
      for k := 0 to |events|
        invariant buffer == FirstN(Reversed(events[..k]) + old(buffer), BUFFER_MAX)
      {
        var left := Reversed(events[..k]);
        assert Reversed(events[..k + 1]) == [events[k]] + left;
        assert [events[k]] + left + old(buffer) == [events[k]] + (left + old(buffer));
        FirstNTwice(events[k], left + old(buffer));
        AppendLeft(events[k]);
      }
      assert events[..|events|] == events;
    }

    method RefreshWith(events: seq<Event>)
      modifies this`buffer
      ensures Snapshot() == Next(old(Snapshot()), Refresh(events))
    {
      buffer := [];
      PollInto(events);
      assert Reversed(events) + [] == Reversed(events);
    }
  }

  lemma FirstNTwice(event: Event, events: seq<Event>)
    ensures FirstN([event] + FirstN(events, BUFFER_MAX), BUFFER_MAX) == FirstN([event] + events, BUFFER_MAX)
  {
  }
}
