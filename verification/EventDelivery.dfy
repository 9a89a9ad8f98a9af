/** src/api/event_stream.py: what a client is sent over its whole connection, recent events first and live
    ones after, and what polling does to the buffer. */
module EventDelivery {
  import opened Options
  import opened EventStream

  // ----- The buffer -----

  /** No poll and no refresh: only push_event and the event bridge write the buffer. */
  predicate NoPolls(steps: seq<Step>) {
    forall i :: 0 <= i < |steps| ==> !steps[i].Poll? && !steps[i].Refresh?
  }

  function Events(entries: seq<Entry>): seq<Event> {
    seq(|entries|, i requires 0 <= i < |entries| => entries[i].event)
  }

  predicate RecentInv(s: State) {
    && s.buffer == Events(LastN(s.appended, BUFFER_MAX))
    && (forall c :: 0 <= c < |s.clients| ==> RecentOk(s.clients[c], s.appended))
  }

  predicate RecentOk(c: Client, appended: seq<Entry>) {
    if c.initial == None then c.since <= |Pushed(appended)|
    else
      && c.seenAt <= |appended| && c.since <= |Pushed(appended[..c.seenAt])|
      && c.initial.value == Kept(c.filter, Events(LastN(appended[..c.seenAt], RECENT)))
  }

  lemma RecentStays(c: Client, appended: seq<Entry>, entry: Entry)
    requires RecentOk(c, appended)
    ensures RecentOk(c, appended + [entry])
  {
    PushedGrows(appended, entry);
    if c.initial.Some? {
      assert (appended + [entry])[..c.seenAt] == appended[..c.seenAt];
    }
  }

  lemma AppendKeepsRecent(s: State, entry: Entry)
    requires RecentInv(s)
    ensures LastN(s.buffer + [entry.event], BUFFER_MAX) == Events(LastN(s.appended + [entry], BUFFER_MAX))
    ensures forall c :: 0 <= c < |s.clients| ==> RecentOk(s.clients[c], s.appended + [entry])
  {
    forall c | 0 <= c < |s.clients|
      ensures RecentOk(s.clients[c], s.appended + [entry])
    {
      RecentStays(s.clients[c], s.appended, entry);
    }
  }

  lemma RecentRead(s: State, c: nat)
    requires RecentInv(s) && c < |s.clients|
    ensures RecentInv(Next(s, ReadRecent(c)))
  {
    assert s.appended[..|s.appended|] == s.appended;
    assert LastN(s.buffer, RECENT) == Events(LastN(s.appended, RECENT));
  }

  lemma NextKeepsRecent(s: State, step: Step)
    requires StreamInv(s) && RecentInv(s) && !step.Poll? && !step.Refresh?
    ensures RecentInv(Next(s, step))
  {
    if step.Push? || step.Bridge? {
      AppendKeepsRecent(s, Entry(step.event, step.Push?));
    } else if step.ReadRecent? && step.client < |s.clients| {
      RecentRead(s, step.client);
    }
  }

  /** While nobody polls, the buffer is the last 1000 events appended, by push or by the bridge, and what a
      client begins with is the last 20 of them when it read it. */
  lemma {:induction false} RunKeepsRecent(steps: seq<Step>)
    requires NoPolls(steps)
    ensures RecentInv(Run(steps))
  {
    if |steps| == 0 {
      assert Run(steps) == START;
    } else {
      var front := steps[..|steps| - 1];
      RunKeepsRecent(front);
      RunKeepsInv(front);
      NextKeepsRecent(Run(front), steps[|steps| - 1]);
    }
  }

  // ----- From the recent events to the live ones -----

  /** Pushes are numbered. A client's recent events hold those from FirstRecent to LastRecent, and its
      live events those from `since` on, as many as it has taken from its queue. */
  function FirstRecent(client: Client, appended: seq<Entry>): nat
    requires client.seenAt <= |appended|
  {
    |Pushed(appended[..if client.seenAt < RECENT then 0 else client.seenAt - RECENT])|
  }

  function LastRecent(client: Client, appended: seq<Entry>): nat
    requires client.seenAt <= |appended|
  {
    |Pushed(appended[..client.seenAt])|
  }

  function LastLive(client: Client): nat {
    client.since + |client.delivered|
  }

  /** The recent events are the twenty appended last, the live ones a stretch of the pushes that begins no
      later than the recent ones end: nothing is missed in between. */
  predicate SentWithoutGap(client: Client, appended: seq<Entry>)
    requires client.initial.Some?
  {
    && client.seenAt <= |appended|
    && client.since <= LastRecent(client, appended)
    && LastLive(client) <= |Pushed(appended)|
    && client.initial.value == Kept(client.filter, Events(LastN(appended[..client.seenAt], RECENT)))
    && client.live == Kept(client.filter, Pushed(appended)[client.since..LastLive(client)])
  }

  lemma ClientSeesEveryPush(steps: seq<Step>, c: nat)
    requires NoPolls(steps) && c < |Run(steps).clients| && Run(steps).clients[c].initial.Some?
    ensures SentWithoutGap(Run(steps).clients[c], Run(steps).appended)
  {
    var s := Run(steps);
    RunKeepsRecent(steps);
    RunKeepsInv(steps);
    assert RecentOk(s.clients[c], s.appended);
    DeliveredArePushes(s.clients[c], c in s.subscribers, s.broadcasts, s.pending);
  }

  lemma DeliveredArePushes(c: Client, subscribed: bool, broadcasts: seq<Event>, pending: seq<Event>)
    requires ClientOk(c, subscribed, broadcasts)
    ensures c.since + |c.delivered| <= |broadcasts|
    ensures c.delivered == (broadcasts + pending)[c.since..c.since + |c.delivered|]
  {
    var given := c.delivered + c.queue;
    assert forall i :: 0 <= i < |c.delivered| ==> c.delivered[i] == given[i] && given[i] == broadcasts[c.since..][i];
  }

  // ----- How often each push is sent -----

  /** A push is told from every other event in the buffer's history by its id. */
  predicate DistinctPushes(appended: seq<Entry>) {
    forall i, j :: 0 <= i < |appended| && 0 <= j < |appended| && i != j && appended[i].pushed ==>
                     appended[i].event != appended[j].event
  }

  predicate Unique(events: seq<Event>, j: nat)
    requires j < |events|
  {
    forall k :: 0 <= k < |events| && k != j ==> events[k] != events[j]
  }

  lemma {:induction false} SliceCount(events: seq<Event>, from: nat, to: nat, j: nat)
    requires from <= to <= |events| && j < |events| && Unique(events, j)
    ensures multiset(events[from..to])[events[j]] == if from <= j < to then 1 else 0
  {
    if from == to {
    } else {
      SliceCount(events, from, to - 1, j);
      OneMoreCount(events[from..to - 1], events[to - 1], events[j]);
      assert events[from..to] == events[from..to - 1] + [events[to - 1]];
    }
  }

  lemma OneMoreCount(s: seq<Event>, x: Event, e: Event)
    ensures multiset(s + [x])[e] == multiset(s)[e] + (if x == e then 1 else 0)
  {
  }

  lemma {:induction false} KeptCount(filter: Option<string>, events: seq<Event>, e: Event)
    ensures multiset(Kept(filter, events))[e] == if Passes(filter, e) then multiset(events)[e] else 0
  {
    if |events| == 0 {
    } else {
      var front, last := events[..|events| - 1], events[|events| - 1];
      KeptCount(filter, front, e);
      OneMoreCount(front, last, e);
      OneMoreCount(Kept(filter, front), last, e);
      assert events == front + [last];
    }
  }

  lemma {:induction false} PushedMonotone(appended: seq<Entry>, i: nat, j: nat)
    requires i <= j <= |appended|
    ensures Pushed(appended[..i]) <= Pushed(appended[..j])
  {
    if i == j {
    } else {
      PushedMonotone(appended, i, j - 1);
      assert appended[..j] == appended[..j - 1] + [appended[j - 1]];
      PushedGrows(appended[..j - 1], appended[j - 1]);
    }
  }

  /** Where the j-th push is among the events appended. */
  lemma {:induction false} PushPlace(appended: seq<Entry>, j: nat) returns (i: nat)
    requires j < |Pushed(appended)|
    ensures i < |appended| && appended[i].pushed && appended[i].event == Pushed(appended)[j]
    ensures |Pushed(appended[..i])| == j && |Pushed(appended[..i + 1])| == j + 1
  {
    i := |appended| - 1;
    var front := appended[..i];
    assert appended[..i + 1] == appended;
    if j < |Pushed(front)| {
      i := PushPlace(front, j);
      assert front[..i] == appended[..i] && front[..i + 1] == appended[..i + 1];
    }
  }

  lemma PushUnique(appended: seq<Entry>, j: nat)
    requires DistinctPushes(appended) && j < |Pushed(appended)|
    ensures Unique(Pushed(appended), j)
  {
    var x := PushPlace(appended, j);
    forall k | 0 <= k < |Pushed(appended)| && k != j
      ensures Pushed(appended)[k] != Pushed(appended)[j]
    {
      var y := PushPlace(appended, k);
      assert x != y;
    }
  }

  /** The last twenty of the first n appended hold the pushes numbered from one count to the other. */
  lemma RecentCount(appended: seq<Entry>, from: nat, to: nat, j: nat)
    requires DistinctPushes(appended) && from <= to <= |appended| && j < |Pushed(appended)|
    ensures multiset(Events(appended[from..to]))[Pushed(appended)[j]]
         == if |Pushed(appended[..from])| <= j < |Pushed(appended[..to])| then 1 else 0
  {
    var i := PushPlace(appended, j);
    var all := Events(appended);
    assert Events(appended[from..to]) == all[from..to];
    SliceCount(all, from, to, i);
    if i < from {
      PushedMonotone(appended, i + 1, from);
    } else {
      PushedMonotone(appended, from, i);
    }
    if i < to {
      PushedMonotone(appended, i + 1, to);
    } else {
      PushedMonotone(appended, to, i);
    }
  }

  function Times(client: Client, appended: seq<Entry>, j: nat): nat
    requires client.seenAt <= |appended| && j < |Pushed(appended)|
  {
    if !Passes(client.filter, Pushed(appended)[j]) then 0
    else
      (if FirstRecent(client, appended) <= j < LastRecent(client, appended) then 1 else 0)
      + (if client.since <= j < LastLive(client) then 1 else 0)
  }

  lemma RecentTimes(client: Client, appended: seq<Entry>, j: nat)
    requires client.initial.Some? && SentWithoutGap(client, appended)
    requires DistinctPushes(appended) && j < |Pushed(appended)|
    ensures multiset(client.initial.value)[Pushed(appended)[j]]
         == if Passes(client.filter, Pushed(appended)[j]) && FirstRecent(client, appended) <= j < LastRecent(client, appended)
            then 1 else 0
  {
    var to := client.seenAt;
    var from := if to < RECENT then 0 else to - RECENT;
    assert LastN(appended[..to], RECENT) == appended[from..to];
    KeptCount(client.filter, Events(appended[from..to]), Pushed(appended)[j]);
    RecentCount(appended, from, to, j);
  }

  lemma LiveTimes(client: Client, appended: seq<Entry>, j: nat)
    requires client.initial.Some? && SentWithoutGap(client, appended)
    requires DistinctPushes(appended) && j < |Pushed(appended)|
    ensures multiset(client.live)[Pushed(appended)[j]]
         == if Passes(client.filter, Pushed(appended)[j]) && client.since <= j < LastLive(client) then 1 else 0
  {
    var pushed := Pushed(appended);
    KeptCount(client.filter, pushed[client.since..LastLive(client)], pushed[j]);
    PushUnique(appended, j);
    SliceCount(pushed, client.since, LastLive(client), j);
  }

  lemma SentTimes(client: Client, appended: seq<Entry>, j: nat)
    requires client.initial.Some? && SentWithoutGap(client, appended)
    requires DistinctPushes(appended) && j < |Pushed(appended)|
    ensures multiset(client.initial.value + client.live)[Pushed(appended)[j]] == Times(client, appended, j)
  {
    RecentTimes(client, appended, j);
    LiveTimes(client, appended, j);
    assert multiset(client.initial.value + client.live) == multiset(client.initial.value) + multiset(client.live);
  }

  /** Over any run without polls: how often a client has been sent each push. It is never more than twice,
      and twice exactly for the pushes in both stretches that its filter lets through. */
  lemma EachPushSent(steps: seq<Step>, c: nat, j: nat)
    requires NoPolls(steps) && DistinctPushes(Run(steps).appended)
    requires c < |Run(steps).clients| && Run(steps).clients[c].initial.Some? && j < |Pushed(Run(steps).appended)|
    ensures var client, appended := Run(steps).clients[c], Run(steps).appended;
            && client.seenAt <= |appended|
            && multiset(client.initial.value + client.live)[Pushed(appended)[j]] == Times(client, appended, j)
            && (Times(client, appended, j) == 2 <==>
                  && Passes(client.filter, Pushed(appended)[j])
                  && Max(FirstRecent(client, appended), client.since) <= j < Min(LastRecent(client, appended), LastLive(client)))
  {
    ClientSeesEveryPush(steps, c);
    SentTimes(Run(steps).clients[c], Run(steps).appended, j);
  }

  function Max(a: int, b: int): int { if a >= b then a else b }

  function Min(a: int, b: int): int { if a <= b then a else b }

  // ----- What is ever sent twice -----

  lemma {:induction false} KeptNone(filter: Option<string>, events: seq<Event>)
    ensures Kept(filter, events) == [] <==> forall i :: 0 <= i < |events| ==> !Passes(filter, events[i])
  {
    if |events| == 0 {
    } else {
      KeptNone(filter, events[..|events| - 1]);
      assert forall i :: 0 <= i < |events| - 1 ==> events[..|events| - 1][i] == events[i];
    }
  }

  /** The pushes in both stretches. */
  function Overlap(client: Client, appended: seq<Entry>): seq<Event>
    requires client.initial.Some? && SentWithoutGap(client, appended)
  {
    var from := Max(FirstRecent(client, appended), client.since);
    var to := Min(LastRecent(client, appended), LastLive(client));
    PushedMonotone(appended, client.seenAt, |appended|);
    assert appended[..|appended|] == appended;
    if from < to then Pushed(appended)[from..to] else []
  }

  lemma TwiceInBoth(client: Client, appended: seq<Entry>, j: nat)
    requires client.initial.Some? && SentWithoutGap(client, appended) && j < |Pushed(appended)|
    ensures var from := Max(FirstRecent(client, appended), client.since);
            var to := Min(LastRecent(client, appended), LastLive(client));
            && (Times(client, appended, j) == 2 <==> Passes(client.filter, Pushed(appended)[j]) && from <= j < to)
            && (from <= j < to ==>
                  j - from < |Overlap(client, appended)| && Overlap(client, appended)[j - from] == Pushed(appended)[j])
            && Times(client, appended, j) <= 2
  {
  }

  /** A client has been sent nothing twice exactly when its filter lets none of these through. */
  lemma NothingTwiceIff(client: Client, appended: seq<Entry>)
    requires client.initial.Some? && SentWithoutGap(client, appended)
    ensures (forall j: nat :: j < |Pushed(appended)| ==> Times(client, appended, j) <= 1) <==>
              Kept(client.filter, Overlap(client, appended)) == []
  {
    var both := Overlap(client, appended);
    KeptNone(client.filter, both);
    if i: nat :| i < |both| && Passes(client.filter, both[i]) {
      TwiceInBoth(client, appended, Max(FirstRecent(client, appended), client.since) + i);
    }
    if j: nat :| j < |Pushed(appended)| && Times(client, appended, j) > 1 {
      TwiceInBoth(client, appended, j);
    }
  }

  /** Push j is one of the recent events of client c, in its live stretch, and passes its filter; and the
      client has it in hand or will be offered it, being subscribed. */
  predicate Doubled(s: State, c: nat, j: nat)
    requires c < |s.clients| && s.clients[c].seenAt <= |s.appended|
  {
    var client := s.clients[c];
    && FirstRecent(client, s.appended) <= j < LastRecent(client, s.appended) && client.since <= j
    && j < |Pushed(s.appended)| && Passes(client.filter, Pushed(s.appended)[j])
    && (c in s.subscribers || j < client.since + |client.delivered + client.queue|)
  }

  lemma {:induction false} ClientStays(s: State, steps: seq<Step>, c: nat)
    requires c < |s.clients| && s.clients[c].initial.Some?
    ensures var t := Exec(s, steps);
            && c < |t.clients| && s.appended <= t.appended
            && t.clients[c].filter == s.clients[c].filter && t.clients[c].since == s.clients[c].since
            && t.clients[c].initial == s.clients[c].initial && t.clients[c].seenAt == s.clients[c].seenAt
  {
    if |steps| == 0 {
    } else {
      ClientStays(s, steps[..|steps| - 1], c);
    }
  }

  lemma PushedPrefix(appended: seq<Entry>, longer: seq<Entry>)
    requires appended <= longer
    ensures Pushed(appended) <= Pushed(longer)
  {
    PushedMonotone(longer, |appended|, |longer|);
    assert longer[..|appended|] == appended && longer[..|longer|] == longer;
  }

  lemma RecentStretchStays(client: Client, after: Client, appended: seq<Entry>, longer: seq<Entry>)
    requires client.seenAt <= |appended| && appended <= longer && after.seenAt == client.seenAt
    ensures FirstRecent(after, longer) == FirstRecent(client, appended)
    ensures LastRecent(after, longer) == LastRecent(client, appended) <= |Pushed(appended)|
  {
    var from := if client.seenAt < RECENT then 0 else client.seenAt - RECENT;
    assert longer[..from] == appended[..from] && longer[..client.seenAt] == appended[..client.seenAt];
    PushedPrefix(appended[..client.seenAt], appended);
  }

  /** If push j is in both stretches after some more steps, it could be seen coming. */
  lemma TwiceWasDoubled(s: State, more: seq<Step>, c: nat, j: nat)
    requires c < |s.clients| && s.clients[c].initial.Some? && s.clients[c].seenAt <= |s.appended|
    requires var t := Exec(s, more); c < |t.clients| && t.clients[c].seenAt <= |t.appended|
    requires j < |Pushed(Exec(s, more).appended)| && Times(Exec(s, more).clients[c], Exec(s, more).appended, j) == 2
    ensures Doubled(s, c, j)
  {
    var t := Exec(s, more);
    ClientStays(s, more, c);
    RecentStretchStays(s.clients[c], t.clients[c], s.appended, t.appended);
    PushedPrefix(s.appended, t.appended);
    if c !in s.subscribers {
      DroppedGetsNoMore(s, more, c);
      assert |t.clients[c].delivered| <= |s.clients[c].delivered + s.clients[c].queue|;
    }
  }

  /** Broadcasts and deliveries alone. */
  predicate CatchesUp(steps: seq<Step>) {
    forall i :: 0 <= i < |steps| ==> steps[i].Broadcast? || steps[i].Deliver?
  }

  lemma {:induction false} ExecConcat(s: State, steps: seq<Step>, more: seq<Step>)
    ensures Exec(s, steps + more) == Exec(Exec(s, steps), more)
  {
    if |more| == 0 {
      assert steps + more == steps;
    } else {
      ExecConcat(s, steps, more[..|more| - 1]);
      assert (steps + more)[..|steps + more| - 1] == steps + more[..|more| - 1];
    }
  }

  /** A subscriber with an empty queue is given the next push by one broadcast. */
  lemma NextPushQueued(s: State, c: nat, j: nat)
    requires StreamInv(s) && c in s.subscribers && s.clients[c].queue == []
    requires LastLive(s.clients[c]) <= j < |Pushed(s.appended)|
    ensures var t := Next(s, Broadcast);
            && c < |t.clients| && t.clients[c] == s.clients[c].(queue := t.clients[c].queue) && |t.clients[c].queue| == 1
            && c in t.subscribers && t.appended == s.appended
  {
  }

  lemma DeliveredNext(s: State, c: nat)
    requires c < |s.clients| && s.clients[c].initial.Some? && s.clients[c].queue != []
    ensures var t := Next(s, Deliver(c));
            && c < |t.clients| && t.clients[c].initial.Some? && t.clients[c].since == s.clients[c].since
            && LastLive(t.clients[c]) == LastLive(s.clients[c]) + 1
            && |t.clients[c].delivered + t.clients[c].queue| == |s.clients[c].delivered + s.clients[c].queue|
            && t.subscribers == s.subscribers && t.appended == s.appended
  {
  }

  lemma {:induction false} CatchUp(s: State, c: nat, j: nat) returns (more: seq<Step>)
    requires StreamInv(s) && c < |s.clients| && s.clients[c].initial.Some? && j < |Pushed(s.appended)|
    requires c in s.subscribers || j < s.clients[c].since + |s.clients[c].delivered + s.clients[c].queue|
    ensures CatchesUp(more)
    ensures var t := Exec(s, more); c < |t.clients| && t.appended == s.appended && j < LastLive(t.clients[c])
    decreases j + 1 - LastLive(s.clients[c])
  {
    more := [];
    if LastLive(s.clients[c]) <= j {
      var t := s;
      if s.clients[c].queue == [] {
        NextPushQueued(s, c, j);
        NextKeepsInv(s, Broadcast);
        t, more := Next(s, Broadcast), [Broadcast];
        ExecExtend(s, [], Broadcast);
        assert [] + [Broadcast] == more;
      }
      DeliveredNext(t, c);
      NextKeepsInv(t, Deliver(c));
      ExecExtend(s, more, Deliver(c));
      var others := CatchUp(Next(t, Deliver(c)), c, j);
      ExecConcat(s, more + [Deliver(c)], others);
      more := more + [Deliver(c)] + others;
    }
  }

  /** Client c has been sent push j twice. */
  predicate SentTwice(s: State, c: nat, j: nat) {
    && c < |s.clients| && s.clients[c].initial.Some? && j < |Pushed(s.appended)|
    && multiset(s.clients[c].initial.value + s.clients[c].live)[Pushed(s.appended)[j]] == 2
  }

  /** Further steps, without polls, in which pushes stay distinct and push j has been sent to c twice. */
  predicate LeadsToTwice(steps: seq<Step>, more: seq<Step>, c: nat, j: nat) {
    NoPolls(more) && DistinctPushes(Run(steps + more).appended) && SentTwice(Run(steps + more), c, j)
  }

  lemma LedToTwice(steps: seq<Step>, more: seq<Step>, c: nat, j: nat)
    requires NoPolls(steps) && c < |Run(steps).clients| && Run(steps).clients[c].initial.Some?
    requires LeadsToTwice(steps, more, c, j)
    ensures Run(steps).clients[c].seenAt <= |Run(steps).appended| && Doubled(Run(steps), c, j)
  {
    ClientSeesEveryPush(steps, c);
    EachPushSent(steps + more, c, j);
    ExecConcat(START, steps, more);
    TwiceWasDoubled(Run(steps), more, c, j);
  }

  lemma DoubledLeads(steps: seq<Step>, c: nat, j: nat) returns (more: seq<Step>)
    requires NoPolls(steps) && DistinctPushes(Run(steps).appended)
    requires c < |Run(steps).clients| && Run(steps).clients[c].initial.Some?
    requires Run(steps).clients[c].seenAt <= |Run(steps).appended| && Doubled(Run(steps), c, j)
    ensures LeadsToTwice(steps, more, c, j)
  {
    var s := Run(steps);
    RunKeepsInv(steps);
    more := CatchUp(s, c, j);
    var t := Exec(s, more);
    ExecConcat(START, steps, more);
    ClientStays(s, more, c);
    RecentStretchStays(s.clients[c], t.clients[c], s.appended, t.appended);
    EachPushSent(steps + more, c, j);
  }

  /** Over any run without polls, for any client that has read the buffer and any push, sent or still to
      come: it is sent to the client twice in some continuation if and only if it is among the pushes of
      its recent events, not older than its subscription, passes its filter, and is in the client's hands
      or the client is still subscribed. */
  lemma SentTwiceIff(steps: seq<Step>, c: nat, j: nat)
    requires NoPolls(steps) && DistinctPushes(Run(steps).appended)
    requires c < |Run(steps).clients| && Run(steps).clients[c].initial.Some?
    ensures Run(steps).clients[c].seenAt <= |Run(steps).appended|
    ensures (exists more :: LeadsToTwice(steps, more, c, j)) <==> Doubled(Run(steps), c, j)
  {
    ClientSeesEveryPush(steps, c);
    if more :| LeadsToTwice(steps, more, c, j) {
      LedToTwice(steps, more, c, j);
    }
    if Doubled(Run(steps), c, j) {
      var more := DoubledLeads(steps, c, j);
    }
  }

  // ----- Where the two stretches meet -----

  function Pushes(steps: seq<Step>): nat {
    if |steps| == 0 then 0 else Pushes(steps[..|steps| - 1]) + (if steps[|steps| - 1].Push? then 1 else 0)
  }

  lemma {:induction false} ExecPushes(s: State, steps: seq<Step>)
    ensures |Pushed(Exec(s, steps).appended)| == |Pushed(s.appended)| + Pushes(steps)
  {
    if |steps| == 0 {
    } else {
      var front, last := steps[..|steps| - 1], steps[|steps| - 1];
      ExecPushes(s, front);
      if last.Push? || last.Bridge? {
        PushedGrows(Exec(s, front).appended, Entry(last.event, last.Push?));
      }
    }
  }

  predicate NotYetRead(steps: seq<Step>, c: nat) {
    forall i :: 0 <= i < |steps| ==> steps[i] != ReadRecent(c)
  }

  lemma {:induction false} ClientWaits(s: State, steps: seq<Step>, c: nat)
    requires c < |s.clients| && s.clients[c].initial == None && NotYetRead(steps, c)
    ensures var t := Exec(s, steps);
            c < |t.clients| && t.clients[c].initial == None && t.clients[c].since == s.clients[c].since
  {
    if |steps| == 0 {
    } else {
      ClientWaits(s, steps[..|steps| - 1], c);
      assert steps[|steps| - 1] != ReadRecent(c);
    }
  }

  /** The state in which a client that connects after `before` has just read the buffer. */
  function Connected(before: seq<Step>, filter: Option<string>, between: seq<Step>): State {
    Next(Exec(Next(Run(before), Connect(filter)), between), ReadRecent(|Run(before).clients|))
  }

  /** How far before the end of the recent events the live ones begin: by the pushes waiting to be
      broadcast when the client subscribed and those made before it read the buffer. */
  lemma LiveBeginsBehind(before: seq<Step>, filter: Option<string>, between: seq<Step>)
    requires NotYetRead(between, |Run(before).clients|)
    ensures var t := Connected(before, filter, between);
            var c := |Run(before).clients|;
            && c < |t.clients| && t.clients[c].seenAt == |t.appended|
            && LastRecent(t.clients[c], t.appended) - t.clients[c].since == |Run(before).pending| + Pushes(between)
            && (LastRecent(t.clients[c], t.appended) == t.clients[c].since <==>
                  Run(before).pending == [] && Pushes(between) == 0)
  {
    var s0 := Run(before);
    var c, s1 := |s0.clients|, Next(s0, Connect(filter));
    RunKeepsInv(before);
    ExecPushes(s1, between);
    ClientWaits(s1, between, c);
    var t := Connected(before, filter, between);
    assert t.appended[..|t.appended|] == t.appended;
  }

  /** The stretches can overlap: an event whose broadcast is still scheduled when a client subscribes is
      among its recent events and among its live ones. */
  lemma EventSentTwice(event: Event) returns (steps: seq<Step>)
    ensures NoPolls(steps) && |Run(steps).clients| == 1 && Pushed(Run(steps).appended) == [event]
    ensures Run(steps).clients[0].initial == Some([event]) && Run(steps).clients[0].live == [event]
  {
    var s2 := [Push(event)] + [Connect(None)];
    var s3 := s2 + [ReadRecent(0)];
    var s4 := s3 + [Broadcast];
    steps := s4 + [Deliver(0)];
    PushThenConnect(event);
    ExecExtend(START, s2, ReadRecent(0));
    ExecExtend(START, s3, Broadcast);
    ExecExtend(START, s4, Deliver(0));
    ReadThenDeliver(event);
    PushedGrows([], Entry(event, true));
    assert [] + [Entry(event, true)] == [Entry(event, true)];
  }

  lemma ReadThenDeliver(event: Event)
    ensures var s2 := State([event], [event], [Client(None, 0, [], [], None, 0, [])], {0}, [Entry(event, true)], []);
            Next(Next(Next(s2, ReadRecent(0)), Broadcast), Deliver(0))
            == State([event], [], [Client(None, 0, [], [event], Some([event]), 1, [event])], {0}, [Entry(event, true)], [event])
  {
    var log := [Entry(event, true)];
    var s2 := State([event], [event], [Client(None, 0, [], [], None, 0, [])], {0}, log, []);
    assert [event][..0] == [] && Kept(None, [event]) == [event];
    var s3 := s2.(clients := [Client(None, 0, [], [], Some([event]), 1, [])]);
    assert Next(s2, ReadRecent(0)) == s3;
    var s4 := State([event], [], [Client(None, 0, [event], [], Some([event]), 1, [])], {0}, log, [event]);
    assert Next(s3, Broadcast) == s4;
  }

  lemma ExecExtend(s: State, steps: seq<Step>, step: Step)
    ensures Exec(s, steps + [step]) == Next(Exec(s, steps), step)
  {
    assert (steps + [step])[..|steps|] == steps;
  }

  lemma PushThenConnect(event: Event)
    ensures Run([Push(event)] + [Connect(None)])
         == State([event], [event], [Client(None, 0, [], [], None, 0, [])], {0}, [Entry(event, true)], [])
  {
    assert [] + [Push(event)] == [Push(event)];
    ExecExtend(START, [], Push(event));
    ExecExtend(START, [Push(event)], Connect(None));
  }

  // ----- Polling -----

  lemma {:induction false} ReversedCount<T>(s: seq<T>)
    ensures multiset(Reversed(s)) == multiset(s)
  {
    if |s| == 0 {
    } else {
      var front, last := s[..|s| - 1], s[|s| - 1];
      ReversedCount(front);
      assert s == front + [last] && Reversed(s) == [last] + Reversed(front);
    }
  }

  /** What a poll drops: the newest events, at the right of the buffer, and when more than a buffer full
      was collected, all of the buffer and the events that were collected first. */
  function Dropped(buffer: seq<Event>, events: seq<Event>): seq<Event> {
    if |events| + |buffer| <= BUFFER_MAX then []
    else if |events| <= BUFFER_MAX then buffer[BUFFER_MAX - |events|..]
    else Reversed(events[..|events| - BUFFER_MAX]) + buffer
  }

  lemma PollSplits(s: State, events: seq<Event>)
    requires |s.buffer| <= BUFFER_MAX
    ensures Next(s, Poll(events)).buffer + Dropped(s.buffer, events) == Reversed(events) + s.buffer
  {
    var all := Reversed(events) + s.buffer;
    if |all| > BUFFER_MAX {
      assert all == all[..BUFFER_MAX] + all[BUFFER_MAX..];
      if |events| > BUFFER_MAX {
        assert all[BUFFER_MAX..] == Reversed(events)[BUFFER_MAX..] + s.buffer;
        assert Reversed(events)[BUFFER_MAX..] == Reversed(events[..|events| - BUFFER_MAX]);
      }
    }
  }

  /** A poll keeps every event, in the buffer and collected, if and only if they fit; otherwise the ones
      lost are exactly those dropped on the right, where the newest are. */
  lemma PollEvictsNewest(s: State, events: seq<Event>)
    requires |s.buffer| <= BUFFER_MAX
    ensures var after := Next(s, Poll(events)).buffer;
            && multiset(after) + multiset(Dropped(s.buffer, events)) == multiset(events) + multiset(s.buffer)
            && (multiset(after) == multiset(events) + multiset(s.buffer) <==> |events| + |s.buffer| <= BUFFER_MAX)
  {
    var after, dropped := Next(s, Poll(events)).buffer, Dropped(s.buffer, events);
    PollSplits(s, events);
    ReversedCount(events);
    assert multiset(after + dropped) == multiset(after) + multiset(dropped);
    assert multiset(Reversed(events) + s.buffer) == multiset(events) + multiset(s.buffer);
    assert |multiset(after)| == |after| && |multiset(events) + multiset(s.buffer)| == |events| + |s.buffer|;
  }

  function Pushing(events: seq<Event>): seq<Step> {
    seq(|events|, i requires 0 <= i < |events| => Push(events[i]))
  }

  lemma {:induction false} PushesFill(events: seq<Event>)
    requires |events| <= BUFFER_MAX
    ensures Run(Pushing(events)).buffer == events
  {
    if |events| == 0 {
    } else {
      PushesFill(events[..|events| - 1]);
      assert Pushing(events)[..|events| - 1] == Pushing(events[..|events| - 1]);
    }
  }

  /** A thousand pushes fill the buffer, and a poll that finds one event loses the last of them. */
  lemma PollLosesLastPush(events: seq<Event>, found: Event)
    requires |events| == BUFFER_MAX
    ensures Run(Pushing(events) + [Poll([found])]).buffer == [found] + events[..BUFFER_MAX - 1]
  {
    PushesFill(events);
    ExecExtend(START, Pushing(events), Poll([found]));
    assert Reversed([found]) == [found];
  }
}
