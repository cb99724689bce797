/** The upgrade runner and its log fan-out (api/internal/upgrade/runner.go): every interleaving of
    starts, subscriptions, broadcasts and the end of an upgrade, one locked section at a time. */
module Upgrade {
  import opened Text

  const BUFFER := 32

  datatype Phase = Idle | Running | Succeeded | Failed

  /** A buffered channel of log lines: what its reader took, what waits in the buffer, and the place
      in the log of which upgrade at which the subscription began. */
  datatype Channel = Channel(upgrade: nat, from: nat, received: seq<string>, buffer: seq<string>, closed: bool)

  /** The runner's fields; a subscriber's id names its channel. */
  datatype Fields = Fields(phase: Phase, channels: map<nat, Channel>, subscribers: set<nat>, nextId: nat)

  /** What one call of Start is doing; a scanned line is written to the log and then broadcast. */
  datatype Task = Launching | Collecting(pending: Option<string>) | Ended

  /** panicked: a channel was closed twice or sent to after closing. */
  datatype State = State(f: Fields, tasks: map<nat, Task>, logs: map<nat, seq<string>>, owner: nat, panicked: bool)

  datatype Event =
    | StartCall(task: nat)
    | LaunchFails(task: nat)
    | LaunchSucceeds(task: nat)
    | Scan(task: nat, line: string)
    | Broadcast(task: nat)
    | Finish(task: nat, success: bool)
    | Subscribe
    | Unsubscribe(id: nat)
    | Receive(id: nat)

  const INITIAL := State(Fields(Idle, map[], {}, 0), map[], map[], 0, false)

  function Lines(c: Channel): seq<string> { c.received + c.buffer }

  predicate Open(f: Fields, id: nat) { id in f.channels && !f.channels[id].closed }

  /** Every subscriber's channel is open, so it may be sent to and closed. */
  ghost predicate AllOpen(f: Fields) { forall id :: id in f.subscribers ==> Open(f, id) }

  /** select { case ch <- line: default: close(ch) } */
  function Offered(c: Channel, line: string): Channel {
    if |c.buffer| < BUFFER then c.(buffer := c.buffer + [line]) else c.(closed := true)
  }

  predicate HasRoom(f: Fields, id: nat) { id in f.channels && |f.channels[id].buffer| < BUFFER }

  /** broadcast: a subscriber that is not keeping up is dropped and its channel closed. */
  function Broadcasted(f: Fields, line: string): Fields {
    f.(channels := map id | id in f.channels ::
         if id in f.subscribers then Offered(f.channels[id], line) else f.channels[id],
       subscribers := set id | id in f.subscribers && HasRoom(f, id))
  }

  /** finish: every subscriber's channel is closed. */
  function Finished(f: Fields, phase: Phase): Fields {
    f.(phase := phase, subscribers := {},
       channels := map id | id in f.channels ::
         if id in f.subscribers then f.channels[id].(closed := true) else f.channels[id])
  }

  function Subscribed(f: Fields, c: Channel): Fields {
    f.(channels := f.channels[f.nextId := c], subscribers := f.subscribers + {f.nextId}, nextId := f.nextId + 1)
  }

  function Unsubscribed(f: Fields, id: nat): Fields {
    if id !in f.subscribers || id !in f.channels then f
    else f.(subscribers := f.subscribers - {id}, channels := f.channels[id := f.channels[id].(closed := true)])
  }

  function LogOf(s: State, task: nat): seq<string> { if task in s.logs then s.logs[task] else [] }

  /** Lines of the running upgrade that were broadcast so far. */
  function Sent(s: State): nat {
    var n := |LogOf(s, s.owner)|;
    if s.owner in s.tasks && s.tasks[s.owner].Collecting? && s.tasks[s.owner].pending.Some? && n > 0 then n - 1 else n
  }

  predicate Doing(s: State, task: nat, t: Task) { task in s.tasks && s.tasks[task] == t }

  predicate Scanned(s: State, task: nat) {
    task in s.tasks && s.tasks[task].Collecting? && s.tasks[task].pending.Some?
  }

  ghost function Ending(s: State, task: nat, phase: Phase): State {
    s.(f := Finished(s.f, phase), tasks := s.tasks[task := Ended], panicked := s.panicked || !AllOpen(s.f))
  }

  /** One locked section. An event that is not the next one of its upgrade changes nothing. */
  ghost function Next(s: State, e: Event): State {
    match e
    case StartCall(task) =>
      if task in s.tasks then s
      else if s.f.phase.Running? then s.(tasks := s.tasks[task := Ended])
      else s.(f := s.f.(phase := Running), tasks := s.tasks[task := Launching], logs := s.logs[task := []],
              owner := task)
    case LaunchFails(task) => if Doing(s, task, Launching) then Ending(s, task, Failed) else s
    case LaunchSucceeds(task) => if Doing(s, task, Launching) then s.(tasks := s.tasks[task := Collecting(None)]) else s
    case Scan(task, line) =>
      if !Doing(s, task, Collecting(None)) then s
      else s.(tasks := s.tasks[task := Collecting(Some(line))], logs := s.logs[task := LogOf(s, task) + [line]])
    case Broadcast(task) =>
      if !Scanned(s, task) then s
      else s.(f := Broadcasted(s.f, s.tasks[task].pending.value), tasks := s.tasks[task := Collecting(None)],
              panicked := s.panicked || !AllOpen(s.f))
    case Finish(task, success) =>
      if Doing(s, task, Collecting(None)) then Ending(s, task, if success then Succeeded else Failed) else s
    case Subscribe =>
      if s.f.phase.Running? then s.(f := Subscribed(s.f, Channel(s.owner, Sent(s), [], [], false))) else s
    case Unsubscribe(id) =>
      s.(f := Unsubscribed(s.f, id), panicked := s.panicked || (id in s.f.subscribers && !Open(s.f, id)))
    case Receive(id) =>
      if id !in s.f.channels || s.f.channels[id].buffer == [] then s
      else
        var c := s.f.channels[id];
        s.(f := s.f.(channels := s.f.channels[id := c.(received := c.received + [c.buffer[0]],
                                                       buffer := c.buffer[1..])]))
  }

  ghost function Run(events: seq<Event>): State {
    if events == [] then INITIAL else Next(Run(events[..|events| - 1]), events[|events| - 1])
  }

  // ---------------------------------------------------------------- what every interleaving keeps

  predicate Alive(s: State, task: nat) { task in s.tasks && !s.tasks[task].Ended? }

  /** The channel holds a contiguous piece of its upgrade's log, from the subscription on; a live
      subscriber has everything that was broadcast since. */
  predicate Segment(s: State, c: Channel) {
    c.from + |Lines(c)| <= |LogOf(s, c.upgrade)| && Lines(c) == LogOf(s, c.upgrade)[c.from..c.from + |Lines(c)|]
  }

  predicate UpToDate(s: State, c: Channel) { c.upgrade == s.owner && c.from + |Lines(c)| == Sent(s) }

  /** At most one upgrade is under way, and exactly when the phase is Running. */
  ghost predicate OneOwner(s: State) {
    && (forall task :: Alive(s, task) ==> task == s.owner)
    && (s.f.phase.Running? <==> Alive(s, s.owner)) && (s.f.phase.Running? ==> s.owner in s.logs)
    && (Scanned(s, s.owner) ==> LogOf(s, s.owner) != [] && LogOf(s, s.owner)[Sent(s)] == s.tasks[s.owner].pending.value)
    && (forall task :: task in s.logs ==> task in s.tasks)
  }

  ghost predicate Streams(s: State) {
    && (forall id :: id in s.f.channels ==>
        id < s.f.nextId && Segment(s, s.f.channels[id]) && s.f.channels[id].upgrade in s.logs)
    && (forall id :: id in s.f.subscribers ==> Open(s.f, id) && UpToDate(s, s.f.channels[id]))
    && (forall id :: id in s.f.channels && id !in s.f.subscribers ==> s.f.channels[id].closed)
  }

  ghost predicate Inv(s: State) {
    !s.panicked && OneOwner(s) && Streams(s) && (s.f.subscribers != {} ==> s.f.phase.Running?)
  }

  lemma OwnerKept(s: State, e: Event)
    requires OneOwner(s)
    ensures OneOwner(Next(s, e))
  {
    hide AllOpen, Open;
    var t := Next(s, e);
    if !e.Subscribe? && !e.Unsubscribe? && !e.Receive? { assert Alive(s, e.task) ==> e.task == s.owner; }
    forall task | Alive(t, task) ensures task == t.owner { assert Alive(s, task) || e == StartCall(task); }
  }

  lemma TaskSteps(s: State, e: Event)
    requires Inv(s) && (e.StartCall? || e.LaunchSucceeds? || e.Scan?)
    ensures Inv(Next(s, e))
  {
    OwnerKept(s, e);
    var t := Next(s, e);
    assert t.f.channels == s.f.channels && t.f.subscribers == s.f.subscribers;
    if t.f.subscribers != {} { assert Alive(s, e.task) ==> e.task == s.owner; }
    assert t.f.subscribers != {} ==> t.owner == s.owner && Sent(t) == Sent(s);
    LogsGrow(s, t);
  }

  /** When logs only grow and the subscribers have missed nothing, the streams stay as they are. */
  lemma LogsGrow(s: State, t: State)
    requires Streams(s) && t.f.channels == s.f.channels && t.f.subscribers == s.f.subscribers &&
             t.f.nextId == s.f.nextId
    requires forall task :: task in s.logs ==> task in t.logs && s.logs[task] <= t.logs[task]
    requires t.f.subscribers != {} ==> t.owner == s.owner && Sent(t) == Sent(s)
    ensures Streams(t)
  {
    hide Sent;
    forall id | id in t.f.channels ensures Segment(t, t.f.channels[id]) {
      assert Segment(s, s.f.channels[id]);
      LongerLog(LogOf(s, s.f.channels[id].upgrade), LogOf(t, s.f.channels[id].upgrade), s.f.channels[id]);
    }
    forall id | id in t.f.subscribers ensures UpToDate(t, t.f.channels[id]) { assert UpToDate(s, s.f.channels[id]); }
  }

  lemma LongerLog(a: seq<string>, b: seq<string>, c: Channel)
    ensures a <= b && c.from + |Lines(c)| <= |a| ==> a[c.from..c.from + |Lines(c)|] == b[c.from..c.from + |Lines(c)|]
  {
  }

  lemma EndSteps(s: State, e: Event)
    requires Inv(s) && (e.LaunchFails? || e.Finish?)
    ensures Inv(Next(s, e))
  {
    OwnerKept(s, e);
    hide OneOwner, Sent;
    var t := Next(s, e);
    if t != s {
      EndStreams(s, e.task, t.f.phase);
      assert AllOpen(s.f);
    }
  }

  /** The same stream, whether read further or closed. */
  predicate Alike(c: Channel, d: Channel) { d.upgrade == c.upgrade && d.from == c.from && Lines(d) == Lines(c) }

  lemma AlikeStreams(s: State, t: State)
    requires Streams(s) && t.logs == s.logs && t.f.channels.Keys == s.f.channels.Keys && t.f.nextId == s.f.nextId
    requires forall id :: id in s.f.channels ==> Alike(s.f.channels[id], t.f.channels[id])
    requires t.f.subscribers <= s.f.subscribers && (t.f.subscribers != {} ==> t.owner == s.owner && Sent(t) == Sent(s))
    requires forall id :: id in t.f.channels ==> (t.f.channels[id].closed <==> id !in t.f.subscribers)
    ensures Streams(t)
  {
    hide Sent, Lines;
    forall id | id in t.f.channels ensures Segment(t, t.f.channels[id]) {
      assert Segment(s, s.f.channels[id]) && Alike(s.f.channels[id], t.f.channels[id]);
    }
    forall id | id in t.f.subscribers ensures Open(t.f, id) && UpToDate(t, t.f.channels[id]) {
      assert UpToDate(s, s.f.channels[id]);
    }
  }

  /** Closing channels changes no line, and nobody stays subscribed. */
  lemma EndStreams(s: State, task: nat, phase: Phase)
    requires Streams(s)
    ensures Streams(Ending(s, task, phase))
  {
    hide UpToDate, Segment;
    AlikeStreams(s, Ending(s, task, phase));
  }

  lemma OfferedSegment(s: State, c: Channel, line: string)
    requires Segment(s, c) && UpToDate(s, c) && Sent(s) < |LogOf(s, s.owner)| && LogOf(s, s.owner)[Sent(s)] == line
    ensures Segment(s, Offered(c, line))
    ensures |c.buffer| < BUFFER ==> c.from + |Lines(Offered(c, line))| == Sent(s) + 1
  {
    var d, log := Offered(c, line), LogOf(s, s.owner);
    if |c.buffer| < BUFFER {
      assert Lines(d) == Lines(c) + [line];
      assert log[c.from..c.from + |Lines(d)|] == log[c.from..c.from + |Lines(c)|] + [line];
    } else {
      assert Lines(d) == Lines(c);
    }
  }

  lemma BroadcastStep(s: State, task: nat)
    requires Inv(s)
    ensures Inv(Next(s, Broadcast(task)))
  {
    var t := Next(s, Broadcast(task));
    OwnerKept(s, Broadcast(task));
    if Scanned(s, task) {
      assert Alive(s, task);
      forall id | id in t.f.channels
        ensures Segment(t, t.f.channels[id]) && (id in t.f.subscribers ==> UpToDate(t, t.f.channels[id]))
      {
        assert Segment(s, s.f.channels[id]);
        if id in s.f.subscribers { OfferedSegment(s, s.f.channels[id], s.tasks[task].pending.value); }
      }
    }
  }

  lemma SubscribeStep(s: State)
    requires Inv(s)
    ensures Inv(Next(s, Subscribe))
  {
    var t := Next(s, Subscribe);
    OwnerKept(s, Subscribe);
    forall id | id in t.f.channels
      ensures Segment(t, t.f.channels[id]) && (id in t.f.subscribers ==> UpToDate(t, t.f.channels[id]))
    {
      if id in s.f.channels { assert Segment(s, s.f.channels[id]); }
    }
  }

  lemma UnsubscribeStep(s: State, k: nat)
    requires Inv(s)
    ensures Inv(Next(s, Unsubscribe(k)))
  {
    OwnerKept(s, Unsubscribe(k));
    hide UpToDate, Segment, OneOwner;
    AlikeStreams(s, Next(s, Unsubscribe(k)));
  }

  lemma TakenLines(c: Channel)
    requires c.buffer != []
    ensures Lines(c.(received := c.received + [c.buffer[0]], buffer := c.buffer[1..])) == Lines(c)
  {
  }

  lemma ReceiveStep(s: State, k: nat)
    requires Inv(s)
    ensures Inv(Next(s, Receive(k)))
  {
    OwnerKept(s, Receive(k));
    hide UpToDate, Segment, OneOwner;
    var t := Next(s, Receive(k));
    if t != s {
      TakenLines(s.f.channels[k]);
      AlikeStreams(s, t);
    }
  }

  lemma NextKeepsInv(s: State, e: Event)
    requires Inv(s)
    ensures Inv(Next(s, e))
  {
    match e
    case StartCall(_) => TaskSteps(s, e);
    case LaunchSucceeds(_) => TaskSteps(s, e);
    case Scan(_, _) => TaskSteps(s, e);
    case LaunchFails(_) => EndSteps(s, e);
    case Finish(_, _) => EndSteps(s, e);
    case Broadcast(task) => BroadcastStep(s, task);
    case Subscribe => SubscribeStep(s);
    case Unsubscribe(id) => UnsubscribeStep(s, id);
    case Receive(id) => ReceiveStep(s, id);
  }

  lemma {:induction false} RunKeepsInv(events: seq<Event>)
    ensures Inv(Run(events))
  {
    hide Next, Inv;
    if events == [] {
      InitialInv();
    } else {
      RunKeepsInv(events[..|events| - 1]);
      NextKeepsInv(Run(events[..|events| - 1]), events[|events| - 1]);
    }
  }

  lemma InitialInv()
    ensures Inv(INITIAL)
  {
  }

  /** In every interleaving: no channel is closed twice or sent to after closing, nobody is subscribed
      unless an upgrade runs, at most one upgrade runs, and what a subscriber read is a gap-free piece
      of its upgrade's log that starts where it subscribed. */
  lemma StreamsAreSegments(events: seq<Event>, id: nat, a: nat, b: nat)
    ensures var s := Run(events);
            !s.panicked && (s.f.subscribers != {} ==> s.f.phase.Running?) &&
            (Alive(s, a) && Alive(s, b) ==> a == b) && (Alive(s, a) ==> s.f.phase.Running?) &&
            (id in s.f.channels ==> ReadsFrom(s.f.channels[id], LogOf(s, s.f.channels[id].upgrade)))
  {
    RunKeepsInv(events);
    hide Run;
    var s := Run(events);
    if id in s.f.channels {
      var c := s.f.channels[id];
      assert Segment(s, c);
      assert c.received == Lines(c)[..|c.received|];
    }
  }

  predicate ReadsFrom(c: Channel, log: seq<string>) {
    c.from + |c.received| <= |log| && c.received == log[c.from..c.from + |c.received|]
  }

  /** The event ends the upgrade that the subscribers follow. */
  predicate Ends(s: State, e: Event) {
    (e.LaunchFails? && Doing(s, e.task, Launching)) || (e.Finish? && Doing(s, e.task, Collecting(None)))
  }

  predicate Sends(s: State, e: Event) { e.Broadcast? && Scanned(s, e.task) }

  /** A subscriber stays unless it unsubscribes, the upgrade ends, or a line is sent while 32 lines
      wait for it; it then keeps what it had. While it stays it gets every line that is sent. */
  lemma StaysExactly(events: seq<Event>, e: Event, id: nat)
    requires id in Run(events).f.subscribers
    ensures var s, t := Run(events), Next(Run(events), e);
            && id in s.f.channels && id in t.f.channels
            && (id in t.f.subscribers <==>
                  e != Unsubscribe(id) && !Ends(s, e) && (Sends(s, e) ==> |s.f.channels[id].buffer| < 32))
            && (id in t.f.subscribers <==> !t.f.channels[id].closed)
            && Lines(t.f.channels[id]) == Lines(s.f.channels[id]) +
                 (if Sends(s, e) && id in t.f.subscribers then [s.tasks[e.task].pending.value] else [])
  {
    RunKeepsInv(events);
    hide Run, OneOwner, Segment, UpToDate, Sent;
    var s := Run(events);
    assert Open(s.f, id);
    if e.Receive? && e.id == id && s.f.channels[id].buffer != [] { TakenLines(s.f.channels[id]); }
  }

  /** A start is taken exactly when no upgrade runs; a subscription joins exactly when one does, after
      the lines sent so far; and a reader takes the line that has waited longest. */
  lemma StartsAndJoins(events: seq<Event>, task: nat, id: nat)
    ensures var s := Run(events);
            && (task !in s.tasks ==>
                  (Next(s, StartCall(task)).tasks[task] == Launching <==> forall other :: !Alive(s, other)))
            && var t := Next(s, Subscribe);
               if exists other :: Alive(s, other) then
                 t.f.subscribers - s.f.subscribers == {s.f.nextId} && s.f.nextId in t.f.channels &&
                 Lines(t.f.channels[s.f.nextId]) == [] && t.f.channels[s.f.nextId].from == Sent(s)
               else t == s
    ensures var s := Run(events); var t := Next(s, Receive(id));
            id in s.f.channels && s.f.channels[id].buffer != [] ==>
              id in t.f.channels &&
              t.f.channels[id].received == s.f.channels[id].received + s.f.channels[id].buffer[..1]
  {
    RunKeepsInv(events);
    hide Run, Segment, UpToDate, Sent;
    var s := Run(events);
    assert s.f.nextId !in s.f.channels && s.f.nextId !in s.f.subscribers;
  }

  /** A subscriber that stays until the end can read every line of the log since it subscribed. */
  lemma FinishDelivers(events: seq<Event>, task: nat, success: bool, id: nat)
    requires Doing(Run(events), task, Collecting(None)) && id in Run(events).f.subscribers
    ensures var t := Next(Run(events), Finish(task, success));
            id in t.f.channels && t.f.channels[id].closed && t.f.channels[id].upgrade == task &&
            t.f.channels[id].from <= |LogOf(t, task)| &&
            Lines(t.f.channels[id]) == LogOf(t, task)[t.f.channels[id].from..]
  {
    RunKeepsInv(events);
    hide Run;
    var s := Run(events);
    assert Alive(s, task) && Open(s.f, id) && UpToDate(s, s.f.channels[id]) && Segment(s, s.f.channels[id]);
  }

  // ---------------------------------------------------------------- the runner

  class Runner {
    var phase: Phase
    var channels: map<nat, Channel>
    var subscribers: set<nat>
    var nextId: nat

    constructor ()
      ensures View() == INITIAL.f
    {
      phase, channels, subscribers, nextId := Idle, map[], {}, 0;
    }

    ghost function View(): Fields
      reads this
    {
      Fields(phase, channels, subscribers, nextId)
    }

    /** Sending on a closed channel would panic. */
    method TrySend(id: nat, line: string) returns (sent: bool)
      requires Open(View(), id)
      modifies this`channels
      ensures sent == (|old(channels[id].buffer)| < BUFFER)
      ensures channels == if sent then old(channels)[id := Offered(old(channels[id]), line)] else old(channels)
    {
      sent := |channels[id].buffer| < BUFFER;
      if sent { channels := channels[id := channels[id].(buffer := channels[id].buffer + [line])]; }
    }

    /** Closing a closed channel would panic. */
    method Close(id: nat)
      requires Open(View(), id)
      modifies this`channels
      ensures channels == old(channels)[id := old(channels[id]).(closed := true)]
    {
      channels := channels[id := channels[id].(closed := true)];
    }

    /** The first locked section of Start. */
    method Begin() returns (ok: bool)
      modifies this
      ensures ok == !old(phase).Running?
      ensures View() == if ok then old(View()).(phase := Running) else old(View())
    {
      if phase.Running? { return false; }
      phase := Running;
      return true;
    }

    /** Where in the log the new channel begins is ghost knowledge of the caller. */
    method AddSubscriber(upgrade: nat, from: nat) returns (id: Option<nat>)
      modifies this
      ensures id.Some? <==> old(phase).Running?
      ensures id.Some? ==>
                id.value == old(nextId) && View() == Subscribed(old(View()), Channel(upgrade, from, [], [], false))
      ensures id.None? ==> View() == old(View())
    {
      if !phase.Running? { return None; }
      id := Some(nextId);
      channels := channels[nextId := Channel(upgrade, from, [], [], false)];
      subscribers := subscribers + {nextId};
      nextId := nextId + 1;
    }

    /** The unsubscribe function; it may be called any number of times. */
    method RemoveSubscriber(id: nat)
      requires AllOpen(View())
      modifies this
      ensures View() == Unsubscribed(old(View()), id)
    {
      if id !in subscribers { return; }
      assert Open(View(), id);
      subscribers := subscribers - {id};
      Close(id);
    }

    method SendAll(line: string)
      requires AllOpen(View())
      modifies this
      ensures View() == Broadcasted(old(View()), line)
    {
      var ids := subscribers;
      while ids != {}
        invariant ids <= old(subscribers) && phase == old(phase) && nextId == old(nextId) &&
                  channels.Keys == old(channels).Keys
        invariant subscribers == ids + (set id | id in old(subscribers) - ids && HasRoom(old(View()), id))
        invariant forall id :: id in channels ==>
                    channels[id] ==
                      (if id in old(subscribers) - ids then Offered(old(channels)[id], line) else old(channels)[id])
      {
        var id :| id in ids;
        assert Open(old(View()), id);
        var sent := TrySend(id, line);
        if !sent {
          subscribers := subscribers - {id};
          Close(id);
        }
        ids := ids - {id};
      }
    }

    method End(outcome: Phase)
      requires AllOpen(View())
      modifies this
      ensures View() == Finished(old(View()), outcome)
    {
      phase := outcome;
      while subscribers != {}
        invariant subscribers <= old(subscribers) && phase == outcome && nextId == old(nextId) &&
                  channels.Keys == old(channels).Keys
        invariant forall id :: id in channels ==>
                    channels[id] ==
                      (if id in old(subscribers) - subscribers then old(channels)[id].(closed := true)
                       else old(channels)[id])
      {
        var id :| id in subscribers;
        assert Open(old(View()), id);
        subscribers := subscribers - {id};
        Close(id);
      }
    }
  }
}
