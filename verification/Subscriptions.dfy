/** One websocket shared by many subscription handles: request numbering, acknowledgment, routing of
    notifications into per-handle queues, and retirement, in every interleaving. */
module Subscriptions {
  import opened Common

  datatype Topic = Account | Failure | Logs | Program | Signature | Slot

  /** A handle's private number and what it listens to. */
  datatype Key = Key(id: nat, topic: Topic)

  datatype Request = Subscribe(key: Key) | Unsubscribe

  /** A notification body: valid JSON, or text that does not parse. */
  datatype Payload = Parsed(value: string) | Unparsable

  /** A reply's outcome. `Accepted(None)` is a result that is not a subscription number; `stale` is
      the server's complaint about an unknown subscription id. */
  datatype Outcome = Accepted(route: Option<nat>) | Refused(stale: bool)

  datatype Frame = Reply(id: nat, outcome: Outcome) | Notification(route: nat, payload: Payload) | Malformed

  datatype Conn = Conn(
    nextId: nat, requests: map<nat, Request>, routes: map<nat, Key>, subscribed: nat,
    lastReply: Option<nat>, closed: bool,
    lastKey: nat, queues: map<nat, seq<string>>, malformed: nat)

  const OPENING: Conn := Conn(1, map[], map[], 0, None, false, 0, map[], 0)

  function Opened(c: Conn, topic: Topic): Conn {
    c.(lastKey := c.lastKey + 1, queues := c.queues[c.lastKey + 1 := []],
       nextId := c.nextId + 1, requests := c.requests[c.nextId := Subscribe(Key(c.lastKey + 1, topic))])
  }

  function Observed(c: Conn, key: nat, payload: Payload): Conn {
    match payload
    case Unparsable => c.(malformed := c.malformed + 1)
    case Parsed(value) => if key in c.queues then c.(queues := c.queues[key := c.queues[key] + [value]]) else c
  }

  function Notified(c: Conn, route: nat, payload: Payload): Conn {
    if route !in c.routes then c else
    var key := c.routes[route];
    var d := Observed(c, key.id, payload);
    if key.topic.Signature? then d.(routes := d.routes - {route}) else d
  }

  function Replied(c: Conn, id: nat, outcome: Outcome): Conn {
    var d := c.(lastReply := Some(id), requests := c.requests - {id});
    if id in c.requests && c.requests[id].Subscribe? && outcome.Accepted? then
      if outcome.route.Some?
      then d.(routes := d.routes[outcome.route.value := c.requests[id].key], subscribed := d.subscribed + 1)
      else d.(closed := true)
    else if id in c.requests && c.requests[id].Unsubscribe? && outcome.Refused? && outcome.stale then d
    else if outcome.Refused? then d.(closed := true)
    else d
  }

  function Dispatched(c: Conn, frame: Frame): Conn {
    match frame
    case Reply(id, outcome) => Replied(c, id, outcome)
    case Notification(route, payload) => Notified(c, route, payload)
    case Malformed => c.(malformed := c.malformed + 1)
  }

  /** What a read of `key`'s queue yields: nothing while it is empty or already dropped. */
  function Head(c: Conn, key: nat): Option<string> {
    if key in c.queues && c.queues[key] != [] then Some(c.queues[key][0]) else None
  }

  function Popped(c: Conn, key: nat): Conn {
    if Head(c, key).Some? then c.(queues := c.queues[key := c.queues[key][1..]]) else c
  }

  predicate Pending(c: Conn, key: nat) {
    exists id :: id in c.requests && c.requests[id].Subscribe? && c.requests[id].key.id == key
  }

  function Abandoned(c: Conn, key: nat): Conn {
    c.(requests := map id | id in c.requests && !(c.requests[id].Subscribe? && c.requests[id].key.id == key)
                   :: c.requests[id])
  }

  predicate Routed(c: Conn, key: nat, route: Option<nat>) {
    match route
    case Some(r) => r in c.routes && c.routes[r].id == key
    case None => forall r :: r in c.routes ==> c.routes[r].id != key
  }

  function Retired(c: Conn, route: Option<nat>): Conn {
    match route
    case Some(r) => c.(routes := c.routes - {r}, nextId := c.nextId + 1)
    case None => c
  }

  class Connection {
    var nextId: nat
    var requests: map<nat, Request>
    var routes: map<nat, Key>
    var subscribed: nat
    var lastReply: Option<nat>
    var closed: bool
    var lastKey: nat
    var queues: map<nat, seq<string>>
    var malformed: nat

    ghost function View(): Conn
      reads this
    {
      Conn(nextId, requests, routes, subscribed, lastReply, closed, lastKey, queues, malformed)
    }

    constructor ()
      ensures View() == OPENING
    {
      nextId, requests, routes, subscribed, lastReply, closed := 1, map[], map[], 0, None, false;
      lastKey, queues, malformed := 0, map[], 0;
    }

    /** Numbers a handle, gives it an empty queue and files its request before anything is sent. */
    method Open(topic: Topic) returns (key: nat)
      modifies this
      ensures View() == Opened(old(View()), topic) && key == lastKey
    {
      lastKey := lastKey + 1;
      queues := queues[lastKey := []];
      key := lastKey;
      var id := nextId;
      nextId := nextId + 1;
      requests := requests[id := Subscribe(Key(key, topic))];
    }

    method Observe(key: Key, payload: Payload) returns (done: bool)
      modifies this
      ensures View() == Observed(old(View()), key.id, payload) && done == key.topic.Signature?
    {
      match payload {
        case Parsed(value) =>
          if key.id in queues {
            queues := queues[key.id := queues[key.id] + [value]];
          }
        case Unparsable => malformed := malformed + 1;
      }
      done := key.topic.Signature?;
    }

    /** Routes one frame; a failure closes the connection. */
    method Dispatch(frame: Frame)
      modifies this
      ensures View() == Dispatched(old(View()), frame)
    {
      match frame {
        case Reply(id, outcome) =>
          lastReply := Some(id);
          var request: Option<Request> := if id in requests then Some(requests[id]) else None;
          requests := requests - {id};
          match (request, outcome) {
            case (Some(Subscribe(key)), Accepted(Some(route))) =>
              routes := routes[route := key];
              subscribed := subscribed + 1;
            case (Some(Subscribe(_)), Accepted(None)) => closed := true;
            case (Some(Unsubscribe), Refused(true)) =>
            case (_, Refused(_)) => closed := true;
            case _ =>
          }
        case Notification(route, payload) =>
          if route in routes {
            var done := Observe(routes[route], payload);
            if done {
              routes := routes - {route};
            }
          }
        case Malformed => malformed := malformed + 1;
      }
    }

    method Close()
      modifies this
      ensures View() == old(View()).(closed := true)
    {
      closed := true;
    }

    /** Takes the oldest queued value; refuses once anything malformed was seen. */
    method Pop(key: nat) returns (refused: bool, value: Option<string>)
      modifies this
      ensures refused == (old(malformed) != 0)
      ensures if refused then View() == old(View()) && value == None
              else View() == Popped(old(View()), key) && value == Head(old(View()), key)
    {
      refused, value := malformed != 0, None;
      if !refused && key in queues && queues[key] != [] {
        value := Some(queues[key][0]);
        queues := queues[key := queues[key][1..]];
      }
    }

    method DropHandle(key: nat)
      modifies this
      ensures View() == old(View()).(queues := old(queues) - {key})
    {
      queues := queues - {key};
    }

    method Abandon(key: nat)
      modifies this
      ensures View() == Abandoned(old(View()), key)
    {
      requests := map id | id in requests && !(requests[id].Subscribe? && requests[id].key.id == key) :: requests[id];
    }

    /** Removes the handle's route, if it has one, and takes the number of the unsubscribe request. */
    method Retire(key: nat) returns (route: Option<nat>)
      modifies this
      ensures Routed(old(View()), key, route) && View() == Retired(old(View()), route)
    {
      route := None;
      var left := routes.Keys;
      while left != {} && route.None?
        invariant View() == old(View()) && left <= routes.Keys
        invariant route.Some? ==> Routed(View(), key, route)
        invariant route.None? ==> forall r :: r in routes && r !in left ==> routes[r].id != key
        decreases left
      {
        var r :| r in left;
        left := left - {r};
        if routes[r].id == key {
          route := Some(r);
        }
      }
      if route.Some? {
        routes := routes - {route.value};
        nextId := nextId + 1;
      }
    }

    method FileUnsubscribe(id: nat)
      modifies this
      ensures forall w: World :: w.conn == old(View()) ==> View() == Next(w, File(id)).conn
    {
      requests := requests[id := Unsubscribe];
    }
  }

  // ---- every interleaving -----------------------------------------------------------------------------

  /** The connection, the handles whose cleanup is under way, and the unsubscribe numbers taken but
      not yet filed (the writer lock is awaited in between). */
  datatype World = World(conn: Conn, dropped: set<nat>, unfiled: set<nat>)

  /** Steps, labelled with the numbers and values their callers see. */
  datatype Event =
    | Open(key: nat, request: nat, topic: Topic)
    | Deliver(frame: Frame)
    | Close
    | Take(key: nat, value: Option<string>)
    | DropHandle(key: nat)
    | Abandon(key: nat)
    | Retire(key: nat, route: Option<nat>)
    | File(request: nat)

  const START: World := World(OPENING, {}, {})

  /** A live server never hands out a subscription number that is still routed; the reader stops at
      close; cleanup of a handle follows its drop and, unless abandoned, its acknowledgment. */
  ghost predicate Enabled(w: World, e: Event) {
    match e
    case Open(key, request, _) => key == w.conn.lastKey + 1 && request == w.conn.nextId
    case Deliver(Reply(_, Accepted(Some(route)))) => !w.conn.closed && route !in w.conn.routes
    case Deliver(_) => !w.conn.closed
    case Close => true
    case Take(key, value) => w.conn.malformed == 0 && value == Head(w.conn, key)
    case DropHandle(key) => 1 <= key <= w.conn.lastKey
    case Abandon(key) => key in w.dropped
    case Retire(key, route) => key in w.dropped && !Pending(w.conn, key) && Routed(w.conn, key, route)
    case File(request) => request in w.unfiled
  }

  function Next(w: World, e: Event): World {
    match e
    case Open(key, request, topic) => w.(conn := Opened(w.conn, topic))
    case Deliver(frame) => w.(conn := Dispatched(w.conn, frame))
    case Close => w.(conn := w.conn.(closed := true))
    case Take(key, value) => w.(conn := Popped(w.conn, key))
    case DropHandle(key) => w.(conn := w.conn.(queues := w.conn.queues - {key}), dropped := w.dropped + {key})
    case Abandon(key) => w.(conn := Abandoned(w.conn, key))
    case Retire(key, route) =>
      w.(conn := Retired(w.conn, route), unfiled := if route.Some? then w.unfiled + {w.conn.nextId} else w.unfiled)
    case File(request) =>
      w.(conn := w.conn.(requests := w.conn.requests[request := Unsubscribe]), unfiled := w.unfiled - {request})
  }

  // ---- one subscription in isolation ------------------------------------------------------------------

  datatype Phase = Unborn | Asked(request: nat) | Live(route: nat) | Gone

  /** A subscription that has the connection to itself: where it is in its life, and what the server
      has told it between its acknowledgment and its end. */
  datatype Solo = Solo(phase: Phase, topic: Topic, acked: bool, heard: seq<string>)

  const NOBODY: Solo := Solo(Unborn, Slot, false, [])

  function Hears(s: Solo, payload: Payload): Solo {
    s.(heard := if payload.Parsed? then s.heard + [payload.value] else s.heard,
       phase := if s.topic.Signature? then Gone else s.phase)
  }

  function SoloNext(s: Solo, key: nat, e: Event): Solo {
    match e
    case Open(k, request, topic) => if k == key then Solo(Asked(request), topic, false, []) else s
    case Deliver(Reply(id, outcome)) =>
      if s.phase != Asked(id) then s
      else if outcome.Accepted? && outcome.route.Some? then s.(phase := Live(outcome.route.value), acked := true)
      else s.(phase := Gone)
    case Deliver(Notification(route, payload)) => if s.phase == Live(route) then Hears(s, payload) else s
    case Abandon(k) => if k == key && s.phase.Asked? then s.(phase := Gone) else s
    case Retire(k, _) => if k == key then s.(phase := Gone) else s
    case _ => s
  }

  function Alone(trace: seq<Event>, key: nat): Solo {
    if trace == [] then NOBODY else SoloNext(Alone(trace[..|trace| - 1], key), key, trace[|trace| - 1])
  }

  /** The values handle `key` has read, in order. */
  function Reads(trace: seq<Event>, key: nat): seq<string> {
    if trace == [] then [] else
    var e, before := trace[|trace| - 1], Reads(trace[..|trace| - 1], key);
    if e.Take? && e.key == key && e.value.Some? then before + [e.value.value] else before
  }

  /** The world after a run, or nothing when some step of it was not possible. */
  ghost function After(trace: seq<Event>): Option<World> {
    if trace == [] then Some(START) else
    var before, e := After(trace[..|trace| - 1]), trace[|trace| - 1];
    if before.Some? && Enabled(before.value, e) then Some(Next(before.value, e)) else None
  }

  // ---- the shared connection refines every isolated subscription --------------------------------------

  ghost predicate Numbered(w: World) {
    && (forall id :: id in w.conn.requests ==> id < w.conn.nextId && id !in w.unfiled)
    && (forall id :: id in w.unfiled ==> id < w.conn.nextId)
    && (forall key :: key in w.dropped ==> 1 <= key <= w.conn.lastKey)
  }

  ghost predicate AskedAs(c: Conn, key: nat, s: Solo) {
    forall id :: id in c.requests && c.requests[id].Subscribe? && c.requests[id].key.id == key <==>
      s.phase == Asked(id) && id in c.requests && c.requests[id] == Subscribe(Key(key, s.topic))
  }

  ghost predicate LiveAs(c: Conn, key: nat, s: Solo) {
    forall r :: r in c.routes && c.routes[r].id == key <==>
      s.phase == Live(r) && r in c.routes && c.routes[r] == Key(key, s.topic)
  }

  /** The shared state holds exactly what subscription `key` would have alone: its one request or its
      one route, never both, and in its queue what it has heard and not yet read. */
  ghost predicate Tracks(c: Conn, key: nat, s: Solo, read: seq<string>) {
    && (s.phase.Asked? ==> !s.acked && s.phase.request in c.requests)
    && (s.phase.Asked? ==> c.requests[s.phase.request] == Subscribe(Key(key, s.topic)))
    && (s.phase.Live? ==> s.phase.route in c.routes && c.routes[s.phase.route] == Key(key, s.topic))
    && AskedAs(c, key, s) && LiveAs(c, key, s)
    && (s.phase.Unborn? <==> key == 0 || key > c.lastKey)
    && (s.phase.Unborn? ==> !s.acked && s.heard == [] && key !in c.queues)
    && read <= s.heard
    && (key in c.queues ==> read + c.queues[key] == s.heard)
  }

  function ReadsNext(read: seq<string>, key: nat, e: Event): seq<string> {
    if e.Take? && e.key == key && e.value.Some? then read + [e.value.value] else read
  }

  lemma OpenTracks(w: World, e: Event, key: nat, s: Solo, read: seq<string>)
    requires e.Open? && Numbered(w) && Enabled(w, e) && Tracks(w.conn, key, s, read)
    ensures Tracks(Next(w, e).conn, key, SoloNext(s, key, e), read)
  {
  }

  lemma ReplyTracks(w: World, e: Event, key: nat, s: Solo, read: seq<string>)
    requires e.Deliver? && e.frame.Reply? && Numbered(w) && Enabled(w, e) && Tracks(w.conn, key, s, read)
    ensures Tracks(Next(w, e).conn, key, SoloNext(s, key, e), read)
  {
  }

  lemma NotificationTracks(w: World, e: Event, key: nat, s: Solo, read: seq<string>)
    requires e.Deliver? && e.frame.Notification? && Enabled(w, e) && Tracks(w.conn, key, s, read)
    ensures Tracks(Next(w, e).conn, key, SoloNext(s, key, e), read)
  {
  }

  lemma QueueTracks(w: World, e: Event, key: nat, s: Solo, read: seq<string>)
    requires (e.Take? || e.DropHandle? || e.Close? || (e.Deliver? && e.frame.Malformed?)) && Enabled(w, e)
    requires Tracks(w.conn, key, s, read)
    ensures Tracks(Next(w, e).conn, key, SoloNext(s, key, e), ReadsNext(read, key, e))
  {
    if e.Take? && e.key == key && e.value.Some? {
      var queue := w.conn.queues[key];
      assert queue == [queue[0]] + queue[1..];
    }
  }

  lemma RetireTracks(w: World, e: Event, key: nat, s: Solo, read: seq<string>)
    requires (e.Abandon? || e.Retire? || e.File?) && Numbered(w) && Enabled(w, e) && Tracks(w.conn, key, s, read)
    ensures Tracks(Next(w, e).conn, key, SoloNext(s, key, e), read)
  {
  }

  lemma NumberedNext(w: World, e: Event)
    requires Numbered(w) && Enabled(w, e)
    ensures Numbered(Next(w, e))
  {
  }

  /** In every run, the shared connection treats each subscription as if it had the connection to
      itself. */
  lemma {:induction false} RunTracks(trace: seq<Event>, key: nat)
    requires After(trace).Some?
    ensures Numbered(After(trace).value)
    ensures Tracks(After(trace).value.conn, key, Alone(trace, key), Reads(trace, key))
    decreases |trace|
  {
    if trace != [] {
      var past, e := trace[..|trace| - 1], trace[|trace| - 1];
      var v := After(past).value;
      RunTracks(past, key);
      NumberedNext(v, e);
      StepTracks(v, e, key, Alone(past, key), Reads(past, key));
    }
  }

  lemma StepTracks(w: World, e: Event, key: nat, s: Solo, read: seq<string>)
    requires Numbered(w) && Enabled(w, e) && Tracks(w.conn, key, s, read)
    ensures Tracks(Next(w, e).conn, key, SoloNext(s, key, e), ReadsNext(read, key, e))
  {
    match e {
      case Open(_, _, _) => OpenTracks(w, e, key, s, read);
      case Deliver(Reply(_, _)) => ReplyTracks(w, e, key, s, read);
      case Deliver(Notification(_, _)) => NotificationTracks(w, e, key, s, read);
      case Deliver(Malformed) => QueueTracks(w, e, key, s, read);
      case Close => QueueTracks(w, e, key, s, read);
      case Take(_, _) => QueueTracks(w, e, key, s, read);
      case DropHandle(_) => QueueTracks(w, e, key, s, read);
      case Abandon(_) => RetireTracks(w, e, key, s, read);
      case Retire(_, _) => RetireTracks(w, e, key, s, read);
      case File(_) => RetireTracks(w, e, key, s, read);
    }
  }

  /** What a handle reads is, value for value and in order, what the server sent to its subscription
      between acknowledgment and end; while the handle is held, the rest waits in its own queue. */
  lemma HandleReadsItsOwn(trace: seq<Event>, key: nat)
    requires After(trace).Some?
    ensures Reads(trace, key) <= Alone(trace, key).heard
    ensures var c := After(trace).value.conn;
            key in c.queues ==> Reads(trace, key) + c.queues[key] == Alone(trace, key).heard
  {
    RunTracks(trace, key);
  }

  /** No handle has two filed requests, ... */
  lemma OneRequestPerHandle(trace: seq<Event>, id: nat, id': nat)
    requires After(trace).Some?
    requires var c := After(trace).value.conn;
             id in c.requests && id' in c.requests && c.requests[id].Subscribe? && c.requests[id'].Subscribe?
    ensures var c := After(trace).value.conn; c.requests[id].key.id == c.requests[id'].key.id ==> id == id'
  {
    RunTracks(trace, After(trace).value.conn.requests[id].key.id);
  }

  /** ... two routes, ... */
  lemma OneRoutePerHandle(trace: seq<Event>, r: nat, r': nat)
    requires After(trace).Some?
    requires var c := After(trace).value.conn; r in c.routes && r' in c.routes
    ensures var c := After(trace).value.conn; c.routes[r].id == c.routes[r'].id ==> r == r'
  {
    RunTracks(trace, After(trace).value.conn.routes[r].id);
  }

  /** ... or a request and a route. */
  lemma RequestOrRoute(trace: seq<Event>, id: nat, r: nat)
    requires After(trace).Some?
    requires var c := After(trace).value.conn; id in c.requests && c.requests[id].Subscribe? && r in c.routes
    ensures var c := After(trace).value.conn; c.requests[id].key.id != c.routes[r].id
  {
    RunTracks(trace, After(trace).value.conn.routes[r].id);
  }

  /** Waiting for an acknowledgment ends exactly when the handle is live or over. */
  lemma AckedOrOver(trace: seq<Event>, key: nat)
    requires After(trace).Some? && 1 <= key <= After(trace).value.conn.lastKey
    ensures !Pending(After(trace).value.conn, key) <==> Alone(trace, key).phase.Live? || Alone(trace, key).phase.Gone?
  {
    RunTracks(trace, key);
    var c, phase := After(trace).value.conn, Alone(trace, key).phase;
    if phase.Asked? {
      assert c.requests[phase.request].key.id == key;
    }
  }

  /** How many of the first `n` handles were ever acknowledged. */
  function Acks(trace: seq<Event>, n: nat): nat {
    if n == 0 then 0 else Acks(trace, n - 1) + (if Alone(trace, n).acked then 1 else 0)
  }

  lemma {:induction false} AcksSame(trace: seq<Event>, past: seq<Event>, n: nat)
    requires forall key: nat :: 1 <= key <= n ==> Alone(trace, key).acked == Alone(past, key).acked
    ensures Acks(trace, n) == Acks(past, n)
  {
    if n > 0 {
      AcksSame(trace, past, n - 1);
    }
  }

  lemma {:induction false} AcksFlip(trace: seq<Event>, past: seq<Event>, n: nat, flipped: nat)
    requires 1 <= flipped <= n && Alone(trace, flipped).acked && !Alone(past, flipped).acked
    requires forall key: nat :: 1 <= key <= n && key != flipped ==> Alone(trace, key).acked == Alone(past, key).acked
    ensures Acks(trace, n) == Acks(past, n) + 1
  {
    if n == flipped {
      AcksSame(trace, past, n - 1);
    } else {
      AcksFlip(trace, past, n - 1, flipped);
    }
  }

  /** The handle whose subscribe request this step acknowledges, if it acknowledges one. */
  function Acknowledged(c: Conn, e: Event): Option<nat> {
    match e
    case Deliver(Reply(id, Accepted(Some(_)))) =>
      if id in c.requests && c.requests[id].Subscribe? then Some(c.requests[id].key.id) else None
    case _ => None
  }

  lemma AckOnce(w: World, e: Event, key: nat, s: Solo, read: seq<string>)
    requires Enabled(w, e) && Tracks(w.conn, key, s, read)
    ensures SoloNext(s, key, e).acked == (s.acked || Acknowledged(w.conn, e) == Some(key))
    ensures Acknowledged(w.conn, e) == Some(key) ==> !s.acked && 1 <= key <= w.conn.lastKey
  {
  }

  lemma SubscribedNext(w: World, e: Event)
    requires Enabled(w, e)
    ensures Next(w, e).conn.subscribed == w.conn.subscribed + (if Acknowledged(w.conn, e).Some? then 1 else 0)
    ensures Next(w, e).conn.lastKey == w.conn.lastKey + (if e.Open? then 1 else 0)
  {
  }

  /** `subscribed` counts the handles that were acknowledged, each once. */
  lemma {:induction false} SubscribedCountsAcks(trace: seq<Event>)
    requires After(trace).Some?
    ensures After(trace).value.conn.subscribed == Acks(trace, After(trace).value.conn.lastKey)
    decreases |trace|
  {
    if trace != [] {
      var past, e := trace[..|trace| - 1], trace[|trace| - 1];
      var w := After(past).value;
      var acked := Acknowledged(w.conn, e);
      SubscribedCountsAcks(past);
      SubscribedNext(w, e);
      forall key: nat
        ensures Alone(trace, key).acked == (Alone(past, key).acked || acked == Some(key))
        ensures acked == Some(key) ==> !Alone(past, key).acked && 1 <= key <= w.conn.lastKey
        ensures key > w.conn.lastKey ==> !Alone(past, key).acked
      {
        RunTracks(past, key);
        AckOnce(w, e, key, Alone(past, key), Reads(past, key));
      }
      hide Alone, Next, Acknowledged, Enabled;
      if acked.Some? {
        AcksFlip(trace, past, w.conn.lastKey, acked.value);
      } else {
        AcksSame(trace, past, w.conn.lastKey);
      }
    }
  }

  /** What ends a connection: closing it, a refusal of anything but an unsubscribe already out of date, or an
      acknowledgment without a subscription number. */
  predicate Ends(c: Conn, e: Event) {
    match e
    case Close => true
    case Deliver(Reply(id, Refused(stale))) => !stale || id !in c.requests || !c.requests[id].Unsubscribe?
    case Deliver(Reply(id, Accepted(None))) => id in c.requests && c.requests[id].Subscribe?
    case _ => false
  }

  ghost predicate Ended(trace: seq<Event>) {
    exists k :: 0 <= k < |trace| && After(trace[..k]).Some? && Ends(After(trace[..k]).value.conn, trace[k])
  }

  function Opens(trace: seq<Event>): nat {
    if trace == [] then 0 else Opens(trace[..|trace| - 1]) + if trace[|trace| - 1].Open? then 1 else 0
  }

  /** Unsubscribe numbers taken, less those filed since. */
  function Unfiled(trace: seq<Event>): int {
    if trace == [] then 0 else
    var e := trace[|trace| - 1];
    Unfiled(trace[..|trace| - 1]) + if e.Retire? && e.route.Some? then 1 else if e.File? then -1 else 0
  }

  lemma {:induction false} EndedNext(trace: seq<Event>)
    requires trace != [] && After(trace).Some?
    ensures var past, last := trace[..|trace| - 1], |trace| - 1;
            Ended(trace) <==> Ended(past) || Ends(After(past).value.conn, trace[last])
  {
    AfterLast(trace);
    hide After, Ends, Enabled, Next, Numbered;
    var past := trace[..|trace| - 1];
    assert forall k :: 0 <= k < |past| ==> past[..k] == trace[..k] && past[k] == trace[k];
    if Ended(past) {
      var k :| 0 <= k < |past| && After(past[..k]).Some? && Ends(After(past[..k]).value.conn, past[k]);
      assert After(trace[..k]).Some? && Ends(After(trace[..k]).value.conn, trace[k]);
    }
    if Ended(trace) {
      var k :| 0 <= k < |trace| && After(trace[..k]).Some? && Ends(After(trace[..k]).value.conn, trace[k]);
      assert k < |past| ==> After(past[..k]).Some? && Ends(After(past[..k]).value.conn, past[k]);
    }
  }

  lemma NothingEnded()
    ensures !Ended([])
  {
  }

  lemma HeldNext(w: World, e: Event, key: nat)
    requires Enabled(w, e) && Numbered(w) && (key in w.conn.queues <==> 1 <= key <= w.conn.lastKey && key !in w.dropped)
    ensures var z := Next(w, e);
            && (key in z.conn.queues <==> 1 <= key <= z.conn.lastKey && key !in z.dropped)
            && (key in z.dropped <==> key in w.dropped || e == DropHandle(key))
            && z.conn.lastKey == w.conn.lastKey + (if e.Open? then 1 else 0)
  {
    hide Ends, Routed, Pending;
  }

  lemma ClosedNext(w: World, e: Event)
    requires Enabled(w, e)
    ensures Next(w, e).conn.closed <==> w.conn.closed || Ends(w.conn, e)
  {
  }

  lemma AfterLast(trace: seq<Event>)
    requires trace != [] && After(trace).Some?
    ensures var past, e := trace[..|trace| - 1], trace[|trace| - 1];
            && trace == past + [e]
            && After(past).Some? && Numbered(After(past).value) && Enabled(After(past).value, e)
            && After(trace) == Some(Next(After(past).value, e))
  {
    RunTracks(trace[..|trace| - 1], 0);
  }

  lemma UnfiledNext(w: World, e: Event)
    requires Enabled(w, e) && Numbered(w)
    ensures |Next(w, e).unfiled| - |w.unfiled| == if e.Retire? && e.route.Some? then 1 else if e.File? then -1 else 0
  {
  }

  /** Over every run: handles are numbered from one; a handle has a queue from its opening until it is
      dropped; the connection is closed exactly once something ended it; and the unsubscribe numbers not yet
      filed are those taken less those filed. */
  lemma {:induction false} HandlesHeld(trace: seq<Event>, key: nat)
    requires After(trace).Some?
    ensures var z := After(trace).value;
            && z.conn.lastKey == Opens(trace) && |z.unfiled| == Unfiled(trace)
            && (key in z.dropped <==> DropHandle(key) in trace)
            && (key in z.conn.queues <==> 1 <= key <= Opens(trace) && DropHandle(key) !in trace)
            && (z.conn.closed <==> Ended(trace))
    decreases |trace|
  {
    hide Ended, Ends, Enabled, Next, Numbered;
    if trace != [] {
      hide After;
      var past, e := trace[..|trace| - 1], trace[|trace| - 1];
      AfterLast(trace);
      var w := After(past).value;
      HandlesHeld(past, key);
      HeldNext(w, e, key);
      ClosedNext(w, e);
      UnfiledNext(w, e);
      EndedNext(trace);
    } else {
      NothingEnded();
    }
  }
}
