/**
 The keep-alive connection pool (http_pool.py) under any interleaving of threads: each event is one locked
 section or one call into the HTTP library. A response is read and closed by one thread.
*/
module HttpPool {
  import opened Prelude

  type Key = string

  datatype Response = Response(conn: nat, key: Key, closed: bool, complete: bool, willClose: bool)

  /** Where a connection is. */
  datatype Place = IdlePlace(key: Key) | FlightPlace(key: Key) | OpenPlace(response: nat) | ShutPlace

  /**
   The first three are the program's; the others record what became of every connection: the key it was opened
   for, its place, how much of its last response is still on the wire, and whether `readline(0)` claimed that
   response was over when it was not.
  */
  datatype World = World(
    idle: map<Key, seq<nat>>,
    inFlight: map<nat, Key>,
    responses: map<nat, Response>,
    made: map<nat, Key>,
    place: map<nat, Place>,
    unread: map<nat, nat>,
    fooled: set<nat>)

  datatype Event =
    | CheckoutEvent(key: Key, newId: nat)
    | FailEvent(conn: nat)                                   // request or getresponse raises
    | RespondEvent(conn: nat, response: nat, size: nat, willClose: bool)
    | ReadEvent(response: nat, amount: Option<int>, got: nat)
    | LineEvent(response: nat, limit: int, got: nat)
    | CloseEvent(response: nat)
    | ClearEvent

  function Idle(w: World, key: Key): seq<nat> {
    if key in w.idle then w.idle[key] else []
  }

  function Unread(w: World, conn: nat): nat {
    if conn in w.unread then w.unread[conn] else 0
  }

  /** `HTTPResponse.read` gives all it was asked for, or all there is. */
  predicate ReadGives(amount: Option<int>, left: nat, got: nat) {
    got == if amount.Some? && 0 <= amount.value < left then amount.value else left
  }

  /** `HTTPResponse.readline` gives something as long as there is something and the limit allows it. */
  predicate LineGives(limit: int, left: nat, got: nat) {
    got <= left && (limit >= 0 ==> got <= limit) && (got == 0 <==> left == 0 || limit == 0)
  }

  predicate Enabled(w: World, e: Event) {
    match e
    case CheckoutEvent(key, newId) => newId !in w.made
    case FailEvent(conn) => conn in w.inFlight
    case RespondEvent(conn, response, _, _) => conn in w.inFlight && response !in w.responses
    case ReadEvent(r, amount, got) =>
      r in w.responses && !w.responses[r].closed && ReadGives(amount, Unread(w, w.responses[r].conn), got)
    case LineEvent(r, limit, got) =>
      r in w.responses && !w.responses[r].closed && LineGives(limit, Unread(w, w.responses[r].conn), got)
    case CloseEvent(r) => r in w.responses
    case ClearEvent => true
  }

  /** The connection a checkout hands out, and whether it was used before: the last idle one of the key. */
  function Handed(w: World, key: Key, newId: nat): (nat, bool) {
    var idle := Idle(w, key);
    if idle == [] then (newId, false) else (idle[|idle| - 1], true)
  }

  function Moved(w: World, conn: nat, p: Place): World {
    w.(place := w.place[conn := p])
  }

  /** A checkout finds no idle connection of its key. */
  function Opened(w: World, key: Key, newId: nat): World {
    Moved(w, newId, FlightPlace(key))
    .(idle := w.idle[key := []], inFlight := w.inFlight[newId := key], made := w.made[newId := key])
  }

  /** A checkout takes the last idle connection of its key. */
  function Reused(w: World, key: Key): World
    requires Idle(w, key) != []
  {
    var n := |Idle(w, key)| - 1;
    var conn := Idle(w, key)[n];
    Moved(w, conn, FlightPlace(key)).(idle := w.idle[key := Idle(w, key)[..n]], inFlight := w.inFlight[conn := key])
  }

  /** `close` of a response that was not read to the end, or that ends its connection. */
  function ShutDown(w: World, r: nat): World
    requires r in w.responses
  {
    var x := w.responses[r];
    Moved(w, x.conn, ShutPlace).(responses := w.responses[r := x.(closed := true)])
  }

  /** `close` of a response that counts as read to the end. */
  function GivenBack(w: World, r: nat): World
    requires r in w.responses
  {
    var x := w.responses[r];
    Moved(w, x.conn, IdlePlace(x.key))
    .(responses := w.responses[r := x.(closed := true)], idle := w.idle[x.key := Idle(w, x.key) + [x.conn]])
  }

  function Next(w: World, e: Event): World {
    if !Enabled(w, e) then w else
    match e
    case CheckoutEvent(key, newId) => if Idle(w, key) == [] then Opened(w, key, newId) else Reused(w, key)
    case FailEvent(conn) => Moved(w, conn, ShutPlace).(inFlight := w.inFlight - {conn})
    case RespondEvent(conn, r, size, willClose) =>
      Moved(w, conn, OpenPlace(r))
      .(inFlight := w.inFlight - {conn},
        responses := w.responses[r := Response(conn, w.inFlight[conn], false, false, willClose)],
        unread := w.unread[conn := size], fooled := w.fooled - {conn})
    case ReadEvent(r, amount, got) =>
      var x := w.responses[r];
      w.(responses := w.responses[r := x.(complete := x.complete || amount.None? || got < amount.value)],
         unread := w.unread[x.conn := Unread(w, x.conn) - got])
    case LineEvent(r, limit, got) =>
      var x := w.responses[r];
      w.(responses := w.responses[r := x.(complete := x.complete || got == 0)],
         unread := w.unread[x.conn := Unread(w, x.conn) - got],
         fooled := if got == 0 && Unread(w, x.conn) > 0 then w.fooled + {x.conn} else w.fooled)
    case CloseEvent(r) =>
      if w.responses[r].closed then w
      else if !w.responses[r].complete || w.responses[r].willClose then ShutDown(w, r)
      else GivenBack(w, r)
    case ClearEvent =>
      w.(idle := map[], place := map c | c in w.place :: if w.place[c].IdlePlace? then ShutPlace else w.place[c])
  }

  function Exec(w: World, events: seq<Event>): World {
    if events == [] then w else Next(Exec(w, events[..|events| - 1]), events[|events| - 1])
  }

  ghost predicate Run(w: World, events: seq<Event>) {
    events == [] ||
    (Run(w, events[..|events| - 1]) && Enabled(Exec(w, events[..|events| - 1]), events[|events| - 1]))
  }

  const EMPTY := World(map[], map[], map[], map[], map[], map[], {})

  // ------------------------------------------------------------------ invariant

  /** The idle lists hold exactly the connections whose place that is, each once. */
  ghost predicate IdleOk(w: World) {
    && (forall k, i :: k in w.idle && 0 <= i < |w.idle[k]| ==>
          w.idle[k][i] in w.place && w.place[w.idle[k][i]] == IdlePlace(k))
    && (forall c :: c in w.place && w.place[c].IdlePlace? ==> c in Idle(w, w.place[c].key))
    && (forall k :: k in w.idle ==> Distinct(w.idle[k]))
  }

  ghost predicate FlightOk(w: World) {
    && (forall c :: c in w.inFlight ==> c in w.place && w.place[c] == FlightPlace(w.inFlight[c]))
    && (forall c :: c in w.place && w.place[c].FlightPlace? ==> c in w.inFlight)
  }

  ghost predicate ResponsesOk(w: World) {
    && (forall r :: r in w.responses && !w.responses[r].closed ==>
          w.responses[r].conn in w.place && w.place[w.responses[r].conn] == OpenPlace(r))
    && (forall c :: c in w.place && w.place[c].OpenPlace? ==>
          var r := w.place[c].response;
          r in w.responses && !w.responses[r].closed && w.responses[r].conn == c)
  }

  /** A connection stays with its key, and counts as read to the end only if it was, or it was fooled. */
  ghost predicate ConnOk(w: World, c: nat)
    requires c in w.place
  {
    && c in w.made
    && match w.place[c]
       case IdlePlace(k) => w.made[c] == k && (c !in w.fooled ==> Unread(w, c) == 0)
       case FlightPlace(k) => w.made[c] == k
       case OpenPlace(r) =>
         r in w.responses && w.responses[r].key == w.made[c]
         && (w.responses[r].complete && c !in w.fooled ==> Unread(w, c) == 0)
       case ShutPlace => true
  }

  ghost predicate Inv(w: World) {
    && IdleOk(w) && FlightOk(w) && ResponsesOk(w)
    && w.place.Keys == w.made.Keys
    && (forall c :: c in w.place ==> ConnOk(w, c))
  }

  lemma OpenedKeepsIdle(w: World, key: Key, newId: nat)
    requires Inv(w) && newId !in w.made && Idle(w, key) == []
    ensures var v := Opened(w, key, newId);
            IdleOk(v)
  {
    hide FlightOk, ResponsesOk;
  }

  lemma OpenedKeepsPlaces(w: World, key: Key, newId: nat)
    requires Inv(w) && newId !in w.made && Idle(w, key) == []
    ensures var v := Opened(w, key, newId);
            FlightOk(v) && ResponsesOk(v) && v.place.Keys == v.made.Keys
  {
    hide IdleOk;
  }

  lemma OpenedKeepsConns(w: World, key: Key, newId: nat)
    requires Inv(w) && newId !in w.made && Idle(w, key) == []
    ensures var v := Opened(w, key, newId);
            forall c :: c in v.place ==> ConnOk(v, c)
  {
    hide IdleOk, FlightOk, ResponsesOk;
    var v := Opened(w, key, newId);
    forall c | c in v.place ensures ConnOk(v, c) {
      assert c in w.place ==> ConnOk(w, c);
    }
  }

  lemma OpenedKeeps(w: World, key: Key, newId: nat)
    requires Inv(w) && newId !in w.made && Idle(w, key) == []
    ensures Inv(Opened(w, key, newId))
  {
    hide IdleOk, FlightOk, ResponsesOk, ConnOk, Opened;
    OpenedKeepsIdle(w, key, newId);
    OpenedKeepsPlaces(w, key, newId);
    OpenedKeepsConns(w, key, newId);
  }

  lemma ReusedKeepsIdle(w: World, key: Key)
    requires Inv(w) && Idle(w, key) != []
    ensures var v := Reused(w, key);
            IdleOk(v)
  {
    hide FlightOk, ResponsesOk, ConnOk;
    var v := Reused(w, key);
    var n := |w.idle[key]| - 1;
    assert w.place[w.idle[key][n]] == IdlePlace(key);
    assert forall i :: 0 <= i < n ==> w.idle[key][i] != w.idle[key][n];
    forall c | c in v.place && v.place[c].IdlePlace? ensures c in Idle(v, v.place[c].key) {
      assert c in Idle(w, w.place[c].key);
    }
  }

  lemma ReusedKeepsPlaces(w: World, key: Key)
    requires Inv(w) && Idle(w, key) != []
    ensures var v := Reused(w, key);
            FlightOk(v) && ResponsesOk(v) && v.place.Keys == v.made.Keys
  {
    hide ConnOk;
    var v := Reused(w, key);
    var n := |w.idle[key]| - 1;
    assert w.place[w.idle[key][n]] == IdlePlace(key) && v.place.Keys == w.place.Keys;
  }

  lemma ReusedKeepsConns(w: World, key: Key)
    requires Inv(w) && Idle(w, key) != []
    ensures var v := Reused(w, key);
            forall c :: c in v.place ==> ConnOk(v, c)
  {
    hide FlightOk, ResponsesOk;
    var v := Reused(w, key);
    var n := |w.idle[key]| - 1;
    assert w.place[w.idle[key][n]] == IdlePlace(key);
    forall c | c in v.place ensures ConnOk(v, c) {
      assert c in w.place ==> ConnOk(w, c);
    }
  }

  lemma ReusedKeeps(w: World, key: Key)
    requires Inv(w) && Idle(w, key) != []
    ensures Inv(Reused(w, key))
  {
    hide IdleOk, FlightOk, ResponsesOk, ConnOk, Reused;
    ReusedKeepsIdle(w, key);
    ReusedKeepsPlaces(w, key);
    ReusedKeepsConns(w, key);
  }

  lemma FlightKeepsIdle(w: World, e: Event)
    requires Inv(w) && Enabled(w, e) && (e.FailEvent? || e.RespondEvent?)
    ensures var v := Next(w, e);
            IdleOk(v)
  {
    hide ResponsesOk, ConnOk;
  }

  lemma FlightKeepsPlaces(w: World, e: Event)
    requires Inv(w) && Enabled(w, e) && (e.FailEvent? || e.RespondEvent?)
    ensures var v := Next(w, e);
            FlightOk(v) && ResponsesOk(v) && v.place.Keys == v.made.Keys
  {
    hide IdleOk, ConnOk;
  }

  lemma FlightKeepsConns(w: World, e: Event)
    requires Inv(w) && Enabled(w, e) && (e.FailEvent? || e.RespondEvent?)
    ensures var v := Next(w, e);
            forall c :: c in v.place ==> ConnOk(v, c)
  {
    hide IdleOk;
    var v := Next(w, e);
    forall c | c in v.place ensures ConnOk(v, c) {
      assert ConnOk(w, c);
    }
  }

  lemma FlightKeeps(w: World, e: Event)
    requires Inv(w) && Enabled(w, e) && (e.FailEvent? || e.RespondEvent?)
    ensures Inv(Next(w, e))
  {
    hide IdleOk, FlightOk, ResponsesOk, ConnOk, Next, Enabled;
    FlightKeepsIdle(w, e);
    FlightKeepsPlaces(w, e);
    FlightKeepsConns(w, e);
  }

  lemma ReadKeepsIdle(w: World, e: Event)
    requires Inv(w) && Enabled(w, e) && (e.ReadEvent? || e.LineEvent?)
    ensures var v := Next(w, e);
            IdleOk(v)
  {
    hide FlightOk, ResponsesOk, ConnOk;
  }

  lemma ReadKeepsPlaces(w: World, e: Event)
    requires Inv(w) && Enabled(w, e) && (e.ReadEvent? || e.LineEvent?)
    ensures var v := Next(w, e);
            FlightOk(v) && ResponsesOk(v) && v.place.Keys == v.made.Keys
  {
    hide IdleOk, ConnOk;
  }

  lemma ReadKeepsConns(w: World, e: Event)
    requires Inv(w) && Enabled(w, e) && (e.ReadEvent? || e.LineEvent?)
    ensures var v := Next(w, e);
            forall c :: c in v.place ==> ConnOk(v, c)
  {
    hide IdleOk;
    var v := Next(w, e);
    forall c | c in v.place ensures ConnOk(v, c) {
      assert ConnOk(w, c);
    }
  }

  lemma ReadKeeps(w: World, e: Event)
    requires Inv(w) && Enabled(w, e) && (e.ReadEvent? || e.LineEvent?)
    ensures Inv(Next(w, e))
  {
    hide IdleOk, FlightOk, ResponsesOk, ConnOk, Next, Enabled;
    ReadKeepsIdle(w, e);
    ReadKeepsPlaces(w, e);
    ReadKeepsConns(w, e);
  }

  lemma ShutDownKeepsIdle(w: World, r: nat)
    requires Inv(w) && r in w.responses && !w.responses[r].closed
    ensures var v := ShutDown(w, r);
            IdleOk(v)
  {
    hide FlightOk, ConnOk;
  }

  lemma ShutDownKeepsPlaces(w: World, r: nat)
    requires Inv(w) && r in w.responses && !w.responses[r].closed
    ensures var v := ShutDown(w, r);
            FlightOk(v) && ResponsesOk(v) && v.place.Keys == v.made.Keys
  {
    hide IdleOk, ConnOk;
  }

  lemma ShutDownKeepsConns(w: World, r: nat)
    requires Inv(w) && r in w.responses && !w.responses[r].closed
    ensures var v := ShutDown(w, r);
            forall c :: c in v.place ==> ConnOk(v, c)
  {
    hide IdleOk, FlightOk;
    var v := ShutDown(w, r);
    forall c | c in v.place ensures ConnOk(v, c) {
      assert c in w.place ==> ConnOk(w, c);
    }
  }

  lemma ShutDownKeeps(w: World, r: nat)
    requires Inv(w) && r in w.responses && !w.responses[r].closed
    ensures Inv(ShutDown(w, r))
  {
    hide IdleOk, FlightOk, ResponsesOk, ConnOk, ShutDown;
    ShutDownKeepsIdle(w, r);
    ShutDownKeepsPlaces(w, r);
    ShutDownKeepsConns(w, r);
  }

  lemma GivenBackKeepsIdle(w: World, r: nat)
    requires Inv(w) && r in w.responses && !w.responses[r].closed && w.responses[r].complete
    ensures var v := GivenBack(w, r);
            IdleOk(v)
  {
    hide FlightOk;
    var v := GivenBack(w, r);
    assert ConnOk(w, w.responses[r].conn);
  }

  lemma GivenBackKeepsPlaces(w: World, r: nat)
    requires Inv(w) && r in w.responses && !w.responses[r].closed && w.responses[r].complete
    ensures var v := GivenBack(w, r);
            FlightOk(v) && ResponsesOk(v) && v.place.Keys == v.made.Keys
  {
    hide IdleOk, ConnOk;
  }

  lemma GivenBackKeepsConns(w: World, r: nat)
    requires Inv(w) && r in w.responses && !w.responses[r].closed && w.responses[r].complete
    ensures var v := GivenBack(w, r);
            forall c :: c in v.place ==> ConnOk(v, c)
  {
    hide IdleOk, FlightOk;
    var v := GivenBack(w, r);
    forall c | c in v.place ensures ConnOk(v, c) {
      assert c in w.place ==> ConnOk(w, c);
    }
  }

  lemma GivenBackKeeps(w: World, r: nat)
    requires Inv(w) && r in w.responses && !w.responses[r].closed && w.responses[r].complete
    ensures Inv(GivenBack(w, r))
  {
    hide IdleOk, FlightOk, ResponsesOk, ConnOk, GivenBack;
    GivenBackKeepsIdle(w, r);
    GivenBackKeepsPlaces(w, r);
    GivenBackKeepsConns(w, r);
  }

  lemma ClearKeeps(w: World)
    requires Inv(w)
    ensures Inv(Next(w, ClearEvent))
  {
    var v := Next(w, ClearEvent);
    forall c | c in v.place ensures ConnOk(v, c) {
      assert ConnOk(w, c);
    }
  }

  lemma NextKeeps(w: World, e: Event)
    requires Inv(w) && Enabled(w, e)
    ensures Inv(Next(w, e))
  {
    hide Inv, Opened, Reused, ShutDown, GivenBack;
    match e {
      case CheckoutEvent(key, newId) =>
        if Idle(w, key) == [] {
          OpenedKeeps(w, key, newId);
        } else {
          ReusedKeeps(w, key);
        }
      case CloseEvent(r) =>
        if !w.responses[r].closed {
          if !w.responses[r].complete || w.responses[r].willClose {
            ShutDownKeeps(w, r);
          } else {
            GivenBackKeeps(w, r);
          }
        }
      case ClearEvent => ClearKeeps(w);
      case ReadEvent(_, _, _) => ReadKeeps(w, e);
      case LineEvent(_, _, _) => ReadKeeps(w, e);
      case _ => FlightKeeps(w, e);
    }
  }

  lemma {:induction false} RunsKeepInv(w: World, events: seq<Event>)
    requires Inv(w) && Run(w, events)
    ensures Inv(Exec(w, events))
  {
    if events != [] {
      RunsKeepInv(w, events[..|events| - 1]);
      NextKeeps(Exec(w, events[..|events| - 1]), events[|events| - 1]);
    }
  }

  // --------------------------------------------------------------- main results

  lemma EmptyIsOk()
    ensures Inv(EMPTY)
  {
  }

  /** A connection is in exactly one place: one idle slot of its own key, one request, one open response, or shut. */
  lemma ExactlyOnePlace(events: seq<Event>, c: nat)
    requires Run(EMPTY, events) && c in Exec(EMPTY, events).made
    ensures var w := Exec(EMPTY, events);
            && c in w.place
            && (forall k :: c in Idle(w, k) <==> w.place[c] == IdlePlace(k))
            && (forall k :: Distinct(Idle(w, k)))
            && (c in w.inFlight <==> w.place[c].FlightPlace?)
            && (forall r :: r in w.responses && !w.responses[r].closed && w.responses[r].conn == c <==>
                            w.place[c] == OpenPlace(r))
            && (forall k :: c in Idle(w, k) ==> w.made[c] == k)
  {
    EmptyIsOk();
    RunsKeepInv(EMPTY, events);
    var w := Exec(EMPTY, events);
    assert ConnOk(w, c);
    forall k ensures c in Idle(w, k) <==> w.place[c] == IdlePlace(k) {
      if c in Idle(w, k) {
        var j :| 0 <= j < |w.idle[k]| && w.idle[k][j] == c;
      }
    }
  }

  /** A connection is only reused under its own key, and with nothing of an earlier response left on it. */
  lemma ReusedUnderOwnKey(events: seq<Event>, key: Key, newId: nat)
    requires Run(EMPTY, events) && Idle(Exec(EMPTY, events), key) != []
    ensures var w := Exec(EMPTY, events);
            var c := Handed(w, key, newId).0;
            && c in w.made && w.made[c] == key
            && (c !in w.fooled ==> Unread(w, c) == 0)
  {
    EmptyIsOk();
    RunsKeepInv(EMPTY, events);
    var w := Exec(EMPTY, events);
    var n := |w.idle[key]| - 1;
    assert w.place[w.idle[key][n]] == IdlePlace(key);
    assert ConnOk(w, w.idle[key][n]);
  }

  /** A close gives the connection back only if its response was read to the end (RFC 9112, section 9.3). */
  lemma GivenBackOnlyWhenRead(events: seq<Event>, r: nat)
    requires Run(EMPTY, events) && r in Exec(EMPTY, events).responses
    ensures var w := Exec(EMPTY, events);
            var c := w.responses[r].conn;
            var v := Next(w, CloseEvent(r));
            !w.responses[r].closed && c in v.place && v.place[c].IdlePlace? ==>
              w.responses[r].complete && !w.responses[r].willClose && (Unread(w, c) == 0 || c in w.fooled)
  {
    hide IdleOk, FlightOk;
    EmptyIsOk();
    RunsKeepInv(EMPTY, events);
    var w := Exec(EMPTY, events);
    if !w.responses[r].closed {
      assert ConnOk(w, w.responses[r].conn);
    }
  }

  /** A read that ends a response finds nothing left, exactly unless it is a `readline(0)` with something left. */
  lemma EndIsHonest(w: World, e: Event)
    requires Inv(w) && Enabled(w, e) && (e.ReadEvent? || e.LineEvent?)
    requires !w.responses[e.response].complete && Next(w, e).responses[e.response].complete
    ensures var c := w.responses[e.response].conn;
            Unread(Next(w, e), c) == 0 <==> !(e.LineEvent? && e.limit == 0 && Unread(w, c) > 0)
  {
  }

  /** Without such a call nobody is ever fooled, and every idle connection is clean. */
  lemma {:induction false} NobodyFooled(events: seq<Event>)
    requires Run(EMPTY, events) && forall i :: 0 <= i < |events| && events[i].LineEvent? ==> events[i].limit != 0
    ensures Exec(EMPTY, events).fooled == {}
  {
    if events != [] {
      NobodyFooled(events[..|events| - 1]);
    }
  }

  /** With one, a connection with a response still on it becomes idle. */
  lemma ZeroLimitFools(key: Key) returns (events: seq<Event>)
    ensures Run(EMPTY, events) && Idle(Exec(EMPTY, events), key) == [0] && Unread(Exec(EMPTY, events), 0) == 5
  {
    var e0, e1, e2, e3 := CheckoutEvent(key, 0), RespondEvent(0, 0, 5, false), LineEvent(0, 0, 0), CloseEvent(0);
    RunOne(EMPTY, [], e0);
    RunOne(EMPTY, [e0], e1);
    RunOne(EMPTY, [e0] + [e1], e2);
    RunOne(EMPTY, [e0] + [e1] + [e2], e3);
    events := [e0] + [e1] + [e2] + [e3];
  }

  lemma RunOne(w: World, events: seq<Event>, e: Event)
    requires Run(w, events) && Enabled(Exec(w, events), e)
    ensures Run(w, events + [e]) && Exec(w, events + [e]) == Next(Exec(w, events), e)
  {
    assert (events + [e])[..|events|] == events;
  }

  // ------------------------------------------------------------------- the pool

  /** Steps only the holder of this connection or response takes. */
  predicate Uses(e: Event, conn: nat, response: Option<nat>) {
    match e
    case FailEvent(c) => c == conn
    case RespondEvent(c, _, _, _) => c == conn
    case ReadEvent(r, _, _) => Some(r) == response
    case LineEvent(r, _, _) => Some(r) == response
    case CloseEvent(r) => Some(r) == response
    case _ => false
  }

  /** What one thread relies on while others run: its request, or its open response, is left alone. */
  ghost predicate LeftAlone(w: World, v: World, conn: nat, response: Option<nat>) {
    && (response.None? && conn in w.inFlight ==> conn in v.inFlight && v.inFlight[conn] == w.inFlight[conn])
    && (response.Some? && response.value in w.responses ==>
          response.value in v.responses && v.responses[response.value] == w.responses[response.value]
          && Unread(v, conn) == Unread(w, conn))
  }

  lemma OthersLeaveRequestAlone(v: World, e: Event, conn: nat)
    requires Inv(v) && Enabled(v, e) && !Uses(e, conn, None) && conn in v.inFlight
    ensures var u := Next(v, e); conn in u.inFlight && u.inFlight[conn] == v.inFlight[conn]
  {
    hide ConnOk, ResponsesOk;
    assert v.place[conn].FlightPlace?;
  }

  lemma OthersLeaveResponseAlone(v: World, e: Event, conn: nat, r: nat)
    requires Inv(v) && Enabled(v, e) && !Uses(e, conn, Some(r))
    requires r in v.responses && v.responses[r].conn == conn && !v.responses[r].closed
    ensures var u := Next(v, e);
            r in u.responses && u.responses[r] == v.responses[r] && Unread(u, conn) == Unread(v, conn)
  {
    hide ConnOk, IdleOk;
    assert v.place[conn] == OpenPlace(r);
  }

  lemma OthersLeaveAlone(w: World, v: World, e: Event, conn: nat, response: Option<nat>)
    requires Inv(v) && Enabled(v, e) && !Uses(e, conn, response) && LeftAlone(w, v, conn, response)
    requires response.Some? && response.value in w.responses ==>
               w.responses[response.value].conn == conn && !w.responses[response.value].closed
    ensures LeftAlone(w, Next(v, e), conn, response)
  {
    hide Inv, Next, Enabled, Unread, Uses;
    if response.None? && conn in w.inFlight {
      OthersLeaveRequestAlone(v, e, conn);
    } else if response.Some? && response.value in w.responses {
      OthersLeaveResponseAlone(v, e, conn, response.value);
    }
  }

  class Pool {
    var world: World
    ghost var events: seq<Event>

    ghost predicate Valid()
      reads this
    {
      Run(EMPTY, events) && world == Exec(EMPTY, events)
    }

    constructor ()
      ensures Valid()
    {
      world := EMPTY;
      events := [];
    }

    method Transact(e: Event)
      requires Valid() && Enabled(world, e)
      modifies this
      ensures Valid() && Inv(world) && world == Next(old(world), e)
    {
      hide Inv, Next, Enabled;
      RunOne(EMPTY, events, e);
      world := Next(world, e);
      events := events + [e];
      EmptyIsOk();
      RunsKeepInv(EMPTY, events);
    }

    /** The other threads. */
    method Interfere(conn: nat, response: Option<nat>)
      requires Valid() && Inv(world)
      requires response.Some? && response.value in world.responses ==>
                 world.responses[response.value].conn == conn && !world.responses[response.value].closed
      modifies this
      ensures Valid() && Inv(world) && LeftAlone(old(world), world, conn, response)
    {
      hide Inv, Next, Enabled, Run, Exec;
      var steps: nat := *;
      while steps > 0
        invariant Valid() && Inv(world) && LeftAlone(old(world), world, conn, response)
      {
        var e: Event := *;
        if Enabled(world, e) && !Uses(e, conn, response) {
          OthersLeaveAlone(old(world), world, e, conn, response);
          Transact(e);
        }
        steps := steps - 1;
      }
    }

    method Unused() returns (conn: nat, response: nat)
      ensures conn !in world.made && response !in world.responses
    {
      conn, response := 0, 0;
      ghost var left := world.made.Keys;
      while conn in world.made
        invariant forall c :: c in world.made && c >= conn ==> c in left
        decreases left
      {
        left := left - {conn};
        conn := conn + 1;
      }
      ghost var more := world.responses.Keys;
      while response in world.responses
        invariant forall r :: r in world.responses && r >= response ==> r in more
        decreases more
      {
        more := more - {response};
        response := response + 1;
      }
    }

    /** `_pooled_open`: check out, request, and wrap; a failed request shuts its connection. */
    method Open(key: Key) returns (r: Result<nat>)
      requires Valid()
      modifies this
      ensures Valid()
      ensures r.Ok? ==>
                && r.value in world.responses
                && var x := world.responses[r.value];
                   && !x.closed && !x.complete && x.key == key
                   && x.conn in world.made && world.made[x.conn] == key
                   && x.conn in world.place && world.place[x.conn] == OpenPlace(r.value)
    {
      hide Run, Exec, Inv;
      var newId, _ := Unused();
      var conn := Handed(world, key, newId).0;
      Transact(CheckoutEvent(key, newId));
      Interfere(conn, None);
      var fails := *;
      if fails {
        Transact(FailEvent(conn));
        return Raise;
      }
      var _, response := Unused();
      var size: nat := *;
      var willClose: bool := *;
      Transact(RespondEvent(conn, response, size, willClose));
      OpenResponse(world, response);
      return Ok(response);
    }

    /** `_PooledResponse.read` by the thread that has the response. */
    method Read(r: nat, amount: Option<int>) returns (got: nat)
      requires Valid() && Inv(world) && r in world.responses && !world.responses[r].closed
      modifies this
      ensures Valid() && r in world.responses
      ensures var x := old(world).responses[r];
              var left := Unread(old(world), x.conn);
              && ReadGives(amount, left, got) && Unread(world, x.conn) == left - got
              && world.responses[r] == x.(complete := x.complete || amount.None? || got < amount.value)
    {
      hide Run, Exec, Inv;
      var conn := world.responses[r].conn;
      Interfere(conn, Some(r));
      var left := Unread(world, conn);
      got := if amount.Some? && 0 <= amount.value < left then amount.value else left;
      Transact(ReadEvent(r, amount, got));
    }

    /** `_PooledResponse.close`: once, and back to the idle list of its key only if read to the end. */
    method Close(r: nat)
      requires Valid() && Inv(world) && r in world.responses && !world.responses[r].closed
      modifies this
      ensures Valid() && r in world.responses
      ensures var x := old(world).responses[r];
              && world.responses[r] == x.(closed := true)
              && x.conn in world.place
              && world.place[x.conn] == if x.complete && !x.willClose then IdlePlace(x.key) else ShutPlace
    {
      hide Run, Exec, Inv;
      Interfere(world.responses[r].conn, Some(r));
      Transact(CloseEvent(r));
    }

    /** `clear`. */
    method Clear()
      requires Valid()
      modifies this
      ensures Valid() && world.idle == map[] && world.inFlight == old(world).inFlight
      ensures forall c :: c in old(world).place && old(world).place[c].IdlePlace? ==>
                c in world.place && world.place[c].ShutPlace?
      ensures forall c :: c in old(world).place && !old(world).place[c].IdlePlace? ==>
                c in world.place && world.place[c] == old(world).place[c]
    {
      hide Run, Exec, Inv;
      Transact(ClearEvent);
    }
  }

  lemma OpenResponse(w: World, r: nat)
    requires Inv(w) && r in w.responses && !w.responses[r].closed
    ensures w.responses[r].conn in w.place && w.place[w.responses[r].conn] == OpenPlace(r)
    ensures w.responses[r].conn in w.made && w.made[w.responses[r].conn] == w.responses[r].key
  {
    assert ConnOk(w, w.responses[r].conn);
  }
}
