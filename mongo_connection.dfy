/** The connection manager of lib/mongo/index.ts.

    One MongoClient is built at construction. Two fields decide what
    connect() does: isConnected, and connectionPromise, the promise of the
    physical client.connect() attempt in flight (null when none is). The
    then/catch callbacks of that attempt, the driver's "close" and "error"
    events and disconnect() move the state on.

    The first half of this module is the specification: the abstract state
    Conn, the events that act on it, the transition function Next and the
    reply each event produces, with the lemmas that state single-flight and
    the other promises of the source. The second half is the class, whose
    methods are proved to follow Next. */
module Mongo {
  import opened Wrappers

  /** The driver's client, built from the connection string and pool sizes. */
  datatype MongoClient = MongoClient(uri: string, maxPoolSize: int, minPoolSize: int)

  /** An error raised by the driver (a failed connect or close). */
  datatype MongoError = MongoError(message: string)

  /** The abstract state of the connection manager. The last four
      components are bookkeeping that the source does not store. */
  datatype Conn = Conn(
    connected: bool,  // isConnected
    pending: bool,    // connectionPromise != null
    attempts: nat,    // physical client.connect() calls issued so far
    settled: nat,     // attempts whose then or catch callback has run
    waiters: nat,     // callers holding the pending promise
    listeners: nat)   // close/error listener pairs registered on the client

  /** The state right after the constructor. */
  const Init := Conn(false, false, 0, 0, 0, 0)

  /** What can happen to the manager, one discrete step at a time. */
  datatype Event =
    | ConnectCall                    // connect(), or getClient() when not connected
    | AttemptResolves                // the then callback of the pending attempt
    | AttemptRejects                 // the catch callback of the pending attempt
    | CloseEvent                     // the driver emits "close"
    | ErrorEvent                     // the driver emits "error"
    | Disconnect(closeSucceeds: bool) // disconnect(), once client.close() settles

  /** What the caller (or the callers) involved in an event observe. */
  datatype Reply =
    | ReturnedClient             // connect() returned the connected client at once
    | JoinedAttempt(attempt: nat) // connect() returned the promise of this attempt
    | StartedAttempt(attempt: nat) // connect() issued this new physical attempt
    | DeliveredClient(callers: nat) // this many callers receive the client
    | DeliveredError(callers: nat)  // this many callers receive the rethrown error
    | NoCaller                   // a driver event nobody awaits
    | Closed                     // disconnect() completed
    | CloseFailed                // close() rejected, disconnect() rethrows

  /** The invariant every reachable state keeps. */
  predicate Inv(s: Conn)
    // never more listener pairs than physical attempts, and a connected
    // manager has issued at least one attempt
    ensures Inv(s) ==> s.listeners <= s.attempts && (s.connected ==> s.attempts >= 1)
  {
    // isConnected and a non-null connectionPromise never hold together
    && !(s.connected && s.pending)
    // single flight: at most one physical attempt is outstanding
    && s.attempts == s.settled + (if s.pending then 1 else 0)
    // the caller that started an attempt holds its promise
    && (s.pending <==> s.waiters > 0)
    // every success registered one listener pair, and only successes do
    && s.listeners <= s.settled
    && (s.connected ==> s.listeners > 0)
  }

  /** The settlement callbacks exist only while their attempt is pending. */
  predicate Enabled(s: Conn, e: Event) {
    (e.AttemptResolves? || e.AttemptRejects?) ==> s.pending
  }

  /** Whether an event issues a physical client.connect(). */
  predicate StartsAttempt(s: Conn, e: Event) {
    e.ConnectCall? && !s.connected && !s.pending
  }

  /** The state after one event (index.ts:24-76). */
  function Next(s: Conn, e: Event): (r: Conn)
    requires Enabled(s, e)
    ensures Inv(s) ==> Inv(r)
    ensures r.attempts == s.attempts + (if StartsAttempt(s, e) then 1 else 0)
  {
    match e
    case ConnectCall =>
      if s.connected then s
      else if s.pending then s.(waiters := s.waiters + 1)
      else s.(pending := true, attempts := s.attempts + 1, waiters := 1)
    case AttemptResolves =>
      s.(connected := true, pending := false, settled := s.settled + 1,
         waiters := 0, listeners := s.listeners + 1)
    case AttemptRejects =>
      s.(connected := false, pending := false, settled := s.settled + 1, waiters := 0)
    case CloseEvent =>
      if s.listeners > 0 then s.(connected := false) else s
    case ErrorEvent =>
      if s.listeners > 0 then s.(connected := false) else s
    case Disconnect(closeSucceeds) =>
      if closeSucceeds then s.(connected := false) else s
  }

  /** What the callers of one event observe (index.ts:24-76). */
  function Respond(s: Conn, e: Event): (r: Reply)
    requires Enabled(s, e)
    // connect() returns the client at once exactly when connected
    ensures e.ConnectCall? ==> (r.ReturnedClient? <==> s.connected)
    // otherwise the caller gets the attempt in flight after the call, and
    // starts it exactly when none was in flight before
    ensures e.ConnectCall? && !s.connected ==>
      && (r.JoinedAttempt? || r.StartedAttempt?)
      && r.attempt == Next(s, e).attempts && Next(s, e).pending
      && (r.StartedAttempt? <==> !s.pending)
    // a settlement reaches every caller holding the promise, at least one
    ensures e.AttemptResolves? || e.AttemptRejects? ==>
      (r.DeliveredClient? || r.DeliveredError?) && r.callers == s.waiters
      && (r.DeliveredClient? <==> e.AttemptResolves?)
      && (Inv(s) ==> r.callers > 0)
  {
    match e
    case ConnectCall =>
      if s.connected then ReturnedClient
      else if s.pending then JoinedAttempt(s.attempts)
      else StartedAttempt(s.attempts + 1)
    case AttemptResolves => DeliveredClient(s.waiters)
    case AttemptRejects => DeliveredError(s.waiters)
    case CloseEvent => NoCaller
    case ErrorEvent => NoCaller
    case Disconnect(closeSucceeds) => if closeSucceeds then Closed else CloseFailed
  }

  /** Every event of a trace is enabled in the state it meets. */
  predicate Feasible(s: Conn, t: seq<Event>)
    decreases |t|
  {
    t == [] || (Enabled(s, t[0]) && Feasible(Next(s, t[0]), t[1..]))
  }

  /** The state after a trace of events. */
  function Run(s: Conn, t: seq<Event>): Conn
    requires Feasible(s, t)
    decreases |t|
  {
    if t == [] then s else Run(Next(s, t[0]), t[1..])
  }

  /** The replies of a trace of events, one per event. */
  function Replies(s: Conn, t: seq<Event>): (r: seq<Reply>)
    requires Feasible(s, t)
    ensures |r| == |t|
    decreases |t|
  {
    if t == [] then [] else [Respond(s, t[0])] + Replies(Next(s, t[0]), t[1..])
  }

  /** No event of the trace settles the pending attempt. */
  predicate NoSettlement(t: seq<Event>) {
    forall i :: 0 <= i < |t| ==> !t[i].AttemptResolves? && !t[i].AttemptRejects?
  }

  /** The invariant holds after any feasible trace. */
  lemma {:induction false} RunKeepsInv(s: Conn, t: seq<Event>)
    requires Inv(s) && Feasible(s, t)
    ensures Inv(Run(s, t))
    decreases |t|
  {
    if t != [] {
      RunKeepsInv(Next(s, t[0]), t[1..]);
    }
  }

  /** Every state reachable from the constructor satisfies the invariant;
      in particular isConnected and connectionPromise are never both set. */
  lemma Reachable(t: seq<Event>)
    requires Feasible(Init, t)
    ensures Inv(Run(Init, t))
    ensures !(Run(Init, t).connected && Run(Init, t).pending)
  {
    RunKeepsInv(Init, t);
  }

  /** Single flight (index.ts:29-32): while an attempt is pending, whatever
      happens short of its settlement issues no second client.connect(),
      and every connect() call receives the pending attempt. */
  lemma {:induction false} SingleFlight(s: Conn, t: seq<Event>)
    requires Inv(s) && s.pending && NoSettlement(t)
    ensures Feasible(s, t)
    ensures Run(s, t).attempts == s.attempts && Run(s, t).pending
    ensures forall i :: 0 <= i < |t| && t[i].ConnectCall? ==>
      Replies(s, t)[i] == JoinedAttempt(s.attempts)
    decreases |t|
  {
    if t != [] {
      var s' := Next(s, t[0]);
      assert NoSettlement(t[1..]) by {
        forall i | 0 <= i < |t[1..]| ensures !t[1..][i].AttemptResolves? && !t[1..][i].AttemptRejects? {
          assert t[1..][i] == t[i + 1];
        }
      }
      SingleFlight(s', t[1..]);
      forall i | 0 <= i < |t| && t[i].ConnectCall?
        ensures Replies(s, t)[i] == JoinedAttempt(s.attempts)
      {
        if i > 0 {
          assert t[1..][i - 1] == t[i];
        }
      }
    }
  }

  /** n connect() calls in a row. */
  function ConnectCalls(n: nat): (t: seq<Event>)
    ensures |t| == n && forall i :: 0 <= i < n ==> t[i] == ConnectCall
  {
    seq(n, _ => ConnectCall)
  }

  /** n concurrent first calls to connect() on an idle manager: exactly one
      physical attempt is issued, the first caller starts it, the others join
      it, and when it settles all n callers observe the same outcome. */
  lemma ConcurrentFirstCalls(s: Conn, n: nat, resolves: bool)
    requires Inv(s) && !s.connected && !s.pending && n > 0
    ensures var t := ConnectCalls(n) + [if resolves then AttemptResolves else AttemptRejects];
      && Feasible(s, t)
      && Run(s, t).attempts == s.attempts + 1
      && Replies(s, t)[0] == StartedAttempt(s.attempts + 1)
      && (forall i :: 0 < i < n ==> Replies(s, t)[i] == JoinedAttempt(s.attempts + 1))
      && Replies(s, t)[n] == (if resolves then DeliveredClient(n) else DeliveredError(n))
      && Run(s, t).connected == resolves && !Run(s, t).pending
  {
    var settle := if resolves then AttemptResolves else AttemptRejects;
    var t := ConnectCalls(n) + [settle];
    var s1 := Next(s, ConnectCall);
    var joins := ConnectCalls(n - 1);
    assert t[1..] == joins + [settle];
    SingleFlight(s1, joins);
    JoinsCount(s1, n - 1);
    RunAppend(s1, joins, settle);
    RepliesAppend(s1, joins, settle);
    forall i | 0 < i < n ensures Replies(s, t)[i] == JoinedAttempt(s.attempts + 1) {
      assert t[1..][i - 1] == t[i];
    }
  }

  /** Joining callers are counted as waiters of the pending attempt. */
  lemma {:induction false} JoinsCount(s: Conn, n: nat)
    requires Inv(s) && s.pending
    ensures Feasible(s, ConnectCalls(n))
    ensures Run(s, ConnectCalls(n)) == s.(waiters := s.waiters + n)
    decreases n
  {
    if n > 0 {
      assert ConnectCalls(n)[1..] == ConnectCalls(n - 1);
      JoinsCount(Next(s, ConnectCall), n - 1);
    }
  }

  /** Running a trace followed by one more event. */
  lemma {:induction false} RunAppend(s: Conn, t: seq<Event>, e: Event)
    requires Feasible(s, t) && Enabled(Run(s, t), e)
    ensures Feasible(s, t + [e])
    ensures Run(s, t + [e]) == Next(Run(s, t), e)
    decreases |t|
  {
    if t == [] {
      assert [e][1..] == [];
    } else {
      assert (t + [e])[1..] == t[1..] + [e];
      RunAppend(Next(s, t[0]), t[1..], e);
    }
  }

  /** The replies of a trace followed by one more event. */
  lemma {:induction false} RepliesAppend(s: Conn, t: seq<Event>, e: Event)
    requires Feasible(s, t) && Enabled(Run(s, t), e)
    ensures Feasible(s, t + [e])
    ensures Replies(s, t + [e]) == Replies(s, t) + [Respond(Run(s, t), e)]
    decreases |t|
  {
    RunAppend(s, t, e);
    if t == [] {
      assert [e][1..] == [];
    } else {
      assert (t + [e])[1..] == t[1..] + [e];
      RepliesAppend(Next(s, t[0]), t[1..], e);
    }
  }

  /** connect() on a connected manager returns the client and changes
      nothing (index.ts:25-27). */
  lemma ConnectWhenConnected(s: Conn)
    requires s.connected
    ensures Next(s, ConnectCall) == s && Respond(s, ConnectCall) == ReturnedClient
  {
  }

  /** A successful attempt connects and clears the promise; the next
      connect() starts nothing (index.ts:36-39). */
  lemma AttemptSuccess(s: Conn)
    requires Inv(s) && s.pending
    ensures var s' := Next(s, AttemptResolves);
      && s'.connected && !s'.pending
      && Respond(s, AttemptResolves) == DeliveredClient(s.waiters)
      && Next(s', ConnectCall) == s' && Respond(s', ConnectCall) == ReturnedClient
  {
  }

  /** A failed attempt clears the promise and leaves the manager
      disconnected, its error reaches every caller holding the promise, and
      the next connect() issues a fresh attempt (index.ts:54-59, 34). */
  lemma AttemptFailure(s: Conn)
    requires Inv(s) && s.pending
    ensures var s' := Next(s, AttemptRejects);
      && !s'.connected && !s'.pending
      && Respond(s, AttemptRejects) == DeliveredError(s.waiters)
      && Respond(s', ConnectCall) == StartedAttempt(s.attempts + 1)
      && Next(s', ConnectCall).attempts == s.attempts + 1
  {
  }

  /** A "close" or "error" event on a connected manager drops the
      connection, so the next connect() or getClient() issues a new attempt
      instead of reusing the old one (index.ts:42-50, 65-66). */
  lemma ConnectionLoss(s: Conn, e: Event)
    requires Inv(s) && s.connected && (e.CloseEvent? || e.ErrorEvent?)
    ensures var s' := Next(s, e);
      && !s'.connected && !s'.pending
      && Respond(s', ConnectCall) == StartedAttempt(s.attempts + 1)
  {
  }

  /** disconnect() leaves the manager disconnected once close() completes,
      is safe to repeat, and changes nothing when close() rejects
      (index.ts:71-76). */
  lemma DisconnectEffect(s: Conn)
    ensures var s' := Next(s, Disconnect(true));
      && !s'.connected
      && Next(s', Disconnect(true)) == s'
      && s'.(connected := s.connected) == s
    ensures Next(s, Disconnect(false)) == s
  {
  }

  /** disconnect() while an attempt is in flight does not clear
      connectionPromise: the attempt stays pending, later connect() calls
      still join it, and if it then resolves the manager is connected again
      (index.ts:34-39, 71-76). */
  lemma DisconnectDuringAttempt(s: Conn)
    requires Inv(s) && s.pending
    ensures var s' := Next(s, Disconnect(true));
      && s'.pending && !s'.connected
      && Respond(s', ConnectCall) == JoinedAttempt(s.attempts)
      && Next(s', AttemptResolves).connected
  {
  }

  /** One physical connection attempt: the object stored in
      connectionPromise. Since connect() and getClient() are async, each
      call hands its caller a new promise; while an attempt is pending that
      promise adopts this one and settles with it. Object identity here is
      the identity of the attempt, not of the promise a caller receives. */
  class ConnectionPromise {
    ghost const attempt: nat

    constructor (ghost attempt: nat)
      ensures this.attempt == attempt
    {
      this.attempt := attempt;
    }
  }

  /** What the promise returned by connect() or getClient() settles with:
      the client at once, or the outcome of a pending attempt. */
  datatype Awaitable = Resolved(client: MongoClient) | Awaiting(promise: ConnectionPromise)

  /** The class MongoConnection of index.ts. */
  class MongoConnection {
    const client: MongoClient
    var isConnected: bool
    var connectionPromise: ConnectionPromise?
    ghost var attempts: nat
    ghost var settled: nat
    ghost var waiters: nat
    ghost var listeners: nat

    /** The abstract state of this manager. */
    ghost function State(): Conn
      reads this
    {
      Conn(isConnected, connectionPromise != null, attempts, settled, waiters, listeners)
    }

    ghost predicate Valid()
      reads this
    {
      && Inv(State())
      && (connectionPromise != null ==> connectionPromise.attempt == attempts)
    }

    /** Builds the one client (index.ts:9-22). */
    constructor (uri: string, maxPoolSize: int, minPoolSize: int)
      ensures Valid() && State() == Init
      ensures client == MongoClient(uri, maxPoolSize, minPoolSize)
      ensures connectionPromise == null
    {
      client := MongoClient(uri, maxPoolSize, minPoolSize);
      isConnected := false;
      connectionPromise := null;
      attempts, settled, waiters, listeners := 0, 0, 0, 0;
    }

    /** connect() (index.ts:24-62): the client when connected, the pending
        promise when an attempt is in flight, otherwise a new attempt. */
    method Connect() returns (r: Awaitable)
      requires Valid()
      modifies this
      ensures Valid() && State() == Next(old(State()), ConnectCall)
      ensures old(isConnected) ==>
        r == Resolved(client) && connectionPromise == old(connectionPromise)
      ensures !old(isConnected) && old(connectionPromise) != null ==>
        r == Awaiting(old(connectionPromise)) && connectionPromise == old(connectionPromise)
      ensures !old(isConnected) && old(connectionPromise) == null ==>
        && r.Awaiting? && fresh(r.promise) && connectionPromise == r.promise
        && r.promise.attempt == attempts
    {
      if isConnected {
        return Resolved(client);
      }
      if connectionPromise != null {
        waiters := waiters + 1;
        return Awaiting(connectionPromise);
      }
      attempts := attempts + 1;
      var p := new ConnectionPromise(attempts);
      connectionPromise := p;
      waiters := 1;
      r := Awaiting(p);
    }

    /** The then callback of the pending attempt (index.ts:36-53): connected,
        promise cleared, listeners registered, the client delivered to every
        caller holding the promise. */
    method AttemptResolves() returns (delivered: MongoClient, ghost callers: nat)
      requires Valid() && connectionPromise != null
      modifies this
      ensures Valid() && State() == Next(old(State()), Event.AttemptResolves)
      ensures isConnected && connectionPromise == null
      ensures delivered == client && callers == old(waiters)
    {
      callers := waiters;
      isConnected := true;
      connectionPromise := null;
      listeners := listeners + 1;
      settled := settled + 1;
      waiters := 0;
      delivered := client;
    }

    /** The catch callback of the pending attempt (index.ts:54-59): promise
        cleared, not connected, the same error rethrown to every caller
        holding the promise. */
    method AttemptRejects(error: MongoError) returns (rethrown: MongoError, ghost callers: nat)
      requires Valid() && connectionPromise != null
      modifies this
      ensures Valid() && State() == Next(old(State()), Event.AttemptRejects)
      ensures !isConnected && connectionPromise == null
      ensures rethrown == error && callers == old(waiters)
    {
      callers := waiters;
      connectionPromise := null;
      isConnected := false;
      settled := settled + 1;
      waiters := 0;
      rethrown := error;
    }

    /** The "close" listener (index.ts:42-45). */
    method CloseEvent()
      requires Valid()
      modifies this
      ensures Valid() && State() == Next(old(State()), Event.CloseEvent)
      ensures !isConnected && connectionPromise == old(connectionPromise)
    {
      isConnected := false;
    }

    /** The "error" listener (index.ts:47-50). */
    method ErrorEvent(error: MongoError)
      requires Valid()
      modifies this
      ensures Valid() && State() == Next(old(State()), Event.ErrorEvent)
      ensures !isConnected && connectionPromise == old(connectionPromise)
    {
      isConnected := false;
    }

    /** getClient() (index.ts:64-69): connects first only when not
        connected; what it finally yields is always this.client. */
    method GetClient() returns (r: Awaitable)
      requires Valid()
      modifies this
      ensures Valid() && State() == Next(old(State()), ConnectCall)
      ensures old(isConnected) ==> r == Resolved(client)
      ensures !old(isConnected) ==> r.Awaiting? && connectionPromise == r.promise
      ensures !old(isConnected) && old(connectionPromise) != null ==>
        r.promise == old(connectionPromise)
    {
      if !isConnected {
        r := Connect();
      } else {
        r := Resolved(client);
      }
    }

    /** disconnect() (index.ts:71-76) once client.close() has settled with
        closeError: the client is always set, so close() is always called;
        on success the manager is disconnected, on failure the error is
        rethrown and nothing changes. */
    method Disconnect(closeError: Option<MongoError>) returns (thrown: Option<MongoError>)
      requires Valid()
      modifies this
      ensures Valid() && State() == Next(old(State()), Event.Disconnect(closeError.None?))
      ensures thrown == closeError
      ensures closeError.None? ==> !isConnected
      ensures connectionPromise == old(connectionPromise)
    {
      thrown := closeError;
      if closeError.None? {
        isConnected := false;
      }
    }
  }
}
