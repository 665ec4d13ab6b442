/**
 * The per-user session registry of index.js as a value: the `clients` object
 * (index.js:55), the listeners each automation client was given, and the
 * transitions caused by `GET /register`, by client events and by logout.
 * Every request and every event is one atomic step.
 */
module Sessions {
  import opened Wrappers

  /** An opaque automation client; each `new Client(...)` yields the next number. */
  type Handle = nat

  /** The record `{ client, ready, qrData }` stored under a user id. */
  datatype Session = Session(client: Handle, ready: bool, qrData: Option<string>)

  /**
   * What the listeners attached to one client do: they write to
   * `clients[userId]` as it is when they fire, and only the first client of a
   * registration has a `disconnected` listener that rebuilds the session.
   */
  datatype Listeners = Listeners(userId: string, rebuildOnDisconnect: bool)

  datatype State = State(
    clients: map<string, Session>,
    listeners: map<Handle, Listeners>,
    nextHandle: Handle)

  /** An event raised by the automation client `source`. */
  datatype Event =
    | Qr(source: Handle, payload: string)
    | Ready(source: Handle)
    | AuthFailure(source: Handle)
    | Disconnected(source: Handle)

  /** The three kinds of request and event that change the registry, for traces. */
  datatype Step =
    | RegisterStep(userId: string)
    | EventStep(event: Event)
    | LogoutStep(userId: string, loggedOut: bool)

  const Empty: State := State(map[], map[], 0)

  /** A session never holds a pairing payload once it is ready. */
  predicate Consistent(s: Session) {
    s.ready ==> s.qrData == None
  }

  /**
   * The registry invariant: every session is consistent; the client of the
   * session under k carries listeners bound to k; every client handed out is
   * below the next fresh handle.
   */
  predicate Valid(st: State) {
    && (forall k | k in st.clients :: Consistent(st.clients[k]))
    && (forall k | k in st.clients ::
          st.clients[k].client in st.listeners && st.listeners[st.clients[k].client].userId == k)
    && FreshCounter(st)
  }

  /** Every client handed out so far is below the next fresh handle. */
  predicate FreshCounter(st: State) {
    forall h | h in st.listeners :: h < st.nextHandle
  }

  /** Builds a new client for userId with its listeners and stores a fresh session under userId. */
  function Install(st: State, userId: string, rebuildOnDisconnect: bool): State {
    var h := st.nextHandle;
    State(
      st.clients[userId := Session(h, false, None)],
      st.listeners[h := Listeners(userId, rebuildOnDisconnect)],
      h + 1)
  }

  /** `GET /register/:userId`, registry part (index.js:60-71): create only when absent. */
  function Register(st: State, userId: string): (st': State)
    ensures st'.clients.Keys == st.clients.Keys + {userId}
    ensures forall k | k in st.clients :: st'.clients[k] == st.clients[k]
    ensures FreshCounter(st) ==> FreshCounter(st') && st.nextHandle <= st'.nextHandle
    ensures FreshCounter(st) ==>
      forall h | h in st.listeners :: h in st'.listeners && st'.listeners[h] == st.listeners[h]
  {
    if userId in st.clients then st else Install(st, userId, true)
  }

  /**
   * Whether the listener for e can run: the source client must have listeners,
   * and the `qr` and `ready` listeners dereference `clients[userId]`, which
   * throws once that key has been deleted.
   */
  predicate CanFire(st: State, e: Event) {
    && e.source in st.listeners
    && (e.Qr? || e.Ready? ==> st.listeners[e.source].userId in st.clients)
  }

  /** The listener for e (index.js:73-134). */
  function Apply(st: State, e: Event): (st': State)
    requires CanFire(st, e)
    ensures !e.Disconnected? ==> st'.clients.Keys == st.clients.Keys && st'.listeners == st.listeners
    ensures st.clients.Keys <= st'.clients.Keys <= st.clients.Keys + {st.listeners[e.source].userId}
    ensures forall k | k in st.clients && k != st.listeners[e.source].userId :: st'.clients[k] == st.clients[k]
    ensures FreshCounter(st) ==> FreshCounter(st') && st.nextHandle <= st'.nextHandle
    ensures FreshCounter(st) ==>
      forall h | h in st.listeners :: h in st'.listeners && st'.listeners[h] == st.listeners[h]
  {
    var userId := st.listeners[e.source].userId;
    match e
    case Qr(_, payload) =>
      st.(clients := st.clients[userId := st.clients[userId].(qrData := Some(payload), ready := false)])
    case Ready(_) =>
      st.(clients := st.clients[userId := st.clients[userId].(ready := true, qrData := None)])
    case AuthFailure(_) =>
      st
    case Disconnected(h) =>
      // the destroy of the current client is awaited inside a try whose catch
      // only logs, so neither its outcome nor an absent key stops the rebuild
      if st.listeners[h].rebuildOnDisconnect then Install(st, userId, false) else st
  }

  /** `GET /logout/:userId`, registry part (index.js:215-223): delete only after a successful logout. */
  function Logout(st: State, userId: string, loggedOut: bool): (st': State)
    ensures st'.clients.Keys <= st.clients.Keys
    ensures forall k | k in st'.clients :: st'.clients[k] == st.clients[k]
    ensures st'.listeners == st.listeners && st'.nextHandle == st.nextHandle
  {
    if userId in st.clients && loggedOut then st.(clients := st.clients - {userId}) else st
  }

  /**
   * Runs a trace of steps; None when some event listener would throw. From a
   * state whose handles are all below the counter, handles are never reused, and listeners once attached stay attached with the
   * same binding, so a replaced client still writes to its user's key.
   */
  function Run(st: State, steps: seq<Step>): (r: Option<State>)
    ensures FreshCounter(st) && r.Some? ==> st.nextHandle <= r.value.nextHandle
    ensures FreshCounter(st) && r.Some? ==>
      forall h | h in st.listeners :: h in r.value.listeners && r.value.listeners[h] == st.listeners[h]
    decreases |steps|
  {
    if steps == [] then Some(st)
    else
      match steps[0]
      case RegisterStep(userId) => Run(Register(st, userId), steps[1..])
      case LogoutStep(userId, loggedOut) => Run(Logout(st, userId, loggedOut), steps[1..])
      case EventStep(e) => if CanFire(st, e) then Run(Apply(st, e), steps[1..]) else None
  }

  lemma EmptyValid()
    ensures Valid(Empty)
  {
  }

  /** Registering an absent user adds exactly that key, with a not-ready session and no payload on a new client. */
  lemma RegisterAbsent(st: State, userId: string)
    requires Valid(st) && userId !in st.clients
    ensures var st' := Register(st, userId);
      && st'.clients.Keys == st.clients.Keys + {userId}
      && !st'.clients[userId].ready && st'.clients[userId].qrData == None
      && st'.clients[userId].client !in st.listeners
      && (forall k | k in st.clients :: st'.clients[k] == st.clients[k])
  {
  }

  /** Registering a present user leaves the whole registry as it is, so registering is idempotent. */
  lemma RegisterIdempotent(st: State, userId: string)
    ensures userId in st.clients ==> Register(st, userId) == st
    ensures Register(Register(st, userId), userId) == Register(st, userId)
  {
  }

  lemma RegisterKeepsValid(st: State, userId: string)
    requires Valid(st)
    ensures Valid(Register(st, userId))
  {
  }

  /** A `qr` event awaits pairing with the new payload and leaves the client and every other key alone. */
  lemma QrAwaitsPairing(st: State, h: Handle, payload: string)
    requires CanFire(st, Qr(h, payload))
    ensures var userId := st.listeners[h].userId; var st' := Apply(st, Qr(h, payload));
      && st'.clients.Keys == st.clients.Keys
      && st'.clients[userId] == Session(st.clients[userId].client, false, Some(payload))
      && (forall k | k in st.clients && k != userId :: st'.clients[k] == st.clients[k])
      && st'.listeners == st.listeners
  {
  }

  /** A `ready` event makes the session ready and clears the payload, whatever it was before. */
  lemma ReadyConnects(st: State, h: Handle)
    requires CanFire(st, Ready(h))
    ensures var userId := st.listeners[h].userId; var st' := Apply(st, Ready(h));
      && st'.clients.Keys == st.clients.Keys
      && st'.clients[userId] == Session(st.clients[userId].client, true, None)
      && (forall k | k in st.clients && k != userId :: st'.clients[k] == st.clients[k])
      && st'.listeners == st.listeners
  {
  }

  /** An `auth_failure` event changes nothing. */
  lemma AuthFailureIsNoOp(st: State, h: Handle)
    requires CanFire(st, AuthFailure(h))
    ensures Apply(st, AuthFailure(h)) == st
  {
  }

  /**
   * A `disconnected` event from a client with the rebuilding listener puts a
   * fresh not-ready session on a client never seen before under the same key,
   * whether or not the key was still present; that client has no rebuilding
   * listener. From any other client it changes nothing.
   */
  lemma DisconnectReplaces(st: State, h: Handle)
    requires Valid(st) && CanFire(st, Disconnected(h))
    ensures var userId := st.listeners[h].userId; var st' := Apply(st, Disconnected(h));
      if st.listeners[h].rebuildOnDisconnect then
        && st'.clients.Keys == st.clients.Keys + {userId}
        && !st'.clients[userId].ready && st'.clients[userId].qrData == None
        && st'.clients[userId].client !in st.listeners
        && (forall k | k in st.clients :: st'.clients[userId].client != st.clients[k].client)
        && !st'.listeners[st'.clients[userId].client].rebuildOnDisconnect
        && (forall k | k in st.clients && k != userId :: st'.clients[k] == st.clients[k])
      else
        st' == st
  {
  }

  /** After a rebuild, a disconnect of the replacement client rebuilds nothing. */
  lemma SecondDisconnectIsNoOp(st: State, h: Handle)
    requires Valid(st) && CanFire(st, Disconnected(h)) && st.listeners[h].rebuildOnDisconnect
    ensures var st' := Apply(st, Disconnected(h)); var userId := st.listeners[h].userId;
      && CanFire(st', Disconnected(st'.clients[userId].client))
      && Apply(st', Disconnected(st'.clients[userId].client)) == st'
  {
  }

  /** No event touches a key other than the one its listeners are bound to. */
  lemma EventTouchesOnlyItsKey(st: State, e: Event, k: string)
    requires CanFire(st, e) && k != st.listeners[e.source].userId
    ensures k in Apply(st, e).clients <==> k in st.clients
    ensures k in st.clients ==> Apply(st, e).clients[k] == st.clients[k]
  {
  }

  lemma ApplyKeepsValid(st: State, e: Event)
    requires Valid(st) && CanFire(st, e)
    ensures Valid(Apply(st, e))
  {
  }

  /**
   * Logout removes the key exactly when it was present and the logout
   * succeeded; every other key is unchanged either way.
   */
  lemma LogoutEffect(st: State, userId: string, loggedOut: bool)
    ensures var st' := Logout(st, userId, loggedOut);
      && (userId in st'.clients <==> userId in st.clients && !loggedOut)
      && st'.clients.Keys == st.clients.Keys - (if loggedOut then {userId} else {})
      && (forall k | k in st'.clients :: st'.clients[k] == st.clients[k])
  {
  }

  lemma LogoutKeepsValid(st: State, userId: string, loggedOut: bool)
    requires Valid(st)
    ensures Valid(Logout(st, userId, loggedOut))
  {
  }

  /** After a successful logout the `qr` and `ready` listeners of that user's clients can no longer run. */
  lemma LoggedOutListenersWouldThrow(st: State, userId: string, h: Handle, payload: string)
    requires userId in st.clients && h in st.listeners && st.listeners[h].userId == userId
    ensures !CanFire(Logout(st, userId, true), Qr(h, payload))
    ensures !CanFire(Logout(st, userId, true), Ready(h))
  {
  }

  /** Two users never share a client. */
  lemma DistinctUsersDistinctClients(st: State, k1: string, k2: string)
    requires Valid(st) && k1 in st.clients && k2 in st.clients && k1 != k2
    ensures st.clients[k1].client != st.clients[k2].client
  {
  }

  /** Every state reached by a trace from a valid state is valid: in particular ready implies no payload. */
  lemma {:induction false} RunKeepsValid(st: State, steps: seq<Step>)
    requires Valid(st) && Run(st, steps).Some?
    ensures Valid(Run(st, steps).value)
    ensures forall k | k in Run(st, steps).value.clients ::
      Run(st, steps).value.clients[k].ready ==> Run(st, steps).value.clients[k].qrData == None
    decreases |steps|
  {
    if steps != [] {
      match steps[0]
      case RegisterStep(userId) =>
        RegisterKeepsValid(st, userId);
        RunKeepsValid(Register(st, userId), steps[1..]);
      case LogoutStep(userId, loggedOut) =>
        LogoutKeepsValid(st, userId, loggedOut);
        RunKeepsValid(Logout(st, userId, loggedOut), steps[1..]);
      case EventStep(e) =>
        ApplyKeepsValid(st, e);
        RunKeepsValid(Apply(st, e), steps[1..]);
    }
  }
}
