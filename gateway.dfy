/**
 * The process-wide `clients` object of index.js:55 and the handlers that
 * update it in place: the route handlers for register, send and logout, and
 * the listeners each automation client carries. Each method is one atomic
 * step. The methods that write the registry are proved against the functions
 * of module Sessions; Send is proved against Dispatch.HandleSend.
 */
module Gateway {
  import opened Wrappers
  import opened Sessions
  import opened Dispatch
  import opened Responses

  class Registry {
    /** `clients`: user id to `{ client, ready, qrData }`. */
    var clients: map<string, Session>
    /** The listeners attached to each client built so far. */
    var listeners: map<Handle, Listeners>
    /** The handle the next `new Client(...)` returns. */
    var nextHandle: Handle

    function State(): Sessions.State
      reads this
    {
      Sessions.State(clients, listeners, nextHandle)
    }

    predicate Valid()
      reads this
    {
      Sessions.Valid(State())
    }

    constructor ()
      ensures Valid() && State() == Sessions.Empty
    {
      clients, listeners, nextHandle := map[], map[], 0;
    }

    /** `new Client(...)` for userId followed by the `client.on(...)` registrations. */
    method NewClient(userId: string, rebuildOnDisconnect: bool) returns (h: Handle)
      modifies this
      ensures h == old(nextHandle) && nextHandle == h + 1
      ensures listeners == old(listeners)[h := Listeners(userId, rebuildOnDisconnect)]
      ensures clients == old(clients)
    {
      h := nextHandle;
      nextHandle := nextHandle + 1;
      listeners := listeners[h := Listeners(userId, rebuildOnDisconnect)];
    }

    /** `GET /register/:userId` (index.js:57-158). */
    method Register(userId: string) returns (page: RegisterPage)
      requires Valid()
      modifies this
      ensures Valid()
      ensures State() == Sessions.Register(old(State()), userId)
      ensures page == RegisterPageFor(userId, clients[userId])
    {
      if userId !in clients {
        var client := NewClient(userId, true);
        clients := clients[userId := Session(client, false, None)];
        // client.initialize() runs out of band; its effects are the events below
      }
      var session := clients[userId];
      if session.ready {
        return AlreadyConnected(userId);
      }
      if session.qrData == None || session.qrData.value == "" {
        return QrNotReady;
      }
      page := ScanQr(userId, session.qrData.value);
    }

    /** The `qr` listener (index.js:73-76, 118-121): two field writes on the current entry. */
    method OnQr(h: Handle, qr: string)
      requires Valid() && CanFire(State(), Qr(h, qr))
      modifies this
      ensures Valid()
      ensures State() == Apply(old(State()), Qr(h, qr))
    {
      var userId := listeners[h].userId;
      clients := clients[userId := clients[userId].(qrData := Some(qr))];
      clients := clients[userId := clients[userId].(ready := false)];
    }

    /** The `ready` listener (index.js:78-82, 123-127). */
    method OnReady(h: Handle)
      requires Valid() && CanFire(State(), Ready(h))
      modifies this
      ensures Valid()
      ensures State() == Apply(old(State()), Ready(h))
    {
      var userId := listeners[h].userId;
      clients := clients[userId := clients[userId].(ready := true)];
      clients := clients[userId := clients[userId].(qrData := None)];
    }

    /**
     * The `disconnected` listener (index.js:88-134), present only on the
     * first client of a registration. The destroy of the current client may
     * fail; the failure is caught and the rebuild goes ahead.
     */
    method OnDisconnected(h: Handle)
      requires Valid() && CanFire(State(), Disconnected(h))
      modifies this
      ensures Valid()
      ensures State() == Apply(old(State()), Disconnected(h))
    {
      var userId := listeners[h].userId;
      if listeners[h].rebuildOnDisconnect {
        var newClient := NewClient(userId, false);
        clients := clients[userId := Session(newClient, false, None)];
      }
    }

    /** `POST /send/:userId` (index.js:165-209): reads the registry, never writes it. */
    method Send(userId: string, numbers: Value, message: Value, outcomes: seq<Option<string>>)
      returns (response: SendResponse, calls: seq<Call>)
      requires numbers.Arr? ==> |outcomes| == |numbers.items|
      ensures response.NotReady? <==> userId !in clients || !clients[userId].ready
      ensures response.BadRequest? <==>
        userId in clients && clients[userId].ready && !(numbers.Arr? && numbers.items != [] && message.Str?)
      ensures response.Delivered? ==>
        && numbers.Arr? && message.Str?
        && response.userId == userId
        && |response.results| == |numbers.items|
        && (forall i | 0 <= i < |numbers.items| :: response.results[i] == ResultFor(numbers.items[i], outcomes[i]))
        && calls == Outbox(numbers.items, message.s)
      ensures response.NotReady? ==> response.error == NotReadyError(userId)
      ensures response.BadRequest? ==> response.error == BodyError
      ensures !response.Delivered? ==> calls == []
    {
      var session := if userId in clients then Some(clients[userId]) else None;
      response, calls := HandleSend(userId, session, numbers, message, outcomes);
    }

    /**
     * `GET /logout/:userId` (index.js:211-231). `failure` is the outcome of
     * the client's `logout()`: None when it resolved, Some(e) when it threw.
     */
    method Logout(userId: string, failure: Option<string>) returns (response: LogoutResponse)
      requires Valid()
      modifies this
      ensures Valid()
      ensures State() == Sessions.Logout(old(State()), userId, failure == None)
      ensures response == LogoutResponseFor(userId, userId in old(clients), failure)
    {
      if userId !in clients {
        return NoSession(NoSessionError(userId));
      }
      if failure != None {
        return LogoutFailed(LogoutFailedError, failure.value);
      }
      // the entry is marked not ready without a payload, then deleted
      clients := clients[userId := clients[userId].(ready := false, qrData := None)];
      clients := clients - {userId};
      response := LoggedOut(userId);
    }
  }
}
