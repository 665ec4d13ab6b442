/**
 * `clients` is a plain object (index.js:55), so `clients[userId]` also finds
 * the members every object inherits from `Object.prototype`. For a user id
 * such as "constructor" or "__proto__" the lookups at index.js:60, 139 and
 * 213 see a truthy value although no session exists. This module models the
 * lookup as written and shows what it does to register and logout; the rest
 * of the model uses own-key lookup (`userId in clients`), the evidently
 * intended behaviour.
 */
module PlainObjectLookup {
  import opened Wrappers
  import opened Sessions
  import opened Responses

  /** Names of the members of `Object.prototype`. */
  const InheritedNames: set<string> := {
    "constructor", "__proto__", "toString", "toLocaleString", "valueOf",
    "hasOwnProperty", "isPrototypeOf", "propertyIsEnumerable",
    "__defineGetter__", "__defineSetter__", "__lookupGetter__", "__lookupSetter__"
  }

  /** The message V8 gives for `clientState.client.logout()` when `client` is undefined. */
  const UndefinedLogoutError: string := "TypeError: Cannot read properties of undefined (reading 'logout')"

  datatype Lookup = Own(session: Session) | Inherited | Absent

  /** `clients[userId]` on a plain object. */
  function LookupAsWritten(clients: map<string, Session>, userId: string): (l: Lookup)
    ensures l.Own? <==> userId in clients
    ensures l.Own? ==> l.session == clients[userId]
    ensures l.Inherited? <==> userId !in clients && userId in InheritedNames
  {
    if userId in clients then Own(clients[userId])
    else if userId in InheritedNames then Inherited
    else Absent
  }

  /**
   * `GET /register/:userId` as written: an inherited member is truthy, so no
   * session is created, and its `ready` and `qrData` are undefined, so the
   * answer is "QR not ready".
   */
  function RegisterAsWritten(st: State, userId: string): (r: (State, RegisterPage))
    ensures r.0 == Sessions.Register(st, userId) <==> userId !in InheritedNames || userId in st.clients
    ensures userId in InheritedNames && userId !in st.clients ==> r.0 == st && r.1 == QrNotReady
  {
    match LookupAsWritten(st.clients, userId)
    case Own(s) => (st, RegisterPageFor(userId, s))
    case Inherited => (st, QrNotReady)
    case Absent =>
      var st' := Sessions.Register(st, userId);
      (st', RegisterPageFor(userId, st'.clients[userId]))
  }

  /**
   * `GET /logout/:userId` as written: an inherited member passes the 404
   * check, and reading `.client.logout` of it throws inside the try, so the
   * answer is 500.
   */
  function LogoutAsWritten(st: State, userId: string, failure: Option<string>): (r: (State, LogoutResponse))
    ensures r.0 == Sessions.Logout(st, userId, failure == None)
    ensures LogoutStatus(r.1) == 500 <==>
      (userId in st.clients && failure != None) || (userId !in st.clients && userId in InheritedNames)
    ensures LogoutStatus(r.1) == 404 <==> userId !in st.clients && userId !in InheritedNames
  {
    match LookupAsWritten(st.clients, userId)
    case Inherited => (st, LogoutFailed(LogoutFailedError, UndefinedLogoutError))
    case _ =>
      (Sessions.Logout(st, userId, failure == None), LogoutResponseFor(userId, userId in st.clients, failure))
  }

  /** Off the inherited names, the code as written and the model agree. */
  lemma AsWrittenAgreesElsewhere(st: State, userId: string, failure: Option<string>)
    requires userId !in InheritedNames
    ensures RegisterAsWritten(st, userId).0 == Sessions.Register(st, userId)
    ensures RegisterAsWritten(st, userId).1 == RegisterPageFor(userId, Sessions.Register(st, userId).clients[userId])
    ensures LogoutAsWritten(st, userId, failure) ==
      (Sessions.Logout(st, userId, failure == None), LogoutResponseFor(userId, userId in st.clients, failure))
  {
  }

  /**
   * As written, a user whose id is an inherited name can never register: the
   * registry stays as it is and the answer is always "QR not ready", whereas
   * the intended registration adds a session for that user.
   */
  lemma InheritedNameNeverRegisters(st: State, userId: string)
    requires userId in InheritedNames && userId !in st.clients
    ensures RegisterAsWritten(st, userId) == (st, QrNotReady)
    ensures userId in Sessions.Register(st, userId).clients
    ensures Sessions.Register(st, userId) != st
  {
  }

  /** As written, logging out the unknown user "constructor" answers 500 instead of 404. */
  lemma LogoutOfConstructor()
    ensures LogoutStatus(LogoutAsWritten(Sessions.Empty, "constructor", None).1) == 500
    ensures LogoutStatus(LogoutResponseFor("constructor", "constructor" in Sessions.Empty.clients, None)) == 404
  {
  }
}
