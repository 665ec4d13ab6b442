/**
 * Which answer `GET /register/:userId` (index.js:139-157) and
 * `GET /logout/:userId` (index.js:211-230) give. The HTML and the QR image
 * are not modelled, only the branch taken and what it carries.
 */
module Responses {
  import opened Wrappers
  import opened Sessions

  datatype RegisterPage =
    | AlreadyConnected(userId: string)
    | QrNotReady
    | ScanQr(userId: string, qr: string)

  /**
   * Readiness first, then the payload, tested with JavaScript truthiness:
   * `null` and the empty string both mean "no QR yet".
   */
  function RegisterPageFor(userId: string, s: Session): (page: RegisterPage)
    ensures page.AlreadyConnected? <==> s.ready
    ensures page.QrNotReady? <==> !s.ready && (s.qrData == None || s.qrData == Some(""))
    ensures page.ScanQr? ==> s.qrData == Some(page.qr) && page.qr != ""
    ensures !page.QrNotReady? ==> page.userId == userId
  {
    if s.ready then AlreadyConnected(userId)
    else if s.qrData == None || s.qrData.value == "" then QrNotReady
    else ScanQr(userId, s.qrData.value)
  }

  /** A consistent session never shows a QR code once ready, and shows one whenever it holds a payload and is not ready. */
  lemma RegisterPageOfConsistent(userId: string, s: Session)
    requires Consistent(s)
    ensures RegisterPageFor(userId, s).ScanQr? ==> !s.ready
    ensures !s.ready && s.qrData != None && s.qrData.value != "" ==>
      RegisterPageFor(userId, s) == ScanQr(userId, s.qrData.value)
  {
  }

  datatype LogoutResponse =
    | NoSession(error: string)                    // 404
    | LoggedOut(userId: string)                   // 200 {status: "logged_out", userId}
    | LogoutFailed(error: string, details: string) // 500

  const LogoutFailedError: string := "Logout failed"

  function NoSessionError(userId: string): string {
    "No session found for " + userId
  }

  function LogoutStatus(r: LogoutResponse): int {
    match r
    case NoSession(_) => 404
    case LoggedOut(_) => 200
    case LogoutFailed(_, _) => 500
  }

  /**
   * The logout answer: 404 for an absent user; otherwise the outcome of the
   * client's `logout()` (None when it resolved, Some(e) when it threw with
   * `err.toString()` equal to e).
   */
  function LogoutResponseFor(userId: string, present: bool, failure: Option<string>): (r: LogoutResponse)
    ensures LogoutStatus(r) == 404 <==> !present
    ensures LogoutStatus(r) == 200 <==> present && failure == None
    ensures LogoutStatus(r) == 500 <==> present && failure != None
    ensures r.LoggedOut? ==> r.userId == userId
    ensures r.LogoutFailed? ==> Some(r.details) == failure && r.error == LogoutFailedError
    ensures r.NoSession? ==> |userId| <= |r.error| && r.error[|r.error| - |userId|..] == userId
  {
    if !present then
      var e := NoSessionError(userId);
      assert e[|e| - |userId|..] == userId;
      NoSession(e)
    else if failure == None then LoggedOut(userId)
    else LogoutFailed(LogoutFailedError, failure.value)
  }

  /** The answer says "logged out" exactly when the registry entry is gone afterwards. */
  lemma LogoutAnswerMatchesRegistry(st: State, userId: string, failure: Option<string>)
    ensures LogoutResponseFor(userId, userId in st.clients, failure).LoggedOut? <==>
      userId in st.clients && userId !in Logout(st, userId, failure == None).clients
  {
  }
}
