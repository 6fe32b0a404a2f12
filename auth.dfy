/**
 * The state effects of `js/auth.js`: normalising a user record that comes
 * from the server, the trusted-device marker, and registering, signing in
 * and signing out. The server's reply is an input; the request itself, the
 * password hashing and the background sync on sign-out are not modelled.
 */
module Auth {
  import opened Wrappers
  import opened Journal

  /** `normalizeUser(user)`: every collection defaulted, version 1 and the current time when missing. */
  function NormalizeUser(raw: RawUser, now: int): (u: UserRecord)
    ensures u.version == Some(raw.version.GetOr(1)) && u.updatedAt == Some(raw.updatedAt.GetOr(now))
    ensures u.passwordHash == raw.passwordHash && u.activeWorkout == raw.activeWorkout
    ensures u.workouts == raw.workouts.GetOr([]) && u.exerciseHistory == raw.exerciseHistory.GetOr(map[])
    ensures u.templates == raw.templates.GetOr([]) && u.exerciseLibrary == raw.exerciseLibrary.GetOr([])
  {
    UserRecord(Some(raw.version.GetOr(1)), raw.passwordHash, raw.workouts.GetOr([]), raw.activeWorkout,
               raw.exerciseHistory.GetOr(map[]), raw.templates.GetOr([]), raw.exerciseLibrary.GetOr([]),
               Some(raw.updatedAt.GetOr(now)))
  }

  /**
   * Normalising an already normal record changes nothing, whatever the time,
   * and it fills the collections exactly as the start-up migration does.
   */
  lemma NormalizeIdempotent(raw: RawUser, now: int, later: int)
    ensures NormalizeUser(AsRaw(NormalizeUser(raw, now)), later) == NormalizeUser(raw, now)
    ensures NormalizeUser(raw, now) == Migrate(raw).(version := Some(raw.version.GetOr(1)), updatedAt := Some(raw.updatedAt.GetOr(now)))
  {
  }

  /** The `trustedUser` entry of the device's local storage. */
  class Device {
    var trustedUser: Option<string>

    constructor (stored: Option<string>)
      ensures trustedUser == stored
    {
      trustedUser := stored;
    }
  }

  /** `isTrustedDevice()`: a non-empty marker naming the signed-in user. */
  predicate IsTrustedDevice(dev: Device, st: State)
    reads dev, st
  {
    dev.trustedUser.Some? && dev.trustedUser.value != "" && st.currentUser == dev.trustedUser
  }

  /**
   * The outcome of the request: a user record, a refusal with its response
   * text, or a failure before any record arrives (the fetch rejects offline,
   * or the body is not JSON) with the message of the error it throws.
   */
  datatype Reply = Accepted(body: RawUser) | Refused(text: string) | Failed(error: string)

  /** How a sign-in attempt ends: signed in, or the error it throws. */
  datatype AuthResult = Signed | AuthError(message: string)

  const MissingCredentials := "Username and password are required"
  const InvalidCredentials := "Invalid username or password"

  /**
   * `registerUser(username, password)`: empty credentials and a refused or
   * failed request throw and change nothing; an accepted one stores the normalised
   * server record, signs the user in, trusts the device and saves.
   */
  method RegisterUser(st: State, dev: Device, username: string, password: string, reply: Reply, now: int)
    returns (r: AuthResult)
    modifies st, dev
    ensures username == "" || password == "" ==> r == AuthError(MissingCredentials) && unchanged(st, dev)
    ensures username != "" && password != "" && reply.Refused? ==> r == AuthError(reply.text) && unchanged(st, dev)
    ensures username != "" && password != "" && reply.Failed? ==> r == AuthError(reply.error) && unchanged(st, dev)
    ensures username != "" && password != "" && reply.Accepted? ==>
      && r == Signed
      && st.users == old(st.users)[username := NormalizeUser(reply.body, now)]
      && st.currentUser == Some(username)
      && dev.trustedUser == Some(username)
      && st.saves == old(st.saves) + 1
    ensures r.Signed? ==> st.GetCurrentUser() == Some(NormalizeUser(reply.body, now)) && IsTrustedDevice(dev, st)
  {
    if username == "" || password == "" {
      return AuthError(MissingCredentials);
    }
    if reply.Refused? {
      return AuthError(reply.text);
    }
    if reply.Failed? {
      return AuthError(reply.error);
    }
    st.users := st.users[username := NormalizeUser(reply.body, now)];
    st.currentUser := Some(username);
    dev.trustedUser := Some(username);
    st.saves := st.saves + 1;
    r := Signed;
  }

  /**
   * `loginUser(username, password, rememberMe)`: as registering, except that
   * a refusal always reads "Invalid username or password", a failure throws
   * its own error, and the device is
   * trusted only when asked to remember it, its marker cleared otherwise.
   */
  method LoginUser(st: State, dev: Device, username: string, password: string, rememberMe: bool, reply: Reply, now: int)
    returns (r: AuthResult)
    modifies st, dev
    ensures username == "" || password == "" ==> r == AuthError(MissingCredentials) && unchanged(st, dev)
    ensures username != "" && password != "" && reply.Refused? ==> r == AuthError(InvalidCredentials) && unchanged(st, dev)
    ensures username != "" && password != "" && reply.Failed? ==> r == AuthError(reply.error) && unchanged(st, dev)
    ensures username != "" && password != "" && reply.Accepted? ==>
      && r == Signed
      && st.users == old(st.users)[username := NormalizeUser(reply.body, now)]
      && st.currentUser == Some(username)
      && dev.trustedUser == (if rememberMe then Some(username) else None)
      && st.saves == old(st.saves) + 1
    ensures r.Signed? ==> st.GetCurrentUser() == Some(NormalizeUser(reply.body, now)) && (IsTrustedDevice(dev, st) <==> rememberMe)
  {
    if username == "" || password == "" {
      return AuthError(MissingCredentials);
    }
    if reply.Refused? {
      return AuthError(InvalidCredentials);
    }
    if reply.Failed? {
      return AuthError(reply.error);
    }
    st.users := st.users[username := NormalizeUser(reply.body, now)];
    st.currentUser := Some(username);
    if rememberMe {
      dev.trustedUser := Some(username);
    } else {
      dev.trustedUser := None;
    }
    st.saves := st.saves + 1;
    r := Signed;
  }

  /** `logoutUser()`: nobody is signed in, the device is no longer trusted, every record is kept. */
  method LogoutUser(st: State, dev: Device)
    modifies st, dev
    ensures st.currentUser == None && dev.trustedUser == None
    ensures st.users == old(st.users) && st.saves == old(st.saves) + 1
    ensures !st.SignedIn() && !IsTrustedDevice(dev, st)
  {
    st.currentUser := None;
    dev.trustedUser := None;
    st.saves := st.saves + 1;
  }
}
