/** Session storage configuration, the sign-in outcome shared by both strategies, and the two
  * find-or-create callbacks that turn a verified social-network identity into a local user. */
module Auth {
  import opened Wrappers
  import opened Strings
  import opened Store
  import Neynar

  // ---------------------------------------------------------------- session storage

  datatype SameSite = Lax | Strict | NoSameSite

  datatype CookieOptions = CookieOptions(
    name: string,
    sameSite: SameSite,
    path: string,
    httpOnly: bool,
    secrets: seq<string>,
    secure: bool)

  /** The fallback signing secret used when no secret is configured. */
  const DefaultSecret := "STRONG_SECRET"

  /** The session cookie, given the `SESSION_SECRET` and `NODE_ENV` settings (unset: `None`). */
  function SessionCookie(sessionSecret: Option<string>, nodeEnv: string): (c: CookieOptions)
    ensures c.name == "_session" && c.path == "/" && c.httpOnly && c.sameSite == Lax
    ensures |c.secrets| == 1 && c.secrets[0] != ""
    ensures c.secrets[0] == DefaultSecret <==> sessionSecret.None? || sessionSecret.value in {"", DefaultSecret}
    ensures sessionSecret.Some? && sessionSecret.value != "" ==> c.secrets == [sessionSecret.value]
    ensures c.secure <==> nodeEnv == "production"
  {
    var secret := if sessionSecret.Some? && sessionSecret.value != "" then sessionSecret.value else DefaultSecret;
    CookieOptions("_session", Lax, "/", true, [secret], nodeEnv == "production")
  }

  // ---------------------------------------------------------------- query parameters

  /** A query parameter is usable when it is present and not empty. */
  predicate Present(query: map<string, string>, name: string)
  {
    name in query && query[name] != ""
  }

  // ---------------------------------------------------------------- flash messages

  /** A one-shot toast stored in the session; `id` is a fresh opaque identifier when present. */
  datatype FlashKind = SuccessFlash | ErrorFlash

  datatype FlashMessage = FlashMessage(id: Option<string>, kind: FlashKind, message: string)

  /** What `commitSession` serialises into the `Set-Cookie` header (signing left out). */
  datatype CommittedSession = CommittedSession(values: map<string, string>, flashes: map<string, FlashMessage>)

  /** A cookie-backed session as read from one request. */
  class Session {
    var values: map<string, string>
    var flashes: map<string, FlashMessage>

    constructor (values: map<string, string>, flashes: map<string, FlashMessage>)
      ensures this.values == values && this.flashes == flashes
    {
      this.values, this.flashes := values, flashes;
    }

    /** `session.flash(key, message)`: replaces the flash slot `key`, leaves the values alone. */
    method Flash(key: string, message: FlashMessage)
      modifies this
      ensures flashes == old(flashes)[key := message] && values == old(values)
    {
      flashes := flashes[key := message];
    }

    /** `commitSession(session)`: the header value carrying the session's current contents. */
    function Commit(): CommittedSession
      reads this
    {
      CommittedSession(values, flashes)
    }
  }

  // ---------------------------------------------------------------- sign-in outcome

  /** How a strategy's `authenticate` ends: a user, a `failure(message, cause)`, or an error thrown
    * by an external service that the strategy does not catch. */
  datatype AuthOutcome =
    | Authenticated(user: User)
    | Failed(message: string, cause: Option<string>)
    | Threw(error: string)

  // ---------------------------------------------------------------- signature sign-in callback

  /** The identity the signature strategy hands to its callback; `username` and `pfpUrl` are
    * raw query parameters and may be missing. */
  datatype FarcasterUser = FarcasterUser(fid: string, username: Option<string>, pfpUrl: Option<string>)

  /** `args.username || args.fid`: a missing or empty username falls back to the fid. */
  function DisplayName(args: FarcasterUser): (name: string)
    ensures name == args.fid <==> args.username.None? || args.username.value in {"", args.fid}
    ensures args.username.Some? && args.username.value != "" ==> name == args.username.value
  {
    if args.username.Some? && args.username.value != "" then args.username.value else args.fid
  }

  /** The users table and the returned user after the find-or-create of `verifyFarcasterUser`. */
  function FarcasterUpsert(users: map<string, User>, args: FarcasterUser): (r: (map<string, User>, User))
    ensures args.fid in r.0 && r.0[args.fid] == r.1
    ensures forall id :: id != args.fid ==> (id in r.0 <==> id in users) && (id in users ==> r.0[id] == users[id])
    ensures args.fid in users ==> r.0 == users
    ensures args.fid !in users ==> r.1 == User(args.fid, DisplayName(args), args.pfpUrl, None)
    ensures UsersKeyed(users) ==> UsersKeyed(r.0)
  {
    if args.fid in users then (users, users[args.fid])
    else
      var created := User(args.fid, DisplayName(args), args.pfpUrl, None);
      (users[args.fid := created], created)
  }

  /** Calling the callback a second time with the same arguments changes nothing and returns the same user. */
  lemma FarcasterUpsertIdempotent(users: map<string, User>, args: FarcasterUser)
    ensures var r := FarcasterUpsert(users, args); FarcasterUpsert(r.0, args) == r
  {
  }

  /** `verifyFarcasterUser`: returns the stored user with id `fid` untouched, or creates it.
    * `storeError` is the error the database raises for this request, if any; it raises before any write. */
  method VerifyFarcasterUser(db: Database, args: FarcasterUser, storeError: Option<string>)
    returns (r: Result<User, string>)
    modifies db
    ensures storeError.Some? ==> r == Failure(storeError.value) && db.Snapshot() == old(db.Snapshot())
    ensures storeError.None? ==>
      var after := FarcasterUpsert(old(db.users), args);
      r == Success(after.1) && db.Snapshot() == old(db.Snapshot()).(users := after.0)
  {
    if storeError.Some? {
      return Failure(storeError.value);
    }
    if args.fid in db.users {
      return Success(db.users[args.fid]);
    }
    var created := User(args.fid, DisplayName(args), args.pfpUrl, None);
    db.users := db.users[args.fid := created];
    r := Success(created);
  }

  // ---------------------------------------------------------------- signer sign-in callback

  /** The users table and the returned user after the find-or-upsert of the signer callback. */
  function NeynarUpsert(users: map<string, User>, profile: Neynar.NeynarUser, signerUuid: string): (r: (map<string, User>, User))
    ensures var id := DecimalString(profile.fid);
      && id in r.0 && r.0[id] == r.1 && r.1.signerUuid == Some(signerUuid)
      && (forall other :: other != id ==> (other in r.0 <==> other in users) && (other in users ==> r.0[other] == users[other]))
    ensures var id := DecimalString(profile.fid);
      id in users && users[id].signerUuid == Some(signerUuid) ==> r.0 == users
    ensures var id := DecimalString(profile.fid);
      !(id in users && users[id].signerUuid == Some(signerUuid)) ==>
        r.1 == User(id, profile.username, Some(profile.pfpUrl), Some(signerUuid))
    ensures UsersKeyed(users) ==> UsersKeyed(r.0)
  {
    var id := DecimalString(profile.fid);
    if id in users && users[id].signerUuid == Some(signerUuid) then (users, users[id])
    else
      var upserted := User(id, profile.username, Some(profile.pfpUrl), Some(signerUuid));
      (users[id := upserted], upserted)
  }

  /** A second sign-in with the same profile and signer finds the row the first one wrote. */
  lemma NeynarUpsertIdempotent(users: map<string, User>, profile: Neynar.NeynarUser, signerUuid: string)
    ensures var r := NeynarUpsert(users, profile, signerUuid); NeynarUpsert(r.0, profile, signerUuid) == r
  {
  }

  /** The signer callback: `findFirst` on (id, signerUuid), otherwise `upsert` on id. */
  method VerifyNeynarUser(db: Database, profile: Neynar.NeynarUser, signerUuid: string, storeError: Option<string>)
    returns (r: Result<User, string>)
    modifies db
    ensures storeError.Some? ==> r == Failure(storeError.value) && db.Snapshot() == old(db.Snapshot())
    ensures storeError.None? ==>
      var after := NeynarUpsert(old(db.users), profile, signerUuid);
      r == Success(after.1) && db.Snapshot() == old(db.Snapshot()).(users := after.0)
  {
    if storeError.Some? {
      return Failure(storeError.value);
    }
    var id := DecimalString(profile.fid);
    if id in db.users && db.users[id].signerUuid == Some(signerUuid) {
      return Success(db.users[id]);
    }
    var upserted := User(id, profile.username, Some(profile.pfpUrl), Some(signerUuid));
    db.users := db.users[id := upserted];
    r := Success(upserted);
  }
}
