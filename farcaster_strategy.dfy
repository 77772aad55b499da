/** The signature sign-in strategy: query parameters, a sign-in-message verification service,
  * then the find-or-create callback. */
module FarcasterAuth {
  import opened Wrappers
  import opened Strings
  import opened Store
  import opened Auth

  /** What is sent to the verification service. */
  datatype SignInRequest = SignInRequest(message: string, signature: string, domain: string, nonce: string)

  /** What the verification service answers. */
  datatype SignInResponse = SignInResponse(success: bool, fid: nat, error: Option<string>)

  const MissingCredentials := "Missing message, signature or nonce"
  const InvalidSignature := "Invalid signature"

  /** A query parameter as the callback receives it: `None` when it is absent. */
  function Param(query: map<string, string>, name: string): Option<string>
  {
    if name in query then Some(query[name]) else None
  }

  /** `host.split(":")[0]`: the configured host without its port. */
  function Domain(host: string): (d: string)
    ensures ':' !in d && HasPrefix(host, d)
    ensures ':' !in host ==> d == host
    ensures d != host ==> host[|d|] == ':'
  {
    Split(host, ':')[0]
  }

  /** The request the service sees when every credential is present. */
  function SignInRequestFor(query: map<string, string>, host: string): SignInRequest
    requires Present(query, "message") && Present(query, "signature") && Present(query, "nonce")
  {
    SignInRequest(query["message"], query["signature"], Domain(host), query["nonce"])
  }

  /** The identity handed to the callback after a verified sign-in. */
  function CallbackArgs(query: map<string, string>, fid: nat): FarcasterUser
  {
    FarcasterUser(DecimalString(fid), Param(query, "username"), Param(query, "pfpUrl"))
  }

  /** `FarcasterStrategy.authenticate`. `host` is the host part of the configured application URL;
    * `verifySignIn` answers for the verification service (a `Failure` is an error it throws);
    * `storeError` is the error the database raises for this request, if any.
    * The ghost results record every call made to the service and to the callback. */
  method Authenticate(query: map<string, string>, host: string,
                      verifySignIn: SignInRequest -> Result<SignInResponse, string>,
                      db: Database, storeError: Option<string>)
    returns (r: AuthOutcome, ghost serviceCalls: seq<SignInRequest>, ghost callbackCalls: seq<FarcasterUser>)
    modifies db
    ensures |serviceCalls| <= 1 && |callbackCalls| <= |serviceCalls|
    ensures !(Present(query, "message") && Present(query, "signature") && Present(query, "nonce")) ==>
      && r == Failed(MissingCredentials, None)
      && serviceCalls == [] && callbackCalls == []
      && db.Snapshot() == old(db.Snapshot())
    ensures Present(query, "message") && Present(query, "signature") && Present(query, "nonce") ==>
      var answer := verifySignIn(SignInRequestFor(query, host));
      && serviceCalls == [SignInRequestFor(query, host)]
      && (answer.Failure? ==> r == Threw(answer.error) && callbackCalls == [] && db.Snapshot() == old(db.Snapshot()))
      && (answer.Success? && !answer.value.success ==>
            r == Failed(InvalidSignature, answer.value.error) && callbackCalls == [] && db.Snapshot() == old(db.Snapshot()))
      && (answer.Success? && answer.value.success ==>
            var args := CallbackArgs(query, answer.value.fid);
            && callbackCalls == [args]
            && (storeError.Some? ==> r == Failed(storeError.value, None) && db.Snapshot() == old(db.Snapshot()))
            && (storeError.None? ==>
                  var after := FarcasterUpsert(old(db.users), args);
                  r == Authenticated(after.1) && db.Snapshot() == old(db.Snapshot()).(users := after.0)))
  {
    serviceCalls, callbackCalls := [], [];
    if !Present(query, "message") || !Present(query, "signature") || !Present(query, "nonce") {
      return Failed(MissingCredentials, None), serviceCalls, callbackCalls;
    }
    var request := SignInRequestFor(query, host);
    var answer := verifySignIn(request);
    serviceCalls := [request];
    if answer.Failure? {
      return Threw(answer.error), serviceCalls, callbackCalls;
    }
    if !answer.value.success {
      return Failed(InvalidSignature, answer.value.error), serviceCalls, callbackCalls;
    }
    var args := CallbackArgs(query, answer.value.fid);
    var user := VerifyFarcasterUser(db, args, storeError);
    callbackCalls := [args];
    if user.Failure? {
      return Failed(user.error, None), serviceCalls, callbackCalls;
    }
    r := Authenticated(user.value);
  }

  /** The callback receives the verified fid itself: the user id it is given reads back as that fid. */
  lemma CallbackIdIsVerifiedFid(query: map<string, string>, fid: nat)
    ensures AllDigits(CallbackArgs(query, fid).fid) && ParseDecimal(CallbackArgs(query, fid).fid) == fid
  {
    ParseDecimalString(fid);
  }

  /** Signing in twice with the same verified fid lands on the same user, and the second sign-in
    * leaves the users table as the first one left it. */
  lemma RepeatedSignInSameUser(users: map<string, User>, query: map<string, string>, fid: nat, query2: map<string, string>)
    ensures var first := FarcasterUpsert(users, CallbackArgs(query, fid));
      FarcasterUpsert(first.0, CallbackArgs(query2, fid)) == first
  {
  }
}
