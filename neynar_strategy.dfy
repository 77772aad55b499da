/** The delegated-signer sign-in strategy: query parameters, the signer-status lookup, the bulk
  * profile fetch, then the find-or-upsert callback. */
module NeynarAuth {
  import opened Wrappers
  import opened Strings
  import opened Store
  import opened Auth
  import Neynar

  /** What the signer lookup answers; `fid` is absent for a signer not yet bound to an account. */
  datatype SignerStatus = SignerStatus(status: string, fid: Option<nat>)

  const MissingCredentials := "Missing signer uuid or fid"
  const InvalidCredentials := "Credentials are invalid. Sign in again."

  /** `String(x)` for an optional number: `"undefined"` when absent. */
  function FidString(fid: Option<nat>): (s: string)
    ensures fid.None? ==> s == "undefined"
    ensures fid.Some? ==> AllDigits(s) && ParseDecimal(s) == fid.value
  {
    match fid
    case None => "undefined"
    case Some(n) => ParseDecimalString(n); DecimalString(n)
  }

  function NotFound(fid: Option<nat>): string
  {
    "User with fid " + FidString(fid) + " not found"
  }

  /** The acceptance test on the signer: approved, and its fid rendered as a string is the query's fid. */
  predicate SignerAccepted(signer: SignerStatus, claimedFid: string)
  {
    signer.status == "approved" && FidString(signer.fid) == claimedFid
  }

  /** `NeynarStrategy.authenticate`. `lookupSigner` and `fetchBulkUsers` answer for the API (a
    * `Failure` is an error it throws); `storeError` is the database's error for this request.
    * The ghost results record every call made to the API and to the callback. */
  method Authenticate(query: map<string, string>,
                      lookupSigner: string -> Result<SignerStatus, string>,
                      fetchBulkUsers: Option<nat> -> Result<seq<Neynar.NeynarUser>, string>,
                      db: Database, storeError: Option<string>)
    returns (r: AuthOutcome, ghost lookups: seq<string>, ghost fetches: seq<Option<nat>>,
             ghost callbackCalls: seq<(Neynar.NeynarUser, string)>)
    modifies db
    ensures |lookups| <= 1 && |fetches| <= |lookups| && |callbackCalls| <= |fetches|
    ensures !(Present(query, "signerUuid") && Present(query, "fid")) ==>
      && r == Failed(MissingCredentials, None)
      && lookups == [] && fetches == [] && callbackCalls == []
      && db.Snapshot() == old(db.Snapshot())
    ensures Present(query, "signerUuid") && Present(query, "fid") ==>
      var signer := lookupSigner(query["signerUuid"]);
      && lookups == [query["signerUuid"]]
      && (signer.Failure? ==> r == Threw(signer.error) && fetches == [] && db.Snapshot() == old(db.Snapshot()))
      && (signer.Success? && !SignerAccepted(signer.value, query["fid"]) ==>
            r == Failed(InvalidCredentials, None) && fetches == [] && callbackCalls == []
            && db.Snapshot() == old(db.Snapshot()))
      && (signer.Success? && SignerAccepted(signer.value, query["fid"]) ==>
            var profiles := fetchBulkUsers(signer.value.fid);
            && fetches == [signer.value.fid]
            && (profiles.Failure? || |profiles.value| == 0 ==>
                  r == Failed(NotFound(signer.value.fid), None) && callbackCalls == []
                  && db.Snapshot() == old(db.Snapshot()))
            && (profiles.Success? && |profiles.value| > 0 ==>
                  && callbackCalls == [(profiles.value[0], query["signerUuid"])]
                  && (storeError.Some? ==> r == Failed(storeError.value, None) && db.Snapshot() == old(db.Snapshot()))
                  && (storeError.None? ==>
                        var after := NeynarUpsert(old(db.users), profiles.value[0], query["signerUuid"]);
                        r == Authenticated(after.1) && db.Snapshot() == old(db.Snapshot()).(users := after.0))))
  {
    lookups, fetches, callbackCalls := [], [], [];
    if !Present(query, "signerUuid") || !Present(query, "fid") {
      return Failed(MissingCredentials, None), lookups, fetches, callbackCalls;
    }
    var signerUuid := query["signerUuid"];
    var signer := lookupSigner(signerUuid);
    lookups := [signerUuid];
    if signer.Failure? {
      return Threw(signer.error), lookups, fetches, callbackCalls;
    }
    var success := signer.value.status == "approved" && FidString(signer.value.fid) == query["fid"];
    if !success {
      return Failed(InvalidCredentials, None), lookups, fetches, callbackCalls;
    }
    var profiles := fetchBulkUsers(signer.value.fid);
    fetches := [signer.value.fid];
    if profiles.Failure? || |profiles.value| == 0 {
      return Failed(NotFound(signer.value.fid), None), lookups, fetches, callbackCalls;
    }
    var user := VerifyNeynarUser(db, profiles.value[0], signerUuid, storeError);
    callbackCalls := [(profiles.value[0], signerUuid)];
    if user.Failure? {
      return Failed(user.error, None), lookups, fetches, callbackCalls;
    }
    r := Authenticated(user.value);
  }

  /** The comparison is on strings: a claimed fid with a leading zero ("0123") is never accepted,
    * whatever the signer's fid. */
  lemma LeadingZeroFidRejected(signer: SignerStatus, claimedFid: string)
    requires |claimedFid| >= 2 && claimedFid[0] == '0'
    ensures !SignerAccepted(signer, claimedFid)
  {
    if signer.fid.Some? {
      LeadingZeroIsNotARendering(claimedFid, signer.fid.value);
    }
  }

  /** An accepted claim names the signer's fid exactly: read as a number it is that fid, and the
    * signer was bound to an account. */
  lemma AcceptedFidDenotesSignerFid(signer: SignerStatus, claimedFid: string)
    requires SignerAccepted(signer, claimedFid)
    requires AllDigits(claimedFid)
    ensures signer.fid.Some? && ParseDecimal(claimedFid) == signer.fid.value
  {
    assert !IsDigit(FidString(None)[0]);
  }

  /** Two different accounts can never both be accepted for the same claimed fid. */
  lemma AcceptanceIsUnambiguous(a: SignerStatus, b: SignerStatus, claimedFid: string)
    requires SignerAccepted(a, claimedFid) && SignerAccepted(b, claimedFid)
    ensures a.fid == b.fid
  {
    if a.fid.Some? && b.fid.Some? {
      DecimalStringInjective(a.fid.value, b.fid.value);
    }
  }
}
