/** Server helpers: the authorization gates, flash responses, validation-error formatting,
  * cast-hash helpers and the generic read-through cache. */
module Utils {
  import opened Wrappers
  import opened Strings
  import opened Store
  import opened Caching
  import Auth

  // ---------------------------------------------------------------- authorization gates

  /** A gate either lets the request through with a record or aborts it with a redirect. */
  datatype Gate<T> = Pass(value: T) | Redirect(location: string)

  const Forbidden := "/403"

  /** `requireUserBelongsToTeam`: the team with id `teamId` that has `userId` among its teammates. */
  function RequireUserBelongsToTeam(db: Tables, userId: string, teamId: string): (r: Gate<Team>)
    ensures r.Pass? <==> teamId in db.teams && Teammate(userId, teamId) in db.teammates
    ensures r.Pass? ==> r.value == db.teams[teamId]
    ensures r.Redirect? ==> r.location == Forbidden
  {
    if teamId in db.teams && Teammate(userId, teamId) in db.teammates then Pass(db.teams[teamId])
    else Redirect(Forbidden)
  }

  /** `requireCanCastAsAuthor`: membership first, then the author's grant for the team. */
  function RequireCanCastAsAuthor(db: Tables, userId: string, teamId: string, authorId: string): (r: Gate<Grant>)
    ensures r.Pass? <==> RequireUserBelongsToTeam(db, userId, teamId).Pass? && Grant(authorId, teamId) in db.grants
    ensures r.Pass? ==> r.value in db.grants && r.value.userId == authorId && r.value.teamId == teamId
    ensures r.Redirect? ==> r.location == Forbidden
  {
    match RequireUserBelongsToTeam(db, userId, teamId)
    case Redirect(location) => Redirect(location)
    case Pass(_) =>
      if Grant(authorId, teamId) in db.grants then Pass(Grant(authorId, teamId)) else Redirect(Forbidden)
  }

  /** A missing team and a team the user is not on abort the same way. */
  lemma MissingTeamIsForbidden(db: Tables, userId: string, teamId: string, authorId: string)
    requires teamId !in db.teams
    ensures RequireUserBelongsToTeam(db, userId, teamId) == Redirect(Forbidden)
    ensures RequireCanCastAsAuthor(db, userId, teamId, authorId) == Redirect(Forbidden)
  {
  }

  /** A non-member is turned away whatever grants the team holds. */
  lemma NonMemberRejectedWhateverGrants(db: Tables, userId: string, teamId: string, authorId: string, grants: set<Grant>)
    requires Teammate(userId, teamId) !in db.teammates
    ensures RequireCanCastAsAuthor(db.(grants := grants), userId, teamId, authorId) == Redirect(Forbidden)
  {
  }

  /** The cast gate looks at neither the author's user row (its signer in particular) nor the
    * author's own membership: only the caller's membership and the author's grant matter. */
  lemma CastGateIgnoresAuthorRecord(db: Tables, userId: string, teamId: string, authorId: string, users: map<string, User>)
    requires userId != authorId
    ensures RequireCanCastAsAuthor(db.(users := users, teammates := db.teammates - {Teammate(authorId, teamId)}), userId, teamId, authorId)
         == RequireCanCastAsAuthor(db, userId, teamId, authorId)
  {
  }

  // ---------------------------------------------------------------- flash responses

  /** A JSON response with its `Set-Cookie` header. `data` is absent in error responses. */
  datatype Response<D> = Response(message: string, data: Option<D>, status: int, setCookie: Auth.CommittedSession)

  /** `status || fallback`: a missing or zero status takes the fallback. */
  function StatusOr(status: Option<int>, fallback: int): (s: int)
    ensures status.Some? && status.value != 0 ==> s == status.value
    ensures status.None? || status.value == 0 ==> s == fallback
  {
    if status.Some? && status.value != 0 then status.value else fallback
  }

  /** `successResponse`: flashes a success message with the fresh id `freshId` into the passed
    * session (or the request's when none is passed) and commits it into the response. */
  method SuccessResponse<D>(passed: Auth.Session?, fromRequest: Auth.Session, message: string, data: Option<D>,
                            status: Option<int>, freshId: string)
    returns (r: Response<D>)
    modifies passed, fromRequest
    ensures var s := if passed != null then passed else fromRequest;
      && s.flashes == old(s.flashes)["message" := Auth.FlashMessage(Some(freshId), Auth.SuccessFlash, message)]
      && s.values == old(s.values)
      && r == Response(message, data, StatusOr(status, 200), s.Commit())
    ensures passed != null && fromRequest != passed ==> unchanged(fromRequest)
  {
    var session := if passed != null then passed else fromRequest;
    session.Flash("message", Auth.FlashMessage(Some(freshId), Auth.SuccessFlash, message));
    r := Response(message, data, StatusOr(status, 200), session.Commit());
  }

  /** `errorResponse`: flashes an error message into the request's session and commits it. */
  method ErrorResponse(session: Auth.Session, message: string, status: Option<int>, freshId: string)
    returns (r: Response<()>)
    modifies session
    ensures session.flashes == old(session.flashes)["message" := Auth.FlashMessage(Some(freshId), Auth.ErrorFlash, message)]
    ensures session.values == old(session.values)
    ensures r == Response(message, None, StatusOr(status, 400), session.Commit())
  {
    session.Flash("message", Auth.FlashMessage(Some(freshId), Auth.ErrorFlash, message));
    r := Response(message, None, StatusOr(status, 400), session.Commit());
  }

  // ---------------------------------------------------------------- validation errors

  /** One element of an issue path: an object key or an array index. */
  datatype PathKey = Key(name: string) | Index(position: nat)

  datatype ZodIssue = ZodIssue(path: seq<PathKey>, message: string)

  datatype ZodError = ZodError(issues: seq<ZodIssue>)

  /** How `join` renders a path element. */
  function PathKeyString(k: PathKey): string
  {
    match k
    case Key(name) => name
    case Index(position) => DecimalString(position)
  }

  function PathStrings(path: seq<PathKey>): (parts: seq<string>)
    ensures |parts| == |path|
    ensures forall k :: 0 <= k < |path| ==> parts[k] == PathKeyString(path[k])
  {
    seq(|path|, k requires 0 <= k < |path| => PathKeyString(path[k]))
  }

  /** `formatZodIssue`: the path joined with dots, a colon and a space, then the message. */
  function FormatZodIssue(issue: ZodIssue): string
  {
    Join(PathStrings(issue.path), '.') + ": " + issue.message
  }

  /** `formatZodError`: only the first issue is shown; no issues give the empty string. */
  function FormatZodError(error: ZodError): string
  {
    if |error.issues| > 0 then FormatZodIssue(error.issues[0]) else ""
  }

  /** The formatted error is empty exactly when there are no issues, and otherwise is the first
    * issue alone: its message at the end and, when no key contains a dot, its path before the
    * `": "`, whatever the other issues are. */
  lemma FormatZodErrorShowsFirstIssue(error: ZodError)
    ensures FormatZodError(error) == "" <==> |error.issues| == 0
    ensures |error.issues| > 0 ==>
      var r := FormatZodError(error);
      var m := error.issues[0].message;
      |r| >= |m| + 2 && r[|r| - |m| - 2..] == ": " + m
    ensures |error.issues| > 0 ==> FormatZodError(error) == FormatZodError(ZodError([error.issues[0]]))
    ensures |error.issues| > 0 && |error.issues[0].path| >= 1 &&
            (forall k :: 0 <= k < |error.issues[0].path| && error.issues[0].path[k].Key? ==> '.' !in error.issues[0].path[k].name) ==>
      var r := FormatZodError(error);
      Split(r[..|r| - |error.issues[0].message| - 2], '.') == PathStrings(error.issues[0].path)
  {
    if |error.issues| > 0 {
      var r := FormatZodError(error);
      assert r[|r| - 2 - |error.issues[0].message|..] == ": " + error.issues[0].message;
      var issue := error.issues[0];
      if |issue.path| >= 1 && forall k :: 0 <= k < |issue.path| && issue.path[k].Key? ==> '.' !in issue.path[k].name {
        FormatZodIssuePathRoundTrip(issue);
      }
    }
  }

  /** The path can be read back from the formatted issue by splitting on dots, as long as no
    * key contains a dot (indices never do). */
  lemma FormatZodIssuePathRoundTrip(issue: ZodIssue)
    requires |issue.path| >= 1
    requires forall k :: 0 <= k < |issue.path| && issue.path[k].Key? ==> '.' !in issue.path[k].name
    ensures var r := FormatZodIssue(issue);
      |r| >= |issue.message| + 2 && Split(r[..|r| - |issue.message| - 2], '.') == PathStrings(issue.path)
  {
    var parts := PathStrings(issue.path);
    assert forall k :: 0 <= k < |parts| ==> '.' !in parts[k];
    var r := FormatZodIssue(issue);
    assert r[..|r| - |issue.message| - 2] == Join(parts, '.');
    SplitJoin(parts, '.');
  }

  // ---------------------------------------------------------------- cast hashes

  /** `s.slice(start, end)` with JavaScript's clamping of negative and out-of-range bounds. */
  function JsSlice(s: string, start: int, end: int): (r: string)
    ensures |r| <= |s|
  {
    var from := if start < 0 then (if |s| + start < 0 then 0 else |s| + start) else (if start > |s| then |s| else start);
    var to := if end < 0 then (if |s| + end < 0 then 0 else |s| + end) else (if end > |s| then |s| else end);
    if from < to then s[from..to] else ""
  }

  /** `formatHash`: the first three characters, an ellipsis, the last three. */
  function FormatHash(hash: string): (r: string)
    ensures |hash| >= 3 ==> |r| == 9 && r[..3] == hash[..3] && r[3..6] == "..." && r[6..] == hash[|hash| - 3..]
    ensures |hash| < 3 ==> r == hash + "..." + hash
  {
    JsSlice(hash, 0, 3) + "..." + JsSlice(hash, -3, |hash|)
  }

  /** Shortening an already shortened hash changes nothing. */
  lemma FormatHashIdempotent(hash: string)
    requires |hash| >= 3
    ensures FormatHash(FormatHash(hash)) == FormatHash(hash)
  {
    var r := FormatHash(hash);
    var rr := FormatHash(r);
    assert rr[..3] == r[..3] && rr[3..6] == r[3..6] && rr[6..] == r[6..];
    assert rr == rr[..3] + rr[3..6] + rr[6..];
    assert r == r[..3] + r[3..6] + r[6..];
  }

  predicate IsHexDigit(c: char)
  {
    '0' <= c <= '9' || 'a' <= c <= 'f' || 'A' <= c <= 'F'
  }

  predicate IsAlphanumeric(c: char)
  {
    '0' <= c <= '9' || 'a' <= c <= 'z' || 'A' <= c <= 'Z'
  }

  /** The characters a regular-expression `.` does not match. */
  predicate IsLineTerminator(c: char)
  {
    c == '\n' || c == '\r' || c == '\U{2028}' || c == '\U{2029}'
  }

  /** `n` hexadecimal digits start at index `i`. */
  predicate HexRunAt(s: string, i: int, n: nat)
  {
    0 <= i && i + n <= |s| && forall j :: i <= j < i + n ==> IsHexDigit(s[j])
  }

  /** `0x` and forty hexadecimal digits start at index `i`. */
  predicate CastHashAt(s: string, i: int)
  {
    0 <= i && i + 42 <= |s| && s[i] == '0' && s[i + 1] == 'x' && HexRunAt(s, i + 2, 40)
  }

  /** Scans the start positions from `i` on for a cast hash. */
  function FindCastHashFrom(s: string, i: nat): bool
    decreases |s| - i
  {
    if i + 42 > |s| then false else CastHashAt(s, i) || FindCastHashFrom(s, i + 1)
  }

  /** `isCastHash`: the unanchored pattern `0x[a-fA-F0-9]{40}` occurs somewhere in `value`. */
  function IsCastHash(value: string): bool
  {
    FindCastHashFrom(value, 0)
  }

  lemma {:induction false} FindCastHashFromSpec(s: string, i: nat)
    ensures FindCastHashFrom(s, i) <==> exists j :: i <= j && CastHashAt(s, j)
    decreases |s| - i
  {
    if i + 42 <= |s| {
      FindCastHashFromSpec(s, i + 1);
      if exists j :: i <= j && CastHashAt(s, j) {
        var j :| i <= j && CastHashAt(s, j);
        assert j == i || (i + 1 <= j && CastHashAt(s, j));
      }
    }
  }

  /** The scan agrees with the pattern's meaning: some position starts a cast hash. */
  lemma IsCastHashSpec(value: string)
    ensures IsCastHash(value) <==> exists j :: CastHashAt(value, j)
  {
    FindCastHashFromSpec(value, 0);
  }

  /** Since the pattern is unanchored, text added on either side never loses a match. */
  lemma CastHashSurvivesSurroundingText(prefix: string, value: string, suffix: string)
    requires IsCastHash(value)
    ensures IsCastHash(prefix + value + suffix)
  {
    IsCastHashSpec(value);
    var j :| CastHashAt(value, j);
    var s := prefix + value + suffix;
    assert forall k :: 0 <= k < |value| ==> s[|prefix| + k] == value[k];
    assert CastHashAt(s, |prefix| + j);
    IsCastHashSpec(s);
  }

  /** The fixed text before the user segment: `https://warpcast`, any one character, `com/`. */
  predicate WarpcastHostAt(s: string, i: int)
  {
    0 <= i && i + 21 <= |s|
    && s[i..i + 16] == "https://warpcast" && !IsLineTerminator(s[i + 16]) && s[i + 17..i + 21] == "com/"
  }

  /** `/0x` and eight hexadecimal digits start at index `i`. */
  predicate ShortHashAt(s: string, i: int)
  {
    0 <= i && i + 11 <= |s| && s[i..i + 3] == "/0x" && HexRunAt(s, i + 3, 8)
  }

  /** `k >= 1` alphanumeric characters from `i`, then the short hash. */
  predicate UserThenHashAt(s: string, i: int, k: nat)
  {
    0 <= i && 1 <= k && i + k <= |s|
    && (forall j :: i <= j < i + k ==> IsAlphanumeric(s[j]))
    && ShortHashAt(s, i + k)
  }

  /** The whole cast-URL pattern matches at `i` with a user segment of length `k`. */
  predicate WarpcastUrlAt(s: string, i: int, k: nat)
  {
    WarpcastHostAt(s, i) && UserThenHashAt(s, i + 21, k)
  }

  /** Consumes alphanumerics from `i` and succeeds when, after at least one, the short hash follows. */
  function ScanUserThenHash(s: string, i: nat): bool
    decreases |s| - i
  {
    i < |s| && IsAlphanumeric(s[i]) && (ShortHashAt(s, i + 1) || ScanUserThenHash(s, i + 1))
  }

  function FindWarpcastUrlFrom(s: string, i: nat): bool
    decreases |s| - i
  {
    if i + 21 > |s| then false
    else (WarpcastHostAt(s, i) && ScanUserThenHash(s, i + 21)) || FindWarpcastUrlFrom(s, i + 1)
  }

  /** `isWarpcastCastUrl`: the unanchored pattern
    * `https://warpcast.com/[a-zA-Z0-9]+/0x[a-fA-F0-9]{8}` occurs in `value`,
    * where the unescaped `.` matches any character but a line terminator. */
  function IsWarpcastCastUrl(value: string): bool
  {
    FindWarpcastUrlFrom(value, 0)
  }

  lemma {:induction false} ScanUserThenHashSpec(s: string, i: nat)
    ensures ScanUserThenHash(s, i) <==> exists k: nat :: UserThenHashAt(s, i, k)
    decreases |s| - i
  {
    if i < |s| {
      ScanUserThenHashSpec(s, i + 1);
      if ScanUserThenHash(s, i) {
        if ShortHashAt(s, i + 1) {
          assert UserThenHashAt(s, i, 1);
        } else {
          var k: nat :| UserThenHashAt(s, i + 1, k);
          assert UserThenHashAt(s, i, k + 1);
        }
      }
      if exists k: nat :: UserThenHashAt(s, i, k) {
        var k: nat :| UserThenHashAt(s, i, k);
        if k > 1 {
          assert UserThenHashAt(s, i + 1, k - 1);
        }
      }
    }
  }

  lemma {:induction false} FindWarpcastUrlFromSpec(s: string, i: nat)
    ensures FindWarpcastUrlFrom(s, i) <==> exists j, k: nat :: i <= j && WarpcastUrlAt(s, j, k)
    decreases |s| - i
  {
    if i + 21 <= |s| {
      FindWarpcastUrlFromSpec(s, i + 1);
      ScanUserThenHashSpec(s, i + 21);
      if FindWarpcastUrlFrom(s, i) && WarpcastHostAt(s, i) && ScanUserThenHash(s, i + 21) {
        var k: nat :| UserThenHashAt(s, i + 21, k);
        assert WarpcastUrlAt(s, i, k);
      }
      if exists j, k: nat :: i <= j && WarpcastUrlAt(s, j, k) {
        var j, k: nat :| i <= j && WarpcastUrlAt(s, j, k);
        if j == i {
          assert UserThenHashAt(s, i + 21, k);
        } else {
          assert i + 1 <= j && WarpcastUrlAt(s, j, k);
        }
      }
    }
  }

  /** The scan agrees with the pattern's meaning. */
  lemma IsWarpcastCastUrlSpec(value: string)
    ensures IsWarpcastCastUrl(value) <==> exists j, k: nat :: WarpcastUrlAt(value, j, k)
  {
    FindWarpcastUrlFromSpec(value, 0);
  }

  /** Every URL of the documented shape is accepted — and, the dot being unescaped, so is the
    * same URL with any other non-line-terminator character in place of the dot, as long as that
    * character is a single UTF-16 code unit. */
  lemma WarpcastUrlShapeAccepted(dot: char, user: string, hash: string)
    requires !IsLineTerminator(dot) && dot as int < 0x10000
    requires |user| >= 1 && forall j :: 0 <= j < |user| ==> IsAlphanumeric(user[j])
    requires |hash| == 8 && forall j :: 0 <= j < 8 ==> IsHexDigit(hash[j])
    ensures IsWarpcastCastUrl("https://warpcast" + [dot] + "com/" + user + "/0x" + hash)
  {
    var s := "https://warpcast" + [dot] + "com/" + user + "/0x" + hash;
    assert s[..16] == "https://warpcast" && s[16] == dot && s[17..21] == "com/";
    assert forall j :: 0 <= j < |user| ==> s[21 + j] == user[j];
    assert s[21 + |user|..24 + |user|] == "/0x";
    assert forall j :: 0 <= j < 8 ==> s[24 + |user| + j] == hash[j];
    assert WarpcastUrlAt(s, 0, |user|);
    IsWarpcastCastUrlSpec(s);
  }

  // ---------------------------------------------------------------- read-through cache

  /** `getSetCache`: a truthy cached value is returned without calling `get`; otherwise `get` is
    * called once and a successful result is stored under `key` with TTL `ttlSeconds ?? 0`.
    * `truthy` is JavaScript truthiness on the cached type; `getCalls` counts calls of `get`. */
  method GetSetCache<V>(cache: Cache<V>, key: string, ttlSeconds: Option<int>, get: () -> Result<V, string>,
                        truthy: V -> bool)
    returns (r: Result<V, string>, ghost getCalls: nat)
    modifies cache
    ensures var hit := key in old(cache.entries) && truthy(old(cache.entries)[key].value);
      && (hit ==> r == Success(old(cache.entries)[key].value) && getCalls == 0 && cache.entries == old(cache.entries))
      && (!hit ==> getCalls == 1 && r == get())
      && (!hit && r.Success? ==>
            cache.entries == old(cache.entries)[key := Entry(r.value, Some(if ttlSeconds.Some? then ttlSeconds.value else 0))])
      && (!hit && r.Failure? ==> cache.entries == old(cache.entries))
  {
    getCalls := 0;
    var cached := cache.Get(key);
    if cached.Some? && truthy(cached.value) {
      return Success(cached.value), getCalls;
    }
    r := get();
    getCalls := 1;
    if r.Failure? {
      return;
    }
    cache.Set(key, r.value, Some(if ttlSeconds.Some? then ttlSeconds.value else 0));
  }
}
