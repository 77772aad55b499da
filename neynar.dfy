/** The social-graph API wrapper: read-through caching of channel and user lookups, and the
  * cursor loops that drain paged endpoints. The API is given as its answers: a function for a
  * lookup, a finite map from request cursor to page for a paged endpoint. */
module Neynar {
  import opened Wrappers
  import opened Strings
  import opened Caching

  /** A profile as the bulk-user endpoint returns it (only the fields the application reads). */
  datatype NeynarUser = NeynarUser(fid: nat, username: string, pfpUrl: string)

  datatype Channel = Channel(id: string, name: string)

  datatype Reaction = Reaction(reactionType: string, fid: nat)

  datatype Follower = Follower(fid: nat, username: string)

  /** The values this module keeps in the shared cache. */
  datatype Cached =
    | ChannelValue(channel: Channel)
    | UserValue(user: Option<NeynarUser>)
    | ReactionsValue(reactions: seq<Reaction>)
    | FollowersValue(followers: seq<Follower>)

  /** JavaScript truthiness of a cached value: objects and arrays (even empty ones) are truthy,
    * a stored `undefined` is not. */
  predicate Truthy(v: Cached)
  {
    !(v.UserValue? && v.user.None?)
  }

  // ---------------------------------------------------------------- cache keys

  datatype KeyKind = ChannelKey | UserKey | ReactionsKey | FollowersKey | OtherKey

  /** Which family a key belongs to, by its prefix. */
  function KindOf(key: string): KeyKind
  {
    if HasPrefix(key, "channel:") then ChannelKey
    else if HasPrefix(key, "user:") then UserKey
    else if HasPrefix(key, "reactions:") then ReactionsKey
    else if HasPrefix(key, "followers:") then FollowersKey
    else OtherKey
  }

  predicate KindMatches(kind: KeyKind, v: Cached)
  {
    match kind
    case ChannelKey => v.ChannelValue?
    case UserKey => v.UserValue?
    case ReactionsKey => v.ReactionsValue?
    case FollowersKey => v.FollowersValue?
    case OtherKey => true
  }

  /** Every key of one of this module's families holds a value of that family. */
  predicate WellKeyed(entries: map<string, Entry<Cached>>)
  {
    forall key :: key in entries ==> KindMatches(KindOf(key), entries[key].value)
  }

  function ChannelCacheKey(name: string): (key: string)
    ensures KindOf(key) == ChannelKey
  {
    assert ("channel:" + name)[..8] == "channel:";
    "channel:" + name
  }

  function UserCacheKey(fid: string): (key: string)
    ensures KindOf(key) == UserKey
  {
    var key := "user:" + fid;
    assert key[0] == 'u' && key[..5] == "user:";
    key
  }

  function ReactionsCacheKey(hash: string): (key: string)
    ensures KindOf(key) == ReactionsKey
  {
    var key := "reactions:" + hash;
    assert key[0] == 'r' && key[..10] == "reactions:";
    key
  }

  function FollowersCacheKey(fid: nat): (key: string)
    ensures KindOf(key) == FollowersKey
  {
    var key := "followers:" + DecimalString(fid);
    assert key[0] == 'f' && key[..10] == "followers:";
    key
  }

  /** Channel entries live a day, user entries an hour; in development the TTL argument is 0. */
  function ChannelTtl(nodeEnv: string): (ttl: int)
    ensures ttl == if nodeEnv == "development" then 0 else 86400
  {
    if nodeEnv == "development" then 0 else 60 * 60 * 24
  }

  function UserTtl(nodeEnv: string): (ttl: int)
    ensures ttl == if nodeEnv == "development" then 0 else 3600
  {
    if nodeEnv == "development" then 0 else 60 * 60
  }

  /** A cached value counts as a hit when it is present and truthy. */
  predicate Hit(entries: map<string, Entry<Cached>>, key: string)
  {
    key in entries && Truthy(entries[key].value)
  }

  // ---------------------------------------------------------------- cached lookups

  /** `getChannel`: the cached channel, or one lookup whose channel is cached for `ChannelTtl`.
    * `lookups` records the calls made to the API. */
  method GetChannel(cache: Cache<Cached>, nodeEnv: string, lookupChannel: string -> Result<Channel, string>, name: string)
    returns (r: Result<Channel, string>, ghost lookups: seq<string>)
    requires WellKeyed(cache.entries)
    modifies cache
    ensures WellKeyed(cache.entries)
    ensures var key := ChannelCacheKey(name);
      && (Hit(old(cache.entries), key) ==>
            r == Success(old(cache.entries)[key].value.channel) && lookups == [] && cache.entries == old(cache.entries))
      && (!Hit(old(cache.entries), key) ==> lookups == [name] && r == lookupChannel(name))
      && (!Hit(old(cache.entries), key) && r.Success? ==>
            cache.entries == old(cache.entries)[key := Entry(ChannelValue(r.value), Some(ChannelTtl(nodeEnv)))])
      && (!Hit(old(cache.entries), key) && r.Failure? ==> cache.entries == old(cache.entries))
  {
    lookups := [];
    var key := ChannelCacheKey(name);
    var cached := cache.Get(key);
    if cached.Some? && Truthy(cached.value) {
      return Success(cached.value.channel), lookups;
    }
    r := lookupChannel(name);
    lookups := [name];
    if r.Success? {
      cache.Set(key, ChannelValue(r.value), Some(ChannelTtl(nodeEnv)));
    }
  }

  /** `getUser`: the cached profile, or the first profile of one bulk fetch (absent when the
    * fetch returns none), cached for `UserTtl`. `fetchUsers` answers for the bulk endpoint
    * given the fid as written. */
  method GetUser(cache: Cache<Cached>, nodeEnv: string, fetchUsers: string -> Result<seq<NeynarUser>, string>, fid: string)
    returns (r: Result<Option<NeynarUser>, string>, ghost fetches: seq<string>)
    requires WellKeyed(cache.entries)
    modifies cache
    ensures WellKeyed(cache.entries)
    ensures var key := UserCacheKey(fid);
      && (Hit(old(cache.entries), key) ==>
            r == Success(old(cache.entries)[key].value.user) && r.value.Some?
            && fetches == [] && cache.entries == old(cache.entries))
      && (!Hit(old(cache.entries), key) ==> fetches == [fid])
      && (!Hit(old(cache.entries), key) && fetchUsers(fid).Failure? ==>
            r == Failure(fetchUsers(fid).error) && cache.entries == old(cache.entries))
      && (!Hit(old(cache.entries), key) && fetchUsers(fid).Success? ==>
            var users := fetchUsers(fid).value;
            var first := if |users| > 0 then Some(users[0]) else None;
            r == Success(first) && cache.entries == old(cache.entries)[key := Entry(UserValue(first), Some(UserTtl(nodeEnv)))])
  {
    fetches := [];
    var key := UserCacheKey(fid);
    var cached := cache.Get(key);
    if cached.Some? && Truthy(cached.value) {
      return Success(cached.value.user), fetches;
    }
    var response := fetchUsers(fid);
    fetches := [fid];
    if response.Failure? {
      return Failure(response.error), fetches;
    }
    var first := if |response.value| > 0 then Some(response.value[0]) else None;
    cache.Set(key, UserValue(first), Some(UserTtl(nodeEnv)));
    r := Success(first);
  }

  // ---------------------------------------------------------------- cursor pagination

  /** One page of a paged endpoint; `next` is `None` when the endpoint answers a null cursor. */
  datatype Page<T> = Page(items: seq<T>, next: Option<string>)

  /** The loop's cursor variable: not yet set, null (stop), or a token. */
  datatype Cursor = Undefined | Null | At(token: string)

  /** How a loop turns a page's next cursor into its own: stop on null only, or also stop when
    * the endpoint repeats the cursor it was asked with (and send `cursor || undefined`). */
  datatype Policy = UntilNull | UntilNullOrRepeat

  /** The cursor sent with the request; `None` asks for the first page. */
  function RequestCursor(policy: Policy, c: Cursor): Option<string>
  {
    match c
    case At(token) => if policy == UntilNullOrRepeat && token == "" then None else Some(token)
    case _ => None
  }

  /** The loop's next cursor after a page whose next cursor is `next`. */
  function Advance(policy: Policy, c: Cursor, next: Option<string>): (c': Cursor)
    ensures next.None? ==> c' == Null
    ensures policy == UntilNull && next.Some? ==> c' == At(next.value)
  {
    var following := if next.None? then Null else At(next.value);
    if policy == UntilNullOrRepeat && c.At? && next == Some(c.token) then Null else following
  }

  /** How a walk over the pages ended. */
  datatype Ending = Exhausted | ApiError(cursor: Option<string>) | Unfinished

  /** The pages fetched in order from cursor `c`, with at most `fuel` fetches. A request whose
    * cursor the endpoint does not know is an error it throws. */
  datatype Walk<T> = Walk(pages: seq<Page<T>>, ending: Ending)

  function WalkPages<T>(api: map<Option<string>, Page<T>>, policy: Policy, c: Cursor, fuel: nat): Walk<T>
    decreases fuel
  {
    if c.Null? then Walk([], Exhausted)
    else if fuel == 0 then Walk([], Unfinished)
    else
      var request := RequestCursor(policy, c);
      if request !in api then Walk([], ApiError(request))
      else
        var page := api[request];
        var rest := WalkPages(api, policy, Advance(policy, c, page.next), fuel - 1);
        Walk([page] + rest.pages, rest.ending)
  }

  /** The items of the pages, in page order. */
  function Flatten<T>(pages: seq<Page<T>>): seq<T>
  {
    if pages == [] then [] else pages[0].items + Flatten(pages[1..])
  }

  /** The walk from the first page ends (by a stop or an error) within `bound` fetches. */
  predicate EndsWithin<T>(api: map<Option<string>, Page<T>>, policy: Policy, bound: nat)
  {
    WalkPages(api, policy, Undefined, bound).ending != Unfinished
  }

  /** The `while (cursor !== null)` loop of `pageReactionsDeep` and `pageFollowersDeep`: concatenates
    * every fetched page's items. A thrown fetch ends it with that request's cursor. */
  method DrainPages<T>(api: map<Option<string>, Page<T>>, policy: Policy, ghost bound: nat)
    returns (r: Result<seq<T>, Option<string>>)
    requires EndsWithin(api, policy, bound)
    ensures var w := WalkPages(api, policy, Undefined, bound);
      && (w.ending == Exhausted ==> r == Success(Flatten(w.pages)))
      && (w.ending.ApiError? ==> r == Failure(w.ending.cursor))
  {
    ghost var whole := WalkPages(api, policy, Undefined, bound);
    var results: seq<T> := [];
    var cursor := Undefined;
    ghost var fuel := bound;
    while cursor != Null
      invariant WalkPages(api, policy, cursor, fuel).ending == whole.ending
      invariant results + Flatten(WalkPages(api, policy, cursor, fuel).pages) == Flatten(whole.pages)
      decreases fuel
    {
      var request := RequestCursor(policy, cursor);
      if request !in api {
        return Failure(request);
      }
      var page := api[request];
      ghost var rest := WalkPages(api, policy, Advance(policy, cursor, page.next), fuel - 1);
      assert Flatten([page] + rest.pages) == page.items + Flatten(rest.pages);
      results := results + page.items;
      cursor := Advance(policy, cursor, page.next);
      fuel := fuel - 1;
    }
    assert Flatten(WalkPages(api, policy, cursor, fuel).pages) == [];
    assert results == Flatten(whole.pages);
    r := Success(results);
  }

  /** `pageChannelCasts`: the pages the generator yields, in order, until one whose next cursor is
    * null; `failed` is the cursor of a request that threw after the yielded pages. */
  method PageChannelCasts<T>(api: map<Option<string>, Page<T>>, ghost bound: nat)
    returns (yielded: seq<Page<T>>, failed: Option<Option<string>>)
    requires EndsWithin(api, UntilNull, bound)
    ensures var w := WalkPages(api, UntilNull, Undefined, bound);
      && yielded == w.pages
      && (w.ending == Exhausted <==> failed.None?)
      && (w.ending.ApiError? ==> failed == Some(w.ending.cursor))
  {
    ghost var whole := WalkPages(api, UntilNull, Undefined, bound);
    yielded := [];
    var cursor := Undefined;
    ghost var fuel := bound;
    while cursor != Null
      invariant WalkPages(api, UntilNull, cursor, fuel).ending == whole.ending
      invariant yielded + WalkPages(api, UntilNull, cursor, fuel).pages == whole.pages
      decreases fuel
    {
      var request := RequestCursor(UntilNull, cursor);
      if request !in api {
        return yielded, Some(request);
      }
      var page := api[request];
      yielded := yielded + [page];
      cursor := Advance(UntilNull, cursor, page.next);
      fuel := fuel - 1;
    }
    failed := None;
  }

  /** `pageReactionsDeep`: cached reactions (an empty list is a hit too), or every page drained
    * until a null cursor and cached under `reactions:<hash>` with no TTL. */
  method PageReactionsDeep(cache: Cache<Cached>, api: map<Option<string>, Page<Reaction>>, hash: string, ghost bound: nat)
    returns (r: Result<seq<Reaction>, Option<string>>)
    requires WellKeyed(cache.entries)
    requires ReactionsCacheKey(hash) !in cache.entries ==> EndsWithin(api, UntilNull, bound)
    modifies cache
    ensures WellKeyed(cache.entries)
    ensures var key := ReactionsCacheKey(hash);
      var w := WalkPages(api, UntilNull, Undefined, bound);
      && (key in old(cache.entries) ==>
            r == Success(old(cache.entries)[key].value.reactions) && cache.entries == old(cache.entries))
      && (key !in old(cache.entries) && w.ending == Exhausted ==>
            r == Success(Flatten(w.pages)) && cache.entries == old(cache.entries)[key := Entry(ReactionsValue(Flatten(w.pages)), None)])
      && (key !in old(cache.entries) && w.ending.ApiError? ==>
            r == Failure(w.ending.cursor) && cache.entries == old(cache.entries))
  {
    var key := ReactionsCacheKey(hash);
    var cached := cache.Get(key);
    if cached.Some? && Truthy(cached.value) {
      return Success(cached.value.reactions);
    }
    r := DrainPages(api, UntilNull, bound);
    if r.Success? {
      cache.Set(key, ReactionsValue(r.value), None);
    }
  }

  /** `pageFollowersDeep`: like `pageReactionsDeep` under `followers:<fid>`, but the loop also stops
    * when the endpoint repeats the cursor it was asked with, keeping that last page's users. */
  method PageFollowersDeep(cache: Cache<Cached>, api: map<Option<string>, Page<Follower>>, fid: nat, ghost bound: nat)
    returns (r: Result<seq<Follower>, Option<string>>)
    requires WellKeyed(cache.entries)
    requires FollowersCacheKey(fid) !in cache.entries ==> EndsWithin(api, UntilNullOrRepeat, bound)
    modifies cache
    ensures WellKeyed(cache.entries)
    ensures var key := FollowersCacheKey(fid);
      var w := WalkPages(api, UntilNullOrRepeat, Undefined, bound);
      && (key in old(cache.entries) ==>
            r == Success(old(cache.entries)[key].value.followers) && cache.entries == old(cache.entries))
      && (key !in old(cache.entries) && w.ending == Exhausted ==>
            r == Success(Flatten(w.pages)) && cache.entries == old(cache.entries)[key := Entry(FollowersValue(Flatten(w.pages)), None)])
      && (key !in old(cache.entries) && w.ending.ApiError? ==>
            r == Failure(w.ending.cursor) && cache.entries == old(cache.entries))
  {
    var key := FollowersCacheKey(fid);
    var cached := cache.Get(key);
    if cached.Some? && Truthy(cached.value) {
      return Success(cached.value.followers);
    }
    r := DrainPages(api, UntilNullOrRepeat, bound);
    if r.Success? {
      cache.Set(key, FollowersValue(r.value), None);
    }
  }

  // ---------------------------------------------------------------- properties of the walks

  /** Once a walk ends, more fuel changes nothing: the result does not depend on the bound. */
  lemma {:induction false} WalkFuelIrrelevant<T>(api: map<Option<string>, Page<T>>, policy: Policy, c: Cursor, n: nat, m: nat)
    requires WalkPages(api, policy, c, n).ending != Unfinished
    requires n <= m
    ensures WalkPages(api, policy, c, m) == WalkPages(api, policy, c, n)
    decreases n
  {
    if !c.Null? && n > 0 {
      var request := RequestCursor(policy, c);
      if request in api {
        WalkFuelIrrelevant(api, policy, Advance(policy, c, api[request].next), n - 1, m - 1);
      }
    }
  }

  /** A walk that stops on null follows the cursors: it starts with the page for its first
    * request, each page's next cursor fetches the page after it, and only the last page's next
    * cursor is null. */
  lemma {:induction false} UntilNullFollowsCursors<T>(api: map<Option<string>, Page<T>>, c: Cursor, n: nat)
    requires !c.Null?
    requires WalkPages(api, UntilNull, c, n).ending == Exhausted
    ensures var ps := WalkPages(api, UntilNull, c, n).pages;
      && |ps| >= 1
      && RequestCursor(UntilNull, c) in api && ps[0] == api[RequestCursor(UntilNull, c)]
      && ps[|ps| - 1].next.None?
      && (forall i :: 0 <= i < |ps| - 1 ==> ps[i].next.Some? && ps[i].next in api && ps[i + 1] == api[ps[i].next])
    decreases n
  {
    var request := RequestCursor(UntilNull, c);
    var page := api[request];
    var c' := Advance(UntilNull, c, page.next);
    if !c'.Null? {
      UntilNullFollowsCursors(api, c', n - 1);
      var ps := WalkPages(api, UntilNull, c, n).pages;
      var rest := WalkPages(api, UntilNull, c', n - 1).pages;
      assert ps == [page] + rest;
      assert RequestCursor(UntilNull, c') == page.next;
      forall i | 0 <= i < |ps| - 1
        ensures ps[i].next.Some? && ps[i].next in api && ps[i + 1] == api[ps[i].next]
      {
        if i > 0 {
          assert ps[i] == rest[i - 1] && ps[i + 1] == rest[i];
        }
      }
    }
  }

  /** A page that names its own cursor as the next one makes the null-only loop fetch it forever. */
  lemma {:induction false} UntilNullLoopsOnRepeatedCursor<T>(api: map<Option<string>, Page<T>>, token: string, n: nat)
    requires Some(token) in api && api[Some(token)].next == Some(token)
    ensures WalkPages(api, UntilNull, At(token), n).ending == Unfinished
    decreases n
  {
    if n > 0 {
      UntilNullLoopsOnRepeatedCursor(api, token, n - 1);
    }
  }

  /** The followers loop stops on such a page and still keeps its items. */
  lemma FollowersStopOnRepeatedCursor<T>(api: map<Option<string>, Page<T>>, token: string, n: nat)
    requires token != "" && Some(token) in api && api[Some(token)].next == Some(token)
    requires n >= 1
    ensures WalkPages(api, UntilNullOrRepeat, At(token), n) == Walk([api[Some(token)]], Exhausted)
  {
  }

  /** `cursor || undefined` sends an empty cursor as no cursor: a first page whose next cursor is
    * "" is fetched again, and its items are collected twice. */
  lemma FollowersEmptyCursorRefetchesFirstPage<T>(api: map<Option<string>, Page<T>>, n: nat)
    requires None in api && api[None].next == Some("")
    requires n >= 2
    ensures WalkPages(api, UntilNullOrRepeat, Undefined, n) == Walk([api[None], api[None]], Exhausted)
  {
    assert WalkPages(api, UntilNullOrRepeat, At(""), n - 1) == Walk([api[None]], Exhausted);
  }
}
