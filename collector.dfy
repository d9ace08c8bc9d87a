/** The bounded depth-first crawl (CollectData and collectUserData,
    internal/clients/vk_api.go:138-238).

    Crawl, CrawlFollowers and CrawlSubscriptions say, as functions, what one call of
    collectUserData does to the snapshot and to the visited set; the methods
    CollectUserData and CollectData are the step-by-step code, proved equal to them.
    Besides the snapshot and the visited set, the crawl state records `fetched`, the
    ids whose profile has been requested, in request order; the code keeps it as a
    ghost variable. */
module Collector {
  import opened Wrappers
  import opened Models
  import opened VkFetch
  import Decimal

  /** The errors collectUserData and CollectData return (the `fmt.Errorf` wrappers). */
  datatype CollectError =
    | InvalidUserId(text: string)
    | UserInfoError(id: int, cause: ApiError)
    | FollowersError(id: int, cause: ApiError)
    | SubscriptionsError(id: int, cause: ApiError)

  /** Everything one crawl owns: the snapshot, visitedUsers, and the profile requests made so far. */
  datatype CrawlState = CrawlState(snap: Snapshot, visited: set<int>, fetched: seq<int>)

  /** What a collectUserData call returns (None is Go's nil error) and the state it leaves. */
  datatype Crawled = Crawled(error: Option<CollectError>, state: CrawlState)

  const Start: CrawlState := CrawlState(EmptySnapshot, {}, [])

  /** strings.ToLower on one character, for the characters whose lower case is an ASCII letter:
      the capitals A to Z, the dotted capital I (U+0130) and the Kelvin sign (U+212A). Every other
      character is kept; Go lowers some of them too, but never to an ASCII character. */
  function LowerChar(c: char): char {
    if 'A' <= c <= 'Z' then (c as int - 'A' as int + 'a' as int) as char
    else if c == '\U{130}' then 'i'
    else if c == '\U{212A}' then 'k'
    else c
  }

  /** Lowering keeps the length and works character by character: each capital A to Z becomes its
      small letter, U+0130 becomes `i`, U+212A becomes `k`, and every other character stays. No
      such capital is left, and a small ASCII letter in the result was either already there or
      comes from one of these capitals. */
  function ToLower(s: string): (r: string)
    ensures |r| == |s|
    ensures forall i | 0 <= i < |s| :: 'A' <= s[i] <= 'Z' ==> r[i] as int == s[i] as int + 32
    ensures forall i | 0 <= i < |s| :: s[i] == '\U{130}' ==> r[i] == 'i'
    ensures forall i | 0 <= i < |s| :: s[i] == '\U{212A}' ==> r[i] == 'k'
    ensures forall i | 0 <= i < |s| ::
      !('A' <= s[i] <= 'Z') && s[i] != '\U{130}' && s[i] != '\U{212A}' ==> r[i] == s[i]
    ensures forall i | 0 <= i < |r| :: !('A' <= r[i] <= 'Z') && r[i] != '\U{130}' && r[i] != '\U{212A}'
    ensures forall i | 0 <= i < |s| :: 'a' <= r[i] <= 'z' ==>
      || s[i] == r[i]
      || s[i] as int == r[i] as int - 32
      || (s[i] == '\U{130}' && r[i] == 'i')
      || (s[i] == '\U{212A}' && r[i] == 'k')
  {
    seq(|s|, i requires 0 <= i < |s| => LowerChar(s[i]))
  }

  /** `a` and the lower-case ASCII word `w` are equal once each character of `a` is lowered. */
  predicate FoldsTo(a: string, w: string) {
    |a| == |w| && forall i | 0 <= i < |a| :: LowerChar(a[i]) == w[i]
  }

  /** How the collector treats a subscription, by its case-folded `type`. */
  datatype SubscriptionKind = Community | Profile | Ignored

  /** A page or a group is a community and a profile is a user, in any mix of letter case;
      anything else is ignored. */
  function KindOf(kind: string): (r: SubscriptionKind)
    ensures r == Community <==> FoldsTo(kind, "page") || FoldsTo(kind, "group")
    ensures r == Profile <==> FoldsTo(kind, "profile")
  {
    var t := ToLower(kind);
    if t == "page" || t == "group" then Community
    else if t == "profile" then Profile
    else Ignored
  }

  function AddRelationship(st: CrawlState, r: Relationship): CrawlState {
    st.(snap := st.snap.(relationships := st.snap.relationships + [r]))
  }

  /** The Group a page/group subscription is stored as, under key -id. */
  function GroupOf(s: Subscription): Group {
    Group(s.id, s.screenName, s.name)
  }

  /** The crawl only ever adds: the visited set, the request log and the edge list are extended
      and never shrink, and no group or user disappears. */
  ghost predicate Extends(st: CrawlState, r: CrawlState) {
    && st.visited <= r.visited
    && st.fetched <= r.fetched
    && st.snap.relationships <= r.snap.relationships
    && st.snap.users.Keys <= r.snap.users.Keys
    && st.snap.groups.Keys <= r.snap.groups.Keys
  }

  /** One collectUserData(userID, depth) call, started in state `st`. After a call at positive
      depth the id is visited; an error is always about the id itself, never about a branch. */
  function Crawl(api: VkApi, userID: int, st: CrawlState, depth: nat): (r: Crawled)
    ensures Extends(st, r.state)
    ensures depth > 0 ==> userID in r.state.visited
    ensures r.error.Some? ==> depth > 0 && userID !in st.visited
    ensures r.error.Some? ==> !r.error.value.InvalidUserId? && r.error.value.id == userID
    decreases depth, 2, 0
  {
    if depth == 0 || userID in st.visited then Crawled(None, st)
    else
      var marked := st.(visited := st.visited + {userID}, fetched := st.fetched + [userID]);
      match GetUserFullData(api, userID)
      case Failure(e) => Crawled(Some(UserInfoError(userID, e)), marked)
      case Success(user) =>
        var stored := marked.(snap := marked.snap.(users := marked.snap.users[userID := user]));
        match FollowersOf(api, userID)
        case Failure(e) => Crawled(Some(FollowersError(userID, e)), stored)
        case Success(followers) =>
          match SubscriptionsOf(api, userID)
          case Failure(e) => Crawled(Some(SubscriptionsError(userID, e)), stored)
          case Success(subscriptions) =>
            var linked := CrawlFollowers(api, userID, followers, stored, depth);
            Crawled(None, CrawlSubscriptions(api, userID, subscriptions, linked, depth))
  }

  /** The followers loop of a node at `depth`: an edge into userID, then a crawl one level down
      whose error is dropped. */
  function CrawlFollowers(api: VkApi, userID: int, followers: seq<User>, st: CrawlState, depth: nat): (r: CrawlState)
    requires depth > 0
    ensures Extends(st, r)
    ensures |r.snap.relationships| >= |st.snap.relationships| + |followers|
    decreases depth, 1, |followers|
  {
    if followers == [] then st
    else
      var f := followers[0];
      var linked := AddRelationship(st, Relationship(f.id, userID, Follows));
      CrawlFollowers(api, userID, followers[1..], Crawl(api, f.id, linked, depth - 1).state, depth)
  }

  /** One step of the subscriptions loop. */
  function CrawlSubscription(api: VkApi, userID: int, s: Subscription, st: CrawlState, depth: nat): (r: CrawlState)
    requires depth > 0
    ensures Extends(st, r)
    ensures KindOf(s.kind) == Ignored <==> r == st
    ensures KindOf(s.kind) == Community ==> r.visited == st.visited && r.fetched == st.fetched
    decreases depth, 0, 0
  {
    match KindOf(s.kind)
    case Community =>
      var withGroup := st.(snap := st.snap.(groups := st.snap.groups[-s.id := GroupOf(s)]));
      AddRelationship(withGroup, Relationship(userID, -s.id, Subscribes))
    case Profile =>
      Crawl(api, s.id, AddRelationship(st, Relationship(userID, s.id, Subscribes)), depth - 1).state
    case Ignored => st
  }

  /** The subscriptions loop of a node at `depth`. */
  function CrawlSubscriptions(api: VkApi, userID: int, subscriptions: seq<Subscription>, st: CrawlState, depth: nat): (r: CrawlState)
    requires depth > 0
    ensures Extends(st, r)
    decreases depth, 0, |subscriptions|
  {
    if subscriptions == [] then st
    else
      var next := CrawlSubscription(api, userID, subscriptions[0], st, depth);
      CrawlSubscriptions(api, userID, subscriptions[1..], next, depth)
  }

  /** CollectData as a function: the finished snapshot, or the error that stops it. The id error
      is reported exactly when the text is not a 64-bit decimal; any other error is about the seed. */
  function Collect(api: VkApi, userID: string, depth: nat): (r: Result<Snapshot, CollectError>)
    ensures r.Failure? && r.error.InvalidUserId? <==> Decimal.Atoi(userID).None?
    ensures r.Failure? && !r.error.InvalidUserId? ==> r.error.id == Decimal.Atoi(userID).value
    ensures depth == 0 && Decimal.Atoi(userID).Some? ==> r == Success(EmptySnapshot)
  {
    match Decimal.Atoi(userID)
    case None => Failure(InvalidUserId(userID))
    case Some(id) =>
      var c := Crawl(api, id, Start, depth);
      if c.error.Some? then Failure(c.error.value) else Success(c.state.snap)
  }

  /** collectUserData: `data` is filled in place, `visited` is visitedUsers before the call and
      `visited'` after it. */
  method CollectUserData(api: VkApi, userID: int, data: Data, visited: set<int>, ghost fetched: seq<int>, depth: nat)
    returns (err: Option<CollectError>, visited': set<int>, ghost fetched': seq<int>)
    modifies data
    decreases depth, 2
    ensures Crawl(api, userID, CrawlState(old(data.Contents()), visited, fetched), depth)
         == Crawled(err, CrawlState(data.Contents(), visited', fetched'))
  {
    visited', fetched' := visited, fetched;
    err := None;
    if depth == 0 || userID in visited {
      return;
    }
    visited' := visited' + {userID};
    fetched' := fetched' + [userID];

    var userInfo := GetUserFullData(api, userID);
    if userInfo.Failure? {
      err := Some(UserInfoError(userID, userInfo.error));
      return;
    }
    data.users := data.users[userID := userInfo.value];

    var followers := GetFollowers(api, userID);
    if followers.Failure? {
      err := Some(FollowersError(userID, followers.error));
      return;
    }
    var subscriptions := GetSubscriptions(api, userID);
    if subscriptions.Failure? {
      err := Some(SubscriptionsError(userID, subscriptions.error));
      return;
    }

    var fs, ss := followers.value, subscriptions.value;
    visited', fetched' := LinkFollowers(api, userID, fs, data, visited', fetched', depth);
    visited', fetched' := LinkSubscriptions(api, userID, ss, data, visited', fetched', depth);
  }

  /** The followers loop of collectUserData (lines 192-205): each follower gets a FOLLOWS edge
      into userID and is crawled one level down; a failing branch is ignored. */
  method LinkFollowers(api: VkApi, userID: int, fs: seq<User>, data: Data,
                       visited: set<int>, ghost fetched: seq<int>, depth: nat)
    returns (visited': set<int>, ghost fetched': seq<int>)
    requires depth > 0
    modifies data
    decreases depth, 1
    ensures CrawlFollowers(api, userID, fs, CrawlState(old(data.Contents()), visited, fetched), depth)
         == CrawlState(data.Contents(), visited', fetched')
  {
    visited', fetched' := visited, fetched;
    for i := 0 to |fs|
      invariant CrawlFollowers(api, userID, fs[i..], CrawlState(data.Contents(), visited', fetched'), depth)
             == CrawlFollowers(api, userID, fs, CrawlState(old(data.Contents()), visited, fetched), depth)
    {
      assert fs[i..][1..] == fs[i + 1..];
      data.relationships := data.relationships + [Relationship(fs[i].id, userID, Follows)];
      var branchErr: Option<CollectError>;
      branchErr, visited', fetched' := CollectUserData(api, fs[i].id, data, visited', fetched', depth - 1);
    }
  }

  /** The subscriptions loop of collectUserData (lines 208-235): a page or group becomes a Group
      under its negated id plus a SUBSCRIBES edge to that key; a profile gets a SUBSCRIBES edge and
      is crawled one level down, ignoring its error; any other type is skipped. */
  method LinkSubscriptions(api: VkApi, userID: int, ss: seq<Subscription>, data: Data,
                           visited: set<int>, ghost fetched: seq<int>, depth: nat)
    returns (visited': set<int>, ghost fetched': seq<int>)
    requires depth > 0
    modifies data
    decreases depth, 0
    ensures CrawlSubscriptions(api, userID, ss, CrawlState(old(data.Contents()), visited, fetched), depth)
         == CrawlState(data.Contents(), visited', fetched')
  {
    visited', fetched' := visited, fetched;
    for i := 0 to |ss|
      invariant CrawlSubscriptions(api, userID, ss[i..], CrawlState(data.Contents(), visited', fetched'), depth)
             == CrawlSubscriptions(api, userID, ss, CrawlState(old(data.Contents()), visited, fetched), depth)
    {
      assert ss[i..][1..] == ss[i + 1..];
      var s := ss[i];
      match KindOf(s.kind)
      case Community =>
        data.groups := data.groups[-s.id := GroupOf(s)];
        data.relationships := data.relationships + [Relationship(userID, -s.id, Subscribes)];
      case Profile =>
        data.relationships := data.relationships + [Relationship(userID, s.id, Subscribes)];
        var branchErr: Option<CollectError>;
        branchErr, visited', fetched' := CollectUserData(api, s.id, data, visited', fetched', depth - 1);
      case Ignored =>
    }
  }

  /** CollectData: parse the seed, crawl from empty state, and return the snapshot only on success. */
  method CollectData(api: VkApi, userID: string, depth: nat) returns (data: Data?, err: Option<CollectError>)
    ensures data == null <==> err.Some?
    ensures Collect(api, userID, depth).Failure? ==> err == Some(Collect(api, userID, depth).error)
    ensures Collect(api, userID, depth).Success? ==>
      data != null && data.Contents() == Collect(api, userID, depth).value
  {
    var d := new Data();
    var id := Decimal.Atoi(userID);
    if id.None? {
      return null, Some(InvalidUserId(userID));
    }
    var visitedUsers: set<int> := {};
    ghost var fetched: seq<int> := [];
    err, visitedUsers, fetched := CollectUserData(api, id.value, d, visitedUsers, fetched, depth);
    if err.Some? {
      return null, err;
    }
    return d, None;
  }
}
