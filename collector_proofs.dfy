/** What the crawl guarantees, proved about the functions Crawl, CrawlFollowers and
    CrawlSubscriptions (and so, through their ensures, about the methods). */
module CollectorProofs {
  import opened Wrappers
  import opened Models
  import opened VkFetch
  import opened Collector
  import Decimal

  /** The end of an edge that the crawl itself expanded has a stored profile: the followed user
      of a FOLLOWS edge, the subscriber of a SUBSCRIBES edge. */
  predicate Anchored(r: Relationship, snap: Snapshot) {
    && (r.relType == Follows ==> r.to in snap.users)
    && (r.relType == Subscribes ==> r.from in snap.users)
  }

  /** The invariant of every state a crawl from Start passes through: each id is requested at
      most once and exactly the visited ids are requested; every stored user is the profile VK
      returned for its key; every group sits under its negated id; every edge is anchored. */
  ghost predicate Coherent(api: VkApi, st: CrawlState) {
    && Distinct(st.fetched)
    && (forall x :: x in st.visited <==> x in st.fetched)
    && st.snap.users.Keys <= st.visited
    && (forall k | k in st.snap.users :: GetUserFullData(api, k) == Success(st.snap.users[k]))
    && (forall k | k in st.snap.groups :: st.snap.groups[k].id == -k)
    && (forall r | r in st.snap.relationships :: Anchored(r, st.snap))
  }

  /** How a crawl may change its state: it only extends the state (Extends), and in addition it
      never touches a stored user; groups may be refreshed. */
  ghost predicate Grows(st: CrawlState, st': CrawlState) {
    && Extends(st, st')
    && (forall k | k in st.snap.users :: k in st'.snap.users && st'.snap.users[k] == st.snap.users[k])
  }

  lemma GrowsTransitive(a: CrawlState, b: CrawlState, c: CrawlState)
    requires Grows(a, b) && Grows(b, c)
    ensures Grows(a, c)
  {
  }

  lemma AddRelationshipCoherent(api: VkApi, st: CrawlState, r: Relationship)
    requires Coherent(api, st) && Anchored(r, st.snap)
    ensures Coherent(api, AddRelationship(st, r)) && Grows(st, AddRelationship(st, r))
  {
  }

  /** A crawl keeps the invariant, and changes the state only as Grows allows. */
  lemma {:induction false} CrawlCoherent(api: VkApi, userID: int, st: CrawlState, depth: nat)
    requires Coherent(api, st)
    ensures Coherent(api, Crawl(api, userID, st, depth).state)
    ensures Grows(st, Crawl(api, userID, st, depth).state)
    decreases depth, 2, 0
  {
    if depth == 0 || userID in st.visited {
      return;
    }
    var marked := st.(visited := st.visited + {userID}, fetched := st.fetched + [userID]);
    assert Coherent(api, marked) && Grows(st, marked);
    match GetUserFullData(api, userID)
    case Failure(_) =>
    case Success(user) =>
      var stored := marked.(snap := marked.snap.(users := marked.snap.users[userID := user]));
      assert forall r | r in stored.snap.relationships :: Anchored(r, stored.snap) by {
        forall r | r in stored.snap.relationships ensures Anchored(r, stored.snap) {
          assert Anchored(r, marked.snap);
        }
      }
      assert Coherent(api, stored) && Grows(st, stored);
      match FollowersOf(api, userID)
      case Failure(_) =>
      case Success(followers) =>
        match SubscriptionsOf(api, userID)
        case Failure(_) =>
        case Success(subscriptions) =>
          CrawlFollowersCoherent(api, userID, followers, stored, depth);
          var linked := CrawlFollowers(api, userID, followers, stored, depth);
          CrawlSubscriptionsCoherent(api, userID, subscriptions, linked, depth);
          GrowsTransitive(stored, linked, Crawl(api, userID, st, depth).state);
          GrowsTransitive(st, stored, Crawl(api, userID, st, depth).state);
  }

  lemma {:induction false} CrawlFollowersCoherent(api: VkApi, userID: int, followers: seq<User>, st: CrawlState, depth: nat)
    requires depth > 0
    requires Coherent(api, st) && userID in st.snap.users
    ensures Coherent(api, CrawlFollowers(api, userID, followers, st, depth))
    ensures Grows(st, CrawlFollowers(api, userID, followers, st, depth))
    decreases depth, 1, |followers|
  {
    if followers != [] {
      var f := followers[0];
      var next := Crawl(api, f.id, AddRelationship(st, Relationship(f.id, userID, Follows)), depth - 1).state;
      LinkThenCrawlCoherent(api, Relationship(f.id, userID, Follows), f.id, st, depth - 1, next);
      CrawlFollowersCoherent(api, userID, followers[1..], next, depth);
      assert CrawlFollowers(api, userID, followers, st, depth) == CrawlFollowers(api, userID, followers[1..], next, depth);
      GrowsTransitive(st, next, CrawlFollowers(api, userID, followers[1..], next, depth));
    }
  }

  lemma {:induction false} CrawlSubscriptionCoherent(api: VkApi, userID: int, s: Subscription, st: CrawlState, depth: nat)
    requires depth > 0
    requires Coherent(api, st) && userID in st.snap.users
    ensures Coherent(api, CrawlSubscription(api, userID, s, st, depth))
    ensures Grows(st, CrawlSubscription(api, userID, s, st, depth))
    decreases depth, 0, 0
  {
    var r := CrawlSubscription(api, userID, s, st, depth);
    match KindOf(s.kind)
    case Community =>
      var withGroup := st.(snap := st.snap.(groups := st.snap.groups[-s.id := GroupOf(s)]));
      assert r == AddRelationship(withGroup, Relationship(userID, -s.id, Subscribes));
      CommunityCoherent(api, userID, s, st);
    case Profile =>
      var edge := Relationship(userID, s.id, Subscribes);
      assert r == Crawl(api, s.id, AddRelationship(st, edge), depth - 1).state;
      LinkThenCrawlCoherent(api, edge, s.id, st, depth - 1, r);
    case Ignored =>
      assert r == st;
  }

  /** Storing a page or group subscription keeps the invariant. */
  lemma CommunityCoherent(api: VkApi, userID: int, s: Subscription, st: CrawlState)
    requires Coherent(api, st) && userID in st.snap.users
    ensures var withGroup := st.(snap := st.snap.(groups := st.snap.groups[-s.id := GroupOf(s)]));
      var r := AddRelationship(withGroup, Relationship(userID, -s.id, Subscribes));
      Coherent(api, r) && Grows(st, r)
  {
    var withGroup := st.(snap := st.snap.(groups := st.snap.groups[-s.id := GroupOf(s)]));
    assert forall r | r in withGroup.snap.relationships :: Anchored(r, withGroup.snap) by {
      forall r | r in withGroup.snap.relationships ensures Anchored(r, withGroup.snap) {
        assert Anchored(r, st.snap);
      }
    }
    AddRelationshipCoherent(api, withGroup, Relationship(userID, -s.id, Subscribes));
  }

  /** Adding an anchored edge and crawling one of its ends keeps the invariant. */
  lemma LinkThenCrawlCoherent(api: VkApi, r: Relationship, id: int, st: CrawlState, depth: nat, next: CrawlState)
    requires Coherent(api, st) && Anchored(r, st.snap)
    requires next == Crawl(api, id, AddRelationship(st, r), depth).state
    ensures Coherent(api, next) && Grows(st, next)
    decreases depth, 3
  {
    var linked := AddRelationship(st, r);
    AddRelationshipCoherent(api, st, r);
    CrawlCoherent(api, id, linked, depth);
    GrowsTransitive(st, linked, next);
  }

  lemma {:induction false} CrawlSubscriptionsCoherent(api: VkApi, userID: int, subscriptions: seq<Subscription>, st: CrawlState, depth: nat)
    requires depth > 0
    requires Coherent(api, st) && userID in st.snap.users
    ensures Coherent(api, CrawlSubscriptions(api, userID, subscriptions, st, depth))
    ensures Grows(st, CrawlSubscriptions(api, userID, subscriptions, st, depth))
    decreases depth, 0, |subscriptions|
  {
    if subscriptions != [] {
      var next := CrawlSubscription(api, userID, subscriptions[0], st, depth);
      CrawlSubscriptionCoherent(api, userID, subscriptions[0], st, depth);
      CrawlSubscriptionsCoherent(api, userID, subscriptions[1..], next, depth);
      GrowsTransitive(st, next, CrawlSubscriptions(api, userID, subscriptions, st, depth));
    }
  }

  // ---------------------------------------------------------------------------
  // Sign-encoded group targets

  /** Every edge whose target is negative points at a stored group. */
  ghost predicate GroupTargetsResolved(snap: Snapshot) {
    forall r | r in snap.relationships :: r.to < 0 ==> r.to in snap.groups
  }

  /** VK's user ids are non-negative: in every followers response, and in every subscription
      of type profile (what the crawl recurses into and writes as a plain target). */
  ghost predicate NonNegativeUserIds(api: VkApi) {
    && (forall id | api.usersGetFollowers(id).Fetched? ::
          forall i | 0 <= i < |api.usersGetFollowers(id).response| :: api.usersGetFollowers(id).response[i].id >= 0)
    && (forall id | api.usersGetSubscriptions(id).Fetched? ::
          forall i | 0 <= i < |api.usersGetSubscriptions(id).response| ::
            KindOf(api.usersGetSubscriptions(id).response[i].kind) == Profile ==>
              api.usersGetSubscriptions(id).response[i].id >= 0)
  }

  lemma {:induction false} CrawlResolvesGroups(api: VkApi, userID: int, st: CrawlState, depth: nat)
    requires NonNegativeUserIds(api) && userID >= 0
    requires GroupTargetsResolved(st.snap)
    ensures GroupTargetsResolved(Crawl(api, userID, st, depth).state.snap)
    decreases depth, 2, 0
  {
    if depth == 0 || userID in st.visited {
      return;
    }
    var marked := st.(visited := st.visited + {userID}, fetched := st.fetched + [userID]);
    match GetUserFullData(api, userID)
    case Failure(_) =>
    case Success(user) =>
      var stored := marked.(snap := marked.snap.(users := marked.snap.users[userID := user]));
      match FollowersOf(api, userID)
      case Failure(_) =>
      case Success(followers) =>
        match SubscriptionsOf(api, userID)
        case Failure(_) =>
        case Success(subscriptions) =>
          CrawlFollowersResolveGroups(api, userID, followers, stored, depth);
          var linked := CrawlFollowers(api, userID, followers, stored, depth);
          CrawlSubscriptionsResolveGroups(api, userID, subscriptions, linked, depth);
  }

  lemma {:induction false} CrawlFollowersResolveGroups(api: VkApi, userID: int, followers: seq<User>, st: CrawlState, depth: nat)
    requires depth > 0
    requires NonNegativeUserIds(api) && userID >= 0
    requires forall i | 0 <= i < |followers| :: followers[i].id >= 0
    requires GroupTargetsResolved(st.snap)
    ensures GroupTargetsResolved(CrawlFollowers(api, userID, followers, st, depth).snap)
    decreases depth, 1, |followers|
  {
    if followers != [] {
      var f := followers[0];
      var linked := AddRelationship(st, Relationship(f.id, userID, Follows));
      CrawlResolvesGroups(api, f.id, linked, depth - 1);
      CrawlFollowersResolveGroups(api, userID, followers[1..], Crawl(api, f.id, linked, depth - 1).state, depth);
    }
  }

  lemma {:induction false} CrawlSubscriptionsResolveGroups(api: VkApi, userID: int, subscriptions: seq<Subscription>, st: CrawlState, depth: nat)
    requires depth > 0
    requires NonNegativeUserIds(api) && userID >= 0
    requires forall i | 0 <= i < |subscriptions| :: KindOf(subscriptions[i].kind) == Profile ==> subscriptions[i].id >= 0
    requires GroupTargetsResolved(st.snap)
    ensures GroupTargetsResolved(CrawlSubscriptions(api, userID, subscriptions, st, depth).snap)
    decreases depth, 0, |subscriptions|
  {
    if subscriptions != [] {
      var s := subscriptions[0];
      var next := CrawlSubscription(api, userID, s, st, depth);
      if KindOf(s.kind) == Profile {
        CrawlResolvesGroups(api, s.id, AddRelationship(st, Relationship(userID, s.id, Subscribes)), depth - 1);
      }
      CrawlSubscriptionsResolveGroups(api, userID, subscriptions[1..], next, depth);
    }
  }

  // ---------------------------------------------------------------------------
  // Depth bound and group non-expansion

  /** `c` is one of the ids a successful visit of `x` recurses into: a follower, or a
      subscription of type profile. Pages and groups are not children. */
  ghost predicate IsChild(api: VkApi, x: int, c: int) {
    && GetUserFullData(api, x).Success?
    && FollowersOf(api, x).Success?
    && SubscriptionsOf(api, x).Success?
    && ((exists i | 0 <= i < |FollowersOf(api, x).value| :: FollowersOf(api, x).value[i].id == c)
        || (exists i | 0 <= i < |SubscriptionsOf(api, x).value| ::
              KindOf(SubscriptionsOf(api, x).value[i].kind) == Profile && SubscriptionsOf(api, x).value[i].id == c))
  }

  /** `y` is at most depth - 1 child steps away from `x` (so nothing is in reach at depth 0). */
  ghost predicate InReach(api: VkApi, x: int, y: int, depth: nat)
    decreases depth
  {
    depth > 0 && (x == y || exists c :: IsChild(api, x, c) && InReach(api, c, y, depth - 1))
  }

  /** Every profile a crawl requests is within its depth budget of the id it starts from. */
  lemma {:induction false} CrawlWithinReach(api: VkApi, userID: int, st: CrawlState, depth: nat)
    ensures st.fetched <= Crawl(api, userID, st, depth).state.fetched
    ensures forall i | |st.fetched| <= i < |Crawl(api, userID, st, depth).state.fetched| ::
      InReach(api, userID, Crawl(api, userID, st, depth).state.fetched[i], depth)
    decreases depth, 2, 0
  {
    if depth == 0 || userID in st.visited {
      return;
    }
    var marked := st.(visited := st.visited + {userID}, fetched := st.fetched + [userID]);
    assert InReach(api, userID, userID, depth);
    match GetUserFullData(api, userID)
    case Failure(_) =>
    case Success(user) =>
      var stored := marked.(snap := marked.snap.(users := marked.snap.users[userID := user]));
      match FollowersOf(api, userID)
      case Failure(_) =>
      case Success(followers) =>
        match SubscriptionsOf(api, userID)
        case Failure(_) =>
        case Success(subscriptions) =>
          CrawlFollowersWithinReach(api, userID, followers, stored, depth);
          var linked := CrawlFollowers(api, userID, followers, stored, depth);
          CrawlSubscriptionsWithinReach(api, userID, subscriptions, linked, depth);
          var result := Crawl(api, userID, st, depth).state;
          forall i | |st.fetched| <= i < |result.fetched|
            ensures InReach(api, userID, result.fetched[i], depth)
          {
            var y := result.fetched[i];
            if i == |st.fetched| {
              assert y == userID;
            } else if i < |linked.fetched| {
              var j :| 0 <= j < |followers| && InReach(api, followers[j].id, y, depth - 1);
              assert IsChild(api, userID, followers[j].id);
            } else {
              var j :| 0 <= j < |subscriptions| && KindOf(subscriptions[j].kind) == Profile
                       && InReach(api, subscriptions[j].id, y, depth - 1);
              assert IsChild(api, userID, subscriptions[j].id);
            }
          }
  }

  lemma {:induction false} CrawlFollowersWithinReach(api: VkApi, userID: int, followers: seq<User>, st: CrawlState, depth: nat)
    requires depth > 0
    ensures st.fetched <= CrawlFollowers(api, userID, followers, st, depth).fetched
    ensures forall i | |st.fetched| <= i < |CrawlFollowers(api, userID, followers, st, depth).fetched| ::
      exists j | 0 <= j < |followers| ::
        InReach(api, followers[j].id, CrawlFollowers(api, userID, followers, st, depth).fetched[i], depth - 1)
    decreases depth, 1, |followers|
  {
    if followers != [] {
      var f := followers[0];
      var linked := AddRelationship(st, Relationship(f.id, userID, Follows));
      CrawlWithinReach(api, f.id, linked, depth - 1);
      var next := Crawl(api, f.id, linked, depth - 1).state;
      CrawlFollowersWithinReach(api, userID, followers[1..], next, depth);
      var result := CrawlFollowers(api, userID, followers, st, depth);
      assert result == CrawlFollowers(api, userID, followers[1..], next, depth);
      forall i | |st.fetched| <= i < |result.fetched|
        ensures exists j | 0 <= j < |followers| :: InReach(api, followers[j].id, result.fetched[i], depth - 1)
      {
        if i < |next.fetched| {
          assert InReach(api, followers[0].id, result.fetched[i], depth - 1);
        } else {
          var j :| 0 <= j < |followers[1..]| && InReach(api, followers[1..][j].id, result.fetched[i], depth - 1);
          assert followers[1..][j] == followers[j + 1];
        }
      }
    }
  }

  lemma {:induction false} CrawlSubscriptionsWithinReach(api: VkApi, userID: int, subscriptions: seq<Subscription>, st: CrawlState, depth: nat)
    requires depth > 0
    ensures st.fetched <= CrawlSubscriptions(api, userID, subscriptions, st, depth).fetched
    ensures forall i | |st.fetched| <= i < |CrawlSubscriptions(api, userID, subscriptions, st, depth).fetched| ::
      exists j | 0 <= j < |subscriptions| ::
        (KindOf(subscriptions[j].kind) == Profile &&
         InReach(api, subscriptions[j].id, CrawlSubscriptions(api, userID, subscriptions, st, depth).fetched[i], depth - 1))
    decreases depth, 0, |subscriptions|
  {
    if subscriptions != [] {
      var s := subscriptions[0];
      var next := CrawlSubscription(api, userID, s, st, depth);
      if KindOf(s.kind) == Profile {
        CrawlWithinReach(api, s.id, AddRelationship(st, Relationship(userID, s.id, Subscribes)), depth - 1);
      } else {
        assert next.fetched == st.fetched;
      }
      CrawlSubscriptionsWithinReach(api, userID, subscriptions[1..], next, depth);
      var result := CrawlSubscriptions(api, userID, subscriptions, st, depth);
      assert result == CrawlSubscriptions(api, userID, subscriptions[1..], next, depth);
      forall i | |st.fetched| <= i < |result.fetched|
        ensures exists j | 0 <= j < |subscriptions| ::
          KindOf(subscriptions[j].kind) == Profile && InReach(api, subscriptions[j].id, result.fetched[i], depth - 1)
      {
        if i < |next.fetched| {
          assert KindOf(subscriptions[0].kind) == Profile && InReach(api, subscriptions[0].id, result.fetched[i], depth - 1);
        } else {
          var j :| 0 <= j < |subscriptions[1..]| && KindOf(subscriptions[1..][j].kind) == Profile
                   && InReach(api, subscriptions[1..][j].id, result.fetched[i], depth - 1);
          assert subscriptions[1..][j] == subscriptions[j + 1];
        }
      }
    }
  }

  // ---------------------------------------------------------------------------
  // One node's own behaviour

  /** At depth 0, or for an id already visited, the call is a no-op that returns nil. */
  lemma CrawlSkips(api: VkApi, userID: int, st: CrawlState, depth: nat)
    requires depth == 0 || userID in st.visited
    ensures Crawl(api, userID, st, depth) == Crawled(None, st)
  {
  }

  /** A fresh id is marked visited and requested once, first, whatever happens next. The call
      fails exactly when one of the node's own three requests fails (errors of recursive branches
      never surface); a failed call requests nothing more, adds no edge and no group, and stores
      the profile only if that request succeeded. The profile is stored under the requested id and
      stays there to the end of the call. */
  lemma CrawlVisit(api: VkApi, userID: int, st: CrawlState, depth: nat)
    requires Coherent(api, st)
    requires depth > 0 && userID !in st.visited
    ensures var r := Crawl(api, userID, st, depth);
      && userID in r.state.visited
      && st.fetched + [userID] <= r.state.fetched
      && (r.error.Some? <==>
            GetUserFullData(api, userID).Failure? || FollowersOf(api, userID).Failure? || SubscriptionsOf(api, userID).Failure?)
      && (r.error.Some? ==>
            r.state.visited == st.visited + {userID} && r.state.snap.relationships == st.snap.relationships
            && r.state.snap.groups == st.snap.groups)
      && (r.error.Some? ==> r.state.fetched == st.fetched + [userID])
      && (r.error.Some? && GetUserFullData(api, userID).Failure? ==> r.state.snap.users == st.snap.users)
      && (r.error.Some? && GetUserFullData(api, userID).Success? ==>
            r.state.snap.users == st.snap.users[userID := GetUserFullData(api, userID).value])
      && (GetUserFullData(api, userID).Success? ==>
            userID in r.state.snap.users && r.state.snap.users[userID] == GetUserFullData(api, userID).value)
  {
    match GetUserFullData(api, userID)
    case Failure(_) =>
    case Success(user) =>
      var marked := st.(visited := st.visited + {userID}, fetched := st.fetched + [userID]);
      var stored := marked.(snap := marked.snap.(users := marked.snap.users[userID := user]));
      assert forall r | r in stored.snap.relationships :: Anchored(r, stored.snap) by {
        forall r | r in stored.snap.relationships ensures Anchored(r, stored.snap) {
          assert Anchored(r, marked.snap);
        }
      }
      assert Coherent(api, stored);
      if FollowersOf(api, userID).Success? && SubscriptionsOf(api, userID).Success? {
        var followers, subscriptions := FollowersOf(api, userID).value, SubscriptionsOf(api, userID).value;
        CrawlFollowersCoherent(api, userID, followers, stored, depth);
        var linked := CrawlFollowers(api, userID, followers, stored, depth);
        CrawlSubscriptionsCoherent(api, userID, subscriptions, linked, depth);
      }
  }

  /** Every follower's FOLLOWS edge into userID is in the final edge list of the followers loop,
      whatever the crawls in between do: they only append. */
  lemma {:induction false} FollowerEdgesEmitted(api: VkApi, userID: int, followers: seq<User>, st: CrawlState, depth: nat)
    requires depth > 0
    ensures forall i | 0 <= i < |followers| ::
      Relationship(followers[i].id, userID, Follows) in CrawlFollowers(api, userID, followers, st, depth).snap.relationships
    decreases |followers|
  {
    if followers != [] {
      var f := followers[0];
      var linked := AddRelationship(st, Relationship(f.id, userID, Follows));
      var next := Crawl(api, f.id, linked, depth - 1).state;
      FollowerEdgesEmitted(api, userID, followers[1..], next, depth);
      var result := CrawlFollowers(api, userID, followers, st, depth);
      assert result == CrawlFollowers(api, userID, followers[1..], next, depth);
      EdgeKept(linked.snap.relationships, result.snap.relationships, |st.snap.relationships|);
      forall i | 1 <= i < |followers|
        ensures Relationship(followers[i].id, userID, Follows) in result.snap.relationships
      {
        assert followers[1..][i - 1] == followers[i];
      }
    }
  }

  /** An edge at index n stays at index n when the list is extended. */
  lemma EdgeKept(rels: seq<Relationship>, rels': seq<Relationship>, n: nat)
    requires rels <= rels' && n < |rels|
    ensures rels'[n] == rels[n]
  {
  }

  /** `e` is in `rels` at index `from` or later. */
  predicate EmittedFrom(rels: seq<Relationship>, from: nat, e: Relationship) {
    exists j | from <= j < |rels| :: rels[j] == e
  }

  /** The edges and the group one subscription contributes are in the final state of the loop,
      the edges at index `from` or later. */
  ghost predicate SubscriptionEmitted(userID: int, s: Subscription, snap: Snapshot, from: nat) {
    && (KindOf(s.kind) == Community ==>
          EmittedFrom(snap.relationships, from, Relationship(userID, -s.id, Subscribes)) && -s.id in snap.groups)
    && (KindOf(s.kind) == Profile ==> EmittedFrom(snap.relationships, from, Relationship(userID, s.id, Subscribes)))
  }

  /** What a subscription contributed stays when the edge list and the group map are extended,
      and counts as contributed from any earlier index too. */
  lemma SubscriptionEmittedKept(userID: int, s: Subscription, snap: Snapshot, snap': Snapshot, from: nat, from': nat)
    requires SubscriptionEmitted(userID, s, snap, from)
    requires snap.relationships <= snap'.relationships && snap.groups.Keys <= snap'.groups.Keys
    requires from' <= from
    ensures SubscriptionEmitted(userID, s, snap', from')
  {
    if KindOf(s.kind) == Community {
      var j :| from <= j < |snap.relationships| && snap.relationships[j] == Relationship(userID, -s.id, Subscribes);
      assert snap'.relationships[j] == snap.relationships[j];
    } else if KindOf(s.kind) == Profile {
      var j :| from <= j < |snap.relationships| && snap.relationships[j] == Relationship(userID, s.id, Subscribes);
      assert snap'.relationships[j] == snap.relationships[j];
    }
  }

  /** One subscription step contributes its edge (and group), at the end of the list it was given. */
  lemma OwnSubscriptionEmitted(api: VkApi, userID: int, s: Subscription, st: CrawlState, depth: nat)
    requires depth > 0
    ensures SubscriptionEmitted(userID, s, CrawlSubscription(api, userID, s, st, depth).snap, |st.snap.relationships|)
  {
    var r := CrawlSubscription(api, userID, s, st, depth);
    var n := |st.snap.relationships|;
    match KindOf(s.kind) {
      case Community =>
        var withGroup := st.(snap := st.snap.(groups := st.snap.groups[-s.id := GroupOf(s)]));
        assert r == AddRelationship(withGroup, Relationship(userID, -s.id, Subscribes));
        assert r.snap.relationships[n] == Relationship(userID, -s.id, Subscribes);
      case Profile =>
        var linked := AddRelationship(st, Relationship(userID, s.id, Subscribes));
        assert r == Crawl(api, s.id, linked, depth - 1).state;
        EdgeKept(linked.snap.relationships, r.snap.relationships, n);
        assert r.snap.relationships[n] == Relationship(userID, s.id, Subscribes);
      case Ignored =>
    }
  }

  /** Every subscription's edges and groups are in the final state of the subscriptions loop,
      at or after the index where the loop started. */
  lemma {:induction false} SubscriptionEdgesEmitted(api: VkApi, userID: int, subscriptions: seq<Subscription>, st: CrawlState, depth: nat)
    requires depth > 0
    ensures forall i | 0 <= i < |subscriptions| ::
      SubscriptionEmitted(userID, subscriptions[i], CrawlSubscriptions(api, userID, subscriptions, st, depth).snap,
                          |st.snap.relationships|)
    decreases |subscriptions|
  {
    if subscriptions != [] {
      var s := subscriptions[0];
      var next := CrawlSubscription(api, userID, s, st, depth);
      var n := |st.snap.relationships|;
      SubscriptionEdgesEmitted(api, userID, subscriptions[1..], next, depth);
      var result := CrawlSubscriptions(api, userID, subscriptions, st, depth);
      assert result == CrawlSubscriptions(api, userID, subscriptions[1..], next, depth);
      OwnSubscriptionEmitted(api, userID, s, st, depth);
      SubscriptionEmittedKept(userID, s, next.snap, result.snap, n, n);
      forall i | 1 <= i < |subscriptions|
        ensures SubscriptionEmitted(userID, subscriptions[i], result.snap, n)
      {
        assert subscriptions[1..][i - 1] == subscriptions[i];
        SubscriptionEmittedKept(userID, subscriptions[i], result.snap, result.snap, |next.snap.relationships|, n);
      }
    }
  }

  /** The FOLLOWS edge of every follower is among the first k edges, and every subscription's
      edges come at index k or later. */
  ghost predicate OwnEdgesSplitAt(userID: int, followers: seq<User>, subscriptions: seq<Subscription>, snap: Snapshot, k: nat)
    requires k <= |snap.relationships|
  {
    && (forall i | 0 <= i < |followers| :: Relationship(followers[i].id, userID, Follows) in snap.relationships[..k])
    && (forall i | 0 <= i < |subscriptions| :: SubscriptionEmitted(userID, subscriptions[i], snap, k))
  }

  /** Once the node's own three requests succeed, its profile is stored under its id, every
      follower contributes its FOLLOWS edge, every page or group its Group (under the negated id)
      and SUBSCRIBES edge, and every profile subscription its SUBSCRIBES edge, whatever the
      recursive branches do; all the node's follower edges come before all its subscription
      edges in the list. */
  lemma CrawlEmitsOwnEdges(api: VkApi, userID: int, st: CrawlState, depth: nat)
    requires Coherent(api, st)
    requires depth > 0 && userID !in st.visited
    requires GetUserFullData(api, userID).Success?
    requires FollowersOf(api, userID).Success? && SubscriptionsOf(api, userID).Success?
    ensures var r := Crawl(api, userID, st, depth).state;
      userID in r.snap.users && r.snap.users[userID] == GetUserFullData(api, userID).value
    ensures var r := Crawl(api, userID, st, depth).state;
      exists k | 0 <= k <= |r.snap.relationships| ::
        OwnEdgesSplitAt(userID, FollowersOf(api, userID).value, SubscriptionsOf(api, userID).value, r.snap, k)
  {
    CrawlVisit(api, userID, st, depth);
    var followers, subscriptions := FollowersOf(api, userID).value, SubscriptionsOf(api, userID).value;
    var marked := st.(visited := st.visited + {userID}, fetched := st.fetched + [userID]);
    var stored := marked.(snap := marked.snap.(users := marked.snap.users[userID := GetUserFullData(api, userID).value]));
    FollowerEdgesEmitted(api, userID, followers, stored, depth);
    var linked := CrawlFollowers(api, userID, followers, stored, depth);
    SubscriptionEdgesEmitted(api, userID, subscriptions, linked, depth);
    var r := Crawl(api, userID, st, depth).state;
    assert r == CrawlSubscriptions(api, userID, subscriptions, linked, depth);
    var k := |linked.snap.relationships|;
    assert r.snap.relationships[..k] == linked.snap.relationships;
    assert OwnEdgesSplitAt(userID, followers, subscriptions, r.snap, k);
    assert exists k | 0 <= k <= |Crawl(api, userID, st, depth).state.snap.relationships| ::
      OwnEdgesSplitAt(userID, FollowersOf(api, userID).value, SubscriptionsOf(api, userID).value, Crawl(api, userID, st, depth).state.snap, k);
  }

  // ---------------------------------------------------------------------------
  // Subscription types

  lemma {:induction false} ToLowerIdempotent(s: string)
    ensures ToLower(ToLower(s)) == ToLower(s)
  {
    var t := ToLower(s);
    forall i | 0 <= i < |s|
      ensures ToLower(t)[i] == t[i]
    {
      assert LowerChar(LowerChar(s[i])) == LowerChar(s[i]);
    }
  }

  /** The type comparison ignores letter case: lowering the type first changes nothing, and
      "Group", "PAGE" and "Profile" (with a dotted capital I, which Go lowers to 'i') are recognised. */
  lemma KindOfIgnoresCase(kind: string)
    ensures KindOf(ToLower(kind)) == KindOf(kind)
    ensures KindOf("Group") == Community && KindOf("PAGE") == Community
    ensures KindOf("PROF\U{130}LE") == Profile && KindOf("event") == Ignored
  {
    ToLowerIdempotent(kind);
    assert FoldsTo("Group", "group");
    assert FoldsTo("PAGE", "page");
    assert FoldsTo("PROF\U{130}LE", "profile");
    assert LowerChar("event"[0]) != "group"[0];
  }

  // ---------------------------------------------------------------------------
  // A whole crawl

  lemma StartCoherent(api: VkApi)
    ensures Coherent(api, Start)
  {
  }

  /** In a crawl from the seed, each profile is requested at most once, only ids within the depth
      budget are requested (groups are never expanded), and exactly the requested ids are visited. */
  lemma CrawlFetchesEachProfileOnce(api: VkApi, seed: int, depth: nat)
    ensures var r := Crawl(api, seed, Start, depth).state;
      && Distinct(r.fetched)
      && (forall x :: x in r.visited <==> x in r.fetched)
      && (forall i | 0 <= i < |r.fetched| :: InReach(api, seed, r.fetched[i], depth))
  {
    CrawlCoherent(api, seed, Start, depth);
    CrawlWithinReach(api, seed, Start, depth);
  }

  /** What a successful CollectData snapshot satisfies. The seed's profile is stored under the
      seed id; every user is the profile VK returned for its key and lies within the depth budget
      of the seed; every group is keyed by its negated id; every FOLLOWS target and SUBSCRIBES
      source has a profile; and, when VK's user ids are non-negative, every negative target
      names a stored group. */
  lemma CollectSnapshotSound(api: VkApi, userID: string, depth: nat)
    requires Collect(api, userID, depth).Success?
    ensures Decimal.Atoi(userID).Some?
    ensures var snap, seed := Collect(api, userID, depth).value, Decimal.Atoi(userID).value;
      && (depth > 0 ==> seed in snap.users && snap.users[seed] == GetUserFullData(api, seed).value)
      && (forall k | k in snap.users :: GetUserFullData(api, k) == Success(snap.users[k]) && InReach(api, seed, k, depth))
      && (forall k | k in snap.groups :: snap.groups[k].id == -k)
      && (forall r | r in snap.relationships :: Anchored(r, snap))
      && (NonNegativeUserIds(api) && seed >= 0 ==> GroupTargetsResolved(snap))
  {
    var seed := Decimal.Atoi(userID).value;
    var r := Crawl(api, seed, Start, depth).state;
    CrawlCoherent(api, seed, Start, depth);
    CrawlWithinReach(api, seed, Start, depth);
    if depth > 0 {
      CrawlVisit(api, seed, Start, depth);
    }
    forall k | k in r.snap.users
      ensures InReach(api, seed, k, depth)
    {
      assert k in r.fetched;
      var i :| 0 <= i < |r.fetched| && r.fetched[i] == k;
    }
    if NonNegativeUserIds(api) && seed >= 0 {
      CrawlResolvesGroups(api, seed, Start, depth);
    }
  }

  /** CollectData fails exactly when the seed is not a decimal 64-bit integer, or, with a positive
      depth, when one of the seed's own three requests fails; it never returns a partial snapshot. */
  lemma CollectFailure(api: VkApi, userID: string, depth: nat)
    ensures Collect(api, userID, depth).Failure? <==>
      || Decimal.Atoi(userID).None?
      || (depth > 0 &&
          var seed := Decimal.Atoi(userID).value;
          GetUserFullData(api, seed).Failure? || FollowersOf(api, seed).Failure? || SubscriptionsOf(api, seed).Failure?)
    ensures !Decimal.IsDecimal(userID) ==> Collect(api, userID, depth) == Failure(InvalidUserId(userID))
    ensures Decimal.Atoi(userID).Some? && depth == 0 ==> Collect(api, userID, depth) == Success(EmptySnapshot)
  {
    if Decimal.Atoi(userID).Some? && depth > 0 {
      CrawlVisit(api, Decimal.Atoi(userID).value, Start, depth);
    }
  }

  // ---------------------------------------------------------------------------
  // The first visit wins

  /** A users.get / followers item carrying only an id. */
  function IdItem(id: int): UserItem {
    UserItem(id, "", "", "", 0, "", "")
  }

  /** Every profile exists and has no subscription; 2 and 3 follow 1, 3 follows 2, 4 follows 3. */
  function ChainApi(): VkApi {
    VkApi(
      id => Fetched([IdItem(id)]),
      id => Fetched(if id == 1 then [IdItem(2), IdItem(3)] else if id == 2 then [IdItem(3)]
                    else if id == 3 then [IdItem(4)] else []),
      id => Fetched([]))
  }

  lemma ChainApiResponses()
    ensures FollowersOf(ChainApi(), 1) == Success([ToUser(IdItem(2)), ToUser(IdItem(3))])
    ensures FollowersOf(ChainApi(), 2) == Success([ToUser(IdItem(3))])
    ensures FollowersOf(ChainApi(), 3) == Success([ToUser(IdItem(4))])
    ensures forall id :: SubscriptionsOf(ChainApi(), id) == Success([])
    ensures forall id :: GetUserFullData(ChainApi(), id) == Success(ToUser(IdItem(id)))
  {
    var api := ChainApi();
    assert api.usersGetFollowers(1) == Fetched([IdItem(2), IdItem(3)]);
    assert FollowersOf(api, 1).value[0] == ToUser(IdItem(2)) && FollowersOf(api, 1).value[1] == ToUser(IdItem(3));
    assert FollowersOf(api, 1).Success? && |FollowersOf(api, 1).value| == 2;
    assert FollowersOf(api, 1).value == [ToUser(IdItem(2)), ToUser(IdItem(3))];
    assert api.usersGetFollowers(2) == Fetched([IdItem(3)]);
    assert FollowersOf(api, 2).value[0] == ToUser(IdItem(3));
    assert FollowersOf(api, 2).Success? && |FollowersOf(api, 2).value| == 1;
    assert FollowersOf(api, 2).value == [ToUser(IdItem(3))];
    assert api.usersGetFollowers(3) == Fetched([IdItem(4)]);
    assert FollowersOf(api, 3).value[0] == ToUser(IdItem(4));
    assert FollowersOf(api, 3).Success? && |FollowersOf(api, 3).value| == 1;
    assert FollowersOf(api, 3).value == [ToUser(IdItem(4))];
    forall id
      ensures SubscriptionsOf(api, id) == Success([])
    {
      assert api.usersGetSubscriptions(id) == Fetched([]);
      assert |SubscriptionsOf(api, id).value| == 0;
    }
  }

  /** User 3 reached through 2, with budget 1. */
  lemma ChainThird(st: CrawlState)
    requires st.visited == {1, 2} && st.fetched == [1, 2]
    ensures var r := Crawl(ChainApi(), 3, st, 1).state;
      r.visited == {1, 2, 3} && r.fetched == [1, 2, 3]
  {
    var api := ChainApi();
    ChainApiResponses();
    var stored := st.(visited := {1, 2, 3}, fetched := [1, 2, 3],
                      snap := st.snap.(users := st.snap.users[3 := ToUser(IdItem(3))]));
    var fs := [ToUser(IdItem(4))];
    var linked := AddRelationship(stored, Relationship(4, 3, Follows));
    assert Crawl(api, 4, linked, 0).state == linked;
    assert CrawlFollowers(api, 3, fs, stored, 1) == CrawlFollowers(api, 3, fs[1..], linked, 1);
    assert fs[1..] == [];
    assert Crawl(api, 3, st, 1).state == CrawlSubscriptions(api, 3, [], CrawlFollowers(api, 3, fs, stored, 1), 1);
  }

  /** User 2 reached from 1, with budget 2. */
  lemma ChainSecond(st: CrawlState)
    requires st.visited == {1} && st.fetched == [1]
    ensures var r := Crawl(ChainApi(), 2, st, 2).state;
      r.visited == {1, 2, 3} && r.fetched == [1, 2, 3]
  {
    var api := ChainApi();
    ChainApiResponses();
    var stored := st.(visited := {1, 2}, fetched := [1, 2],
                      snap := st.snap.(users := st.snap.users[2 := ToUser(IdItem(2))]));
    var fs := [ToUser(IdItem(3))];
    var linked := AddRelationship(stored, Relationship(3, 2, Follows));
    ChainThird(linked);
    assert CrawlFollowers(api, 2, fs, stored, 2) == CrawlFollowers(api, 2, fs[1..], Crawl(api, 3, linked, 1).state, 2);
    assert fs[1..] == [];
    assert Crawl(api, 2, st, 2).state == CrawlSubscriptions(api, 2, [], CrawlFollowers(api, 2, fs, stored, 2), 2);
  }

  /** The crawl is depth-first and an id is expanded only at its first visit, with the budget left
      on that path: in ChainApi with depth 3, user 4 is two steps from the seed (1, 3, 4), but 3 is
      first reached through 2 with budget 1, so 4 is never requested; the later, shorter path
      through 1's second follower finds 3 visited and stops. */
  lemma FirstVisitWins()
    ensures InReach(ChainApi(), 1, 4, 3)
    ensures Crawl(ChainApi(), 1, Start, 3).state.fetched == [1, 2, 3]
    ensures 4 !in Crawl(ChainApi(), 1, Start, 3).state.fetched
  {
    ChainReach();
    ChainFirst();
  }

  /** 4 follows 3, which follows 1. */
  lemma ChainReach()
    ensures InReach(ChainApi(), 1, 4, 3)
  {
    var api := ChainApi();
    ChainApiResponses();
    assert FollowersOf(api, 1).value[1].id == 3;
    assert IsChild(api, 1, 3);
    assert FollowersOf(api, 3).value[0].id == 4;
    assert IsChild(api, 3, 4);
    assert InReach(api, 4, 4, 1);
    assert InReach(api, 3, 4, 2);
  }

  /** The seed 1 with budget 3: 2 is crawled first, and 3 is already visited when its turn comes. */
  lemma ChainFirst()
    ensures Crawl(ChainApi(), 1, Start, 3).state.fetched == [1, 2, 3]
  {
    var api := ChainApi();
    ChainApiResponses();
    var stored := Start.(visited := {1}, fetched := [1], snap := Start.snap.(users := map[1 := ToUser(IdItem(1))]));
    var fs := [ToUser(IdItem(2)), ToUser(IdItem(3))];
    var first := AddRelationship(stored, Relationship(2, 1, Follows));
    ChainSecond(first);
    var a := Crawl(api, 2, first, 2).state;
    var second := AddRelationship(a, Relationship(3, 1, Follows));
    assert Crawl(api, 3, second, 2).state == second;
    assert fs[1..] == [ToUser(IdItem(3))] && fs[1..][1..] == [];
    assert CrawlFollowers(api, 1, fs, stored, 3) == CrawlFollowers(api, 1, fs[1..], a, 3);
    assert CrawlFollowers(api, 1, fs[1..], a, 3) == CrawlFollowers(api, 1, [], second, 3);
    assert Crawl(api, 1, Start, 3).state == CrawlSubscriptions(api, 1, [], CrawlFollowers(api, 1, fs, stored, 3), 3);
  }
}
