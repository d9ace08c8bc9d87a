# vk-info-app-neo4j: the crawler and the graph writer

This project models the two halves of the pipeline that turns a VK user's neighbourhood
into a Neo4j graph, and proves properties of both.

- **The collector.** `VKClient.CollectData` parses the seed user id. `collectUserData`
  then runs a depth-bounded, depth-first crawl. Each user is fetched at most once. The
  first visit of an id wins, even when a later, shorter path would have left more depth
  to expand it. So an id within the depth bound of the seed can go unfetched
  (`CollectorProofs.FirstVisitWins` gives a four-user example). A FOLLOWS
  edge runs from each follower into the user. A SUBSCRIBES edge runs from the user to
  each profile or community they subscribe to. Communities are stored under their
  **negated** id, so a negative relationship target means a group. An error in a
  recursive branch is swallowed. An error on the seed's own requests aborts the
  collection.
- **The writer.** `Neo4jStorage.SaveData` runs three loops:
  - it upserts every user node, then every group node, ranging over Go maps in an
    unspecified order;
  - it then links the endpoints of every relationship in list order, choosing the
    target label from the sign of `To`;
  - it stops at the first statement that fails, without rolling back what was
    already written.

## How the model is built

- **The VK API is an oracle.** `VkFetch.VkApi` is a value holding, for each of
  `users.get`, `users.getFollowers` and `users.getSubscriptions`, one response (or a
  failure) per user id. The field mapping of the three client calls is modelled
  exactly: the city falls back to the home town, and the name is "first last".
- **The crawl is specified and implemented.** It is specified by three mutually
  recursive functions: `Crawl`, `CrawlFollowers` and `CrawlSubscriptions`. The
  step-by-step code is the methods `CollectUserData`, `LinkFollowers`,
  `LinkSubscriptions` and `CollectData`. These fill a `Models.Data` object in place
  and are proved equal to those functions.
- **The shared visited set is threaded through.** The Go map `visitedUsers` is
  passed in and returned, together with a ghost log of the profile requests made.
- **The database is modelled by its contents.** `Storage.GraphDatabase` holds a
  node map keyed by (label, id) and a set of typed edges. Each Cypher statement is
  a `Storage.Statement` whose effect is `Storage.Apply`. A `MERGE` of a node creates
  it if absent, then overwrites the properties it sets. A relationship's `MATCH …
  MATCH … MERGE` adds the edge only when both endpoints exist.
- **Driver failures come from an oracle.** `fails(n)` says whether the session's
  n-th statement fails.
- **A note on target 0.** The writer reads a relationship target of 0 as the user
  with id 0 (internal/storage/neo4j.go:80). A community with id 0, which the collector
  would encode as target `-0 = 0`, could not be told apart from a user.
  `StorageProofs.TargetRoundTrip` states exactly which targets survive the round
  trip. VK community ids are positive, so this is not a defect in practice.
- **Map order is chosen by the method.** `SaveData` picks each next map key with
  `:|` and returns the orders it used as ghost results. It is proved equal to
  `Exec(old graph, Plan(snapshot, orders), fails, 0)`.

## Model

| member | source | states |
|---|---|---|
| Models.Data.constructor | internal/clients/vk_api.go:141-145 | a fresh `Data` holds no users, no groups and no relationships |
| Decimal.Atoi | internal/clients/vk_api.go:147-150 | the seed parses exactly when it is an optionally signed run of digits whose value lies in the 64-bit range, and then the result is that value (negated after a minus sign); anything else is rejected |
| Decimal.AtoiExamples | internal/clients/vk_api.go:147 | a plus or minus sign and leading zeros are accepted ("+007" is 7, "-0" is 0); an empty text, a bare sign, a space or a letter are rejected |
| Decimal.AtoiItoa | cmd/vk_app/main.go:59-64 | every 64-bit id printed as decimal text (as the resolved current user id is) parses back to the same id |
| Decimal.NatDigitsValue | internal/clients/vk_api.go:133 | the decimal text of a natural number is a non-empty digit run without sign whose value is that number |
| VkFetch.ResolveCity | internal/clients/vk_api.go:276-279 | the city is the structured city title when it is non-empty, otherwise the home town; it is empty only when both are |
| VkFetch.DisplayName | internal/clients/vk_api.go:284 | the name is the first name, one space, then the last name |
| VkFetch.GetUserFullData | internal/clients/vk_api.go:241-290 | fails exactly when the request fails in transport, status or JSON decoding (request error) or the response is empty (empty-response error); otherwise it is the mapping of the first item |
| VkFetch.GetFollowers | internal/clients/vk_api.go:293-341 | fails exactly when the request fails in transport, status or JSON decoding (a VK error object gives no items and no error); otherwise one user per response item, in order, each mapped as in GetUserFullData |
| VkFetch.GetSubscriptions | internal/clients/vk_api.go:344-383 | fails exactly when the request fails in transport, status or JSON decoding (a VK error object gives no items and no error); otherwise one subscription per response item, in order, with id, name, screen name and type copied |
| Collector.ToLower | internal/clients/vk_api.go:209 | case folding keeps the length; each capital A to Z becomes its small letter, U+0130 becomes `i`, U+212A becomes `k`, and every other character stays; none of these capitals is left, and a small ASCII letter in the result was there already or comes from one of them |
| Collector.KindOf | internal/clients/vk_api.go:209-222 | a subscription is a community exactly when its type folds to "page" or "group", a profile exactly when it folds to "profile", and is ignored otherwise |
| Collector.Crawl | internal/clients/vk_api.go:160-189 | a call only adds to the visited set, the request log, the edges, the users and the groups; after a call at positive depth the id is visited; an error is possible only for a fresh id at positive depth and is about that id |
| Collector.CrawlFollowers | internal/clients/vk_api.go:192-205 | the followers loop only adds to the state, and appends at least one edge per follower |
| Collector.CrawlSubscription | internal/clients/vk_api.go:209-234 | one subscription step only adds to the state; it changes nothing exactly when the type is ignored; a page or group requests no profile and visits no id |
| Collector.CrawlSubscriptions | internal/clients/vk_api.go:208-235 | the subscriptions loop only adds to the state |
| Collector.Collect | internal/clients/vk_api.go:139-157 | the invalid-id error is returned exactly when the text does not parse as a 64-bit integer; any other error is about the seed id; at depth 0 a parsed seed gives the empty snapshot |
| Collector.CollectUserData | internal/clients/vk_api.go:160-238 | one call changes the data object, the visited set and the request log exactly as the specification function `Crawl` says, and returns its error |
| Collector.LinkFollowers | internal/clients/vk_api.go:192-205 | the followers loop changes the state exactly as `CrawlFollowers` says: an edge, then a crawl one level down per follower, with errors dropped |
| Collector.LinkSubscriptions | internal/clients/vk_api.go:208-235 | the subscriptions loop changes the state exactly as `CrawlSubscriptions` says: a group under its negated id and an edge to it for a page or group; an edge and a crawl for a profile; nothing for other types |
| Collector.CollectData | internal/clients/vk_api.go:139-157 | returns a snapshot exactly when `Collect` succeeds, and then the snapshot is `Collect`'s; otherwise returns no data and `Collect`'s error |
| CollectorProofs.GrowsTransitive | internal/clients/vk_api.go:192-235 | the ways a crawl may change its state compose |
| CollectorProofs.AddRelationshipCoherent | internal/clients/vk_api.go:193-197 | appending an edge whose crawled end is stored keeps the crawl invariant |
| CollectorProofs.CrawlCoherent | internal/clients/vk_api.go:160-238 | a crawl keeps its invariant and only grows its state: no id requested twice; visited ids are exactly the requested ones; stored users are VK's profiles under their own keys and are never overwritten; groups sit under their negated ids; every edge's crawled end has a profile |
| CollectorProofs.CrawlFollowersCoherent | internal/clients/vk_api.go:192-205 | the followers loop keeps the crawl invariant and only grows the state |
| CollectorProofs.CrawlSubscriptionCoherent | internal/clients/vk_api.go:209-234 | one subscription step keeps the crawl invariant and only grows the state |
| CollectorProofs.CrawlSubscriptionsCoherent | internal/clients/vk_api.go:208-235 | the subscriptions loop keeps the crawl invariant and only grows the state |
| CollectorProofs.CrawlResolvesGroups | internal/clients/vk_api.go:209-227 | with non-negative user ids from VK, every negative edge target produced names a stored group |
| CollectorProofs.CrawlFollowersResolveGroups | internal/clients/vk_api.go:192-205 | the followers loop keeps every negative edge target resolved to a stored group |
| CollectorProofs.CrawlSubscriptionsResolveGroups | internal/clients/vk_api.go:208-235 | the subscriptions loop keeps every negative edge target resolved to a stored group |
| CollectorProofs.CrawlWithinReach | internal/clients/vk_api.go:161-167 | a crawl only extends the request log, and every id it requests is within `depth` follower/profile-subscription hops of the start |
| CollectorProofs.CrawlFollowersWithinReach | internal/clients/vk_api.go:199-200 | every id the followers loop requests is within `depth - 1` hops of one of the followers |
| CollectorProofs.CrawlSubscriptionsWithinReach | internal/clients/vk_api.go:222-229 | every id the subscriptions loop requests is within `depth - 1` hops of one of the profile subscriptions |
| CollectorProofs.CrawlSkips | internal/clients/vk_api.go:161-166 | at depth 0, or for a visited id, a call changes nothing and returns no error |
| CollectorProofs.CrawlVisit | internal/clients/vk_api.go:167-189 | a fresh id is marked visited and its profile requested first; the call fails exactly when one of its three requests fails (in transport, status or JSON decoding, or an empty users.get reply), and then no other profile is requested, no edge or group is added, and the users are as before plus, when the profile request succeeded, that profile under the id; a successful profile is stored under the requested id |
| CollectorProofs.FollowerEdgesEmitted | internal/clients/vk_api.go:192-198 | every follower of a crawled user gets a FOLLOWS edge into that user |
| CollectorProofs.SubscriptionEdgesEmitted | internal/clients/vk_api.go:208-227 | every page/group subscription gets a stored group and a SUBSCRIBES edge to its negated id; every profile subscription gets a SUBSCRIBES edge to its id; all these edges lie at or after the point where the loop started |
| CollectorProofs.OwnSubscriptionEmitted | internal/clients/vk_api.go:209-227 | one subscription step appends its own SUBSCRIBES edge (and stores the group, for a page or group) at the end of the list it was given |
| CollectorProofs.CrawlEmitsOwnEdges | internal/clients/vk_api.go:175-235 | when a fresh user's three requests succeed, the profile, every follower edge and every subscription edge and group end up in the snapshot, every follower edge before every subscription edge |
| CollectorProofs.KindOfIgnoresCase | internal/clients/vk_api.go:209-222 | a subscription type is classified the same after lower-casing it; "Group" and "PAGE" are communities, "PROFİLE" (with the dotted capital I) a profile, "event" ignored |
| CollectorProofs.FirstVisitWins | internal/clients/vk_api.go:164-167 | with followers 2 and 3 for user 1, 3 for 2 and 4 for 3, a depth-3 crawl from 1 requests 1, 2 and 3 only: user 4 is within three hops (via 3) but 3 was first reached at depth 1 and is never expanded again |
| CollectorProofs.StartCoherent | internal/clients/vk_api.go:141-146 | the empty starting state satisfies the crawl invariant |
| CollectorProofs.CrawlFetchesEachProfileOnce | internal/clients/vk_api.go:164-167 | a crawl from the start requests each profile at most once, visits exactly what it requests, and only requests ids within the depth bound |
| CollectorProofs.CollectSnapshotSound | internal/clients/vk_api.go:139-238 | a returned snapshot has a numeric seed and, with positive depth, the seed's profile. Every stored user is VK's profile for its key and is within reach of the seed. Groups sit under their negated ids. Every crawled edge end has a profile. With non-negative user ids, every negative target is a stored group |
| CollectorProofs.CollectFailure | internal/clients/vk_api.go:147-154 | collection fails exactly when the seed does not parse, or (with positive depth) one of the seed's own three requests fails in transport, status or JSON decoding, or its users.get reply is empty; non-decimal text gives the invalid-id error; depth 0 gives the empty snapshot |
| Storage.TargetKey | internal/storage/neo4j.go:77-83 | a negative target is the Group with the absolute id, anything else (0 included) the User with that id |
| Storage.MergeEdge | internal/storage/neo4j.go:88-90 | linking keeps the nodes and adds at most the one edge; the edge is present afterwards exactly when it already was or both its endpoints exist |
| Storage.Plan | internal/storage/neo4j.go:36-101 | a save sends one statement per user and group in the chosen orders and per relationship: the user statements first, then the groups', then the relationships' |
| Storage.EdgeOf | internal/storage/neo4j.go:76-94 | a relationship is written as an edge from the User `From`, of type `Type`, to the node `TargetKey(To)` |
| Storage.Enumerate | internal/storage/neo4j.go:36 | some order lists every key of a map exactly once |
| Storage.ExecConcat | internal/storage/neo4j.go:36-101 | running two batches of statements in turn is running the first and, only if it did not fail, the second from where the first stopped |
| Storage.ExecStopped | internal/storage/neo4j.go:51-54 | once a statement has failed, the statements after it change nothing and the error stays the first one |
| Storage.GraphDatabase.constructor | internal/storage/neo4j.go:28 | a session opens on the given database contents |
| Storage.GraphDatabase.Run | internal/storage/neo4j.go:37-50 | a statement either fails and changes nothing, or applies its effect |
| Storage.SaveUsers | internal/storage/neo4j.go:36-55 | the user loop upserts every user once, in some order of the map, and stops at the first failing statement with that user's error |
| Storage.SaveGroups | internal/storage/neo4j.go:57-74 | the group loop upserts every group once, in some order of the map, and stops at the first failing statement with that group's error |
| Storage.SaveRelationships | internal/storage/neo4j.go:76-101 | the relationship loop links each relationship's endpoints in list order and stops at the first failing statement with that relationship's error |
| Storage.SaveData | internal/storage/neo4j.go:27-104 | the orders returned enumerate the two maps, and the error and the new database are those of running all user writes, then all group writes, then all relationship writes, stopping at the first failure |
| StorageProofs.ApplyAllConcat | internal/storage/neo4j.go:36-101 | applying two batches of successful statements is applying the second to the result of the first |
| StorageProofs.ExecWithoutFailure | internal/storage/neo4j.go:36-103 | when no statement fails there is no error and every statement is applied in order |
| StorageProofs.ExecStopsAtFirstFailure | internal/storage/neo4j.go:51-54 | when statement i is the first to fail, the error is statement i's; statements before it stay applied, and none after it runs |
| StorageProofs.ExecFailsIff | internal/storage/neo4j.go:51-99 | a save reports an error exactly when one of its statements fails |
| StorageProofs.PlanPhases | internal/storage/neo4j.go:36-101 | all user writes come first, then all group writes, then one write per relationship in list order; each statement's failure carries that entity's error |
| StorageProofs.UserPropsWritten | internal/storage/neo4j.go:41-49 | a user upsert sets exactly name, screen_name, sex and city, to the user's fields |
| StorageProofs.GroupPropsWritten | internal/storage/neo4j.go:62-67 | a group upsert sets exactly name and screen_name, to the group's fields |
| StorageProofs.MergeNodeUpserts | internal/storage/neo4j.go:40-41 | a MERGE … SET creates the node if absent, overwrites the properties it sets, keeps the node's other properties, and leaves the other nodes and the edges alone |
| StorageProofs.StatementFootprint | internal/storage/neo4j.go:37-92 | a node statement keeps the edges and leaves its node existing; a relationship statement keeps the nodes and adds at most its own edge |
| StorageProofs.NodeStep | internal/storage/neo4j.go:39-42 | one node upsert keeps the edges, makes its node exist, and overwrites only that node's properties, by the ones it sets |
| StorageProofs.WritesCons | internal/storage/neo4j.go:36-74 | a batch of node writes names a node exactly when its first write or one of the rest does |
| StorageProofs.WritesConcat | internal/storage/neo4j.go:36-74 | the user and group batches together name a node exactly when one of them does |
| StorageProofs.ApplyAllNodes | internal/storage/neo4j.go:36-74 | node writes keep the edges and create exactly the nodes they name |
| StorageProofs.ApplyAllNodeProps | internal/storage/neo4j.go:36-74 | node writes leave a node's properties as before, overwritten by the properties the writes set on it, later writes last |
| StorageProofs.OverlayConcat | internal/storage/neo4j.go:36-74 | the properties set by two batches are the first batch's overwritten by the second's |
| StorageProofs.OverlayNone | internal/storage/neo4j.go:36-74 | a node that no write names gets no properties |
| StorageProofs.OverlayUnique | internal/storage/neo4j.go:36-74 | a node named by exactly one write gets exactly that write's properties |
| StorageProofs.ApplyAllEdges | internal/storage/neo4j.go:76-101 | relationship writes keep the nodes and add exactly the edges of relationships whose two endpoints exist |
| StorageProofs.WrittenKeysAre | internal/storage/neo4j.go:36-74 | the nodes a save writes are the users under their ids and the groups under the negation of their keys |
| StorageProofs.SavedNodesAt | internal/storage/neo4j.go:36-74 | after a save a node exists exactly when it existed or the snapshot has an entry for it, and carries its old properties overwritten by that entry's |
| StorageProofs.UserPhase | internal/storage/neo4j.go:36-55 | for users keyed by their ids, the user loop names exactly the users' nodes, and sets on each exactly its user's four properties |
| StorageProofs.GroupPhase | internal/storage/neo4j.go:57-74 | for groups keyed by negated id, the group loop names exactly the groups' nodes, and sets on each exactly its group's two properties |
| StorageProofs.NodePhaseAt | internal/storage/neo4j.go:36-74 | after the two node loops a node exists exactly when it existed or is a snapshot entry, with that entry's properties on top of its old ones |
| StorageProofs.NodeOverlay | internal/storage/neo4j.go:36-74 | the properties the two node loops set on a node are exactly those of its snapshot entry, if any |
| StorageProofs.NodePhase | internal/storage/neo4j.go:36-74 | the two node loops keep the edges and leave the node map as the order-independent reference |
| StorageProofs.EdgePhase | internal/storage/neo4j.go:76-101 | the relationship loop adds the edges of linked relationships and nothing else |
| StorageProofs.SaveOutcome | internal/storage/neo4j.go:27-104 | for a snapshot keyed by id, a save in which every write succeeds leaves the same database whatever order the maps are ranged over in |
| StorageProofs.SavedGraphIdempotent | internal/storage/neo4j.go:40-92 | because every write is a MERGE, saving a just-saved snapshot again changes nothing |
| StorageProofs.SaveWithoutFailure | internal/storage/neo4j.go:27-104 | a save with no failing write reports no error and leaves the order-independent result |
| StorageProofs.SaveTwice | internal/storage/neo4j.go:27-104 | a second successful save of the same snapshot, in any map order, leaves the database as the first left it |
| StorageProofs.SavedKeepsNodes | internal/storage/neo4j.go:40 | a save removes no node |
| StorageProofs.SavedUserNode | internal/storage/neo4j.go:40-48 | the user stored under x becomes the User node with id x, carrying name, screen name, sex and city over its old properties |
| StorageProofs.SavedGroupNode | internal/storage/neo4j.go:59-67 | the group stored under x becomes the Group node with id -x, carrying name and screen name over its old properties |
| StorageProofs.SavedEdgesContents | internal/storage/neo4j.go:86-92 | a save removes no edge, and every new edge is the edge of a relationship of the snapshot between two existing nodes |
| StorageProofs.RelationshipSaved | internal/storage/neo4j.go:86-92 | a relationship becomes an edge exactly when it already was one or both its endpoints exist after the node loops; an edge to an absent node is dropped silently |
| StorageProofs.TargetRoundTrip | internal/storage/neo4j.go:77-83 | the writer decodes a target the collector encodes exactly for users with non-negative ids and groups with positive ids; a group with id 0 would come back as user 0 |
| StorageProofs.EncodeTargetKey | internal/storage/neo4j.go:77-83 | every integer target the writer decodes re-encodes to itself |
| Pipeline.CollectedIsKeyed | internal/clients/vk_api.go:175 | if users.get returns the profile asked for, a collected snapshot stores each user under its own id and each group under its negated id |
| Pipeline.GroupSubscriptionSaved | internal/clients/vk_api.go:210-221 | in such a snapshot, a SUBSCRIBES edge to a stored group from a stored user becomes, after a successful save, an edge from that User node to that Group node |
| Pipeline.CollectThenSave | internal/storage/neo4j.go:27-104 | saving a collected snapshot with no failing write gives no error and the order-independent result |
| Pipeline.CollectedGroupEdges | internal/clients/vk_api.go:209-221 | with non-negative VK user ids, every subscription of a collected snapshot to a community is an edge from the subscriber's User node to the community's Group node after a successful save |

## Left out

- **Transport and logging.** The HTTP round trip (`makeVKRequest`), the access token,
  the API version and `count=200` are not modelled. Logging is not modelled either. A
  failed transport call, a status other than 200 and a body that is not JSON are the
  single oracle outcome `RequestFailed`. A VK error object is not a failure:
  `makeVKRequest` tests for it with a type assertion (internal/clients/vk_api.go:99)
  that never holds for the response types its callers pass (lines 124, 265, 320, 367).
  The error reply therefore decodes as a response without items. The oracle gives it as
  an empty response: `users.get` then yields the empty-response error (lines 270-272),
  and the followers and subscriptions calls yield an empty list and no error.
- **Context cancellation and the second return value of `session.Run`.** Both are not
  modelled. A statement that the driver reports as failed is taken to have had no
  effect, as an auto-committed transaction has.
- **Other operations.** `GetCurrentUserID`, `RunQuery`, `Ping`, `Close` and the driver
  construction are not part of this model. Nor are internal/storage/queries.go,
  internal/cli/cli.go, internal/logger/logger.go, internal/app/app.go or
  cmd/vk_app/main.go, beyond `Pipeline` chaining collection and saving as
  internal/app/app.go does.
- Collector.ToLower: only the characters whose lower case is an ASCII letter are
  lowered: A to Z, the dotted capital I (U+0130, to `i`) and the Kelvin sign (U+212A,
  to `k`). Go's `strings.ToLower` lowers other letters too, but never to an ASCII
  character, so no comparison with "page", "group" or "profile" changes its outcome.
- Collector.CollectUserData: `depth` is a natural number. A negative depth never reaches
  the base case in the Go code; the only caller passes 2.
- Collector.CollectData: integer ids are unbounded. The int64 overflow of negating an id
  (`-subscription.ID`, `-rel.To`) is not modelled; VK ids are far from the bounds.
- Collector.CollectUserData: the two loops of `collectUserData` are the separate methods
  `LinkFollowers` and `LinkSubscriptions`, so that each proof stays small. They run in
  the same order on the same state.
- CollectorProofs.CrawlResolvesGroups: "a negative target always names a stored group"
  is proved only when VK's follower and profile-subscription ids are non-negative. A
  negative user id would be indistinguishable from a group target.
- StorageProofs.SaveOutcome: order independence is proved for snapshots keyed by id.
  Two map entries with the same `ID` field would write the same node, and then the map
  order decides which properties remain.
- Pipeline.CollectedIsKeyed: this assumes `users.get` answers with the profile that was
  requested. The collector stores the profile under the requested id, not under the id
  in the response.
- Storage.SaveData: Go's map iteration order is an arbitrary choice (`:|`). The order
  actually used is returned for the specification, not observed.
