/** The collector and the writer together: a snapshot CollectData returns, saved by SaveData
    without a failing write, puts every subscription to a community into the graph as an edge
    to the community's Group node. This is what the sign convention for group ids is for. */
module Pipeline {
  import opened Wrappers
  import opened Models
  import opened VkFetch
  import opened Collector
  import opened CollectorProofs
  import opened Storage
  import opened StorageProofs
  import Decimal

  /** users.get answers with the profile that was asked for. */
  ghost predicate ProfilesMatchRequest(api: VkApi) {
    forall id | api.usersGet(id).Fetched? && |api.usersGet(id).response| > 0 :: api.usersGet(id).response[0].id == id
  }

  /** A collected snapshot stores every user under its own id and every group under its negated
      id, so that SaveData writes each entry to a node of its own. */
  lemma CollectedIsKeyed(api: VkApi, userID: string, depth: nat)
    requires Collect(api, userID, depth).Success? && ProfilesMatchRequest(api)
    ensures KeyedById(Collect(api, userID, depth).value)
  {
    CollectSnapshotSound(api, userID, depth);
  }

  /** In a snapshot keyed by id, a subscription to a community whose subscriber and community
      are both stored becomes, after a successful save, the edge from the subscriber's User node
      to the community's Group node. */
  lemma GroupSubscriptionSaved(g: Graph, snap: Snapshot, r: Relationship)
    requires KeyedById(snap) && r in snap.relationships
    requires r.relType == Subscribes && r.to < 0 && r.from in snap.users && r.to in snap.groups
    ensures EdgeOf(r) in SavedGraph(g, snap).edges
    ensures EdgeOf(r) == Edge(UserLabel, r.from, Subscribes, GroupLabel, snap.groups[r.to].id)
  {
    SavedUserNode(g, snap, r.from);
    SavedGroupNode(g, snap, r.to);
    RelationshipSaved(g, snap, r);
  }

  /** Collect, then save with no failing write: the database becomes SavedGraph of the collected
      snapshot, whatever order the maps are ranged over in. */
  lemma CollectThenSave(api: VkApi, userID: string, depth: nat, g: Graph,
                        userOrder: seq<int>, groupOrder: seq<int>, fails: nat -> bool)
    requires Collect(api, userID, depth).Success? && ProfilesMatchRequest(api)
    requires IsEnumeration(userOrder, Collect(api, userID, depth).value.users.Keys)
    requires IsEnumeration(groupOrder, Collect(api, userID, depth).value.groups.Keys)
    requires NoneFail(fails, 0, |Plan(Collect(api, userID, depth).value, userOrder, groupOrder)|)
    ensures Exec(g, Plan(Collect(api, userID, depth).value, userOrder, groupOrder), fails, 0)
         == Saved(None, SavedGraph(g, Collect(api, userID, depth).value))
  {
    CollectedIsKeyed(api, userID, depth);
    SaveWithoutFailure(g, Collect(api, userID, depth).value, userOrder, groupOrder, fails);
  }

  /** In that graph every SUBSCRIBES relationship to a community is an edge from the subscriber's
      User node to the community's Group node, when VK's user ids are non-negative. */
  lemma CollectedGroupEdges(api: VkApi, userID: string, depth: nat, g: Graph)
    requires Collect(api, userID, depth).Success? && ProfilesMatchRequest(api) && NonNegativeUserIds(api)
    requires Decimal.Atoi(userID).Some? && Decimal.Atoi(userID).value >= 0
    ensures var snap := Collect(api, userID, depth).value;
      forall r | r in snap.relationships && r.relType == Subscribes && r.to < 0 ::
        && EdgeOf(r) in SavedGraph(g, snap).edges
        && r.to in snap.groups
        && EdgeOf(r) == Edge(UserLabel, r.from, Subscribes, GroupLabel, snap.groups[r.to].id)
  {
    var snap := Collect(api, userID, depth).value;
    CollectSnapshotSound(api, userID, depth);
    CollectedIsKeyed(api, userID, depth);
    forall r | r in snap.relationships && r.relType == Subscribes && r.to < 0
      ensures EdgeOf(r) in SavedGraph(g, snap).edges && r.to in snap.groups
      ensures EdgeOf(r) == Edge(UserLabel, r.from, Subscribes, GroupLabel, snap.groups[r.to].id)
    {
      assert Anchored(r, snap);
      GroupSubscriptionSaved(g, snap, r);
    }
  }
}
