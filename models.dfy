/** The collected snapshot and its entities (internal/models/models.go). */
module Models {

  /** A VK user as stored by the collector. `sex` is VK's code: 0 unknown, 1 female, 2 male. */
  datatype User = User(id: int, screenName: string, name: string, sex: int, city: string)

  /** A VK community; `id` is the natural (positive) id. */
  datatype Group = Group(id: int, screenName: string, name: string)

  /** One entry of a user's subscriptions; `kind` is the raw `type` string ("page", "group", "profile", ...). */
  datatype Subscription = Subscription(id: int, name: string, screenName: string, kind: string)

  /** A directed, typed edge. A negative `to` encodes the group whose natural id is `-to`. */
  datatype Relationship = Relationship(from: int, to: int, relType: string)

  const Follows: string := "FOLLOWS"
  const Subscribes: string := "SUBSCRIBES"

  /** The value of a `Data` object: users keyed by id, groups keyed by NEGATED id, and the edge list. */
  datatype Snapshot = Snapshot(users: map<int, User>, groups: map<int, Group>, relationships: seq<Relationship>)

  const EmptySnapshot: Snapshot := Snapshot(map[], map[], [])

  /** No id occurs twice in `s` (the collector's request log, the writer's map orders). */
  predicate Distinct(s: seq<int>) {
    forall i, j | 0 <= i < j < |s| :: s[i] != s[j]
  }

  /** models.Data: the collector fills it in place, the graph writer reads it. */
  class Data {
    var users: map<int, User>
    var groups: map<int, Group>
    var relationships: seq<Relationship>

    constructor ()
      ensures Contents() == EmptySnapshot
    {
      users := map[];
      groups := map[];
      relationships := [];
    }

    function Contents(): Snapshot
      reads this
    {
      Snapshot(users, groups, relationships)
    }
  }
}
