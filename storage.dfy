/** The graph writer: Neo4jStorage.SaveData (internal/storage/neo4j.go:27-104).

    The Neo4j database is modelled by its contents: nodes keyed by (label, id) with a
    property map, and a set of typed directed edges. Each Cypher statement SaveData sends
    becomes a Statement whose effect is given by Apply; the driver call session.Run is the
    method GraphDatabase.Run, whose failure is decided by an oracle. */
module Storage {
  import opened Wrappers
  import opened Models

  const UserLabel: string := "User"
  const GroupLabel: string := "Group"

  /** A Neo4j property value, as far as SaveData writes them. */
  datatype Value = IntValue(i: int) | StringValue(s: string)

  type Props = map<string, Value>

  /** A node's identity: its label and its `id` property. */
  datatype NodeKey = NodeKey(nodeLabel: string, id: int)

  datatype Edge = Edge(fromLabel: string, fromId: int, relType: string, toLabel: string, toId: int)

  datatype Graph = Graph(nodes: map<NodeKey, Props>, edges: set<Edge>)

  /** The three statements SaveData issues, with the parameters it binds. */
  datatype Statement =
    | MergeUser(user: User)
    | MergeGroup(group: Group)
    | MergeRelationship(rel: Relationship)

  /** Which write failed: the user or group id, or the relationship's type and endpoints as stored. */
  datatype SaveError =
    | SaveUserError(id: int)
    | SaveGroupError(id: int)
    | SaveRelationshipError(relType: string, from: int, to: int)

  /** The properties `SET u.name = $name, u.screen_name = $screen_name, u.sex = $sex, u.city = $city` writes. */
  function UserProps(u: User): Props {
    map["name" := StringValue(u.name), "screen_name" := StringValue(u.screenName),
        "sex" := IntValue(u.sex), "city" := StringValue(u.city)]
  }

  /** The properties `SET g.name = $name, g.screen_name = $screen_name` writes. */
  function GroupProps(g: Group): Props {
    map["name" := StringValue(g.name), "screen_name" := StringValue(g.screenName)]
  }

  /** The node a relationship's `to` designates: a Group, by the absolute value, when negative,
      otherwise a User (0 included). */
  function TargetKey(to: int): (k: NodeKey)
    ensures k.nodeLabel == GroupLabel <==> to < 0
    ensures k.nodeLabel == UserLabel <==> to >= 0
    ensures k.id >= 0 && (k.id == to || k.id == -to)
  {
    if to < 0 then NodeKey(GroupLabel, -to) else NodeKey(UserLabel, to)
  }

  /** The collector's side of the convention: a group is referred to by its negated id. */
  function EncodeTarget(k: NodeKey): int {
    if k.nodeLabel == GroupLabel then -k.id else k.id
  }

  /** The edge a relationship is written as: from the User `rel.From` to TargetKey(rel.To), typed `rel.Type`. */
  function EdgeOf(r: Relationship): (e: Edge)
    ensures e.fromLabel == UserLabel && e.fromId == r.from && e.relType == r.relType
    ensures NodeKey(e.toLabel, e.toId) == TargetKey(r.to)
  {
    var target := TargetKey(r.to);
    Edge(UserLabel, r.from, r.relType, target.nodeLabel, target.id)
  }

  function NodeProps(g: Graph, k: NodeKey): Props {
    if k in g.nodes then g.nodes[k] else map[]
  }

  /** `MERGE (n:Label {id: $id}) SET n.p = ...`: create the node if absent, then overwrite the given
      properties; its other properties, the other nodes and the edges stay as they were. */
  function MergeNode(g: Graph, k: NodeKey, props: Props): Graph {
    g.(nodes := g.nodes[k := NodeProps(g, k) + props])
  }

  /** `MATCH (from ...) MATCH (to ...) MERGE (from)-[:T]->(to)`: nothing happens unless both nodes
      exist, and the edge is never duplicated. */
  function MergeEdge(g: Graph, e: Edge): (r: Graph)
    ensures r.nodes == g.nodes
    ensures g.edges <= r.edges <= g.edges + {e}
    ensures e in r.edges <==>
      e in g.edges || (NodeKey(e.fromLabel, e.fromId) in g.nodes && NodeKey(e.toLabel, e.toId) in g.nodes)
  {
    if NodeKey(e.fromLabel, e.fromId) in g.nodes && NodeKey(e.toLabel, e.toId) in g.nodes
    then g.(edges := g.edges + {e})
    else g
  }

  /** The node a node statement merges, and the properties it sets. */
  function KeyOf(s: Statement): NodeKey
    requires !s.MergeRelationship?
  {
    if s.MergeUser? then NodeKey(UserLabel, s.user.id) else NodeKey(GroupLabel, s.group.id)
  }

  function PropsOf(s: Statement): Props
    requires !s.MergeRelationship?
  {
    if s.MergeUser? then UserProps(s.user) else GroupProps(s.group)
  }

  /** The effect of one statement that succeeds. */
  function Apply(g: Graph, s: Statement): Graph {
    match s
    case MergeUser(_) => MergeNode(g, KeyOf(s), PropsOf(s))
    case MergeGroup(_) => MergeNode(g, KeyOf(s), PropsOf(s))
    case MergeRelationship(r) => MergeEdge(g, EdgeOf(r))
  }

  function ErrorOf(s: Statement): SaveError {
    match s
    case MergeUser(u) => SaveUserError(u.id)
    case MergeGroup(g) => SaveGroupError(g.id)
    case MergeRelationship(r) => SaveRelationshipError(r.relType, r.from, r.to)
  }

  /** The result of a run of statements: the error that stopped it, if any, and the database after it. */
  datatype Saved = Saved(error: Option<SaveError>, graph: Graph)

  /** Run statements in order; statement number n of the session fails when fails(n). The first
      failure stops the run and leaves everything before it applied. */
  function Exec(g: Graph, ss: seq<Statement>, fails: nat -> bool, n: nat): Saved
    decreases |ss|
  {
    if ss == [] then Saved(None, g)
    else if fails(n) then Saved(Some(ErrorOf(ss[0])), g)
    else Exec(Apply(g, ss[0]), ss[1..], fails, n + 1)
  }

  /** `order` lists every element of `keys` exactly once: one iteration order of a Go map. */
  predicate IsEnumeration(order: seq<int>, keys: set<int>) {
    Distinct(order) && (forall i | 0 <= i < |order| :: order[i] in keys) && (forall x | x in keys :: x in order)
  }

  lemma Inhabited(s: set<int>)
    requires s != {}
    ensures exists x :: x in s
  {
    if forall x :: x !in s {
      assert false;
    }
  }

  /** Some enumeration of a set (used only to complete an order after an early return). */
  ghost function Enumerate(s: set<int>): (order: seq<int>)
    ensures IsEnumeration(order, s)
    decreases s
  {
    if s == {} then []
    else
      Inhabited(s);
      var x :| x in s;
      var rest := Enumerate(s - {x});
      assert x !in rest;
      [x] + rest
  }

  function UserStatements(users: map<int, User>, order: seq<int>): seq<Statement>
    requires forall i | 0 <= i < |order| :: order[i] in users
  {
    seq(|order|, i requires 0 <= i < |order| => MergeUser(users[order[i]]))
  }

  function GroupStatements(groups: map<int, Group>, order: seq<int>): seq<Statement>
    requires forall i | 0 <= i < |order| :: order[i] in groups
  {
    seq(|order|, i requires 0 <= i < |order| => MergeGroup(groups[order[i]]))
  }

  lemma UserStatementsConcat(users: map<int, User>, a: seq<int>, b: seq<int>)
    requires forall i | 0 <= i < |a| :: a[i] in users
    requires forall i | 0 <= i < |b| :: b[i] in users
    ensures UserStatements(users, a + b) == UserStatements(users, a) + UserStatements(users, b)
  {
  }

  lemma GroupStatementsConcat(groups: map<int, Group>, a: seq<int>, b: seq<int>)
    requires forall i | 0 <= i < |a| :: a[i] in groups
    requires forall i | 0 <= i < |b| :: b[i] in groups
    ensures GroupStatements(groups, a + b) == GroupStatements(groups, a) + GroupStatements(groups, b)
  {
  }

  function RelationshipStatements(rels: seq<Relationship>): seq<Statement> {
    seq(|rels|, i requires 0 <= i < |rels| => MergeRelationship(rels[i]))
  }

  lemma RelationshipStatementsSplit(rels: seq<Relationship>, k: nat)
    requires k <= |rels|
    ensures RelationshipStatements(rels) == RelationshipStatements(rels[..k]) + RelationshipStatements(rels[k..])
  {
    assert rels == rels[..k] + rels[k..];
  }

  /** Every statement SaveData sends, in order, when the two maps are ranged over in the given orders. */
  function Plan(snap: Snapshot, userOrder: seq<int>, groupOrder: seq<int>): (r: seq<Statement>)
    requires forall i | 0 <= i < |userOrder| :: userOrder[i] in snap.users
    requires forall i | 0 <= i < |groupOrder| :: groupOrder[i] in snap.groups
    ensures |r| == |userOrder| + |groupOrder| + |snap.relationships|
    ensures forall i | 0 <= i < |r| ::
      && (r[i].MergeUser? <==> i < |userOrder|)
      && (r[i].MergeRelationship? <==> |userOrder| + |groupOrder| <= i)
  {
    UserStatements(snap.users, userOrder) + GroupStatements(snap.groups, groupOrder)
      + RelationshipStatements(snap.relationships)
  }

  lemma PlanSplit(snap: Snapshot, userOrder: seq<int>, groupOrder: seq<int>)
    requires forall i | 0 <= i < |userOrder| :: userOrder[i] in snap.users
    requires forall i | 0 <= i < |groupOrder| :: groupOrder[i] in snap.groups
    ensures Plan(snap, userOrder, groupOrder) == UserStatements(snap.users, userOrder)
      + (GroupStatements(snap.groups, groupOrder) + RelationshipStatements(snap.relationships))
  {
  }

  /** Running ss1 then ss2 is running ss1 and, if it did not fail, ss2 from where it stopped. */
  lemma {:induction false} ExecConcat(g: Graph, ss1: seq<Statement>, ss2: seq<Statement>, fails: nat -> bool, n: nat)
    ensures Exec(g, ss1 + ss2, fails, n) ==
      if Exec(g, ss1, fails, n).error.Some? then Exec(g, ss1, fails, n)
      else Exec(Exec(g, ss1, fails, n).graph, ss2, fails, n + |ss1|)
    decreases |ss1|
  {
    if ss1 != [] {
      assert (ss1 + ss2)[0] == ss1[0];
      assert (ss1 + ss2)[1..] == ss1[1..] + ss2;
      if !fails(n) {
        ExecConcat(Apply(g, ss1[0]), ss1[1..], ss2, fails, n + 1);
      }
    } else {
      assert ss1 + ss2 == ss2;
    }
  }

  /** After a failure nothing more runs: statements appended to a failed batch change nothing. */
  lemma ExecStopped(g: Graph, ss1: seq<Statement>, ss2: seq<Statement>, fails: nat -> bool, n: nat)
    requires Exec(g, ss1, fails, n).error.Some?
    ensures Exec(g, ss1 + ss2, fails, n) == Exec(g, ss1, fails, n)
  {
    ExecConcat(g, ss1, ss2, fails, n);
  }

  /** The Neo4j database SaveData writes to. */
  class GraphDatabase {
    var nodes: map<NodeKey, Props>
    var edges: set<Edge>

    constructor (g: Graph)
      ensures State() == g
    {
      nodes := g.nodes;
      edges := g.edges;
    }

    function State(): Graph
      reads this
    {
      Graph(nodes, edges)
    }

    /** session.Run for one statement, as an auto-committed transaction: when the driver reports
        an error (`fail`), nothing of the statement is applied. */
    method Run(s: Statement, fail: bool) returns (failed: bool)
      modifies this
      ensures failed == fail
      ensures State() == if fail then old(State()) else Apply(old(State()), s)
    {
      failed := fail;
      if !fail {
        var g := Apply(State(), s);
        nodes, edges := g.nodes, g.edges;
      }
    }
  }

  /** The first loop of SaveData: `MERGE` every user, in some order of the map, numbering the
      statements from n; `next` is the number of the next statement. */
  method SaveUsers(db: GraphDatabase, users: map<int, User>, fails: nat -> bool, n: nat)
    returns (err: Option<SaveError>, next: nat, ghost order: seq<int>)
    modifies db
    ensures IsEnumeration(order, users.Keys)
    ensures err.None? ==> next == n + |order|
    ensures Exec(old(db.State()), UserStatements(users, order), fails, n) == Saved(err, db.State())
  {
    ghost var start := db.State();
    next := n;
    order := [];
    var remaining := users.Keys;
    while remaining != {}
      invariant Distinct(order) && remaining <= users.Keys
      invariant forall i | 0 <= i < |order| :: order[i] in users && order[i] !in remaining
      invariant forall x | x in users && x !in remaining :: x in order
      invariant next == n + |order|
      invariant Exec(start, UserStatements(users, order), fails, n) == Saved(None, db.State())
      decreases remaining
    {
      Inhabited(remaining);
      var id :| id in remaining;
      var user := users[id];
      ghost var done := UserStatements(users, order);
      var failed := db.Run(MergeUser(user), fails(next));
      ExecConcat(start, done, [MergeUser(user)], fails, n);
      assert UserStatements(users, [id]) == [MergeUser(user)];
      UserStatementsConcat(users, order, [id]);
      order := order + [id];
      remaining := remaining - {id};
      if failed {
        ghost var rest := Enumerate(remaining);
        UserStatementsConcat(users, order, rest);
        ExecStopped(start, UserStatements(users, order), UserStatements(users, rest), fails, n);
        order := order + rest;
        return Some(SaveUserError(user.id)), next + 1, order;
      }
      next := next + 1;
    }
    err := None;
  }

  /** The second loop of SaveData: `MERGE` every group. */
  method SaveGroups(db: GraphDatabase, groups: map<int, Group>, fails: nat -> bool, n: nat)
    returns (err: Option<SaveError>, next: nat, ghost order: seq<int>)
    modifies db
    ensures IsEnumeration(order, groups.Keys)
    ensures err.None? ==> next == n + |order|
    ensures Exec(old(db.State()), GroupStatements(groups, order), fails, n) == Saved(err, db.State())
  {
    ghost var start := db.State();
    next := n;
    order := [];
    var remaining := groups.Keys;
    while remaining != {}
      invariant Distinct(order) && remaining <= groups.Keys
      invariant forall i | 0 <= i < |order| :: order[i] in groups && order[i] !in remaining
      invariant forall x | x in groups && x !in remaining :: x in order
      invariant next == n + |order|
      invariant Exec(start, GroupStatements(groups, order), fails, n) == Saved(None, db.State())
      decreases remaining
    {
      Inhabited(remaining);
      var id :| id in remaining;
      var group := groups[id];
      ghost var done := GroupStatements(groups, order);
      var failed := db.Run(MergeGroup(group), fails(next));
      ExecConcat(start, done, [MergeGroup(group)], fails, n);
      assert GroupStatements(groups, [id]) == [MergeGroup(group)];
      GroupStatementsConcat(groups, order, [id]);
      order := order + [id];
      remaining := remaining - {id};
      if failed {
        ghost var rest := Enumerate(remaining);
        GroupStatementsConcat(groups, order, rest);
        ExecStopped(start, GroupStatements(groups, order), GroupStatements(groups, rest), fails, n);
        order := order + rest;
        return Some(SaveGroupError(group.id)), next + 1, order;
      }
      next := next + 1;
    }
    err := None;
  }

  /** The third loop of SaveData: link the endpoints of every relationship, in list order; the
      target's label and id are chosen from the sign of `rel.To`. */
  method SaveRelationships(db: GraphDatabase, rels: seq<Relationship>, fails: nat -> bool, n: nat)
    returns (err: Option<SaveError>)
    modifies db
    ensures Exec(old(db.State()), RelationshipStatements(rels), fails, n) == Saved(err, db.State())
  {
    ghost var start := db.State();
    assert RelationshipStatements(rels[..0]) == [];
    for i := 0 to |rels|
      invariant Exec(start, RelationshipStatements(rels[..i]), fails, n) == Saved(None, db.State())
    {
      var rel := rels[i];
      var fromLabel, toLabel := UserLabel, UserLabel;
      var fromID, toID := rel.from, rel.to;
      if rel.to < 0 {
        toLabel := GroupLabel;
        toID := -rel.to;
      }
      assert Edge(fromLabel, fromID, rel.relType, toLabel, toID) == EdgeOf(rel);
      ghost var done := RelationshipStatements(rels[..i]);
      var failed := db.Run(MergeRelationship(rel), fails(n + i));
      ExecConcat(start, done, [MergeRelationship(rel)], fails, n);
      assert rels[..i + 1] == rels[..i] + [rel];
      assert RelationshipStatements(rels[..i + 1]) == done + [MergeRelationship(rel)];
      if failed {
        RelationshipStatementsSplit(rels, i + 1);
        ExecStopped(start, RelationshipStatements(rels[..i + 1]), RelationshipStatements(rels[i + 1..]), fails, n);
        return Some(SaveRelationshipError(rel.relType, rel.from, rel.to));
      }
    }
    assert rels[..|rels|] == rels;
    err := None;
  }

  /** SaveData: upsert every user, then every group, then every relationship, stopping at the
      first statement that fails. The two maps are ranged over in an arbitrary order, which is
      returned as `userOrder` and `groupOrder`. */
  method SaveData(db: GraphDatabase, data: Data, fails: nat -> bool)
    returns (err: Option<SaveError>, ghost userOrder: seq<int>, ghost groupOrder: seq<int>)
    modifies db
    ensures IsEnumeration(userOrder, data.users.Keys) && IsEnumeration(groupOrder, data.groups.Keys)
    ensures Exec(old(db.State()), Plan(data.Contents(), userOrder, groupOrder), fails, 0) == Saved(err, db.State())
  {
    ghost var start := db.State();
    ghost var snap := data.Contents();
    var next: nat;
    err, next, userOrder := SaveUsers(db, data.users, fails, 0);
    ghost var users := UserStatements(snap.users, userOrder);
    if err.Some? {
      groupOrder := Enumerate(snap.groups.Keys);
      PlanSplit(snap, userOrder, groupOrder);
      ExecConcat(start, users, GroupStatements(snap.groups, groupOrder) + RelationshipStatements(snap.relationships), fails, 0);
      return;
    }
    ghost var afterUsers := db.State();
    err, next, groupOrder := SaveGroups(db, data.groups, fails, next);
    ghost var groups := GroupStatements(snap.groups, groupOrder);
    ghost var rels := RelationshipStatements(snap.relationships);
    PlanSplit(snap, userOrder, groupOrder);
    ExecConcat(start, users, groups + rels, fails, 0);
    ExecConcat(afterUsers, groups, rels, fails, |users|);
    if err.Some? {
      return;
    }
    err := SaveRelationships(db, data.relationships, fails, next);
  }
}
