/** What SaveData leaves in the database: the first failure stops it, the writes come in three
    phases, and when every write succeeds the result depends only on the snapshot (not on the
    order Go ranges over the maps), so saving the same snapshot again changes nothing. */
module StorageProofs {
  import opened Wrappers
  import opened Models
  import opened Storage

  /** The database after every statement of ss has succeeded, in order. */
  function ApplyAll(g: Graph, ss: seq<Statement>): Graph
    decreases |ss|
  {
    if ss == [] then g else ApplyAll(Apply(g, ss[0]), ss[1..])
  }

  lemma {:induction false} ApplyAllConcat(g: Graph, a: seq<Statement>, b: seq<Statement>)
    ensures ApplyAll(g, a + b) == ApplyAll(ApplyAll(g, a), b)
    decreases |a|
  {
    if a == [] {
      assert a + b == b;
    } else {
      assert (a + b)[0] == a[0];
      assert (a + b)[1..] == a[1..] + b;
      ApplyAllConcat(Apply(g, a[0]), a[1..], b);
    }
  }

  /** None of the statements numbered lo .. hi - 1 fails. */
  predicate NoneFail(fails: nat -> bool, lo: nat, hi: nat) {
    forall i: nat | lo <= i < hi :: !fails(i)
  }

  // ---------------------------------------------------------------------------------------------
  // Aborting on the first error

  lemma {:induction false} ExecWithoutFailure(g: Graph, ss: seq<Statement>, fails: nat -> bool, n: nat)
    requires NoneFail(fails, n, n + |ss|)
    ensures Exec(g, ss, fails, n) == Saved(None, ApplyAll(g, ss))
    decreases |ss|
  {
    if ss != [] {
      ExecWithoutFailure(Apply(g, ss[0]), ss[1..], fails, n + 1);
    }
  }

  /** When statement i is the first to fail, SaveData reports that statement's error, and the
      statements before it stay applied (nothing is rolled back) while none after it runs. */
  lemma {:induction false} ExecStopsAtFirstFailure(g: Graph, ss: seq<Statement>, fails: nat -> bool, n: nat, i: nat)
    requires n <= i < n + |ss| && fails(i) && NoneFail(fails, n, i)
    ensures Exec(g, ss, fails, n) == Saved(Some(ErrorOf(ss[i - n])), ApplyAll(g, ss[..i - n]))
    decreases i - n
  {
    if i == n {
      assert ss[..0] == [];
    } else {
      ExecStopsAtFirstFailure(Apply(g, ss[0]), ss[1..], fails, n + 1, i);
      assert ss[1..][..i - (n + 1)] == ss[..i - n][1..];
    }
  }

  /** A run reports an error exactly when one of its statements fails. */
  lemma {:induction false} ExecFailsIff(g: Graph, ss: seq<Statement>, fails: nat -> bool, n: nat)
    ensures Exec(g, ss, fails, n).error.Some? <==> exists i: nat | n <= i < n + |ss| :: fails(i)
    decreases |ss|
  {
    if ss != [] && !fails(n) {
      ExecFailsIff(Apply(g, ss[0]), ss[1..], fails, n + 1);
    }
  }

  // ---------------------------------------------------------------------------------------------
  // The three phases

  /** The statements of a save come as all users, then all groups, then the relationships in list
      order; the failure of statement i is reported with that statement's own error. */
  lemma PlanPhases(snap: Snapshot, userOrder: seq<int>, groupOrder: seq<int>)
    requires IsEnumeration(userOrder, snap.users.Keys) && IsEnumeration(groupOrder, snap.groups.Keys)
    ensures var plan := Plan(snap, userOrder, groupOrder);
      && |plan| == |userOrder| + |groupOrder| + |snap.relationships|
      && (forall i | 0 <= i < |userOrder| ::
            plan[i] == MergeUser(snap.users[userOrder[i]])
            && ErrorOf(plan[i]) == SaveUserError(snap.users[userOrder[i]].id))
      && (forall i | 0 <= i < |groupOrder| ::
            plan[|userOrder| + i] == MergeGroup(snap.groups[groupOrder[i]])
            && ErrorOf(plan[|userOrder| + i]) == SaveGroupError(snap.groups[groupOrder[i]].id))
      && (forall i | 0 <= i < |snap.relationships| ::
            var r := snap.relationships[i];
            plan[|userOrder| + |groupOrder| + i] == MergeRelationship(r)
            && ErrorOf(plan[|userOrder| + |groupOrder| + i]) == SaveRelationshipError(r.relType, r.from, r.to))
  {
  }

  // ---------------------------------------------------------------------------------------------
  // The node phase

  predicate NodeStatements(ss: seq<Statement>) {
    forall i | 0 <= i < |ss| :: !ss[i].MergeRelationship?
  }

  /** The properties the node statements set on node k, later statements overriding earlier ones. */
  function Overlay(ss: seq<Statement>, k: NodeKey): Props
    requires NodeStatements(ss)
    decreases |ss|
  {
    if ss == [] then map[]
    else (if KeyOf(ss[0]) == k then PropsOf(ss[0]) else map[]) + Overlay(ss[1..], k)
  }

  predicate Writes(ss: seq<Statement>, k: NodeKey)
    requires NodeStatements(ss)
  {
    exists i | 0 <= i < |ss| :: KeyOf(ss[i]) == k
  }

  lemma MapUnionAssociative(a: Props, b: Props, c: Props)
    ensures (a + b) + c == a + (b + c)
  {
  }

  lemma WritesCons(ss: seq<Statement>, k: NodeKey)
    requires ss != [] && NodeStatements(ss)
    ensures NodeStatements(ss[1..])
    ensures Writes(ss, k) <==> KeyOf(ss[0]) == k || Writes(ss[1..], k)
  {
    if Writes(ss, k) && KeyOf(ss[0]) != k {
      var i :| 0 <= i < |ss| && KeyOf(ss[i]) == k;
      assert KeyOf(ss[1..][i - 1]) == k;
    }
    if Writes(ss[1..], k) {
      var i :| 0 <= i < |ss[1..]| && KeyOf(ss[1..][i]) == k;
      assert KeyOf(ss[i + 1]) == k;
    }
  }

  /** The four properties a user upsert sets, and nothing else. */
  lemma UserPropsWritten(u: User)
    ensures UserProps(u).Keys == {"name", "screen_name", "sex", "city"}
    ensures UserProps(u)["name"] == StringValue(u.name) && UserProps(u)["screen_name"] == StringValue(u.screenName)
    ensures UserProps(u)["sex"] == IntValue(u.sex) && UserProps(u)["city"] == StringValue(u.city)
  {
  }

  /** A group upsert sets the name and the screen name only. */
  lemma GroupPropsWritten(g: Group)
    ensures GroupProps(g).Keys == {"name", "screen_name"}
    ensures GroupProps(g)["name"] == StringValue(g.name) && GroupProps(g)["screen_name"] == StringValue(g.screenName)
  {
  }

  /** An upsert creates its node if absent and overwrites the given properties; the node's other
      properties, the other nodes and the edges stay as they were. */
  lemma MergeNodeUpserts(g: Graph, k: NodeKey, props: Props)
    ensures var r := MergeNode(g, k, props);
      && r.edges == g.edges
      && r.nodes.Keys == g.nodes.Keys + {k}
      && (forall p | p in props :: r.nodes[k][p] == props[p])
      && (forall p | p in NodeProps(g, k) && p !in props :: r.nodes[k][p] == NodeProps(g, k)[p])
      && (forall p | p in r.nodes[k] :: p in props || p in NodeProps(g, k))
      && (forall k' | k' in g.nodes && k' != k :: r.nodes[k'] == g.nodes[k'])
  {
  }

  /** What one statement may touch: a node statement no edge, and its node exists afterwards; a
      relationship statement no node, and it adds at most its own edge. */
  lemma StatementFootprint(g: Graph, s: Statement)
    ensures !s.MergeRelationship? ==> Apply(g, s).edges == g.edges && KeyOf(s) in Apply(g, s).nodes
    ensures s.MergeRelationship? ==>
      Apply(g, s).nodes == g.nodes && g.edges <= Apply(g, s).edges <= g.edges + {EdgeOf(s.rel)}
  {
  }

  /** One node statement: the edges stay, its node exists afterwards, and only that node's
      properties change, by the properties the statement sets. */
  lemma NodeStep(g: Graph, s: Statement)
    requires !s.MergeRelationship?
    ensures Apply(g, s).edges == g.edges
    ensures Apply(g, s).nodes.Keys == g.nodes.Keys + {KeyOf(s)}
    ensures forall k :: NodeProps(Apply(g, s), k) == NodeProps(g, k) + (if KeyOf(s) == k then PropsOf(s) else map[])
  {
  }

  /** Node statements leave the edges alone and create exactly the nodes they name. */
  lemma {:induction false} ApplyAllNodes(g: Graph, ss: seq<Statement>)
    requires NodeStatements(ss)
    ensures ApplyAll(g, ss).edges == g.edges
    ensures forall k :: k in ApplyAll(g, ss).nodes <==> k in g.nodes || Writes(ss, k)
    decreases |ss|
  {
    if ss != [] {
      NodeStep(g, ss[0]);
      forall k {
        WritesCons(ss, k);
      }
      ApplyAllNodes(Apply(g, ss[0]), ss[1..]);
    }
  }

  /** Node statements overwrite exactly the properties they set, later ones last. */
  lemma {:induction false} ApplyAllNodeProps(g: Graph, ss: seq<Statement>, k: NodeKey)
    requires NodeStatements(ss)
    ensures NodeProps(ApplyAll(g, ss), k) == NodeProps(g, k) + Overlay(ss, k)
    decreases |ss|
  {
    if ss == [] {
      assert NodeProps(g, k) + map[] == NodeProps(g, k);
    } else {
      var g' := Apply(g, ss[0]);
      assert NodeStatements(ss[1..]);
      ApplyAllNodeProps(g', ss[1..], k);
      NodeStep(g, ss[0]);
      var head: Props := if KeyOf(ss[0]) == k then PropsOf(ss[0]) else map[];
      MapUnionAssociative(NodeProps(g, k), head, Overlay(ss[1..], k));
    }
  }

  lemma {:induction false} OverlayConcat(a: seq<Statement>, b: seq<Statement>, k: NodeKey)
    requires NodeStatements(a) && NodeStatements(b)
    ensures NodeStatements(a + b)
    ensures Overlay(a + b, k) == Overlay(a, k) + Overlay(b, k)
    decreases |a|
  {
    if a == [] {
      assert a + b == b;
    } else {
      assert (a + b)[0] == a[0];
      assert (a + b)[1..] == a[1..] + b;
      OverlayConcat(a[1..], b, k);
      var head: Props := if KeyOf(a[0]) == k then PropsOf(a[0]) else map[];
      MapUnionAssociative(head, Overlay(a[1..], k), Overlay(b, k));
    }
  }

  /** No statement names k: nothing is set on it. */
  lemma {:induction false} OverlayNone(ss: seq<Statement>, k: NodeKey)
    requires NodeStatements(ss) && !Writes(ss, k)
    ensures Overlay(ss, k) == map[]
    decreases |ss|
  {
    if ss != [] {
      OverlayNone(ss[1..], k);
    }
  }

  /** Exactly one statement names k: k gets that statement's properties. */
  lemma {:induction false} OverlayUnique(ss: seq<Statement>, k: NodeKey, i: nat)
    requires NodeStatements(ss) && i < |ss| && KeyOf(ss[i]) == k
    requires forall j | 0 <= j < |ss| && j != i :: KeyOf(ss[j]) != k
    ensures Overlay(ss, k) == PropsOf(ss[i])
    decreases |ss|
  {
    if i == 0 {
      OverlayNone(ss[1..], k);
    } else {
      OverlayUnique(ss[1..], k, i - 1);
    }
  }

  // ---------------------------------------------------------------------------------------------
  // The relationship phase

  /** Both endpoints of e are nodes of the database: the two MATCH clauses find them. */
  predicate Linked(nodes: map<NodeKey, Props>, e: Edge) {
    NodeKey(e.fromLabel, e.fromId) in nodes && NodeKey(e.toLabel, e.toId) in nodes
  }

  /** Relationship statements leave the nodes alone and add the edge of every relationship whose
      endpoints exist, and no other edge. */
  lemma {:induction false} ApplyAllEdges(g: Graph, rels: seq<Relationship>)
    ensures ApplyAll(g, RelationshipStatements(rels)).nodes == g.nodes
    ensures forall e :: e in ApplyAll(g, RelationshipStatements(rels)).edges <==>
      e in g.edges || exists i | 0 <= i < |rels| :: EdgeOf(rels[i]) == e && Linked(g.nodes, e)
    decreases |rels|
  {
    var ss := RelationshipStatements(rels);
    if rels != [] {
      var g' := Apply(g, ss[0]);
      assert ss[1..] == RelationshipStatements(rels[1..]);
      ApplyAllEdges(g', rels[1..]);
      forall e
        ensures e in ApplyAll(g, ss).edges <==>
          e in g.edges || exists i | 0 <= i < |rels| :: EdgeOf(rels[i]) == e && Linked(g.nodes, e)
      {
        if exists i | 0 <= i < |rels| :: EdgeOf(rels[i]) == e && Linked(g.nodes, e) {
          var i :| 0 <= i < |rels| && EdgeOf(rels[i]) == e && Linked(g.nodes, e);
          if i > 0 {
            assert EdgeOf(rels[1..][i - 1]) == e;
          }
        }
        if exists i | 0 <= i < |rels[1..]| :: EdgeOf(rels[1..][i]) == e && Linked(g'.nodes, e) {
          var i :| 0 <= i < |rels[1..]| && EdgeOf(rels[1..][i]) == e && Linked(g'.nodes, e);
          assert EdgeOf(rels[i + 1]) == e;
        }
      }
    }
  }

  // ---------------------------------------------------------------------------------------------
  // The database after a save, as a reference definition

  /** Users are stored under their own id and groups under their negated id, as the collector
      stores them; then every map entry names a distinct node. */
  predicate KeyedById(snap: Snapshot) {
    && (forall k | k in snap.users :: snap.users[k].id == k)
    && (forall k | k in snap.groups :: snap.groups[k].id == -k)
  }

  /** The properties a save sets on node k (none when the snapshot has no entry for it). */
  function WrittenProps(snap: Snapshot, k: NodeKey): Props {
    if k.nodeLabel == UserLabel && k.id in snap.users then UserProps(snap.users[k.id])
    else if k.nodeLabel == GroupLabel && -k.id in snap.groups then GroupProps(snap.groups[-k.id])
    else map[]
  }

  predicate IsWritten(snap: Snapshot, k: NodeKey) {
    (k.nodeLabel == UserLabel && k.id in snap.users) || (k.nodeLabel == GroupLabel && -k.id in snap.groups)
  }

  function WrittenKeys(snap: Snapshot): set<NodeKey> {
    (set x | x in snap.users :: NodeKey(UserLabel, x)) + (set x | x in snap.groups :: NodeKey(GroupLabel, -x))
  }

  function SavedNodes(g: Graph, snap: Snapshot): map<NodeKey, Props> {
    map k | k in g.nodes.Keys + WrittenKeys(snap) :: NodeProps(g, k) + WrittenProps(snap, k)
  }

  function LinkedEdges(nodes: map<NodeKey, Props>, rels: seq<Relationship>): set<Edge> {
    set i | 0 <= i < |rels| && Linked(nodes, EdgeOf(rels[i])) :: EdgeOf(rels[i])
  }

  /** The database after a save in which every write succeeds: every user and group node upserted
      with the snapshot's properties, then the edge of every relationship whose endpoints exist. */
  function SavedGraph(g: Graph, snap: Snapshot): Graph {
    var nodes := SavedNodes(g, snap);
    Graph(nodes, g.edges + LinkedEdges(nodes, snap.relationships))
  }

  lemma WrittenKeysAre(snap: Snapshot, k: NodeKey)
    ensures k in WrittenKeys(snap) <==> IsWritten(snap, k)
  {
    if k.nodeLabel == GroupLabel && -k.id in snap.groups {
      assert k == NodeKey(GroupLabel, -(-k.id));
    }
  }

  lemma SavedNodesAt(g: Graph, snap: Snapshot, k: NodeKey)
    ensures k in SavedNodes(g, snap) <==> k in g.nodes || IsWritten(snap, k)
    ensures k in SavedNodes(g, snap) ==> SavedNodes(g, snap)[k] == NodeProps(g, k) + WrittenProps(snap, k)
  {
    WrittenKeysAre(snap, k);
  }

  /** The user statements of a save, on node k. */
  lemma {:induction false} UserPhase(users: map<int, User>, order: seq<int>, k: NodeKey)
    requires IsEnumeration(order, users.Keys) && forall x | x in users :: users[x].id == x
    ensures NodeStatements(UserStatements(users, order))
    ensures Writes(UserStatements(users, order), k) <==> k.nodeLabel == UserLabel && k.id in users
    ensures Overlay(UserStatements(users, order), k) ==
      if k.nodeLabel == UserLabel && k.id in users then UserProps(users[k.id]) else map[]
  {
    var ss := UserStatements(users, order);
    assert forall j | 0 <= j < |ss| :: KeyOf(ss[j]) == NodeKey(UserLabel, order[j]);
    if k.nodeLabel == UserLabel && k.id in users {
      var i :| 0 <= i < |order| && order[i] == k.id;
      OverlayUnique(ss, k, i);
    } else {
      OverlayNone(ss, k);
    }
  }

  /** The group statements of a save, on node k. */
  lemma {:induction false} GroupPhase(groups: map<int, Group>, order: seq<int>, k: NodeKey)
    requires IsEnumeration(order, groups.Keys) && forall x | x in groups :: groups[x].id == -x
    ensures NodeStatements(GroupStatements(groups, order))
    ensures Writes(GroupStatements(groups, order), k) <==> k.nodeLabel == GroupLabel && -k.id in groups
    ensures Overlay(GroupStatements(groups, order), k) ==
      if k.nodeLabel == GroupLabel && -k.id in groups then GroupProps(groups[-k.id]) else map[]
  {
    var ss := GroupStatements(groups, order);
    assert forall j | 0 <= j < |ss| :: KeyOf(ss[j]) == NodeKey(GroupLabel, -order[j]);
    if k.nodeLabel == GroupLabel && -k.id in groups {
      var i :| 0 <= i < |order| && order[i] == -k.id;
      OverlayUnique(ss, k, i);
    } else {
      OverlayNone(ss, k);
    }
  }

  lemma WritesConcat(a: seq<Statement>, b: seq<Statement>, k: NodeKey)
    requires NodeStatements(a) && NodeStatements(b)
    ensures NodeStatements(a + b)
    ensures Writes(a + b, k) <==> Writes(a, k) || Writes(b, k)
  {
    var ab := a + b;
    if Writes(ab, k) {
      var i :| 0 <= i < |ab| && KeyOf(ab[i]) == k;
      if i < |a| {
        assert KeyOf(a[i]) == k;
      } else {
        assert KeyOf(b[i - |a|]) == k;
      }
    }
    if Writes(a, k) {
      var i :| 0 <= i < |a| && KeyOf(a[i]) == k;
      assert KeyOf(ab[i]) == k;
    }
    if Writes(b, k) {
      var i :| 0 <= i < |b| && KeyOf(b[i]) == k;
      assert KeyOf(ab[|a| + i]) == k;
    }
  }

  /** The node phase of a save, on node k: it exists afterwards exactly when it existed before
      or the snapshot has an entry for it, and it carries what it had, overwritten by that entry. */
  lemma NodePhaseAt(g: Graph, snap: Snapshot, userOrder: seq<int>, groupOrder: seq<int>, k: NodeKey)
    requires KeyedById(snap)
    requires IsEnumeration(userOrder, snap.users.Keys) && IsEnumeration(groupOrder, snap.groups.Keys)
    ensures NodeStatements(UserStatements(snap.users, userOrder) + GroupStatements(snap.groups, groupOrder))
    ensures var h := ApplyAll(g, UserStatements(snap.users, userOrder) + GroupStatements(snap.groups, groupOrder));
      && (k in h.nodes <==> k in g.nodes || IsWritten(snap, k))
      && NodeProps(h, k) == NodeProps(g, k) + WrittenProps(snap, k)
  {
    var us := UserStatements(snap.users, userOrder);
    var gs := GroupStatements(snap.groups, groupOrder);
    UserPhase(snap.users, userOrder, k);
    GroupPhase(snap.groups, groupOrder, k);
    WritesConcat(us, gs, k);
    ApplyAllNodes(g, us + gs);
    ApplyAllNodeProps(g, us + gs, k);
    NodeOverlay(snap, userOrder, groupOrder, k);
  }

  lemma NodeOverlay(snap: Snapshot, userOrder: seq<int>, groupOrder: seq<int>, k: NodeKey)
    requires KeyedById(snap)
    requires IsEnumeration(userOrder, snap.users.Keys) && IsEnumeration(groupOrder, snap.groups.Keys)
    ensures NodeStatements(UserStatements(snap.users, userOrder) + GroupStatements(snap.groups, groupOrder))
    ensures Overlay(UserStatements(snap.users, userOrder) + GroupStatements(snap.groups, groupOrder), k) == WrittenProps(snap, k)
  {
    var us := UserStatements(snap.users, userOrder);
    var gs := GroupStatements(snap.groups, groupOrder);
    UserPhase(snap.users, userOrder, k);
    GroupPhase(snap.groups, groupOrder, k);
    OverlayConcat(us, gs, k);
  }

  /** The node phase of a save leaves the edges alone and the nodes as SavedNodes. */
  lemma NodePhase(g: Graph, snap: Snapshot, userOrder: seq<int>, groupOrder: seq<int>)
    requires KeyedById(snap)
    requires IsEnumeration(userOrder, snap.users.Keys) && IsEnumeration(groupOrder, snap.groups.Keys)
    ensures var h := ApplyAll(g, UserStatements(snap.users, userOrder) + GroupStatements(snap.groups, groupOrder));
      h == Graph(SavedNodes(g, snap), g.edges)
  {
    var k0: NodeKey :| true;
    NodePhaseAt(g, snap, userOrder, groupOrder, k0);
    var ns := UserStatements(snap.users, userOrder) + GroupStatements(snap.groups, groupOrder);
    var h := ApplyAll(g, ns);
    ApplyAllNodes(g, ns);
    forall k
      ensures k in h.nodes <==> k in SavedNodes(g, snap)
      ensures k in h.nodes ==> h.nodes[k] == SavedNodes(g, snap)[k]
    {
      NodePhaseAt(g, snap, userOrder, groupOrder, k);
      SavedNodesAt(g, snap, k);
    }
    assert h.nodes == SavedNodes(g, snap);
  }

  /** The relationship phase adds LinkedEdges and nothing else. */
  lemma EdgePhase(h: Graph, rels: seq<Relationship>)
    ensures ApplyAll(h, RelationshipStatements(rels)) == Graph(h.nodes, h.edges + LinkedEdges(h.nodes, rels))
  {
    ApplyAllEdges(h, rels);
    var after := ApplyAll(h, RelationshipStatements(rels));
    forall e
      ensures e in after.edges <==> e in h.edges + LinkedEdges(h.nodes, rels)
    {
      if e in LinkedEdges(h.nodes, rels) {
        var i :| 0 <= i < |rels| && Linked(h.nodes, EdgeOf(rels[i])) && EdgeOf(rels[i]) == e;
      }
    }
  }

  /** When every write succeeds, a save of a snapshot keyed by id leaves SavedGraph, whatever
      order the two maps were ranged over in. */
  lemma SaveOutcome(g: Graph, snap: Snapshot, userOrder: seq<int>, groupOrder: seq<int>)
    requires KeyedById(snap)
    requires IsEnumeration(userOrder, snap.users.Keys) && IsEnumeration(groupOrder, snap.groups.Keys)
    ensures ApplyAll(g, Plan(snap, userOrder, groupOrder)) == SavedGraph(g, snap)
  {
    var ns := UserStatements(snap.users, userOrder) + GroupStatements(snap.groups, groupOrder);
    var rs := RelationshipStatements(snap.relationships);
    ApplyAllConcat(g, ns, rs);
    NodePhase(g, snap, userOrder, groupOrder);
    EdgePhase(ApplyAll(g, ns), snap.relationships);
  }

  lemma MapUnionIdempotent(m: Props)
    ensures m + m == m
  {
  }

  /** Saving a snapshot that was just saved changes nothing. */
  lemma SavedGraphIdempotent(g: Graph, snap: Snapshot)
    ensures SavedGraph(SavedGraph(g, snap), snap) == SavedGraph(g, snap)
  {
    var once := SavedGraph(g, snap);
    var nodes := SavedNodes(once, snap);
    forall k
      ensures k in nodes <==> k in once.nodes
      ensures k in nodes ==> nodes[k] == once.nodes[k]
    {
      SavedNodesAt(g, snap, k);
      SavedNodesAt(once, snap, k);
      var w := WrittenProps(snap, k);
      MapUnionAssociative(NodeProps(g, k), w, w);
      MapUnionIdempotent(w);
    }
    assert nodes == once.nodes;
  }

  // ---------------------------------------------------------------------------------------------
  // SaveData, end to end

  /** SaveData without failures: no error, and the database becomes SavedGraph, for any of the
      orders SaveData may range over the maps in. */
  lemma SaveWithoutFailure(g: Graph, snap: Snapshot, userOrder: seq<int>, groupOrder: seq<int>, fails: nat -> bool)
    requires KeyedById(snap)
    requires IsEnumeration(userOrder, snap.users.Keys) && IsEnumeration(groupOrder, snap.groups.Keys)
    requires NoneFail(fails, 0, |Plan(snap, userOrder, groupOrder)|)
    ensures Exec(g, Plan(snap, userOrder, groupOrder), fails, 0) == Saved(None, SavedGraph(g, snap))
  {
    ExecWithoutFailure(g, Plan(snap, userOrder, groupOrder), fails, 0);
    SaveOutcome(g, snap, userOrder, groupOrder);
  }

  /** Two successful saves of the same snapshot, in any orders, leave what the first left. */
  lemma SaveTwice(g: Graph, snap: Snapshot, userOrder1: seq<int>, groupOrder1: seq<int>,
                  userOrder2: seq<int>, groupOrder2: seq<int>)
    requires KeyedById(snap)
    requires IsEnumeration(userOrder1, snap.users.Keys) && IsEnumeration(groupOrder1, snap.groups.Keys)
    requires IsEnumeration(userOrder2, snap.users.Keys) && IsEnumeration(groupOrder2, snap.groups.Keys)
    ensures var once := ApplyAll(g, Plan(snap, userOrder1, groupOrder1));
      ApplyAll(once, Plan(snap, userOrder2, groupOrder2)) == once
  {
    var once := ApplyAll(g, Plan(snap, userOrder1, groupOrder1));
    SaveOutcome(g, snap, userOrder1, groupOrder1);
    SaveOutcome(once, snap, userOrder2, groupOrder2);
    SavedGraphIdempotent(g, snap);
  }

  /** A save removes no node. */
  lemma SavedKeepsNodes(g: Graph, snap: Snapshot)
    ensures g.nodes.Keys <= SavedNodes(g, snap).Keys
  {
    forall k | k in g.nodes
      ensures k in SavedNodes(g, snap)
    {
      SavedNodesAt(g, snap, k);
    }
  }

  /** After a save, the user stored under x is the User node with id x, carrying the user's name,
      screen name, sex and city over whatever else the node had. */
  lemma SavedUserNode(g: Graph, snap: Snapshot, x: int)
    requires x in snap.users
    ensures NodeKey(UserLabel, x) in SavedNodes(g, snap)
    ensures SavedNodes(g, snap)[NodeKey(UserLabel, x)] == NodeProps(g, NodeKey(UserLabel, x)) + UserProps(snap.users[x])
  {
    SavedNodesAt(g, snap, NodeKey(UserLabel, x));
  }

  /** After a save, the group stored under x is the Group node with id -x, carrying the group's
      name and screen name over whatever else the node had. */
  lemma SavedGroupNode(g: Graph, snap: Snapshot, x: int)
    requires x in snap.groups
    ensures NodeKey(GroupLabel, -x) in SavedNodes(g, snap)
    ensures SavedNodes(g, snap)[NodeKey(GroupLabel, -x)] == NodeProps(g, NodeKey(GroupLabel, -x)) + GroupProps(snap.groups[x])
  {
    SavedNodesAt(g, snap, NodeKey(GroupLabel, -x));
  }

  /** After a successful save every pre-existing edge is still there, and every new edge is the
      edge of some relationship of the snapshot between two nodes of the database. */
  lemma SavedEdgesContents(g: Graph, snap: Snapshot)
    ensures var saved := SavedGraph(g, snap);
      && g.edges <= saved.edges
      && (forall e | e in saved.edges && e !in g.edges ::
            Linked(saved.nodes, e) && exists i | 0 <= i < |snap.relationships| :: EdgeOf(snap.relationships[i]) == e)
  {
    var saved := SavedGraph(g, snap);
    forall e | e in saved.edges && e !in g.edges
      ensures Linked(saved.nodes, e) && exists i | 0 <= i < |snap.relationships| :: EdgeOf(snap.relationships[i]) == e
    {
      var i :| 0 <= i < |snap.relationships| && Linked(saved.nodes, EdgeOf(snap.relationships[i]))
        && EdgeOf(snap.relationships[i]) == e;
    }
  }

  /** A relationship of the snapshot is an edge after a successful save exactly when it already
      was, or both of its endpoints are nodes afterwards: an edge to a node that is neither in the
      snapshot nor already in the database is silently dropped. */
  lemma RelationshipSaved(g: Graph, snap: Snapshot, r: Relationship)
    requires r in snap.relationships
    ensures EdgeOf(r) in SavedGraph(g, snap).edges <==> EdgeOf(r) in g.edges || Linked(SavedNodes(g, snap), EdgeOf(r))
  {
    var i :| 0 <= i < |snap.relationships| && snap.relationships[i] == r;
    if EdgeOf(r) in SavedGraph(g, snap).edges && EdgeOf(r) !in g.edges {
      SavedEdgesContents(g, snap);
    }
  }

  /** The writer reads back the collector's target encoding exactly for users with a
      non-negative id and groups with a positive id; in particular a group with id 0 would be
      read back as the user with id 0. */
  lemma TargetRoundTrip(k: NodeKey)
    requires k.nodeLabel == UserLabel || k.nodeLabel == GroupLabel
    ensures TargetKey(EncodeTarget(k)) == k <==>
      (k.nodeLabel == UserLabel && k.id >= 0) || (k.nodeLabel == GroupLabel && k.id > 0)
  {
  }

  /** Every relationship target the writer reads is one the collector's encoding produces. */
  lemma EncodeTargetKey(to: int)
    ensures EncodeTarget(TargetKey(to)) == to
  {
  }
}
