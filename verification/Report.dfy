/** The walk that turns the daemon's report into a tree of agents. Parentage is
    data: it may cycle, name agents that are not there, or not be an id at all. */
module Report {
  import opened Wrappers

  /** A JSON value, as far as the walk looks at it. */
  datatype Id = Null | Number(n: int) | Text(s: string) | Other(k: int)

  datatype Agent = Agent(id: Id, parent: Id, createdAt: int)

  datatype Row = Row(agent: Agent, depth: nat)

  predicate Legible(id: Id) {
    id.Number? || id.Text?
  }

  function Ids(rows: seq<Row>): (ids: seq<Id>)
    ensures |ids| == |rows| && forall i :: 0 <= i < |rows| ==> ids[i] == rows[i].agent.id
  {
    seq(|rows|, i requires 0 <= i < |rows| => rows[i].agent.id)
  }

  // ---- Roots, children and their order ----

  predicate Known(agents: seq<Agent>, id: Id) {
    exists k :: 0 <= k < |agents| && agents[k].id == id
  }

  /** No parent recorded, or one that is not in this report. */
  predicate IsRoot(agents: seq<Agent>, agent: Agent) {
    agent.parent.Null? || !Known(agents, agent.parent)
  }

  function Roots(agents: seq<Agent>, from: seq<Agent>): (r: seq<Agent>)
    ensures forall a :: a in r <==> a in from && IsRoot(agents, a)
  {
    if from == [] then []
    else (if IsRoot(agents, from[0]) then [from[0]] else []) + Roots(agents, from[1..])
  }

  function Children(from: seq<Agent>, parent: Id): (r: seq<Agent>)
    ensures forall a :: a in r <==> a in from && a.parent == parent
  {
    if from == [] then []
    else (if from[0].parent == parent then [from[0]] else []) + Children(from[1..], parent)
  }

  /** Behind everything created no later. */
  function Placed(sorted: seq<Agent>, agent: Agent): (r: seq<Agent>)
    ensures multiset(r) == multiset(sorted) + multiset{agent}
  {
    if sorted == [] || sorted[|sorted| - 1].createdAt <= agent.createdAt then sorted + [agent]
    else
      assert sorted == sorted[..|sorted| - 1] + [sorted[|sorted| - 1]];
      Placed(sorted[..|sorted| - 1], agent) + [sorted[|sorted| - 1]]
  }

  /** The stable sort by creation time. */
  function ByCreation(list: seq<Agent>): (r: seq<Agent>)
    ensures multiset(r) == multiset(list)
    ensures forall a :: a in r <==> a in list
  {
    if list == [] then []
    else
      assert list == list[..|list| - 1] + [list[|list| - 1]];
      var r := Placed(ByCreation(list[..|list| - 1]), list[|list| - 1]);
      assert forall a :: a in r <==> a in multiset(r);
      assert forall a :: a in list <==> a in multiset(list);
      r
  }

  predicate Rising(list: seq<Agent>) {
    forall i, j :: 0 <= i < j < |list| ==> list[i].createdAt <= list[j].createdAt
  }

  function CreatedAt(list: seq<Agent>, at: int): seq<Agent> {
    if list == [] then []
    else
      var last := list[|list| - 1];
      CreatedAt(list[..|list| - 1], at) + if last.createdAt == at then [last] else []
  }

  lemma {:induction false} PlacedRises(sorted: seq<Agent>, agent: Agent)
    requires Rising(sorted)
    ensures Rising(Placed(sorted, agent))
  {
    if sorted != [] && sorted[|sorted| - 1].createdAt > agent.createdAt {
      var init, last := sorted[..|sorted| - 1], sorted[|sorted| - 1];
      PlacedRises(init, agent);
      var r := Placed(init, agent);
      forall k | 0 <= k < |r|
        ensures r[k].createdAt <= last.createdAt
      {
        assert r[k] in multiset(r);
        assert r[k] == agent || r[k] in init;
      }
    }
  }

  lemma CreatedAtAppends(list: seq<Agent>, last: Agent, at: int)
    ensures CreatedAt(list + [last], at) == CreatedAt(list, at) + if last.createdAt == at then [last] else []
  {
    assert (list + [last])[..|list|] == list;
  }

  lemma {:induction false} PlacedStays(sorted: seq<Agent>, agent: Agent, at: int)
    ensures CreatedAt(Placed(sorted, agent), at)
         == CreatedAt(sorted, at) + if agent.createdAt == at then [agent] else []
  {
    if sorted != [] && sorted[|sorted| - 1].createdAt > agent.createdAt {
      var init, last := sorted[..|sorted| - 1], sorted[|sorted| - 1];
      PlacedStays(init, agent, at);
      CreatedAtAppends(Placed(init, agent), last, at);
    } else {
      CreatedAtAppends(sorted, agent, at);
    }
  }

  /** Oldest first, and agents created at one moment keep the order they had. */
  lemma {:induction false} ByCreationIsStable(list: seq<Agent>, at: int)
    ensures Rising(ByCreation(list))
    ensures CreatedAt(ByCreation(list), at) == CreatedAt(list, at)
  {
    if list != [] {
      ByCreationIsStable(list[..|list| - 1], at);
      PlacedRises(ByCreation(list[..|list| - 1]), list[|list| - 1]);
      PlacedStays(ByCreation(list[..|list| - 1]), list[|list| - 1], at);
    }
  }

  // ---- The walk ----

  /** The ids still to be seen: what bounds the recursion. */
  function Unseen(agents: seq<Agent>, rows: seq<Row>): set<Id> {
    (set a | a in agents :: a.id) - (set id | id in Ids(rows))
  }

  lemma UnseenShrinks(agents: seq<Agent>, before: seq<Row>, after: seq<Row>)
    requires before <= after
    ensures Unseen(agents, after) <= Unseen(agents, before)
    ensures |Unseen(agents, after)| <= |Unseen(agents, before)|
  {
    forall id | id in Ids(before)
      ensures id in Ids(after)
    {
      var k :| 0 <= k < |before| && Ids(before)[k] == id;
      assert Ids(after)[k] == id;
    }
    SubsetIsSmaller(Unseen(agents, after), Unseen(agents, before));
  }

  lemma SeeingShrinks(agents: seq<Agent>, rows: seq<Row>, row: Row)
    requires row.agent in agents && row.agent.id !in Ids(rows)
    ensures |Unseen(agents, rows + [row])| < |Unseen(agents, rows)|
  {
    UnseenShrinks(agents, rows, rows + [row]);
    assert Ids(rows + [row])[|rows|] == row.agent.id;
    assert row.agent.id in Unseen(agents, rows) && row.agent.id !in Unseen(agents, rows + [row]);
    SubsetIsSmaller(Unseen(agents, rows + [row]), Unseen(agents, rows) - {row.agent.id});
  }

  /** `render_agent`: an id that is neither a number nor a string stops the
      branch, and so does one seen before. */
  function Visit(agents: seq<Agent>, agent: Agent, depth: nat, rows: seq<Row>): (r: seq<Row>)
    requires agent in agents
    ensures rows <= r
    decreases |Unseen(agents, rows)|, 0, 0
  {
    if !Legible(agent.id) || agent.id in Ids(rows) then rows
    else
      SeeingShrinks(agents, rows, Row(agent, depth));
      VisitAll(agents, ByCreation(Children(agents, agent.id)), depth + 1, rows + [Row(agent, depth)])
  }

  function VisitAll(agents: seq<Agent>, list: seq<Agent>, depth: nat, rows: seq<Row>): (r: seq<Row>)
    requires forall a :: a in list ==> a in agents
    ensures rows <= r
    decreases |Unseen(agents, rows)|, 1, |list|
  {
    if list == [] then rows
    else
      var after := Visit(agents, list[0], depth, rows);
      UnseenShrinks(agents, rows, after);
      VisitAll(agents, list[1..], depth, after)
  }

  function Tree(agents: seq<Agent>): seq<Row> {
    VisitAll(agents, ByCreation(Roots(agents, agents)), 0, [])
  }

  /** The walk as it runs, over the text and the list of ids seen. */
  class Walk {
    const agents: seq<Agent>
    var rows: seq<Row>
    var seen: seq<Id>

    ghost predicate Valid()
      reads this
    {
      seen == Ids(rows)
    }

    constructor (agents: seq<Agent>)
      ensures Valid() && this.agents == agents && rows == []
    {
      this.agents := agents;
      rows, seen := [], [];
    }

    method RenderAgent(agent: Agent, depth: nat)
      requires Valid() && agent in agents
      modifies this
      ensures Valid() && rows == Visit(agents, agent, depth, old(rows))
      decreases |Unseen(agents, rows)|, 0, 0
    {
      if !Legible(agent.id) { return; }
      if agent.id in seen { return; }
      SeeingShrinks(agents, rows, Row(agent, depth));
      seen := seen + [agent.id];
      rows := rows + [Row(agent, depth)];
      RenderList(ByCreation(Children(agents, agent.id)), depth + 1);
    }

    method RenderList(list: seq<Agent>, depth: nat)
      requires Valid() && forall a :: a in list ==> a in agents
      modifies this
      ensures Valid() && rows == VisitAll(agents, list, depth, old(rows))
      decreases |Unseen(agents, rows)|, 1, |list|
    {
      var i := 0;
      while i < |list|
        invariant 0 <= i <= |list|
        invariant Valid() && old(rows) <= rows
        invariant VisitAll(agents, list[i..], depth, rows) == VisitAll(agents, list, depth, old(rows))
      {
        UnseenShrinks(agents, old(rows), rows);
        assert list[i..][0] == list[i] && list[i..][1..] == list[i + 1..];
        RenderAgent(list[i], depth);
        i := i + 1;
      }
    }

    method RenderReport()
      requires Valid() && rows == []
      modifies this
      ensures Valid() && rows == Tree(agents)
    {
      RenderList(ByCreation(Roots(agents, agents)), 0);
    }
  }

  // ---- What is rendered ----

  /** From a root down to the id, through agents of this report with legible
      ids, each the parent of the next. */
  predicate Chain(agents: seq<Agent>, chain: seq<Agent>) {
    && chain != []
    && (chain[0].parent == Null || forall a :: a in agents ==> a.id != chain[0].parent)
    && (forall i :: 0 <= i < |chain| ==> chain[i] in agents && (chain[i].id.Number? || chain[i].id.Text?))
    && (forall i :: 0 < i < |chain| ==> chain[i].parent == chain[i - 1].id)
  }

  ghost predicate Reaches(agents: seq<Agent>, id: Id) {
    exists chain: seq<Agent> :: Chain(agents, chain) && chain[|chain| - 1].id == id
  }

  /** Where row `i` hangs: at the root, or below an earlier row one level up. */
  predicate Hangs(agents: seq<Agent>, rows: seq<Row>, i: int)
    requires 0 <= i < |rows|
  {
    if rows[i].depth == 0 then IsRoot(agents, rows[i].agent)
    else exists j :: 0 <= j < i && rows[j].agent.id == rows[i].agent.parent && rows[j].depth == rows[i].depth - 1
  }

  ghost predicate Drawn(agents: seq<Agent>, rows: seq<Row>) {
    && (forall i :: 0 <= i < |rows| ==>
          rows[i].agent in agents && Legible(rows[i].agent.id) && Hangs(agents, rows, i))
    && (forall i, j :: 0 <= i < j < |rows| ==> rows[i].agent.id != rows[j].agent.id)
  }

  /** An agent may be drawn at this depth below the rows so far. */
  predicate Fitting(agents: seq<Agent>, rows: seq<Row>, agent: Agent, depth: nat) {
    if depth == 0 then IsRoot(agents, agent)
    else exists j :: 0 <= j < |rows| && rows[j].agent.id == agent.parent && rows[j].depth == depth - 1
  }

  lemma RowDrawn(agents: seq<Agent>, rows: seq<Row>, row: Row)
    requires Drawn(agents, rows) && row.agent in agents && Legible(row.agent.id) && row.agent.id !in Ids(rows)
    requires Fitting(agents, rows, row.agent, row.depth)
    ensures Drawn(agents, rows + [row])
  {
    var next := rows + [row];
    forall i | 0 <= i < |rows|
      ensures Hangs(agents, next, i)
    {
      assert Hangs(agents, rows, i);
      if rows[i].depth > 0 {
        var j :| 0 <= j < i && rows[j].agent.id == rows[i].agent.parent && rows[j].depth == rows[i].depth - 1;
        assert next[j] == rows[j];
      }
    }
    if row.depth > 0 {
      var j :| 0 <= j < |rows| && rows[j].agent.id == row.agent.parent && rows[j].depth == row.depth - 1;
      assert next[j] == rows[j];
    }
    forall i | 0 <= i < |rows|
      ensures rows[i].agent.id != row.agent.id
    {
      assert Ids(rows)[i] in Ids(rows);
    }
  }

  lemma FittingStays(agents: seq<Agent>, rows: seq<Row>, more: seq<Row>, agent: Agent, depth: nat)
    requires rows <= more && Fitting(agents, rows, agent, depth)
    ensures Fitting(agents, more, agent, depth)
  {
    if depth > 0 {
      var j :| 0 <= j < |rows| && rows[j].agent.id == agent.parent && rows[j].depth == depth - 1;
      assert more[j] == rows[j];
    }
  }

  lemma ChildrenFit(agents: seq<Agent>, rows: seq<Row>, row: Row, children: seq<Agent>)
    requires forall c :: c in children ==> c.parent == row.agent.id
    ensures forall c :: c in children ==> Fitting(agents, rows + [row], c, row.depth + 1)
  {
    assert (rows + [row])[|rows|] == row;
  }

  /** Every row hangs from a root or from a row above it; no id has two rows. */
  lemma {:induction false} VisitDraws(agents: seq<Agent>, agent: Agent, depth: nat, rows: seq<Row>)
    requires agent in agents && Drawn(agents, rows) && Fitting(agents, rows, agent, depth)
    ensures Drawn(agents, Visit(agents, agent, depth, rows))
    decreases |Unseen(agents, rows)|, 0, 0
  {
    if Legible(agent.id) && agent.id !in Ids(rows) {
      var row := Row(agent, depth);
      var children := ByCreation(Children(agents, agent.id));
      SeeingShrinks(agents, rows, row);
      RowDrawn(agents, rows, row);
      ChildrenFit(agents, rows, row, children);
      VisitAllDraws(agents, children, depth + 1, rows + [row]);
    }
  }

  lemma {:induction false} VisitAllDraws(agents: seq<Agent>, list: seq<Agent>, depth: nat, rows: seq<Row>)
    requires Drawn(agents, rows)
    requires forall a :: a in list ==> a in agents && Fitting(agents, rows, a, depth)
    ensures Drawn(agents, VisitAll(agents, list, depth, rows))
    decreases |Unseen(agents, rows)|, 1, |list|
  {
    if list != [] {
      var after := Visit(agents, list[0], depth, rows);
      VisitDraws(agents, list[0], depth, rows);
      UnseenShrinks(agents, rows, after);
      forall a | a in list[1..]
        ensures Fitting(agents, after, a, depth)
      {
        FittingStays(agents, rows, after, a, depth);
      }
      VisitAllDraws(agents, list[1..], depth, after);
    }
  }

  lemma {:induction false} DrawnReaches(agents: seq<Agent>, rows: seq<Row>, i: nat)
    requires Drawn(agents, rows) && i < |rows|
    ensures Reaches(agents, rows[i].agent.id)
    decreases i
  {
    assert Hangs(agents, rows, i);
    if rows[i].depth == 0 {
      assert Chain(agents, [rows[i].agent]);
    } else {
      var j :| 0 <= j < i && rows[j].agent.id == rows[i].agent.parent && rows[j].depth == rows[i].depth - 1;
      DrawnReaches(agents, rows, j);
      var chain: seq<Agent> :| Chain(agents, chain) && chain[|chain| - 1].id == rows[j].agent.id;
      ChainGrows(agents, chain, rows[i].agent);
      assert (chain + [rows[i].agent])[|chain|] == rows[i].agent;
    }
  }

  lemma ChainGrows(agents: seq<Agent>, chain: seq<Agent>, agent: Agent)
    requires Chain(agents, chain) && agent in agents && Legible(agent.id)
    requires agent.parent == chain[|chain| - 1].id
    ensures Chain(agents, chain + [agent])
  {
  }

  // ---- Nothing reachable is left out ----

  predicate Seen(rows: seq<Row>, id: Id) {
    exists k :: 0 <= k < |rows| && rows[k].agent.id == id
  }

  lemma SeenIsIds(rows: seq<Row>, id: Id)
    ensures Seen(rows, id) <==> id in Ids(rows)
  {
    if id in Ids(rows) {
      var k :| 0 <= k < |Ids(rows)| && Ids(rows)[k] == id;
      assert rows[k].agent.id == id;
    }
    if Seen(rows, id) {
      var k :| 0 <= k < |rows| && rows[k].agent.id == id;
      assert Ids(rows)[k] == id;
    }
  }

  lemma SeenStays(rows: seq<Row>, more: seq<Row>, id: Id)
    requires rows <= more && Seen(rows, id)
    ensures Seen(more, id)
  {
    var k :| 0 <= k < |rows| && rows[k].agent.id == id;
    assert more[k] == rows[k];
  }

  /** The rows added since `before` have all their legible children among the
      rows. */
  ghost predicate Closed(agents: seq<Agent>, before: seq<Row>, rows: seq<Row>) {
    forall c :: c in agents && Legible(c.id) && Seen(rows, c.parent) && !Seen(before, c.parent) ==> Seen(rows, c.id)
  }

  lemma ClosedJoins(agents: seq<Agent>, a: seq<Row>, b: seq<Row>, c: seq<Row>)
    requires a <= b <= c && Closed(agents, a, b) && Closed(agents, b, c)
    ensures Closed(agents, a, c)
  {
    forall x | x in agents && Legible(x.id) && Seen(c, x.parent) && !Seen(a, x.parent)
      ensures Seen(c, x.id)
    {
      if Seen(b, x.parent) { SeenStays(b, c, x.id); }
    }
  }

  lemma {:induction false} VisitCloses(agents: seq<Agent>, agent: Agent, depth: nat, rows: seq<Row>)
    requires agent in agents
    ensures Closed(agents, rows, Visit(agents, agent, depth, rows))
    ensures Legible(agent.id) ==> Seen(Visit(agents, agent, depth, rows), agent.id)
    decreases |Unseen(agents, rows)|, 0, 0
  {
    SeenIsIds(rows, agent.id);
    if Legible(agent.id) && agent.id !in Ids(rows) {
      var row := Row(agent, depth);
      var children := ByCreation(Children(agents, agent.id));
      SeeingShrinks(agents, rows, row);
      VisitAllCloses(agents, children, depth + 1, rows + [row]);
      var r := VisitAll(agents, children, depth + 1, rows + [row]);
      assert (rows + [row])[|rows|].agent.id == agent.id;
      SeenStays(rows + [row], r, agent.id);
      OwnChildren(agents, rows, row, r);
    }
  }

  lemma OwnChildren(agents: seq<Agent>, rows: seq<Row>, row: Row, r: seq<Row>)
    requires Closed(agents, rows + [row], r)
    requires forall c :: c in agents && c.parent == row.agent.id && Legible(c.id) ==> Seen(r, c.id)
    ensures Closed(agents, rows, r)
  {
    forall x | x in agents && Legible(x.id) && Seen(r, x.parent) && !Seen(rows, x.parent)
      ensures Seen(r, x.id)
    {
      if Seen(rows + [row], x.parent) {
        var k :| 0 <= k < |rows + [row]| && (rows + [row])[k].agent.id == x.parent;
        assert k < |rows| ==> rows[k].agent.id == x.parent;
      }
    }
  }

  lemma {:induction false} VisitAllCloses(agents: seq<Agent>, list: seq<Agent>, depth: nat, rows: seq<Row>)
    requires forall a :: a in list ==> a in agents
    ensures Closed(agents, rows, VisitAll(agents, list, depth, rows))
    ensures forall a :: a in list && Legible(a.id) ==> Seen(VisitAll(agents, list, depth, rows), a.id)
    decreases |Unseen(agents, rows)|, 1, |list|
  {
    if list != [] {
      var after := Visit(agents, list[0], depth, rows);
      var r := VisitAll(agents, list[1..], depth, after);
      VisitCloses(agents, list[0], depth, rows);
      UnseenShrinks(agents, rows, after);
      VisitAllCloses(agents, list[1..], depth, after);
      ClosedJoins(agents, rows, after, r);
      if Legible(list[0].id) { SeenStays(after, r, list[0].id); }
      assert forall a :: a in list ==> a == list[0] || a in list[1..];
    }
  }

  lemma {:induction false} ChainIsSeen(agents: seq<Agent>, chain: seq<Agent>)
    requires Chain(agents, chain)
    ensures Seen(Tree(agents), chain[|chain| - 1].id)
  {
    var rows := Tree(agents);
    VisitAllCloses(agents, ByCreation(Roots(agents, agents)), 0, []);
    if |chain| > 1 {
      var before := chain[..|chain| - 1];
      assert Chain(agents, before);
      ChainIsSeen(agents, before);
      assert chain[|chain| - 1].parent == before[|before| - 1].id;
    }
  }

  /** The report draws exactly the ids whose ancestor chain reaches a root, each
      once, and hangs every row from its parent's: for any parent relation,
      with cycles or without. */
  lemma ReportDraws(agents: seq<Agent>)
    ensures Drawn(agents, Tree(agents))
    ensures forall id :: Seen(Tree(agents), id) <==> Reaches(agents, id)
  {
    VisitAllDraws(agents, ByCreation(Roots(agents, agents)), 0, []);
    forall id
      ensures Seen(Tree(agents), id) <==> Reaches(agents, id)
    {
      if Seen(Tree(agents), id) {
        var i :| 0 <= i < |Tree(agents)| && Tree(agents)[i].agent.id == id;
        DrawnReaches(agents, Tree(agents), i);
      }
      if Reaches(agents, id) {
        var chain: seq<Agent> :| Chain(agents, chain) && chain[|chain| - 1].id == id;
        ChainIsSeen(agents, chain);
      }
    }
  }

  /** With distinct ids, those are rows of exactly the agents themselves. */
  lemma ReportDrawsAgents(agents: seq<Agent>, agent: Agent)
    requires forall i, j :: 0 <= i < j < |agents| ==> agents[i].id != agents[j].id
    requires agent in agents
    ensures (exists k :: 0 <= k < |Tree(agents)| && Tree(agents)[k].agent == agent) <==> Reaches(agents, agent.id)
  {
    ReportDraws(agents);
    if Seen(Tree(agents), agent.id) {
      var k :| 0 <= k < |Tree(agents)| && Tree(agents)[k].agent.id == agent.id;
      assert Tree(agents)[k].agent in agents;
    }
  }

  /** What the source says of its roots, that nothing is dropped, fails for two
      agents that are each other's parent: neither is drawn. */
  lemma CycleIsDropped(a: Agent, b: Agent)
    requires Legible(a.id) && Legible(b.id) && a.parent == b.id && b.parent == a.id
    ensures Tree([a, b]) == []
  {
    var agents := [a, b];
    assert agents[0].id == b.parent && agents[1].id == a.parent;
    assert !IsRoot(agents, a) && !IsRoot(agents, b);
    assert agents[1..] == [b];
    assert Roots(agents, [b]) == [];
  }
}
