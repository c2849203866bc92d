/** How the rows of the report stand: every row directly in its parent's block, and siblings oldest
    first. */
module ReportOrder {
  import opened Report

  /** Row `j` is the parent's, one level up, and from it to place `i` there is nothing but rows below
      it. */
  predicate Below(rows: seq<Row>, j: int, i: int, parent: Id, depth: nat) {
    && 0 <= j < i <= |rows| && rows[j].agent.id == parent && rows[j].depth + 1 == depth
    && forall k :: j < k < i ==> rows[k].depth >= depth
  }

  ghost predicate Nested(rows: seq<Row>) {
    forall i :: 0 <= i < |rows| && rows[i].depth > 0 ==>
      exists j :: Below(rows, j, i, rows[i].agent.parent, rows[i].depth)
  }

  predicate Siblings(a: Row, b: Row) {
    a.depth == b.depth && (a.depth == 0 || a.agent.parent == b.agent.parent)
  }

  predicate OldestFirst(rows: seq<Row>) {
    forall i, j :: 0 <= i < j < |rows| && Siblings(rows[i], rows[j]) ==>
      rows[i].agent.createdAt <= rows[j].agent.createdAt
  }

  /** What `more` has behind `rows` is at this depth or below. */
  predicate Deeper(rows: seq<Row>, more: seq<Row>, depth: nat) {
    rows <= more && forall k :: |rows| <= k < |more| ==> more[k].depth >= depth
  }

  /** The agent's own row, and the children that are visited behind it. */
  lemma VisitIs(agents: seq<Agent>, agent: Agent, depth: nat, rows: seq<Row>)
    returns (next: seq<Row>, children: seq<Agent>)
    requires agent in agents && Legible(agent.id) && agent.id !in Ids(rows)
    ensures next == rows + [Row(agent, depth)]
    ensures forall c :: c in children ==> c in agents && c.parent == agent.id
    ensures Rising(children)
    ensures Visit(agents, agent, depth, rows) == VisitAll(agents, children, depth + 1, next)
    ensures |Unseen(agents, next)| < |Unseen(agents, rows)|
  {
    next, children := rows + [Row(agent, depth)], ByCreation(Children(agents, agent.id));
    SeeingShrinks(agents, rows, Row(agent, depth));
    ByCreationIsStable(Children(agents, agent.id), 0);
  }

  lemma {:induction false} VisitDeepens(agents: seq<Agent>, agent: Agent, depth: nat, rows: seq<Row>)
    requires agent in agents
    ensures Deeper(rows, Visit(agents, agent, depth, rows), depth)
    decreases |Unseen(agents, rows)|, 0, 0
  {
    if Legible(agent.id) && agent.id !in Ids(rows) {
      var next, children := VisitIs(agents, agent, depth, rows);
      VisitAllDeepens(agents, children, depth + 1, next);
      assert Visit(agents, agent, depth, rows)[|rows|] == next[|rows|];
    }
  }

  lemma {:induction false} VisitAllDeepens(agents: seq<Agent>, list: seq<Agent>, depth: nat, rows: seq<Row>)
    requires forall a :: a in list ==> a in agents
    ensures Deeper(rows, VisitAll(agents, list, depth, rows), depth)
    decreases |Unseen(agents, rows)|, 1, |list|
  {
    if list != [] {
      var after := Visit(agents, list[0], depth, rows);
      VisitDeepens(agents, list[0], depth, rows);
      UnseenShrinks(agents, rows, after);
      VisitAllDeepens(agents, list[1..], depth, after);
      assert forall k :: |rows| <= k < |after| ==> VisitAll(agents, list, depth, rows)[k] == after[k];
    }
  }

  // ---- Blocks ----

  /** Children of `parent`, whose row is the `j`th, may be drawn next; or roots. */
  predicate Open(rows: seq<Row>, j: int, parent: Id, depth: nat) {
    depth > 0 ==> Below(rows, j, |rows|, parent, depth)
  }

  lemma NestedOne(rows: seq<Row>, row: Row, j: int)
    requires Nested(rows) && Open(rows, j, row.agent.parent, row.depth)
    ensures Nested(rows + [row])
  {
    var next := rows + [row];
    forall i | 0 <= i < |next| && next[i].depth > 0
      ensures exists m :: Below(next, m, i, next[i].agent.parent, next[i].depth)
    {
      if i < |rows| {
        var m :| Below(rows, m, i, rows[i].agent.parent, rows[i].depth);
        assert Below(next, m, i, next[i].agent.parent, next[i].depth);
      } else {
        assert Below(next, j, i, next[i].agent.parent, next[i].depth);
      }
    }
  }

  lemma OpenStays(rows: seq<Row>, more: seq<Row>, j: int, parent: Id, depth: nat)
    requires Open(rows, j, parent, depth) && Deeper(rows, more, depth)
    ensures Open(more, j, parent, depth)
  {
  }

  lemma {:induction false} VisitNests(agents: seq<Agent>, agent: Agent, depth: nat, rows: seq<Row>, j: int)
    requires agent in agents && Nested(rows) && Open(rows, j, agent.parent, depth)
    ensures Nested(Visit(agents, agent, depth, rows))
    decreases |Unseen(agents, rows)|, 0, 0
  {
    if Legible(agent.id) && agent.id !in Ids(rows) {
      var next, children := VisitIs(agents, agent, depth, rows);
      NestedOne(rows, Row(agent, depth), j);
      VisitAllNests(agents, children, depth + 1, next, |rows|, agent.id);
    }
  }

  lemma {:induction false} VisitAllNests(agents: seq<Agent>, list: seq<Agent>, depth: nat, rows: seq<Row>, j: int,
                                         parent: Id)
    requires Nested(rows) && Open(rows, j, parent, depth)
    requires forall a :: a in list ==> a in agents && (depth > 0 ==> a.parent == parent)
    ensures Nested(VisitAll(agents, list, depth, rows))
    decreases |Unseen(agents, rows)|, 1, |list|
  {
    if list != [] {
      var after := Visit(agents, list[0], depth, rows);
      VisitNests(agents, list[0], depth, rows, j);
      VisitDeepens(agents, list[0], depth, rows);
      OpenStays(rows, after, j, parent, depth);
      UnseenShrinks(agents, rows, after);
      VisitAllNests(agents, list[1..], depth, after, j, parent);
    }
  }

  // ---- Oldest first ----

  /** The children of `parent` drawn so far, or the roots, were created at `at` or before. */
  predicate UpTo(rows: seq<Row>, parent: Id, depth: nat, at: int) {
    forall i :: 0 <= i < |rows| && rows[i].depth == depth && (depth == 0 || rows[i].agent.parent == parent) ==>
      rows[i].agent.createdAt <= at
  }

  lemma OrderedOne(rows: seq<Row>, row: Row)
    requires OldestFirst(rows) && UpTo(rows, row.agent.parent, row.depth, row.agent.createdAt)
    ensures OldestFirst(rows + [row])
  {
  }

  lemma {:induction false} VisitOrders(agents: seq<Agent>, agent: Agent, depth: nat, rows: seq<Row>, j: int)
    requires agent in agents && Nested(rows) && Open(rows, j, agent.parent, depth)
    requires OldestFirst(rows) && UpTo(rows, agent.parent, depth, agent.createdAt)
    ensures OldestFirst(Visit(agents, agent, depth, rows))
    decreases |Unseen(agents, rows)|, 0, 0
  {
    if Legible(agent.id) && agent.id !in Ids(rows) {
      var next, children := VisitIs(agents, agent, depth, rows);
      NestedOne(rows, Row(agent, depth), j);
      OrderedOne(rows, Row(agent, depth));
      ChildrenOrder(agents, agent, depth, rows, next, children);
    }
  }

  lemma {:induction false} ChildrenOrder(agents: seq<Agent>, agent: Agent, depth: nat, rows: seq<Row>, next: seq<Row>,
                                         children: seq<Agent>)
    requires next == rows + [Row(agent, depth)] && Nested(rows) && Nested(next) && OldestFirst(next)
    requires agent.id !in Ids(rows) && Rising(children)
    requires forall c :: c in children ==> c in agents && c.parent == agent.id
    ensures OldestFirst(VisitAll(agents, children, depth + 1, next))
    decreases |Unseen(agents, next)|, 2, 0
  {
    var at := if children == [] then 0 else children[0].createdAt;
    NoChildYet(rows, agent, depth, at);
    VisitAllOrders(agents, children, depth + 1, next, |rows|, agent.id, at);
  }

  /** Before an agent's own row none of its children has one. */
  lemma NoChildYet(rows: seq<Row>, agent: Agent, depth: nat, at: int)
    requires Nested(rows) && agent.id !in Ids(rows)
    ensures UpTo(rows + [Row(agent, depth)], agent.id, depth + 1, at)
  {
    forall i | 0 <= i < |rows| && rows[i].depth == depth + 1
      ensures rows[i].agent.parent != agent.id
    {
      var m :| Below(rows, m, i, rows[i].agent.parent, rows[i].depth);
      assert Ids(rows)[m] == rows[m].agent.id;
    }
  }

  lemma {:induction false} VisitAllOrders(agents: seq<Agent>, list: seq<Agent>, depth: nat, rows: seq<Row>, j: int,
                                          parent: Id, at: int)
    requires Nested(rows) && Open(rows, j, parent, depth) && OldestFirst(rows) && Rising(list)
    requires forall a :: a in list ==> a in agents && (depth > 0 ==> a.parent == parent)
    requires UpTo(rows, parent, depth, at) && (list != [] ==> at <= list[0].createdAt)
    ensures OldestFirst(VisitAll(agents, list, depth, rows))
    decreases |Unseen(agents, rows)|, 1, |list|
  {
    if list != [] {
      var first, rest := FirstAndRest(agents, list, depth, rows, parent);
      VisitOrders(agents, first, depth, rows, j);
      var after := AfterFirst(agents, first, depth, rows, j, parent, at);
      VisitAllOrders(agents, rest, depth, after, j, parent, first.createdAt);
    }
  }

  lemma FirstAndRest(agents: seq<Agent>, list: seq<Agent>, depth: nat, rows: seq<Row>, parent: Id)
    returns (first: Agent, rest: seq<Agent>)
    requires list != [] && Rising(list)
    requires forall a :: a in list ==> a in agents && (depth > 0 ==> a.parent == parent)
    ensures first == list[0] && first in agents && (depth > 0 ==> first.parent == parent)
    ensures |rest| < |list| && Rising(rest) && (rest != [] ==> first.createdAt <= rest[0].createdAt)
    ensures forall a :: a in rest ==> a in agents && (depth > 0 ==> a.parent == parent)
    ensures VisitAll(agents, list, depth, rows) == VisitAll(agents, rest, depth, Visit(agents, first, depth, rows))
  {
    first, rest := list[0], list[1..];
  }

  /** What holds once the first of several siblings has been visited. */
  lemma AfterFirst(agents: seq<Agent>, first: Agent, depth: nat, rows: seq<Row>, j: int, parent: Id, at: int)
    returns (after: seq<Row>)
    requires first in agents && (depth > 0 ==> first.parent == parent)
    requires Nested(rows) && Open(rows, j, parent, depth) && UpTo(rows, parent, depth, at) && at <= first.createdAt
    ensures after == Visit(agents, first, depth, rows) && |Unseen(agents, after)| <= |Unseen(agents, rows)|
    ensures Nested(after) && Open(after, j, parent, depth) && UpTo(after, parent, depth, first.createdAt)
  {
    after := Visit(agents, first, depth, rows);
    VisitNests(agents, first, depth, rows, j);
    VisitDeepens(agents, first, depth, rows);
    OpenStays(rows, after, j, parent, depth);
    OwnLevel(agents, first, depth, rows, parent, at);
    UnseenShrinks(agents, rows, after);
  }

  /** Of the rows that a visit adds, only the first is at the agent's level. */
  lemma OwnLevel(agents: seq<Agent>, agent: Agent, depth: nat, rows: seq<Row>, parent: Id, at: int)
    requires agent in agents && UpTo(rows, parent, depth, at) && at <= agent.createdAt
    ensures UpTo(Visit(agents, agent, depth, rows), parent, depth, agent.createdAt)
  {
    if Legible(agent.id) && agent.id !in Ids(rows) {
      var next, children := VisitIs(agents, agent, depth, rows);
      OwnThenDeeper(agents, agent, depth, rows, parent, at, next, children);
    }
  }

  lemma OwnThenDeeper(agents: seq<Agent>, agent: Agent, depth: nat, rows: seq<Row>, parent: Id, at: int,
                      next: seq<Row>, children: seq<Agent>)
    requires next == rows + [Row(agent, depth)] && forall c :: c in children ==> c in agents
    requires UpTo(rows, parent, depth, at) && at <= agent.createdAt
    ensures UpTo(VisitAll(agents, children, depth + 1, next), parent, depth, agent.createdAt)
  {
    VisitAllDeepens(agents, children, depth + 1, next);
    OnlyOwn(rows, next, VisitAll(agents, children, depth + 1, next), Row(agent, depth), parent, at);
  }

  lemma OnlyOwn(rows: seq<Row>, next: seq<Row>, after: seq<Row>, row: Row, parent: Id, at: int)
    requires next == rows + [row] && Deeper(next, after, row.depth + 1)
    requires UpTo(rows, parent, row.depth, at) && at <= row.agent.createdAt
    ensures UpTo(after, parent, row.depth, row.agent.createdAt)
  {
    assert forall i :: 0 <= i < |rows| ==> after[i] == rows[i];
    assert after[|rows|] == row;
  }

  /** In the report every row that is not a root's stands in its parent's block, one level below it
      and with only its elder siblings and their descendants in between; roots, and the children of
      one parent, stand oldest first. */
  lemma ReportIsOrdered(agents: seq<Agent>)
    ensures Nested(Tree(agents)) && OldestFirst(Tree(agents))
  {
    var roots := ByCreation(Roots(agents, agents));
    ByCreationIsStable(Roots(agents, agents), 0);
    VisitAllNests(agents, roots, 0, [], 0, Null);
    VisitAllOrders(agents, roots, 0, [], 0, Null, if roots == [] then 0 else roots[0].createdAt);
  }
}
