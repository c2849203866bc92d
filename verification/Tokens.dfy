/** Command-line tokens: what each `take_*` call consumes, and what is left. */
module Tokens {
  import opened Wrappers

  predicate Dashed(item: string) {
    item != "" && item[0] == '-'
  }

  // ---- One call ----

  datatype Op =
    | TakeBool(flag: string)
    | TakeValue(flag: string)
    | TakeNext(flag: string, raw: bool)
    | TakeAll(flag: string)
    | TakePositional

  datatype Answer =
    | Present(yes: bool)
    | One(text: Option<string>)
    | Many(texts: seq<string>)
    | NeedsValue
    | SaidTwice

  /** The indices a call marks, in order, and what it returns. */
  datatype Take = Take(marked: seq<nat>, answer: Answer)

  /** The unused places of the flag, in order. */
  function Hits(items: seq<string>, used: seq<bool>, flag: string): (r: seq<nat>)
    requires |used| == |items|
    ensures forall i: nat :: i in r <==> i < |items| && !used[i] && items[i] == flag
    decreases |items|
  {
    if items == [] then []
    else
      var n := |items| - 1;
      Hits(items[..n], used[..n], flag) + if !used[n] && items[n] == flag then [n] else []
  }

  function FirstFree(items: seq<string>, used: seq<bool>): (r: Option<nat>)
    requires |used| == |items|
    ensures r.Some? ==> r.value < |items| && !used[r.value] && !Dashed(items[r.value])
    ensures r.None? ==> forall i :: 0 <= i < |items| ==> used[i] || Dashed(items[i])
    ensures r.Some? ==> forall i :: 0 <= i < r.value ==> used[i] || Dashed(items[i])
    decreases |items|
  {
    if items == [] then None
    else
      var n := |items| - 1;
      var before := FirstFree(items[..n], used[..n]);
      if before.Some? then before else if !used[n] && !Dashed(items[n]) then Some(n) else None
  }

  function ValueAt(items: seq<string>, used: seq<bool>, index: nat, raw: bool): Take
    requires |used| == |items| && index < |items|
  {
    var value := index + 1;
    if value >= |items| || used[value] || (!raw && Dashed(items[value])) then Take([], NeedsValue)
    else Take([index, value], One(Some(items[value])))
  }

  function NextValue(items: seq<string>, used: seq<bool>, flag: string, raw: bool): Take
    requires |used| == |items|
  {
    var hits := Hits(items, used, flag);
    if hits == [] then Take([], One(None))
    else
      assert hits[0] in hits;
      ValueAt(items, used, hits[0], raw)
  }

  function Mark(used: seq<bool>, marked: seq<nat>): (r: seq<bool>)
    requires forall i :: i in marked ==> i < |used|
    ensures |r| == |used|
    ensures forall i :: 0 <= i < |used| ==> (r[i] <==> used[i] || i in marked)
  {
    seq(|used|, i requires 0 <= i < |used| => used[i] || i in marked)
  }

  function Unused(used: seq<bool>): set<nat> {
    set i | 0 <= i < |used| && !used[i]
  }

  lemma MarkingShrinks(used: seq<bool>, marked: seq<nat>)
    requires marked != [] && forall i :: i in marked ==> i < |used| && !used[i]
    ensures |Unused(Mark(used, marked))| < |Unused(used)|
  {
    assert marked[0] in marked;
    assert marked[0] in Unused(used);
    SubsetIsSmaller(Unused(Mark(used, marked)), Unused(used) - {marked[0]});
  }

  /** `take_all_values`: two tokens a round, until there is no such flag or one
      of them has no value. What earlier rounds marked stays marked. */
  function AllValues(items: seq<string>, used: seq<bool>, flag: string): Take
    requires |used| == |items|
    decreases |Unused(used)|
  {
    var next := NextValue(items, used, flag, true);
    if next.marked == [] then Take([], if next.answer == NeedsValue then NeedsValue else Many([]))
    else
      NextIsFresh(items, used, flag, true);
      MarkingShrinks(used, next.marked);
      var rest := AllValues(items, Mark(used, next.marked), flag);
      Take(next.marked + rest.marked,
           if rest.answer.Many? then Many([items[next.marked[1]]] + rest.answer.texts) else rest.answer)
  }

  function Call(items: seq<string>, used: seq<bool>, op: Op): Take
    requires |used| == |items|
  {
    match op
    case TakeBool(flag) =>
      var hits := Hits(items, used, flag);
      if hits == [] then Take([], Present(false))
      else if |hits| == 1 then Take(hits, Present(true))
      else Take([], SaidTwice)
    case TakeValue(flag) =>
      var hits := Hits(items, used, flag);
      if hits == [] then Take([], One(None))
      else if |hits| > 1 then Take([], SaidTwice)
      else assert hits[0] in hits; ValueAt(items, used, hits[0], false)
    case TakeNext(flag, raw) => NextValue(items, used, flag, raw)
    case TakeAll(flag) => AllValues(items, used, flag)
    case TakePositional =>
      var free := FirstFree(items, used);
      if free.None? then Take([], One(None)) else Take([free.value], One(Some(items[free.value])))
  }

  // ---- A call consumes unused tokens, each once ----

  predicate Distinct(marked: seq<nat>) {
    forall i, j :: 0 <= i < j < |marked| ==> marked[i] != marked[j]
  }

  predicate Fresh(used: seq<bool>, marked: seq<nat>) {
    Distinct(marked) && forall i :: i in marked ==> i < |used| && !used[i]
  }

  lemma NextIsFresh(items: seq<string>, used: seq<bool>, flag: string, raw: bool)
    requires |used| == |items|
    ensures var t := NextValue(items, used, flag, raw);
            && Fresh(used, t.marked)
            && (t.marked != [] ==>
                  && |t.marked| == 2 && t.marked[1] == t.marked[0] + 1 && items[t.marked[0]] == flag
                  && t.answer == One(Some(items[t.marked[1]])))
            && (t.marked == [] ==> t.answer == NeedsValue || t.answer == One(None))
  {
    var hits := Hits(items, used, flag);
    if hits != [] { assert hits[0] in hits; }
  }

  lemma FreshJoins(used: seq<bool>, a: seq<nat>, b: seq<nat>)
    requires Fresh(used, a) && Fresh(Mark(used, a), b)
    ensures Fresh(used, a + b)
    ensures Mark(Mark(used, a), b) == Mark(used, a + b)
  {
    forall i, j | 0 <= i < j < |a + b|
      ensures (a + b)[i] != (a + b)[j]
    {
      assert i < |a| ==> (a + b)[i] in a;
      assert j >= |a| ==> (a + b)[j] in b;
    }
  }

  lemma {:induction false} AllValuesFresh(items: seq<string>, used: seq<bool>, flag: string)
    requires |used| == |items|
    ensures Fresh(used, AllValues(items, used, flag).marked)
    decreases |Unused(used)|
  {
    var next := NextValue(items, used, flag, true);
    NextIsFresh(items, used, flag, true);
    if next.marked != [] {
      MarkingShrinks(used, next.marked);
      var then_ := Mark(used, next.marked);
      AllValuesFresh(items, then_, flag);
      FreshJoins(used, next.marked, AllValues(items, then_, flag).marked);
    }
  }

  lemma CallIsFresh(items: seq<string>, used: seq<bool>, op: Op)
    requires |used| == |items|
    ensures Fresh(used, Call(items, used, op).marked)
  {
    match op
    case TakeBool(flag) =>
    case TakeValue(flag) =>
      var hits := Hits(items, used, flag);
      if hits != [] { assert hits[0] in hits; }
    case TakeNext(flag, raw) => NextIsFresh(items, used, flag, raw);
    case TakeAll(flag) => AllValuesFresh(items, used, flag);
    case TakePositional =>
  }

  /** Places of the flag, each with the place behind it. */
  predicate Pairs(items: seq<string>, marked: seq<nat>, flag: string) {
    marked != [] ==>
      && |marked| >= 2 && marked[0] + 1 == marked[1] < |items|
      && items[marked[0]] == flag
      && Pairs(items, marked[2..], flag)
  }

  function Behind(items: seq<string>, marked: seq<nat>): seq<string> {
    if |marked| < 2 then []
    else (if marked[1] < |items| then [items[marked[1]]] else []) + Behind(items, marked[2..])
  }

  /** Taking all the values of a flag takes places of the flag with the places
      behind them, and returns what stands there. */
  lemma {:induction false} AllValuesTakesPairs(items: seq<string>, used: seq<bool>, flag: string)
    requires |used| == |items|
    ensures var t := AllValues(items, used, flag);
            && Pairs(items, t.marked, flag)
            && (t.answer == NeedsValue || t.answer == Many(Behind(items, t.marked)))
    decreases |Unused(used)|
  {
    var next := NextValue(items, used, flag, true);
    NextIsFresh(items, used, flag, true);
    if next.marked != [] {
      MarkingShrinks(used, next.marked);
      AllValuesTakesPairs(items, Mark(used, next.marked), flag);
      var rest := AllValues(items, Mark(used, next.marked), flag);
      assert (next.marked + rest.marked)[2..] == rest.marked;
    }
  }

  /** When it succeeds, no unused place of the flag is left. */
  lemma {:induction false} AllValuesLeavesNone(items: seq<string>, used: seq<bool>, flag: string)
    requires |used| == |items| && AllValues(items, used, flag).answer.Many?
    ensures Fresh(used, AllValues(items, used, flag).marked)
    ensures Hits(items, Mark(used, AllValues(items, used, flag).marked), flag) == []
    decreases |Unused(used)|
  {
    var next := NextValue(items, used, flag, true);
    NextIsFresh(items, used, flag, true);
    if next.marked != [] {
      MarkingShrinks(used, next.marked);
      var later := Mark(used, next.marked);
      AllValuesLeavesNone(items, later, flag);
      FreshJoins(used, next.marked, AllValues(items, later, flag).marked);
    } else {
      assert Mark(used, []) == used;
    }
  }

  // ---- Any number of calls ----

  datatype Parse = Parse(used: seq<bool>, log: seq<nat>)

  function Unmarked(n: nat): seq<bool> {
    seq(n, _ => false)
  }

  function Parsed(items: seq<string>, ops: seq<Op>): (p: Parse)
    ensures |p.used| == |items|
    decreases |ops|
  {
    if ops == [] then Parse(Unmarked(|items|), [])
    else
      var before := Parsed(items, ops[..|ops| - 1]);
      var op := ops[|ops| - 1];
      CallIsFresh(items, before.used, op);
      var marked := Call(items, before.used, op).marked;
      Parse(Mark(before.used, marked), before.log + marked)
  }

  /** Over any calls in any order, no token is consumed twice, and the marks are
      exactly the tokens consumed. */
  lemma {:induction false} EachTokenOnce(items: seq<string>, ops: seq<Op>)
    ensures var p := Parsed(items, ops);
            Fresh(Unmarked(|items|), p.log) && p.used == Mark(Unmarked(|items|), p.log)
    decreases |ops|
  {
    if ops == [] {
      assert Mark(Unmarked(|items|), []) == Unmarked(|items|);
    } else {
      var before := Parsed(items, ops[..|ops| - 1]);
      var op := ops[|ops| - 1];
      EachTokenOnce(items, ops[..|ops| - 1]);
      CallIsFresh(items, before.used, op);
      FreshJoins(Unmarked(|items|), before.log, Call(items, before.used, op).marked);
    }
  }

  // ---- Leftovers ----

  datatype Kind = Unexpected | MisplacedGlobal | Unknown

  /** One entry, for `size` tokens from `at` on. */
  datatype Problem = Problem(kind: Kind, at: nat, size: nat)

  predicate GlobalFlag(item: string) {
    item == "--socket" || item == "--json"
  }

  function ProblemAt(items: seq<string>, used: seq<bool>, index: nat): (p: Problem)
    requires |used| == |items| && index < |items|
    ensures p.at == index && 1 <= p.size <= 2
  {
    if !Dashed(items[index]) then Problem(Unexpected, index, 1)
    else
      var swallows := index + 1 < |items| && !used[index + 1] && !Dashed(items[index + 1]);
      Problem(if GlobalFlag(items[index]) then MisplacedGlobal else Unknown, index, if swallows then 2 else 1)
  }

  function Leftovers(items: seq<string>, used: seq<bool>, index: nat): seq<Problem>
    requires |used| == |items|
    decreases |items| - index
  {
    if index >= |items| then []
    else if used[index] then Leftovers(items, used, index + 1)
    else
      var p := ProblemAt(items, used, index);
      [p] + Leftovers(items, used, index + p.size)
  }

  function Places(p: Problem): seq<nat> {
    if p.size == 2 then [p.at, p.at + 1] else [p.at]
  }

  /** The tokens the problems are about, entry by entry. */
  function Covered(problems: seq<Problem>): seq<nat> {
    if problems == [] then []
    else
      Places(problems[0]) + Covered(problems[1..])
  }

  /** The unused places from `index` on, in order. */
  function FreeFrom(used: seq<bool>, index: nat): seq<nat>
    decreases |used| - index
  {
    if index >= |used| then []
    else (if used[index] then [] else [index]) + FreeFrom(used, index + 1)
  }

  lemma {:induction false} FreeAre(used: seq<bool>, index: nat, i: int)
    ensures i in FreeFrom(used, index) <==> index <= i < |used| && !used[i]
    decreases |used| - index
  {
    if index < |used| { FreeAre(used, index + 1, i); }
  }

  /** The problems name every unused token once, in order, and no other. */
  lemma {:induction false} LeftoversCover(items: seq<string>, used: seq<bool>, index: nat)
    requires |used| == |items|
    ensures Covered(Leftovers(items, used, index)) == FreeFrom(used, index)
    decreases |items| - index
  {
    if index < |items| {
      if used[index] {
        LeftoversCover(items, used, index + 1);
        assert [] + FreeFrom(used, index + 1) == FreeFrom(used, index + 1);
      } else {
        var p := ProblemAt(items, used, index);
        LeftoversCover(items, used, index + p.size);
        CoverFirst(p, Leftovers(items, used, index + p.size));
        FreeFirst(items, used, index);
      }
    }
  }

  lemma CoverFirst(p: Problem, rest: seq<Problem>)
    ensures Covered([p] + rest) == Places(p) + Covered(rest)
  {
    assert ([p] + rest)[1..] == rest;
  }

  /** The places of the entry at `index` are the next unused ones. */
  lemma FreeFirst(items: seq<string>, used: seq<bool>, index: nat)
    requires |used| == |items| && index < |items| && !used[index]
    ensures var p := ProblemAt(items, used, index); FreeFrom(used, index) == Places(p) + FreeFrom(used, index + p.size)
  {
    if ProblemAt(items, used, index).size == 2 {
      assert [index] + ([index + 1] + FreeFrom(used, index + 2)) == [index, index + 1] + FreeFrom(used, index + 2);
    }
  }

  /** Nothing is left over exactly when every token was consumed. */
  lemma NothingLeftExactly(items: seq<string>, ops: seq<Op>)
    ensures var p := Parsed(items, ops);
            Leftovers(items, p.used, 0) == [] <==> forall i :: 0 <= i < |items| ==> i in p.log
  {
    var p := Parsed(items, ops);
    EachTokenOnce(items, ops);
    LeftoversCover(items, p.used, 0);
    var free := FreeFrom(p.used, 0);
    assert Leftovers(items, p.used, 0) == [] <==> free == [];
    forall i
      ensures i in free <==> 0 <= i < |items| && i !in p.log
    {
      FreeAre(p.used, 0, i);
    }
    assert free != [] ==> free[0] in free;
  }

  // ---- The tokens as an object ----

  /** The marks after a call are those before it and the tokens it took. */
  predicate Marks(before: seq<bool>, after: seq<bool>, marked: seq<nat>) {
    && |after| == |before|
    && forall i :: 0 <= i < |after| ==> (after[i] <==> before[i] || i in marked)
  }

  /** The answer of the rounds still to come, behind the values of those done. */
  function After(values: seq<string>, rest: Answer): Answer {
    if rest.Many? then Many(values + rest.texts) else rest
  }

  /** Where the loop of `take_all_values` stands: what it did, and what is still
      to come, make up the whole. */
  predicate TakingAll(items: seq<string>, start: seq<bool>, done: seq<nat>, values: seq<string>, flag: string,
                      now: seq<bool>)
  {
    && |start| == |items|
    && Fresh(start, done) && now == Mark(start, done)
    && AllValues(items, start, flag).marked == done + AllValues(items, now, flag).marked
    && AllValues(items, start, flag).answer == After(values, AllValues(items, now, flag).answer)
  }

  /** One round, and then the rest. */
  lemma FirstRound(items: seq<string>, now: seq<bool>, flag: string) returns (value: string)
    requires |now| == |items| && NextValue(items, now, flag, true).marked != []
    ensures var next := NextValue(items, now, flag, true);
            && Fresh(now, next.marked) && next.answer == One(Some(value))
            && |Unused(Mark(now, next.marked))| < |Unused(now)|
            && var rest := AllValues(items, Mark(now, next.marked), flag);
               AllValues(items, now, flag).marked == next.marked + rest.marked
               && AllValues(items, now, flag).answer == After([value], rest.answer)
  {
    var next := NextValue(items, now, flag, true);
    NextIsFresh(items, now, flag, true);
    MarkingShrinks(now, next.marked);
    value := items[next.marked[1]];
  }

  lemma AfterAssociates(a: seq<string>, b: seq<string>, rest: Answer)
    ensures After(a, After(b, rest)) == After(a + b, rest)
  {
    if rest.Many? { assert a + (b + rest.texts) == (a + b) + rest.texts; }
  }

  lemma TakeAllRound(items: seq<string>, start: seq<bool>, done: seq<nat>, values: seq<string>, flag: string,
                     now: seq<bool>)
    requires TakingAll(items, start, done, values, flag, now)
    requires NextValue(items, now, flag, true).marked != []
    ensures var next := NextValue(items, now, flag, true);
            && Fresh(now, next.marked) && next.answer.One? && next.answer.text.Some?
            && TakingAll(items, start, done + next.marked, values + [next.answer.text.value], flag,
                         Mark(now, next.marked))
            && |Unused(Mark(now, next.marked))| < |Unused(now)|
  {
    var marked := NextValue(items, now, flag, true).marked;
    var value := FirstRound(items, now, flag);
    FreshJoins(start, done, marked);
    var rest := AllValues(items, Mark(now, marked), flag);
    MarksAssociate(done, marked, rest.marked);
    AfterAssociates(values, [value], rest.answer);
  }

  lemma MarksAssociate(a: seq<nat>, b: seq<nat>, c: seq<nat>)
    ensures a + (b + c) == (a + b) + c
  {
  }

  lemma NothingTakenYet(items: seq<string>, start: seq<bool>, flag: string)
    requires |start| == |items|
    ensures TakingAll(items, start, [], [], flag, start)
  {
    assert Mark(start, []) == start;
    var all := AllValues(items, start, flag);
    assert [] + all.marked == all.marked;
    if all.answer.Many? { assert [] + all.answer.texts == all.answer.texts; }
  }

  lemma AllTaken(items: seq<string>, start: seq<bool>, done: seq<nat>, values: seq<string>, flag: string,
                 now: seq<bool>)
    requires TakingAll(items, start, done, values, flag, now)
    requires NextValue(items, now, flag, true).marked == []
    ensures AllValues(items, start, flag).marked == done
    ensures AllValues(items, start, flag).answer
         == if NextValue(items, now, flag, true).answer == NeedsValue then NeedsValue else Many(values)
  {
  }

  class Tokens {
    const items: seq<string>
    const used: array<bool>

    ghost predicate Valid()
      reads this
    {
      used.Length == |items|
    }

    constructor (items: seq<string>)
      ensures Valid() && this.items == items && fresh(used) && used[..] == Unmarked(|items|)
    {
      this.items := items;
      this.used := new bool[|items|](_ => false);
    }

    method FindHits(flag: string) returns (hits: seq<nat>)
      requires Valid()
      ensures hits == Hits(items, used[..], flag)
    {
      hits := [];
      var i := 0;
      while i < |items|
        invariant 0 <= i <= |items|
        invariant hits == Hits(items[..i], used[..i], flag)
      {
        assert items[..i + 1][..i] == items[..i] && used[..i + 1][..i] == used[..i];
        if !used[i] && items[i] == flag { hits := hits + [i]; }
        i := i + 1;
      }
      assert items[..i] == items && used[..i] == used[..];
    }

    method TakeBool(flag: string) returns (r: Answer)
      requires Valid()
      modifies used
      ensures r == Call(items, old(used[..]), Op.TakeBool(flag)).answer
      ensures Marks(old(used[..]), used[..], Call(items, old(used[..]), Op.TakeBool(flag)).marked)
    {
      var hits := FindHits(flag);
      if hits == [] { return Present(false); }
      if |hits| == 1 {
        assert hits[0] in hits;
        used[hits[0]] := true;
        return Present(true);
      }
      return SaidTwice;
    }

    method TakeNext(flag: string, raw: bool) returns (r: Answer)
      requires Valid()
      modifies used
      ensures r == NextValue(items, old(used[..]), flag, raw).answer
      ensures Marks(old(used[..]), used[..], NextValue(items, old(used[..]), flag, raw).marked)
    {
      var hits := FindHits(flag);
      if hits == [] { return One(None); }
      assert hits[0] in hits;
      r := TakeBehind(hits[0], raw);
    }

    /** The value behind a flag, and both marks, when there is one. */
    method TakeBehind(index: nat, raw: bool) returns (r: Answer)
      requires Valid() && index < |items|
      modifies used
      ensures r == ValueAt(items, old(used[..]), index, raw).answer
      ensures Marks(old(used[..]), used[..], ValueAt(items, old(used[..]), index, raw).marked)
    {
      var value := index + 1;
      if value >= |items| || used[value] { return NeedsValue; }
      if !raw && Dashed(items[value]) { return NeedsValue; }
      used[index] := true;
      used[value] := true;
      return One(Some(items[value]));
    }

    method TakeValue(flag: string) returns (r: Answer)
      requires Valid()
      modifies used
      ensures r == Call(items, old(used[..]), Op.TakeValue(flag)).answer
      ensures Marks(old(used[..]), used[..], Call(items, old(used[..]), Op.TakeValue(flag)).marked)
    {
      var hits := FindHits(flag);
      if hits == [] { return One(None); }
      if |hits| > 1 { return SaidTwice; }
      assert hits[0] in hits;
      r := TakeBehind(hits[0], false);
    }

    /** Every round marks two tokens more, so the rounds end. */
    method TakeAll(flag: string) returns (r: Answer)
      requires Valid()
      modifies used
      ensures r == AllValues(items, old(used[..]), flag).answer
      ensures Marks(old(used[..]), used[..], AllValues(items, old(used[..]), flag).marked)
    {
      ghost var start, done := used[..], [];
      var values := [];
      AllValuesFresh(items, start, flag);
      NothingTakenYet(items, start, flag);
      while true
        invariant TakingAll(items, start, done, values, flag, used[..])
        decreases |Unused(used[..])|
      {
        ghost var before := used[..];
        NextIsFresh(items, before, flag, true);
        var next := TakeNext(flag, true);
        if next == NeedsValue || next == One(None) {
          AllTaken(items, start, done, values, flag, before);
          return if next == NeedsValue then NeedsValue else Many(values);
        }
        ghost var marked := NextValue(items, before, flag, true).marked;
        TakeAllRound(items, start, done, values, flag, before);
        assert used[..] == Mark(before, marked);
        done := done + marked;
        values := values + [next.text.value];
      }
    }

    method TakePositional() returns (r: Answer)
      requires Valid()
      modifies used
      ensures r == Call(items, old(used[..]), Op.TakePositional).answer
      ensures Marks(old(used[..]), used[..], Call(items, old(used[..]), Op.TakePositional).marked)
    {
      var i := 0;
      while i < |items|
        invariant 0 <= i <= |items| && used[..] == old(used[..])
        invariant forall k :: 0 <= k < i ==> used[k] || Dashed(items[k])
      {
        if !used[i] && !Dashed(items[i]) {
          used[i] := true;
          return One(Some(items[i]));
        }
        i := i + 1;
      }
      return One(None);
    }

    method FindLeftovers() returns (problems: seq<Problem>)
      requires Valid()
      ensures problems == Leftovers(items, used[..], 0)
    {
      problems := [];
      var index := 0;
      while index < |items|
        invariant problems + Leftovers(items, used[..], index) == Leftovers(items, used[..], 0)
        decreases |items| - index
      {
        if used[index] {
          index := index + 1;
          continue;
        }
        ghost var p := ProblemAt(items, used[..], index);
        ghost var was, later := problems, Leftovers(items, used[..], index + p.size);
        assert was + ([p] + later) == (was + [p]) + later;
        if !Dashed(items[index]) {
          problems := problems + [Problem(Unexpected, index, 1)];
          index := index + 1;
          continue;
        }
        var kind := if GlobalFlag(items[index]) then MisplacedGlobal else Unknown;
        var value := index + 1;
        var size := if value < |items| && !used[value] && !Dashed(items[value]) then 2 else 1;
        problems := problems + [Problem(kind, index, size)];
        index := index + size;
      }
    }
  }
}
