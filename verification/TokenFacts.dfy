/** What each call on the command line answers, and what the leftovers are reported as, in terms of
    the tokens themselves. */
module TokenFacts {
  import opened Tokens
  import opened Wrappers

  /** An unused place of the flag. */
  predicate Place(items: seq<string>, used: seq<bool>, flag: string, i: nat) {
    i < |items| && i < |used| && !used[i] && items[i] == flag
  }

  ghost predicate OnlyPlace(items: seq<string>, used: seq<bool>, flag: string, i: nat) {
    Place(items, used, flag, i) && forall j: nat :: Place(items, used, flag, j) ==> j == i
  }

  ghost predicate FirstPlace(items: seq<string>, used: seq<bool>, flag: string, i: nat) {
    Place(items, used, flag, i) && forall j: nat :: Place(items, used, flag, j) ==> i <= j
  }

  ghost predicate NoPlace(items: seq<string>, used: seq<bool>, flag: string) {
    forall i: nat :: !Place(items, used, flag, i)
  }

  ghost predicate TwoPlaces(items: seq<string>, used: seq<bool>, flag: string) {
    exists i: nat, j: nat :: i < j && Place(items, used, flag, i) && Place(items, used, flag, j)
  }

  /** The token behind place `i` may be taken as a value. */
  predicate HasValue(items: seq<string>, used: seq<bool>, i: nat, raw: bool) {
    i + 1 < |items| && i + 1 < |used| && !used[i + 1] && (raw || !Dashed(items[i + 1]))
  }

  predicate Increasing(places: seq<nat>) {
    forall i, j :: 0 <= i < j < |places| ==> places[i] < places[j]
  }

  lemma {:induction false} HitsRise(items: seq<string>, used: seq<bool>, flag: string)
    requires |used| == |items|
    ensures Increasing(Hits(items, used, flag))
    decreases |items|
  {
    if items != [] {
      var n := |items| - 1;
      var before := Hits(items[..n], used[..n], flag);
      HitsRise(items[..n], used[..n], flag);
      assert forall k :: 0 <= k < |before| ==> before[k] in before;
      assert Increasing(before + []) && Increasing(before + [n]);
    }
  }

  /** Hits are the flag's unused places; this is how many there are. */
  lemma HitsCount(items: seq<string>, used: seq<bool>, flag: string)
    requires |used| == |items|
    ensures var hits := Hits(items, used, flag);
            && (hits == [] <==> NoPlace(items, used, flag))
            && (|hits| == 1 ==> OnlyPlace(items, used, flag, hits[0]))
            && (|hits| > 1 <==> TwoPlaces(items, used, flag))
            && (hits != [] ==> FirstPlace(items, used, flag, hits[0]))
  {
    var hits := Hits(items, used, flag);
    HitsRise(items, used, flag);
    assert forall i: nat :: i in hits <==> Place(items, used, flag, i);
    assert hits != [] ==> hits[0] in hits;
    if |hits| > 1 { assert hits[1] in hits && hits[0] < hits[1]; }
    forall j: nat | Place(items, used, flag, j)
      ensures hits != [] && hits[0] <= j
    {
      var k :| 0 <= k < |hits| && hits[k] == j;
    }
  }

  /** A switch: absent, given once and then consumed, or given twice. */
  lemma SwitchAnswers(items: seq<string>, used: seq<bool>, flag: string)
    requires |used| == |items|
    ensures var t := Call(items, used, TakeBool(flag));
            && (t == Take([], Present(false)) <==> NoPlace(items, used, flag))
            && (t == Take([], SaidTwice) <==> TwoPlaces(items, used, flag))
            && (forall i: nat :: t == Take([i], Present(true)) <==> OnlyPlace(items, used, flag, i))
  {
    HitsCount(items, used, flag);
    var hits := Hits(items, used, flag);
    if |hits| == 1 { assert hits == [hits[0]]; }
    if |hits| > 1 { assert hits[0] in hits && hits[1] in hits; HitsRise(items, used, flag); }
  }

  /** A flag with one value: absent, given twice, without a value, or consumed with the token behind
      it, which is its value. */
  lemma ValueAnswers(items: seq<string>, used: seq<bool>, flag: string)
    requires |used| == |items|
    ensures var t := Call(items, used, TakeValue(flag));
            && (t == Take([], One(None)) <==> NoPlace(items, used, flag))
            && (t == Take([], SaidTwice) <==> TwoPlaces(items, used, flag))
            && (forall i: nat :: OnlyPlace(items, used, flag, i) ==>
                  t == if HasValue(items, used, i, false) then Take([i, i + 1], One(Some(items[i + 1])))
                       else Take([], NeedsValue))
  {
    HitsCount(items, used, flag);
    var hits := Hits(items, used, flag);
    if |hits| > 1 { assert hits[0] in hits && hits[1] in hits; HitsRise(items, used, flag); }
  }

  /** The next value of a repeatable flag is behind its first unused place; a raw one may begin with
      a dash. */
  lemma NextAnswers(items: seq<string>, used: seq<bool>, flag: string, raw: bool)
    requires |used| == |items|
    ensures var t := Call(items, used, TakeNext(flag, raw));
            && (t == Take([], One(None)) <==> NoPlace(items, used, flag))
            && (forall i: nat :: FirstPlace(items, used, flag, i) ==>
                  t == if HasValue(items, used, i, raw) then Take([i, i + 1], One(Some(items[i + 1])))
                       else Take([], NeedsValue))
  {
    HitsCount(items, used, flag);
  }

  predicate Positional(items: seq<string>, used: seq<bool>, i: nat) {
    i < |items| && i < |used| && !used[i] && (items[i] == "" || items[i][0] != '-')
  }

  ghost predicate FirstPositional(items: seq<string>, used: seq<bool>, i: nat) {
    Positional(items, used, i) && forall j: nat :: j < i ==> !Positional(items, used, j)
  }

  /** A positional is the first unused token that does not begin with a dash. */
  lemma PositionalAnswers(items: seq<string>, used: seq<bool>)
    requires |used| == |items|
    ensures var t := Call(items, used, TakePositional);
            && (t == Take([], One(None)) <==> forall i: nat :: !Positional(items, used, i))
            && (forall i: nat :: FirstPositional(items, used, i) ==> t == Take([i], One(Some(items[i]))))
  {
    var free := FirstFree(items, used);
    if free.Some? { assert Positional(items, used, free.value); }
  }

  /** All values of a repeatable flag: consumed in the order in which they stand, with the error for a
      missing one only after those before it. */
  lemma AllStartsAtTheFirst(items: seq<string>, used: seq<bool>, flag: string, i: nat)
    requires |used| == |items| && FirstPlace(items, used, flag, i)
    ensures var t := Call(items, used, TakeAll(flag));
            if HasValue(items, used, i, true) then |t.marked| >= 2 && t.marked[0] == i && t.marked[1] == i + 1
            else t == Take([], NeedsValue)
  {
    NextAnswers(items, used, flag, true);
    NextIsFresh(items, used, flag, true);
  }

  // ---- Leftovers ----

  /** What is said of the unused token at `p.at`: a bare word is unexpected, a global flag is
      misplaced, any other flag is unknown, and a flag is said together with the unused bare word
      behind it. */
  predicate SaidOf(items: seq<string>, used: seq<bool>, p: Problem)
    requires |used| == |items|
  {
    && p.at < |items| && !used[p.at]
    && (p.kind == Unexpected <==> items[p.at] == "" || items[p.at][0] != '-')
    && (p.kind == MisplacedGlobal <==> items[p.at] == "--socket" || items[p.at] == "--json")
    && (p.size == 2 <==> p.kind != Unexpected && Positional(items, used, p.at + 1))
    && (p.size == 1 || p.size == 2)
  }

  lemma ProblemIsSaid(items: seq<string>, used: seq<bool>, index: nat)
    requires |used| == |items| && index < |items| && !used[index]
    ensures SaidOf(items, used, ProblemAt(items, used, index))
  {
  }

  /** Every leftover is reported as what it is. */
  lemma {:induction false} LeftoversAreSaid(items: seq<string>, used: seq<bool>, index: nat)
    requires |used| == |items|
    ensures forall p :: p in Leftovers(items, used, index) ==> SaidOf(items, used, p)
    decreases |items| - index
  {
    if index < |items| {
      if used[index] {
        LeftoversAreSaid(items, used, index + 1);
      } else {
        ProblemIsSaid(items, used, index);
        LeftoversAreSaid(items, used, index + ProblemAt(items, used, index).size);
      }
    }
  }
}
