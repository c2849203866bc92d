/** What sanitizing does to a text, character by character, and which name is derived. The laws
    reduce any text to one that is only cut to the limit. */
module NameFacts {
  import opened Names
  import opened Wrappers

  predicate SmallLetter(c: char) {
    'a' <= c <= 'z'
  }

  predicate Letter(c: char) {
    'a' <= c <= 'z' || 'A' <= c <= 'Z'
  }

  /** What a name is made of. */
  predicate Stays(c: char) {
    'a' <= c <= 'z' || '0' <= c <= '9' || c == '-' || c == '_'
  }

  // ---- One character ----

  lemma {:induction false} SamePrefixSameMap(a: string, b: string, end: string)
    requires MapAll(a) == MapAll(b)
    ensures MapAll(a + end) == MapAll(b + end)
  {
    if end == "" {
      assert a + end == a && b + end == b;
    } else {
      var n := |end| - 1;
      SamePrefixSameMap(a, b, end[..n]);
      assert (a + end)[..|a + end| - 1] == a + end[..n];
      assert (b + end)[..|b + end| - 1] == b + end[..n];
    }
  }

  lemma MapAllSnoc(s: string, c: char)
    ensures MapAll(s + [c]) == Added(MapAll(s), c)
  {
    assert (s + [c])[..|s|] == s;
  }

  lemma LetterAt(k: nat)
    requires k < 26
    ensures "abcdefghijklmnopqrstuvwxyz"[k] as int == 'a' as int + k
  {
  }

  lemma CapitalMaps(c: char, d: char)
    requires 'A' <= c <= 'Z' && 'a' <= d <= 'z' && d as int - 'a' as int == c as int - 'A' as int
    ensures Mapped(c) == Some(d) == Mapped(d)
  {
    LetterAt(c as int - 'A' as int);
  }

  /** A capital counts as the small letter at its place in the alphabet. */
  lemma CapitalsAreLowered(before: string, c: char, d: char, after: string)
    requires 'A' <= c <= 'Z' && 'a' <= d <= 'z' && d as int - 'a' as int == c as int - 'A' as int
    ensures Sanitize(before + [c] + after) == Sanitize(before + [d] + after)
  {
    CapitalMaps(c, d);
    MapAllSnoc(before, c);
    MapAllSnoc(before, d);
    SamePrefixSameMap(before + [c], before + [d], after);
  }

  predicate Separator(c: char) {
    c in {' ', '\t', '\n', '\r', '\U{0C}', '.', ':', '/'}
  }

  /** White space, dots, colons and slashes count as dashes. */
  lemma SeparatorsAreDashes(before: string, c: char, after: string)
    requires Separator(c)
    ensures Sanitize(before + [c] + after) == Sanitize(before + ['-'] + after)
  {
    MapAllSnoc(before, c);
    MapAllSnoc(before, '-');
    SamePrefixSameMap(before + [c], before + ['-'], after);
  }

  /** Any other character that is neither a letter, a digit, a dash nor an underscore is left out. */
  lemma OthersAreLeftOut(before: string, c: char, after: string)
    requires !Stays(c) && !Letter(c) && !Separator(c)
    ensures Sanitize(before + [c] + after) == Sanitize(before + after)
  {
    MapAllSnoc(before, c);
    SamePrefixSameMap(before + [c], before, after);
  }

  /** Two dashes in a row count as one. */
  lemma DashesMerge(before: string, after: string)
    ensures Sanitize(before + ['-'] + ['-'] + after) == Sanitize(before + ['-'] + after)
  {
    MapAllSnoc(before, '-');
    MapAllSnoc(before + ['-'], '-');
    SamePrefixSameMap(before + ['-'] + ['-'], before + ['-'], after);
  }

  // ---- The ends ----

  /** `long` is `short`, perhaps behind one more character that is no letter. */
  predicate Behind(long: string, short: string) {
    long == short || (long != "" && !Lower(long[0]) && long[1..] == short)
  }

  lemma AddedBehind(long: string, short: string, c: char)
    requires Behind(long, short)
    ensures Behind(Added(long, c), Added(short, c))
  {
    if long != short && short != "" {
      assert long[|long| - 1] == short[|short| - 1];
      var m := Mapped(c);
      if m.Some? { assert (long + [m.value])[1..] == long[1..] + [m.value]; }
    }
  }

  lemma {:induction false} MapBehind(c: char, rest: string)
    requires !Lower(c) && !Upper(c)
    ensures Behind(MapAll([c] + rest), MapAll(rest))
  {
    if rest == "" {
      assert [c] + rest == "" + [c];
      MapAllSnoc("", c);
    } else {
      var n := |rest| - 1;
      MapBehind(c, rest[..n]);
      AddedBehind(MapAll([c] + rest[..n]), MapAll(rest[..n]), rest[n]);
      assert ([c] + rest)[..|rest|] == [c] + rest[..n];
    }
  }

  /** What stands before the first letter is left out. */
  lemma StartsAtALetter(c: char, rest: string)
    requires !Letter(c)
    ensures Sanitize([c] + rest) == Sanitize(rest)
  {
    MapBehind(c, rest);
  }

  lemma TrimDrops(s: string, c: char)
    requires Trailing(c)
    ensures TrimEnd(s + [c]) == TrimEnd(s)
  {
    assert (s + [c])[..|s|] == s;
  }

  lemma FirstLetterAppends(s: string, c: char)
    requires !Lower(c)
    ensures FromFirstLetter(s + [c]) == if HasLower(s) then FromFirstLetter(s) + [c] else ""
  {
    if s == "" {
      assert [c][1..] == "";
      assert s + [c] == [c];
    } else if !Lower(s[0]) {
      assert (s + [c])[1..] == s[1..] + [c];
      FirstLetterAppends(s[1..], c);
      HasLowerTail(s);
    }
  }

  lemma HasLowerTail(s: string)
    requires s != "" && !Lower(s[0])
    ensures HasLower(s) <==> HasLower(s[1..])
  {
    if HasLower(s) {
      var i :| 0 <= i < |s| && Lower(s[i]);
      assert s[1..][i - 1] == s[i];
    }
    if HasLower(s[1..]) {
      var i :| 0 <= i < |s[1..]| && Lower(s[1..][i]);
      assert s[i + 1] == s[1..][i];
    }
  }

  lemma AddedEnds(out: string, c: char)
    requires Trailing(c)
    ensures TrimEnd(FromFirstLetter(Added(out, c))) == TrimEnd(FromFirstLetter(out))
  {
    if Added(out, c) != out { LongerEnds(out, c); }
  }

  lemma LongerEnds(out: string, c: char)
    requires Trailing(c)
    ensures TrimEnd(FromFirstLetter(out + [c])) == TrimEnd(FromFirstLetter(out))
  {
    FirstLetterAppends(out, c);
    if HasLower(out) { TrimDrops(FromFirstLetter(out), c); }
  }

  /** Dashes and underscores at the end are left out. */
  lemma EndsAtALetterOrDigit(raw: string, c: char)
    requires c == '-' || c == '_'
    ensures Sanitize(raw + [c]) == Sanitize(raw)
  {
    MapAllSnoc(raw, c);
    AddedEnds(MapAll(raw), c);
  }

  /** A text of legal characters from a small letter to a letter or digit, without a double dash, is
      only cut: its first 32 characters are the name. */
  lemma CleanTextIsOnlyCut(s: string)
    requires s != "" && SmallLetter(s[0]) && s[|s| - 1] != '-' && s[|s| - 1] != '_'
    requires forall i :: 0 <= i < |s| ==> Stays(s[i])
    requires forall i :: 0 < i < |s| ==> !(s[i - 1] == '-' && s[i] == '-')
    ensures Sanitize(s) == Some(if |s| > 32 then s[..32] else s)
  {
    LegalSanitizes(s);
  }

  // ---- Fitting a suffix ----

  /** `len` characters of the base are kept: all that fit, up to the last letter or digit. */
  predicate Keeps(base: string, suffix: string, len: nat) {
    && 0 < len <= |base| && len + 1 + |suffix| <= 32 && !Trailing(base[len - 1])
    && forall k :: len <= k < |base| && k + 2 + |suffix| <= 32 ==> Trailing(base[k])
  }

  lemma {:induction false} TrimEndsAt(s: string)
    ensures forall k :: |TrimEnd(s)| <= k < |s| ==> Trailing(s[k])
  {
    if s != "" && Trailing(s[|s| - 1]) {
      TrimEndsAt(s[..|s| - 1]);
      assert forall k :: 0 <= k < |s| - 1 ==> s[k] == s[..|s| - 1][k];
    }
  }

  /** A suffix of at most 30 characters is kept whole behind a dash, with as much of the base before
      it as fits; the base is shortened from its end only. */
  lemma FitKeepsTheSuffix(base: string, suffix: string)
    requires ValidName(base) && NoDoubleDash(base) && ValidName(suffix) && NoDoubleDash(suffix) && |suffix| <= 30
    ensures exists len: nat :: Keeps(base, suffix, len) && FitSuffixed(base, suffix) == Some(base[..len] + "-" + suffix)
  {
    var keep := NAME_MAX - (|suffix| + 1);
    var start := if |base| > keep then base[..keep] else base;
    StemOfBase(base, keep);
    TrimEndsAt(start);
    FitNeverFails(base, suffix);
    var len := |TrimEnd(start)|;
    assert Keeps(base, suffix, len);
  }

  /** A longer suffix stands alone; it is kept whole unless it ends in a dash or an underscore. */
  lemma FitGivesWayToTheSuffix(base: string, suffix: string)
    requires ValidName(suffix) && NoDoubleDash(suffix) && |suffix| > 30
    ensures FitSuffixed(base, suffix) == Some(suffix) <==> !Trailing(suffix[|suffix| - 1])
  {
    SanitizeFixes(suffix);
  }

  // ---- The live name ----

  lemma ColonsStep(c: char, rest: string)
    ensures WithoutColons([c] + rest) == (if c == ':' then "" else [c]) + WithoutColons(rest)
  {
    assert ([c] + rest)[1..] == rest;
  }

  lemma {:induction false} ColonsAppend(before: string, after: string)
    ensures WithoutColons(before + after) == WithoutColons(before) + WithoutColons(after)
  {
    if before == "" {
      assert before + after == after;
    } else {
      var c, rest := before[0], before[1..];
      ColonsAppend(rest, after);
      ColonsStep(c, rest + after);
      ColonsStep(c, rest);
      assert before + after == [c] + (rest + after) && before == [c] + rest;
      Regrouped(if c == ':' then "" else [c], WithoutColons(rest), WithoutColons(after));
    }
  }

  lemma Regrouped(a: string, b: string, c: string)
    ensures a + (b + c) == (a + b) + c
  {
  }

  /** A pane's name is used without its colons. */
  lemma ColonsAreLeftOut(before: string, after: string)
    ensures WithoutColons(before + ([':'] + after)) == WithoutColons(before) + WithoutColons(after)
  {
    ColonsAppend(before, [':'] + after);
    ColonsStep(':', after);
    assert "" + WithoutColons(after) == WithoutColons(after);
  }

  lemma {:induction false} NothingElseIsLeftOut(s: string)
    requires ':' !in s
    ensures WithoutColons(s) == s
  {
    if s != "" { NothingElseIsLeftOut(s[1..]); }
  }

  /** The name made from the directory, or from the pane when the directory has no letter, is taken
      if it is free; otherwise the pane's is put behind it, if that is free. */
  lemma LiveNameIs(fileName: Option<string>, paneId: string, taken: set<string>)
    requires DirectoryHasLetter(fileName) || HasLetter(paneId)
    ensures var own := Sanitize(WithoutColons(paneId));
            var base := if DirectoryHasLetter(fileName) then Sanitize(fileName.value) else own;
            && base.Some?
            && (base.value !in taken ==> AlignedLiveName(fileName, paneId, taken) == Name(base.value))
            && (base.value in taken && own.Some? ==>
                  var both := FitSuffixed(base.value, own.value);
                  both.Some?
                  && AlignedLiveName(fileName, paneId, taken)
                     == if both.value in taken then Failed(AlreadyUsed(both.value)) else Name(both.value))
  {
    BaseExactly(fileName, paneId);
    ColonsAreNoLetters(paneId);
    SanitizeExactly(WithoutColons(paneId));
    if fileName.Some? { SanitizeExactly(fileName.value); }
    var base := Base(fileName, paneId).value;
    if Sanitize(WithoutColons(paneId)).Some? { FitNeverFails(base, Sanitize(WithoutColons(paneId)).value); }
  }
}
