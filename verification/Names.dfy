/** Deriving a public name that the multiplexer accepts. */
module Names {
  import opened Wrappers

  const NAME_MAX := 32

  predicate Lower(c: char) { 'a' <= c <= 'z' }

  predicate Upper(c: char) { 'A' <= c <= 'Z' }

  predicate Legal(c: char) {
    Lower(c) || '0' <= c <= '9' || c == '-' || c == '_'
  }

  predicate ValidName(name: string) {
    && name != "" && Lower(name[0])
    && |name| <= NAME_MAX
    && forall i :: 0 < i < |name| ==> Legal(name[i])
  }

  predicate NoDoubleDash(s: string) {
    forall i :: 0 < i < |s| ==> !(s[i - 1] == '-' && s[i] == '-')
  }

  predicate HasLetter(s: string) {
    exists i :: 0 <= i < |s| && (Lower(s[i]) || Upper(s[i]))
  }

  // ---- Sanitizing ----

  function Lowered(c: char): char
    requires Upper(c)
  {
    "abcdefghijklmnopqrstuvwxyz"[c as int - 'A' as int]
  }

  function Mapped(c: char): (m: Option<char>)
    ensures m.Some? ==> Legal(m.value)
    ensures (m.Some? && Lower(m.value)) <==> (Lower(c) || Upper(c))
    ensures Legal(c) ==> m == Some(c)
  {
    if Upper(c) then
      Some(Lowered(c))
    else if Legal(c) then Some(c)
    else if c in {' ', '\t', '\n', '\r', '\U{0C}', '.', ':', '/'} then Some('-')
    else None
  }

  function Added(out: string, c: char): string {
    match Mapped(c)
    case None => out
    case Some(next) => if next == '-' && out != "" && out[|out| - 1] == '-' then out else out + [next]
  }

  function MapAll(raw: string): string {
    if raw == "" then "" else Added(MapAll(raw[..|raw| - 1]), raw[|raw| - 1])
  }

  function FromFirstLetter(s: string): (r: string)
    ensures |r| <= |s| && r == s[|s| - |r|..]
    ensures r != "" ==> Lower(r[0])
    ensures r == "" <==> forall i :: 0 <= i < |s| ==> !Lower(s[i])
  {
    if s == "" || Lower(s[0]) then s else FromFirstLetter(s[1..])
  }

  predicate Trailing(c: char) { c == '-' || c == '_' }

  function TrimEnd(s: string): (r: string)
    ensures r <= s
    ensures r != "" ==> !Trailing(r[|r| - 1])
    ensures s != "" && !Trailing(s[0]) ==> r != ""
    ensures s != "" && !Trailing(s[|s| - 1]) ==> r == s
  {
    if s != "" && Trailing(s[|s| - 1]) then TrimEnd(s[..|s| - 1]) else s
  }

  function Truncated(s: string): string {
    if |s| > NAME_MAX then s[..NAME_MAX] else s
  }

  /** The text before it is cut to the limit. */
  function Cleaned(raw: string): string {
    TrimEnd(FromFirstLetter(MapAll(raw)))
  }

  function Cut(out: string): Option<string> {
    if out == "" then None
    else if ValidName(Truncated(out)) then Some(Truncated(out))
    else None
  }

  function Sanitize(raw: string): Option<string> {
    Cut(Cleaned(raw))
  }

  method SanitizeName(raw: string) returns (r: Option<string>)
    ensures r == Sanitize(raw)
  {
    var out := "";
    var i := 0;
    while i < |raw|
      invariant 0 <= i <= |raw|
      invariant out == MapAll(raw[..i])
    {
      assert raw[..i + 1][..i] == raw[..i];
      var mapped := Mapped(raw[i]);
      if mapped.Some? && !(mapped.value == '-' && out != "" && out[|out| - 1] == '-') {
        out := out + [mapped.value];
      }
      i := i + 1;
    }
    assert raw[..i] == raw;
    while out != "" && !Lower(out[0])
      invariant FromFirstLetter(out) == FromFirstLetter(MapAll(raw))
      decreases |out|
    {
      out := out[1..];
    }
    while out != "" && Trailing(out[|out| - 1])
      invariant TrimEnd(out) == Cleaned(raw)
      decreases |out|
    {
      out := out[..|out| - 1];
    }
    assert out == Cleaned(raw);
    if out == "" { return None; }
    out := Truncated(out);
    return if ValidName(out) then Some(out) else None;
  }

  lemma {:induction false} MapAllIsLegal(raw: string)
    ensures AllLegal(MapAll(raw))
    ensures NoDoubleDash(MapAll(raw))
  {
    if raw != "" { MapAllIsLegal(raw[..|raw| - 1]); }
  }

  predicate HasLower(s: string) {
    exists i :: 0 <= i < |s| && Lower(s[i])
  }

  lemma HasLowerAppends(s: string, c: char)
    ensures HasLower(s + [c]) <==> HasLower(s) || Lower(c)
  {
    if HasLower(s) {
      var i :| 0 <= i < |s| && Lower(s[i]);
      assert (s + [c])[i] == s[i];
    }
    if Lower(c) { assert (s + [c])[|s|] == c; }
  }

  lemma HasLetterAppends(s: string)
    requires s != ""
    ensures var c := s[|s| - 1]; HasLetter(s) <==> HasLetter(s[..|s| - 1]) || Lower(c) || Upper(c)
  {
    var before := s[..|s| - 1];
    if HasLetter(before) {
      var i :| 0 <= i < |before| && (Lower(before[i]) || Upper(before[i]));
      assert s[i] == before[i];
    }
  }

  lemma {:induction false} MapAllKeepsLetters(raw: string)
    ensures HasLower(MapAll(raw)) <==> HasLetter(raw)
  {
    if raw != "" {
      var c := raw[|raw| - 1];
      MapAllKeepsLetters(raw[..|raw| - 1]);
      HasLetterAppends(raw);
      if Mapped(c).Some? { HasLowerAppends(MapAll(raw[..|raw| - 1]), Mapped(c).value); }
    }
  }

  /** Sanitizing succeeds exactly when there is an ASCII letter to start from,
      and gives a valid name without a double dash. */
  lemma SanitizeExactly(raw: string)
    ensures Sanitize(raw).Some? <==> HasLetter(raw)
    ensures Sanitize(raw).Some? ==> ValidName(Sanitize(raw).value) && NoDoubleDash(Sanitize(raw).value)
  {
    MapAllIsLegal(raw);
    MapAllKeepsLetters(raw);
    TrimmedIsValid(MapAll(raw));
  }

  predicate AllLegal(s: string) {
    forall i :: 0 <= i < |s| ==> Legal(s[i])
  }

  lemma SuffixIsLegal(s: string, from: nat)
    requires from <= |s| && NoDoubleDash(s) && AllLegal(s)
    ensures NoDoubleDash(s[from..]) && AllLegal(s[from..])
  {
    assert forall i :: 0 <= i < |s| - from ==> s[from..][i] == s[from + i];
  }

  lemma PrefixIsLegal(s: string, len: nat)
    requires len <= |s| && NoDoubleDash(s) && AllLegal(s)
    ensures NoDoubleDash(s[..len]) && AllLegal(s[..len])
  {
  }

  lemma LegalIsValid(s: string)
    requires s != "" && Lower(s[0]) && NoDoubleDash(s) && AllLegal(s)
    ensures ValidName(Truncated(s)) && NoDoubleDash(Truncated(s))
  {
    PrefixIsLegal(s, |Truncated(s)|);
  }

  /** A piece of a legal text that starts with a letter. */
  lemma PieceIsValid(mapped: string, body: string, out: string)
    requires NoDoubleDash(mapped) && AllLegal(mapped)
    requires |body| <= |mapped| && body == mapped[|mapped| - |body|..]
    requires out != "" && out <= body && Lower(out[0])
    ensures ValidName(Truncated(out)) && NoDoubleDash(Truncated(out))
  {
    SuffixIsLegal(mapped, |mapped| - |body|);
    PrefixIsLegal(body, |out|);
    assert body[..|out|] == out;
    LegalIsValid(out);
  }

  lemma TrimmedStarts(mapped: string)
    ensures var out := TrimEnd(FromFirstLetter(mapped));
            (out != "" <==> HasLower(mapped)) && (out != "" ==> Lower(out[0]))
  {
  }

  lemma TrimmedIsValid(mapped: string)
    requires NoDoubleDash(mapped) && AllLegal(mapped)
    ensures var out := TrimEnd(FromFirstLetter(mapped));
            && (out != "" <==> HasLower(mapped))
            && (out != "" ==> ValidName(Truncated(out)) && NoDoubleDash(Truncated(out)))
  {
    TrimmedStarts(mapped);
    var body := FromFirstLetter(mapped);
    if TrimEnd(body) != "" { PieceIsValid(mapped, body, TrimEnd(body)); }
  }

  // ---- Fixed points ----

  lemma {:induction false} LegalMapsToItself(s: string)
    requires NoDoubleDash(s) && AllLegal(s)
    ensures MapAll(s) == s
  {
    if s != "" {
      var before := s[..|s| - 1];
      PrefixIsLegal(s, |s| - 1);
      LegalMapsToItself(before);
      assert before + [s[|s| - 1]] == s;
      LegalIsAdded(before, s[|s| - 1]);
    }
  }

  lemma LegalIsAdded(before: string, c: char)
    requires Legal(c) && NoDoubleDash(before + [c])
    ensures Added(before, c) == before + [c]
  {
    if before != "" {
      assert (before + [c])[|before| - 1] == before[|before| - 1] && (before + [c])[|before|] == c;
    }
  }

  /** A name without a double dash is left alone unless it ends in a dash or an
      underscore. */
  lemma SanitizeFixes(name: string)
    requires ValidName(name) && NoDoubleDash(name)
    ensures Sanitize(name) == Some(name) <==> !Trailing(name[|name| - 1])
  {
    LegalMapsToItself(name);
    TrimFixes(name);
  }

  lemma TrimFixes(name: string)
    requires name != "" && Lower(name[0])
    ensures FromFirstLetter(name) == name
    ensures TrimEnd(name) == name <==> !Trailing(name[|name| - 1])
    ensures TrimEnd(name) <= name && TrimEnd(name) != ""
  {
  }

  /** Sanitizing a second time changes nothing exactly when the text needs no cut, or the cut does
      not fall behind a dash or an underscore. */
  lemma SanitizingTwice(raw: string)
    requires HasLetter(raw)
    ensures var out := Cleaned(raw);
            Sanitize(raw).Some?
            && (Sanitize(Sanitize(raw).value) == Sanitize(raw)
                <==> |out| <= NAME_MAX || !Trailing(out[NAME_MAX - 1]))
  {
    var name, out := SanitizedIsCut(raw);
    CutFixes(name, out);
  }

  lemma SanitizedIsCut(raw: string) returns (name: string, out: string)
    requires HasLetter(raw)
    ensures out == Cleaned(raw) && out != "" && !Trailing(out[|out| - 1])
    ensures Sanitize(raw) == Some(name) && name == Truncated(out) && ValidName(name) && NoDoubleDash(name)
  {
    name := SanitizedIsClean(raw);
    out := Cleaned(raw);
  }

  lemma CutFixes(name: string, out: string)
    requires out != "" && !Trailing(out[|out| - 1]) && name == Truncated(out) && ValidName(name) && NoDoubleDash(name)
    ensures Sanitize(name) == Some(name) <==> |out| <= NAME_MAX || !Trailing(out[NAME_MAX - 1])
  {
    SanitizeFixes(name);
  }

  lemma SanitizedIsClean(raw: string) returns (name: string)
    requires HasLetter(raw)
    ensures Sanitize(raw) == Some(name) && ValidName(name) && NoDoubleDash(name)
  {
    SanitizeExactly(raw);
    name := Sanitize(raw).value;
  }

  /** Thirty-one letters, a dash and one letter more. */
  function LongRaw(): (raw: string)
    ensures |raw| == 33 && raw[31] == '-' && raw[32] == 'b'
    ensures forall i :: 0 <= i < 31 ==> raw[i] == 'a'
  {
    seq(31, _ => 'a') + "-b"
  }

  /** It is cut to 32 characters behind the dash, so sanitizing it twice is not the
      same as sanitizing it once. */
  lemma SanitizingTwiceChanges()
    ensures Sanitize(LongRaw()) == Some(LongRaw()[..32])
    ensures Sanitize(LongRaw()[..32]) != Some(LongRaw()[..32])
  {
    var raw := LongRaw();
    LegalSanitizes(raw);
    LegalIsValid(raw);
    SanitizeFixes(raw[..32]);
  }

  /** A legal text from its letter to its letter or digit is only cut. */
  lemma LegalSanitizes(s: string)
    requires s != "" && Lower(s[0]) && NoDoubleDash(s) && AllLegal(s) && !Trailing(s[|s| - 1])
    ensures Sanitize(s) == Some(Truncated(s))
  {
    LegalMapsToItself(s);
    TrimFixes(s);
    LegalIsValid(s);
  }

  // ---- Fitting a suffix ----

  function FitSuffixed(base: string, suffix: string): Option<string> {
    var needed := |suffix| + 1;
    if needed >= NAME_MAX then Sanitize(suffix)
    else
      var keep := NAME_MAX - needed;
      if keep == 0 then None
      else
        var stem := TrimEnd(if |base| > keep then base[..keep] else base);
        if stem == "" then None
        else
          var name := stem + "-" + suffix;
          if ValidName(name) then Some(name) else None
  }

  method FitSuffixedName(base: string, suffix: string) returns (r: Option<string>)
    ensures r == FitSuffixed(base, suffix)
  {
    var needed := |suffix| + 1;
    if needed >= NAME_MAX {
      r := SanitizeName(suffix);
      return;
    }
    var keep := NAME_MAX - needed;
    if keep == 0 { return None; }
    var start := if |base| > keep then base[..keep] else base;
    var stem := start;
    while stem != "" && Trailing(stem[|stem| - 1])
      invariant TrimEnd(stem) == TrimEnd(start)
      decreases |stem|
    {
      stem := stem[..|stem| - 1];
    }
    if stem == "" { return None; }
    var name := stem + "-" + suffix;
    return if ValidName(name) then Some(name) else None;
  }

  lemma ValidHasLetter(name: string)
    requires ValidName(name)
    ensures HasLetter(name)
  {
    assert Lower(name[0]);
  }

  /** Two valid names always fit together. */
  lemma FitNeverFails(base: string, suffix: string)
    requires ValidName(base) && NoDoubleDash(base) && ValidName(suffix) && NoDoubleDash(suffix)
    ensures FitSuffixed(base, suffix).Some?
    ensures var name := FitSuffixed(base, suffix).value; ValidName(name) && NoDoubleDash(name)
  {
    var needed := |suffix| + 1;
    if needed >= NAME_MAX {
      ValidHasLetter(suffix);
      SanitizeExactly(suffix);
    } else {
      var keep := NAME_MAX - needed;
      var stem := TrimEnd(if |base| > keep then base[..keep] else base);
      StemOfBase(base, keep);
      JoinedIsValid(base, |stem|, suffix);
    }
  }

  lemma StemOfBase(base: string, keep: nat)
    requires ValidName(base) && keep > 0
    ensures var stem := TrimEnd(if |base| > keep then base[..keep] else base);
            stem != "" && |stem| <= |base| && |stem| <= keep && stem == base[..|stem|] && !Trailing(stem[|stem| - 1])
  {
  }

  lemma JoinedIsValid(base: string, len: nat, suffix: string)
    requires ValidName(base) && NoDoubleDash(base) && ValidName(suffix) && NoDoubleDash(suffix)
    requires 0 < len <= |base| && !Trailing(base[len - 1]) && len + 1 + |suffix| <= NAME_MAX
    ensures ValidName(base[..len] + "-" + suffix) && NoDoubleDash(base[..len] + "-" + suffix)
  {
    var name := base[..len] + "-" + suffix;
    assert forall i :: 0 <= i < len ==> name[i] == base[i];
    assert name[len] == '-';
    assert forall i :: len < i < |name| ==> name[i] == suffix[i - len - 1];
  }

  // ---- The live name ----

  datatype NameError = NothingLegal | NoSuffix | DoesNotFit | AlreadyUsed(name: string)

  datatype Derived = Name(name: string) | Failed(error: NameError)

  /** `pane_id.replace(':', "")`. */
  function WithoutColons(s: string): string {
    if s == "" then ""
    else if s[0] == ':' then WithoutColons(s[1..])
    else [s[0]] + WithoutColons(s[1..])
  }

  function Base(fileName: Option<string>, paneId: string): Option<string> {
    if fileName.Some? && Sanitize(fileName.value).Some? then Sanitize(fileName.value)
    else Sanitize(WithoutColons(paneId))
  }

  /** `fileName` is the last component of the working directory, if it has one. */
  function AlignedLiveName(fileName: Option<string>, paneId: string, taken: set<string>): Derived {
    match Base(fileName, paneId)
    case None => Failed(NothingLegal)
    case Some(base) =>
      if base !in taken then Name(base)
      else
        match Sanitize(WithoutColons(paneId))
        case None => Failed(NoSuffix)
        case Some(suffix) =>
          match FitSuffixed(base, suffix)
          case None => Failed(DoesNotFit)
          case Some(candidate) => if candidate in taken then Failed(AlreadyUsed(candidate)) else Name(candidate)
  }

  lemma {:induction false} ColonsAreNoLetters(s: string)
    ensures HasLetter(WithoutColons(s)) <==> HasLetter(s)
  {
    if s != "" {
      ColonsAreNoLetters(s[1..]);
      var rest := WithoutColons(s[1..]);
      HeadLetter(s);
      if s[0] != ':' { HeadLetter([s[0]] + rest); }
    }
  }

  lemma HeadLetter(s: string)
    requires s != ""
    ensures HasLetter(s) <==> Lower(s[0]) || Upper(s[0]) || HasLetter(s[1..])
  {
    if HasLetter(s[1..]) {
      var i :| 0 <= i < |s[1..]| && (Lower(s[1..][i]) || Upper(s[1..][i]));
      assert s[i + 1] == s[1..][i];
    }
    if HasLetter(s) {
      var i :| 0 <= i < |s| && (Lower(s[i]) || Upper(s[i]));
      assert i > 0 ==> s[1..][i - 1] == s[i];
    }
  }

  predicate DirectoryHasLetter(fileName: Option<string>) {
    fileName.Some? && HasLetter(fileName.value)
  }

  lemma BaseExactly(fileName: Option<string>, paneId: string)
    ensures Base(fileName, paneId).Some? <==> DirectoryHasLetter(fileName) || HasLetter(paneId)
    ensures var base := Base(fileName, paneId); base.Some? ==> ValidName(base.value) && NoDoubleDash(base.value)
  {
    ColonsAreNoLetters(paneId);
    SanitizeExactly(WithoutColons(paneId));
    if fileName.Some? { SanitizeExactly(fileName.value); }
  }

  /** What is derived is a valid name that nobody has. */
  lemma DerivedNameIsFree(fileName: Option<string>, paneId: string, taken: set<string>)
    requires AlignedLiveName(fileName, paneId, taken).Name?
    ensures var name := AlignedLiveName(fileName, paneId, taken).name;
            ValidName(name) && NoDoubleDash(name) && name !in taken
  {
    BaseExactly(fileName, paneId);
    SanitizeExactly(WithoutColons(paneId));
    if Base(fileName, paneId).value in taken {
      FitNeverFails(Base(fileName, paneId).value, Sanitize(WithoutColons(paneId)).value);
    }
  }

  /** It fails only when no source has a letter, when the name is taken and the
      pane has none, or when both derived names are taken: the suffix always
      fits. */
  lemma DerivationFailsExactly(fileName: Option<string>, paneId: string, taken: set<string>)
    ensures var r := AlignedLiveName(fileName, paneId, taken);
            var base := Base(fileName, paneId);
            && (r == Failed(NothingLegal) <==> !DirectoryHasLetter(fileName) && !HasLetter(paneId))
            && (r == Failed(NoSuffix) <==> base.Some? && base.value in taken && !HasLetter(paneId))
            && r != Failed(DoesNotFit)
            && (r.Failed? && r.error.AlreadyUsed? <==>
                  && HasLetter(paneId) && base.Some? && base.value in taken
                  && FitSuffixed(base.value, Sanitize(WithoutColons(paneId)).value).value in taken)
  {
    BaseExactly(fileName, paneId);
    ColonsAreNoLetters(paneId);
    SanitizeExactly(WithoutColons(paneId));
    if Base(fileName, paneId).Some? && HasLetter(paneId) {
      FitNeverFails(Base(fileName, paneId).value, Sanitize(WithoutColons(paneId)).value);
    }
  }
}
