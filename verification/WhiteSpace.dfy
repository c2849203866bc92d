/** Which lines of an inbox session count as blank, by the characters that their UTF-8 bytes spell. */
module WhiteSpace {
  import opened Framing
  import opened Inbox

  /** A Unicode scalar value. */
  predicate Scalar(c: int) {
    0 <= c < 0x110000 && !(0xD800 <= c < 0xE000)
  }

  /** UTF-8, as in section 3 of RFC 3629. */
  function Utf8(c: int): (s: seq<Byte>)
    requires Scalar(c)
    ensures s != []
  {
    if c < 0x80 then [c]
    else if c < 0x800 then [0xC0 + c / 64, 0x80 + c % 64]
    else if c < 0x10000 then [0xE0 + c / 4096, 0x80 + c / 64 % 64, 0x80 + c % 64]
    else [0xF0 + c / 262144, 0x80 + c / 4096 % 64, 0x80 + c / 64 % 64, 0x80 + c % 64]
  }

  /** The characters with the Unicode property White_Space, which trimming removes. */
  predicate White(c: int) {
    || 0x09 <= c <= 0x0D || c in {0x20, 0x85, 0xA0, 0x1680}
    || 0x2000 <= c <= 0x200A || c in {0x2028, 0x2029, 0x202F, 0x205F, 0x3000}
  }

  function Encoded(text: seq<int>): seq<Byte>
    requires forall i :: 0 <= i < |text| ==> Scalar(text[i])
  {
    if text == [] then [] else Utf8(text[0]) + Encoded(text[1..])
  }

  /** A white character is recognised by its bytes, and no other is taken for one. */
  lemma SpaceIsWhite(c: int, rest: seq<Byte>)
    requires Scalar(c)
    ensures Space(Utf8(c) + rest) == if White(c) then |Utf8(c)| else 0
  {
    var s := Utf8(c) + rest;
    assert s[0] == Utf8(c)[0];
    if c >= 0x80 {
      assert s[1] == Utf8(c)[1];
      if c >= 0x800 {
        assert s[2] == Utf8(c)[2];
      }
    }
  }

  /** A line is blank exactly when every character of it is white. */
  lemma {:induction false} BlankExactly(text: seq<int>)
    requires forall i :: 0 <= i < |text| ==> Scalar(text[i])
    ensures Blank(Encoded(text)) <==> forall i :: 0 <= i < |text| ==> White(text[i])
  {
    if text != [] {
      var first, rest := Utf8(text[0]), Encoded(text[1..]);
      SpaceIsWhite(text[0], rest);
      BlankExactly(text[1..]);
      assert (first + rest)[|first|..] == rest;
      assert (forall i :: 0 <= i < |text| ==> White(text[i]))
        <==> White(text[0]) && forall i :: 0 <= i < |text[1..]| ==> White(text[1..][i]) by {
        assert forall i :: 1 <= i < |text| ==> text[i] == text[1..][i - 1];
      }
    }
  }
}
