/** The receiver envelopes typed into an agent's pane, and a decoder that shows
    nothing of them is ambiguous. */
module Envelope {
  import opened Decimals
  import opened Search
  import opened Wrappers

  datatype Error = EmptyAttribute | UnsafeAttribute(name: string, value: string)

  // ---- Body text ----

  function Code(c: char): string {
    match c
    case '&' => "&amp;"
    case '<' => "&lt;"
    case '>' => "&gt;"
    case _ => [c]
  }

  function Escape(body: string): string {
    if body == [] then [] else Code(body[0]) + Escape(body[1..])
  }

  method EscapeBody(body: string) returns (escaped: string)
    ensures escaped == Escape(body)
  {
    escaped := [];
    var i := 0;
    while i < |body|
      invariant 0 <= i <= |body|
      invariant escaped + Escape(body[i..]) == Escape(body)
    {
      assert escaped + (Code(body[i]) + Escape(body[i + 1..])) == escaped + Code(body[i]) + Escape(body[i + 1..]);
      match body[i] {
        case '&' => escaped := escaped + "&amp;";
        case '<' => escaped := escaped + "&lt;";
        case '>' => escaped := escaped + "&gt;";
        case _ => escaped := escaped + [body[i]];
      }
      assert body[i..][0] == body[i] && body[i..][1..] == body[i + 1..];
      i := i + 1;
    }
    assert body[i..] == [] && escaped + [] == escaped;
  }

  /** The text an escaped text stands for. */
  function Unescape(s: string): string
    decreases |s|
  {
    if s == [] then []
    else if "&amp;" <= s then ['&'] + Unescape(s[5..])
    else if "&lt;" <= s then ['<'] + Unescape(s[4..])
    else if "&gt;" <= s then ['>'] + Unescape(s[4..])
    else [s[0]] + Unescape(s[1..])
  }

  /** Escaping loses nothing, and leaves no angle bracket behind. */
  lemma {:induction false} EscapeRoundTrip(body: string)
    ensures Unescape(Escape(body)) == body
    ensures '<' !in Escape(body) && '>' !in Escape(body)
  {
    if body != [] {
      var rest := Escape(body[1..]);
      EscapeRoundTrip(body[1..]);
      UnescapeOne(body[0], rest);
    }
  }

  lemma UnescapeOne(c: char, rest: string)
    ensures Unescape(Code(c) + rest) == [c] + Unescape(rest)
  {
    var s := Code(c) + rest;
    assert s[|Code(c)|..] == rest;
    assert s[0] == Code(c)[0];
    if c in {'&', '<', '>'} {
      assert s[1] == Code(c)[1];
    }
  }

  // ---- Attributes ----

  predicate SafeChar(c: char) {
    || 'a' <= c <= 'z' || 'A' <= c <= 'Z' || '0' <= c <= '9'
    || c in {'-', '_', '.', ':', '/'}
  }

  predicate Safe(value: string) {
    value != "" && forall i :: 0 <= i < |value| ==> SafeChar(value[i])
  }

  function ValidatedAttr(name: string, value: string): (r: Result<string, Error>)
    ensures r.Ok? <==> Safe(value)
    ensures r.Ok? ==> r.value == value
    ensures r.Err? ==> r.error == if value == "" then EmptyAttribute else UnsafeAttribute(name, value)
  {
    if value == "" then Err(EmptyAttribute)
    else if forall i :: 0 <= i < |value| ==> SafeChar(value[i]) then Ok(value)
    else Err(UnsafeAttribute(name, value))
  }

  // ---- Rendering ----

  datatype Envelope =
    | Tell(from: string, messageId: string, body: string)
    | Ask(from: string, replyTo: string, body: string)
    | Progress(from: string, re: string, messageId: string, body: string)
    | Final(from: string, re: string, messageId: string, body: string)
    | Reminder(waiting: string, replyTo: string)
    | Cancellation(waiting: string, cancelledAsk: string, reason: string)
    | OwingCancellation(owing: string, cancelledAsk: string, reason: string)

  /** The attributes in the order in which they are checked. */
  function Attributes(e: Envelope): seq<(string, string)> {
    match e
    case Tell(from, messageId, _) => [("from", from), ("msg", messageId)]
    case Ask(from, replyTo, _) => [("from", from), ("reply-to", replyTo)]
    case Progress(from, re, messageId, _) => [("from", from), ("re", re), ("msg", messageId)]
    case Final(from, re, messageId, _) => [("from", from), ("re", re), ("msg", messageId)]
    case Reminder(waiting, replyTo) => [("waiting", waiting), ("reply-to", replyTo)]
    case Cancellation(waiting, ask, _) => [("waiting", waiting), ("cancelled-ask", ask)]
    case OwingCancellation(owing, ask, _) => [("owing", owing), ("cancelled-ask", ask)]
  }

  function Attr(name: string, value: string): string {
    name + "=" + value
  }

  /** The words of the opening tag, without its brackets. */
  function Words(e: Envelope): seq<string> {
    match e
    case Tell(from, messageId, _) => ["kelpie", Attr("from", from), Attr("msg", messageId)]
    case Ask(from, replyTo, _) => ["kelpie", Attr("from", from), Attr("msg", replyTo), Attr("reply-to", replyTo)]
    case Progress(from, re, messageId, _) =>
      ["kelpie", Attr("from", from), Attr("msg", messageId), Attr("re", re), "progress"]
    case Final(from, re, messageId, _) =>
      ["kelpie", Attr("from", from), Attr("msg", messageId), Attr("re", re), "final"]
    case Reminder(waiting, replyTo) => ["kelpie-reminder", Attr("waiting", waiting), Attr("reply-to", replyTo)]
    case Cancellation(waiting, ask, _) =>
      ["kelpie-system", "cancellation", Attr("waiting", waiting), Attr("cancelled-ask", ask)]
    case OwingCancellation(owing, ask, _) =>
      ["kelpie-system", "cancellation", Attr("owing", owing), Attr("cancelled-ask", ask)]
  }

  /** The fixed English of the envelopes. Nothing is asked of it but that it has
      none of the three characters that are escaped. */
  datatype Wording = Wording(
    stop: string, noReply: string, reminder: seq<Fragment>,
    prepareHead: string, dividerHead: string, prepareTail: string, deferHint: string,
    resumeHead: string)

  /** A piece of the reminder: fixed text, or one of its two attributes. */
  datatype Fragment = Fixed(text: string) | WaitingName | AskId

  predicate Plain(s: string) {
    '&' !in s && '<' !in s && '>' !in s
  }

  predicate PlainFragments(fragments: seq<Fragment>) {
    forall i :: 0 <= i < |fragments| && fragments[i].Fixed? ==> Plain(fragments[i].text)
  }

  predicate PlainWording(w: Wording) {
    && Plain(w.stop) && Plain(w.noReply) && PlainFragments(w.reminder)
    && Plain(w.prepareHead) && Plain(w.dividerHead) && Plain(w.prepareTail) && Plain(w.deferHint)
    && Plain(w.resumeHead)
  }

  function ReminderText(fragments: seq<Fragment>, waiting: string, replyTo: string): string {
    if fragments == [] then []
    else
      (match fragments[0]
       case Fixed(text) => text
       case WaitingName => waiting
       case AskId => replyTo)
      + ReminderText(fragments[1..], waiting, replyTo)
  }

  function Inner(w: Wording, e: Envelope): string {
    match e
    case Reminder(waiting, replyTo) => ReminderText(w.reminder, waiting, replyTo)
    case Cancellation(_, _, reason) => Escape(reason)
    case OwingCancellation(_, _, reason) => w.stop + Escape(reason) + w.noReply
    case _ => Escape(e.body)
  }

  function Spaced(words: seq<string>): string
    requires words != []
  {
    if |words| == 1 then words[0] else words[0] + [' '] + Spaced(words[1..])
  }

  /** `<tag attributes>`, the inner text on lines of its own, `</tag>`. */
  function Block(words: seq<string>, inner: string): string
    requires words != []
  {
    "<" + Spaced(words) + ">" + "\n" + inner + Closing(words[0])
  }

  function Closing(tag: string): string {
    "\n</" + tag + ">"
  }

  function CheckAll(attributes: seq<(string, string)>): (r: Result<bool, Error>)
    ensures r.Ok? <==> forall i :: 0 <= i < |attributes| ==> Safe(attributes[i].1)
  {
    if attributes == [] then Ok(true)
    else
      var _ :- ValidatedAttr(attributes[0].0, attributes[0].1);
      CheckAll(attributes[1..])
  }

  function Render(w: Wording, e: Envelope): Result<string, Error> {
    var _ :- CheckAll(Attributes(e));
    Ok(Block(Words(e), Inner(w, e)))
  }

  /** An envelope is refused at its first unsafe attribute, and for nothing
      else. */
  lemma {:induction false} RefusedAtFirst(attributes: seq<(string, string)>, k: nat)
    requires k < |attributes| && !Safe(attributes[k].1)
    requires forall i :: 0 <= i < k ==> Safe(attributes[i].1)
    ensures CheckAll(attributes)
         == Err(if attributes[k].1 == "" then EmptyAttribute else UnsafeAttribute(attributes[k].0, attributes[k].1))
  {
    if k > 0 {
      assert forall i :: 0 <= i < k - 1 ==> attributes[1..][i] == attributes[i + 1];
      RefusedAtFirst(attributes[1..], k - 1);
    }
  }

  // ---- Decoding ----

  function Field(name: string, word: string): Option<string> {
    if name + "=" <= word then Some(word[|name| + 1..]) else None
  }

  predicate EndsWith(s: string, end: string) {
    |end| <= |s| && s[|s| - |end|..] == end
  }

  /** The opening tag's words and the inner text, taken from the outside in. */
  function Unblock(text: string): Option<(seq<string>, string)> {
    var i := IndexOf(text, '>');
    if i < 1 then None
    else
      var words := Split(text[1..i], ' ');
      var closing := Closing(words[0]);
      if !EndsWith(text, closing) || i + 2 > |text| - |closing| then None
      else Some((words, text[i + 2..|text| - |closing|]))
  }

  function DecodeMessage(words: seq<string>, inner: string): Option<Envelope> {
    if |words| < 3 || Field("from", words[1]).None? || Field("msg", words[2]).None? then None
    else
      var from, id := Field("from", words[1]).value, Field("msg", words[2]).value;
      if |words| == 3 then Some(Tell(from, id, Unescape(inner)))
      else if |words| == 4 then Some(Ask(from, id, Unescape(inner)))
      else if |words| != 5 || Field("re", words[3]).None? then None
      else if words[4] == "progress" then Some(Progress(from, Field("re", words[3]).value, id, Unescape(inner)))
      else Some(Final(from, Field("re", words[3]).value, id, Unescape(inner)))
  }

  function DecodeSystem(w: Wording, words: seq<string>, inner: string): Option<Envelope> {
    if |words| != 4 || Field("cancelled-ask", words[3]).None? then None
    else
      var ask := Field("cancelled-ask", words[3]).value;
      if Field("waiting", words[2]).Some? then
        Some(Cancellation(Field("waiting", words[2]).value, ask, Unescape(inner)))
      else if Field("owing", words[2]).None? || |inner| < |w.stop| + |w.noReply| then None
      else
        Some(OwingCancellation(Field("owing", words[2]).value, ask,
                               Unescape(inner[|w.stop|..|inner| - |w.noReply|])))
  }

  function DecodeReminder(words: seq<string>): Option<Envelope> {
    if |words| != 3 || Field("waiting", words[1]).None? || Field("reply-to", words[2]).None? then None
    else Some(Reminder(Field("waiting", words[1]).value, Field("reply-to", words[2]).value))
  }

  function Decode(w: Wording, text: string): Option<Envelope> {
    match Unblock(text)
    case None => None
    case Some((words, inner)) =>
      if words[0] == "kelpie" then DecodeMessage(words, inner)
      else if words[0] == "kelpie-system" then DecodeSystem(w, words, inner)
      else DecodeReminder(words)
  }

  // ---- Every envelope decodes to itself ----

  predicate PlainWord(word: string) {
    ' ' !in word && '>' !in word && '<' !in word
  }

  lemma {:induction false} SplitSpaced(words: seq<string>)
    requires words != [] && PlainWords(words)
    ensures Split(Spaced(words), ' ') == words
  {
    assert PlainWord(words[0]);
    if |words| == 1 {
      IndexOfNone(words[0], ' ');
    } else {
      assert forall i :: 0 <= i < |words[1..]| ==> words[1..][i] == words[i + 1];
      SplitSpaced(words[1..]);
      SplitStep(words[0], ' ', Spaced(words[1..]));
    }
  }

  lemma {:induction false} SpacedHasNoBracket(words: seq<string>)
    requires words != [] && PlainWords(words)
    ensures '>' !in Spaced(words) && '<' !in Spaced(words)
  {
    assert PlainWord(words[0]);
    if |words| > 1 {
      assert forall i :: 0 <= i < |words[1..]| ==> words[1..][i] == words[i + 1];
      SpacedHasNoBracket(words[1..]);
    }
  }

  lemma BlockUnblocks(words: seq<string>, inner: string)
    requires words != [] && PlainWords(words)
    ensures Unblock(Block(words, inner)) == Some((words, inner))
  {
    SplitSpaced(words);
    SpacedHasNoBracket(words);
    BlockCuts(Spaced(words), inner, Closing(words[0]));
  }

  /** Where the opening tag ends, and what lies between it and the closing tag. */
  lemma BlockCuts(head: string, inner: string, closing: string)
    requires '>' !in head && closing != ""
    ensures var text := "<" + head + ">" + "\n" + inner + closing;
            && IndexOf(text, '>') == |head| + 1
            && text[1..|head| + 1] == head
            && EndsWith(text, closing)
            && text[|head| + 3..|text| - |closing|] == inner
  {
    var text := "<" + head + ">" + "\n" + inner + closing;
    assert text == ("<" + head) + ['>'] + ("\n" + inner + closing);
    IndexOfFirst("<" + head, '>', "\n" + inner + closing);
    assert text[|text| - |closing|..] == closing;
  }

  lemma FieldReads(name: string, value: string)
    ensures Field(name, Attr(name, value)) == Some(value)
  {
    assert Attr(name, value)[|name| + 1..] == value;
  }

  lemma AttrIsPlain(name: string, value: string)
    requires PlainWord(name) && Safe(value)
    ensures PlainWord(Attr(name, value))
  {
  }

  predicate PlainWords(words: seq<string>) {
    forall i :: 0 <= i < |words| ==> PlainWord(words[i])
  }

  lemma SystemTagsArePlain()
    ensures PlainWord("kelpie-system") && PlainWord("cancellation") && PlainWord("kelpie-reminder")
  {
  }

  lemma RenewTagsArePlain()
    ensures PlainWord("kelpie-renew") && PlainWord("prepare") && PlainWord("resumed")
  {
  }

  lemma MessageTagsArePlain()
    ensures PlainWord("kelpie") && PlainWord("progress") && PlainWord("final") && PlainWord("msg") && PlainWord("re")
  {
  }

  lemma NamesArePlain()
    ensures PlainWord("from") && PlainWord("waiting") && PlainWord("owing")
    ensures PlainWord("reply-to") && PlainWord("cancelled-ask")
  {
  }

  lemma CountersArePlain()
    ensures PlainWord("cycle") && PlainWord("deadline-ms") && PlainWord("checkpointed-at-ms")
  {
  }

  lemma FourWords(a: string, b: string, c: string, d: string)
    requires PlainWord(a) && PlainWord(b) && PlainWord(c) && PlainWord(d)
    ensures PlainWords([a, b, c]) && PlainWords([a, b, c, d])
  {
  }

  lemma SixWords(a: string, b: string, c: string, d: string, e: string, f: string)
    requires PlainWord(a) && PlainWord(b) && PlainWord(c) && PlainWord(d) && PlainWord(e) && PlainWord(f)
    ensures PlainWords([a, b, c, d, e]) && PlainWords([a, b, c, d, e, f])
  {
  }

  lemma MessageWordsArePlain(e: Envelope)
    requires e.Tell? || e.Ask? || e.Progress? || e.Final?
    requires forall i :: 0 <= i < |Attributes(e)| ==> Safe(Attributes(e)[i].1)
    ensures PlainWords(Words(e))
  {
    var a := Attributes(e);
    assert Safe(a[0].1) && Safe(a[1].1) && (|a| == 3 ==> Safe(a[2].1));
    MessageTagsArePlain();
    NamesArePlain();
    AttrIsPlain("from", e.from);
    var words := Words(e);
    match e
    case Tell(_, id, _) => AttrIsPlain("msg", id); FourWords(words[0], words[1], words[2], words[2]);
    case Ask(_, id, _) =>
      AttrIsPlain("msg", id);
      AttrIsPlain("reply-to", id);
      FourWords(words[0], words[1], words[2], words[3]);
    case Progress(_, re, id, _) => ReplyWordsArePlain(words, re, id);
    case Final(_, re, id, _) => ReplyWordsArePlain(words, re, id);
  }

  lemma ReplyWordsArePlain(words: seq<string>, re: string, id: string)
    requires |words| == 5 && PlainWord(words[0]) && PlainWord(words[1]) && PlainWord(words[4])
    requires words[2] == Attr("msg", id) && words[3] == Attr("re", re) && Safe(id) && Safe(re)
    ensures PlainWords(words)
  {
    MessageTagsArePlain();
    AttrIsPlain("msg", id);
    AttrIsPlain("re", re);
    SixWords(words[0], words[1], words[2], words[3], words[4], words[4]);
    assert words == [words[0], words[1], words[2], words[3], words[4]];
  }

  lemma SystemWordsArePlain(e: Envelope)
    requires e.Reminder? || e.Cancellation? || e.OwingCancellation?
    requires forall i :: 0 <= i < |Attributes(e)| ==> Safe(Attributes(e)[i].1)
    ensures PlainWords(Words(e))
  {
    var a := Attributes(e);
    assert Safe(a[0].1) && Safe(a[1].1);
    var words := Words(e);
    SystemTagsArePlain();
    NamesArePlain();
    AttrIsPlain(a[0].0, a[0].1);
    AttrIsPlain(a[1].0, a[1].1);
    if e.Reminder? {
      FourWords(words[0], words[1], words[2], words[2]);
    } else {
      FourWords(words[0], words[1], words[2], words[3]);
    }
  }

  lemma WordsArePlain(w: Wording, e: Envelope)
    requires Render(w, e).Ok?
    ensures PlainWords(Words(e))
  {
    if e.Tell? || e.Ask? || e.Progress? || e.Final? { MessageWordsArePlain(e); } else { SystemWordsArePlain(e); }
  }

  lemma MessageDecodes(w: Wording, e: Envelope)
    requires e.Tell? || e.Ask? || e.Progress? || e.Final?
    ensures DecodeMessage(Words(e), Inner(w, e)) == Some(e)
  {
    FieldReads("from", e.from);
    EscapeRoundTrip(e.body);
    match e
    case Tell(_, id, _) => FieldReads("msg", id);
    case Ask(_, id, _) => FieldReads("msg", id);
    case Progress(_, re, id, _) => FieldReads("msg", id); FieldReads("re", re);
    case Final(_, re, id, _) => FieldReads("msg", id); FieldReads("re", re);
  }

  lemma CancellationDecodes(w: Wording, e: Envelope)
    requires e.Cancellation?
    ensures DecodeSystem(w, Words(e), Inner(w, e)) == Some(e)
  {
    FieldReads("waiting", e.waiting);
    FieldReads("cancelled-ask", e.cancelledAsk);
    EscapeRoundTrip(e.reason);
  }

  lemma OwingDecodes(w: Wording, e: Envelope)
    requires e.OwingCancellation?
    ensures DecodeSystem(w, Words(e), Inner(w, e)) == Some(e)
  {
    FieldReads("owing", e.owing);
    FieldReads("cancelled-ask", e.cancelledAsk);
    assert Attr("owing", e.owing)[0] == 'o';
    EscapeRoundTrip(e.reason);
    var inner := w.stop + Escape(e.reason) + w.noReply;
    assert inner[|w.stop|..|inner| - |w.noReply|] == Escape(e.reason);
  }

  lemma ReminderDecodes(e: Envelope)
    requires e.Reminder?
    ensures DecodeReminder(Words(e)) == Some(e)
  {
    FieldReads("waiting", e.waiting);
    FieldReads("reply-to", e.replyTo);
  }

  /** Whatever can be rendered can be read back: kind, attributes and body. */
  lemma RenderDecodes(w: Wording, e: Envelope)
    requires Render(w, e).Ok?
    ensures Decode(w, Render(w, e).value) == Some(e)
  {
    WordsArePlain(w, e);
    BlockUnblocks(Words(e), Inner(w, e));
    WordsDecode(w, e);
  }

  lemma WordsDecode(w: Wording, e: Envelope)
    ensures var words, inner := Words(e), Inner(w, e);
            Some(e) == if words[0] == "kelpie" then DecodeMessage(words, inner)
                       else if words[0] == "kelpie-system" then DecodeSystem(w, words, inner)
                       else DecodeReminder(words)
  {
    match e {
      case Reminder(_, _) => ReminderDecodes(e);
      case Cancellation(_, _, _) => CancellationDecodes(w, e);
      case OwingCancellation(_, _, _) => OwingDecodes(w, e);
      case _ => MessageDecodes(w, e);
    }
  }

  predicate Carries(words: seq<string>, name: string, value: string) {
    exists i :: 0 <= i < |words| && Field(name, words[i]) == Some(value)
  }

  /** The receiver finds every attribute of an envelope, by its name, among the words of the opening
      tag; and those of an ask also name its id as the message's. */
  lemma AttributesAreRead(w: Wording, e: Envelope, k: nat)
    requires Render(w, e).Ok? && k < |Attributes(e)|
    ensures var tag := Unblock(Render(w, e).value);
            && tag.Some? && Carries(tag.value.0, Attributes(e)[k].0, Attributes(e)[k].1)
            && (e.Ask? ==> Carries(tag.value.0, "msg", e.replyTo))
  {
    WordsArePlain(w, e);
    BlockUnblocks(Words(e), Inner(w, e));
    var i := AttributeAt(e, k);
    FieldReads(Attributes(e)[k].0, Attributes(e)[k].1);
    assert Field(Attributes(e)[k].0, Words(e)[i]) == Some(Attributes(e)[k].1);
    if e.Ask? {
      FieldReads("msg", e.replyTo);
      assert Field("msg", Words(e)[2]) == Some(e.replyTo);
    }
  }

  /** The place of an attribute's word. */
  lemma AttributeAt(e: Envelope, k: nat) returns (i: nat)
    requires k < |Attributes(e)|
    ensures i < |Words(e)| && Words(e)[i] == Attr(Attributes(e)[k].0, Attributes(e)[k].1)
  {
    match e
    case Tell(_, _, _) => i := k + 1;
    case Ask(_, _, _) => i := if k == 0 then 1 else 3;
    case Progress(_, _, _, _) => i := if k == 0 then 1 else if k == 1 then 3 else 2;
    case Final(_, _, _, _) => i := if k == 0 then 1 else if k == 1 then 3 else 2;
    case Reminder(_, _) => i := k + 1;
    case Cancellation(_, _, _) => i := k + 2;
    case OwingCancellation(_, _, _) => i := k + 2;
  }

  /** Equal text, equal envelope. */
  lemma RenderIsUnique(w: Wording, a: Envelope, b: Envelope)
    requires Render(w, a).Ok? && Render(w, a) == Render(w, b)
    ensures a == b
  {
    RenderDecodes(w, a);
    RenderDecodes(w, b);
  }

  // ---- One closing tag ----

  predicate OccursAt(text: string, part: string, i: int) {
    0 <= i && i + |part| <= |text| && text[i..i + |part|] == part
  }

  /** A closing tag of any name occurs in the text once, and the text ends with
      it. */
  ghost predicate ClosedOnce(text: string, tag: string) {
    forall i :: OccursAt(text, "</", i) <==> i == |text| - |"</" + tag + ">"|
  }

  lemma OnlyBracketsOpen(open: string, inner: string, tag: string)
    requires |open| >= 2 && open[0] == '<' && open[1] != '/' && '<' !in open[1..]
    requires '<' !in inner && '<' !in tag
    ensures ClosedOnce(open + inner + ("</" + tag + ">"), tag)
  {
    var closing := "</" + tag + ">";
    var text := open + inner + closing;
    var end := |text| - |closing|;
    assert text[end] == '<' && text[end + 1] == '/';
    assert text[end..end + 2] == "</";
    BracketPlaces(open, inner, closing);
    forall i | OccursAt(text, "</", i)
      ensures i == end
    {
      assert text[i..i + 2][0] == text[i] && text[i..i + 2][1] == text[i + 1];
    }
  }

  lemma BracketPlaces(open: string, inner: string, closing: string)
    requires |open| >= 2 && open[0] == '<' && '<' !in open[1..]
    requires '<' !in inner
    requires closing != "" && '<' !in closing[1..]
    ensures var text := open + inner + closing;
            forall i :: 0 <= i < |text| && text[i] == '<' ==> i == 0 || i == |open| + |inner|
  {
    var text := open + inner + closing;
    assert text == [open[0]] + open[1..] + inner + [closing[0]] + closing[1..];
  }

  lemma InnerHasNoBracket(w: Wording, e: Envelope)
    requires PlainWording(w) && Render(w, e).Ok?
    ensures '<' !in Inner(w, e)
  {
    match e {
      case Reminder(waiting, replyTo) =>
        assert Safe(Attributes(e)[0].1) && Safe(Attributes(e)[1].1);
        ReminderHasNoBracket(w.reminder, waiting, replyTo);
      case Cancellation(_, _, reason) => EscapeRoundTrip(reason);
      case OwingCancellation(_, _, reason) => EscapeRoundTrip(reason);
      case _ => EscapeRoundTrip(e.body);
    }
  }

  lemma {:induction false} ReminderHasNoBracket(fragments: seq<Fragment>, waiting: string, replyTo: string)
    requires PlainFragments(fragments) && '<' !in waiting && '<' !in replyTo
    ensures '<' !in ReminderText(fragments, waiting, replyTo)
  {
    if fragments != [] {
      ReminderHasNoBracket(fragments[1..], waiting, replyTo);
      assert fragments[0].Fixed? ==> Plain(fragments[0].text);
    }
  }

  lemma BlockClosedOnce(words: seq<string>, inner: string)
    requires words != [] && words[0] != "" && words[0][0] != '/'
    requires PlainWords(words)
    requires '<' !in inner
    ensures ClosedOnce(Block(words, inner), words[0])
  {
    SpacedHasNoBracket(words);
    var open := "<" + Spaced(words) + ">" + "\n";
    assert open[1..] == Spaced(words) + ">" + "\n";
    assert Spaced(words)[0] == words[0][0];
    OnlyBracketsOpen(open, inner + "\n", words[0]);
    assert Block(words, inner) == open + (inner + "\n") + ("</" + words[0] + ">");
  }

  /** No body can forge or end the envelope it stands in. */
  lemma RenderClosesOnce(w: Wording, e: Envelope)
    requires PlainWording(w) && Render(w, e).Ok?
    ensures ClosedOnce(Render(w, e).value, Words(e)[0])
  {
    WordsArePlain(w, e);
    InnerHasNoBracket(w, e);
    BlockClosedOnce(Words(e), Inner(w, e));
  }

  // ---- The two renew envelopes ----

  function Number(n: int): string {
    Padded(n, 0)
  }

  function PrepareWords(from: string, replyTo: string, cycle: int, deadlineMs: int): seq<string> {
    ["kelpie-renew", Attr("from", from), Attr("reply-to", replyTo), "prepare",
     Attr("cycle", Number(cycle)), Attr("deadline-ms", Number(deadlineMs))]
  }

  /** What stands between the two prompts: the resume tag is shown escaped. */
  function Divider(w: Wording): string {
    w.dividerHead + ("&lt;" + ("resume" + ("&gt;" + "\n")))
  }

  function PrepareInner(w: Wording, replyTo: string, prepare: string, resume: string): string {
    w.prepareHead + Escape(prepare) + Divider(w) + Escape(resume)
      + ("\n&lt;/resume&gt;\n" + w.prepareTail + replyTo + w.deferHint)
  }

  function RenderPrepare(w: Wording, from: string, replyTo: string, cycle: int, deadlineMs: int,
                         prepare: string, resume: string): Result<string, Error>
  {
    var _ :- CheckAll([("from", from), ("reply-to", replyTo)]);
    Ok(Block(PrepareWords(from, replyTo, cycle, deadlineMs), PrepareInner(w, replyTo, prepare, resume)))
  }

  function ResumeWords(from: string, cycle: int, checkpointedAtMs: int): seq<string> {
    ["kelpie-renew", Attr("from", from), "resumed",
     Attr("cycle", Number(cycle)), Attr("checkpointed-at-ms", Number(checkpointedAtMs))]
  }

  function RenderResume(w: Wording, from: string, cycle: int, checkpointedAtMs: int,
                        resume: string): Result<string, Error> {
    var _ :- CheckAll([("from", from)]);
    Ok(Block(ResumeWords(from, cycle, checkpointedAtMs), w.resumeHead + Escape(resume)))
  }

  lemma NumberIsPlain(name: string, n: int)
    requires PlainWord(name)
    ensures PlainWord(Attr(name, Number(n)))
  {
    assert forall i :: 0 <= i < |Number(n)| ==> IsDigit(Number(n)[i]) || Number(n)[i] == '-';
  }

  lemma PrepareWordsArePlain(from: string, replyTo: string, cycle: int, deadlineMs: int)
    requires Safe(from) && Safe(replyTo)
    ensures PlainWords(PrepareWords(from, replyTo, cycle, deadlineMs))
  {
    RenewTagsArePlain();
    NamesArePlain();
    CountersArePlain();
    AttrIsPlain("from", from);
    AttrIsPlain("reply-to", replyTo);
    NumberIsPlain("cycle", cycle);
    NumberIsPlain("deadline-ms", deadlineMs);
    SixWords("kelpie-renew", Attr("from", from), Attr("reply-to", replyTo), "prepare",
             Attr("cycle", Number(cycle)), Attr("deadline-ms", Number(deadlineMs)));
  }

  lemma ResumeWordsArePlain(from: string, cycle: int, checkpointedAtMs: int)
    requires Safe(from)
    ensures PlainWords(ResumeWords(from, cycle, checkpointedAtMs))
  {
    RenewTagsArePlain();
    NamesArePlain();
    CountersArePlain();
    AttrIsPlain("from", from);
    NumberIsPlain("cycle", cycle);
    NumberIsPlain("checkpointed-at-ms", checkpointedAtMs);
    SixWords("kelpie-renew", Attr("from", from), "resumed", Attr("cycle", Number(cycle)),
             Attr("checkpointed-at-ms", Number(checkpointedAtMs)), "resumed");
  }

  lemma PrepareInnerHasNoBracket(w: Wording, replyTo: string, prepare: string, resume: string)
    requires PlainWording(w) && '<' !in replyTo
    ensures '<' !in PrepareInner(w, replyTo, prepare, resume)
  {
    EscapeRoundTrip(prepare);
    EscapeRoundTrip(resume);
  }

  /** The quoted resume prompt does not end the prepare envelope either. */
  lemma PrepareClosesOnce(w: Wording, from: string, replyTo: string, cycle: int, deadlineMs: int,
                          prepare: string, resume: string)
    requires PlainWording(w) && Safe(from) && Safe(replyTo)
    ensures RenderPrepare(w, from, replyTo, cycle, deadlineMs, prepare, resume).Ok?
    ensures ClosedOnce(RenderPrepare(w, from, replyTo, cycle, deadlineMs, prepare, resume).value, "kelpie-renew")
  {
    PrepareWordsArePlain(from, replyTo, cycle, deadlineMs);
    PrepareInnerHasNoBracket(w, replyTo, prepare, resume);
    BlockClosedOnce(PrepareWords(from, replyTo, cycle, deadlineMs), PrepareInner(w, replyTo, prepare, resume));
  }

  lemma ResumeClosesOnce(w: Wording, from: string, cycle: int, checkpointedAtMs: int, resume: string)
    requires PlainWording(w) && Safe(from)
    ensures RenderResume(w, from, cycle, checkpointedAtMs, resume).Ok?
    ensures ClosedOnce(RenderResume(w, from, cycle, checkpointedAtMs, resume).value, "kelpie-renew")
  {
    ResumeWordsArePlain(from, cycle, checkpointedAtMs);
    EscapeRoundTrip(resume);
    BlockClosedOnce(ResumeWords(from, cycle, checkpointedAtMs), w.resumeHead + Escape(resume));
  }

  // ---- The prepare envelope does not separate its prompts ----

  lemma {:induction false} EscapePlain(s: string)
    requires Plain(s)
    ensures Escape(s) == s
  {
    if s != [] {
      assert Plain(s[1..]) && s[0] in s;
      EscapePlain(s[1..]);
    }
  }

  lemma {:induction false} EscapeAppends(a: string, b: string)
    ensures Escape(a + b) == Escape(a) + Escape(b)
  {
    if a == [] {
      assert a + b == b;
    } else {
      assert (a + b)[1..] == a[1..] + b;
      EscapeAppends(a[1..], b);
      assert Code(a[0]) + (Escape(a[1..]) + Escape(b)) == Code(a[0]) + Escape(a[1..]) + Escape(b);
    }
  }

  /** A prompt that spells the divider. */
  function DividerPrompt(w: Wording): string {
    w.dividerHead + ("<" + ("resume" + (">" + "\n")))
  }

  lemma DividerPromptEscapes(w: Wording)
    requires PlainWording(w)
    ensures Escape(DividerPrompt(w)) == Divider(w)
  {
    EscapeAppends(w.dividerHead, "<" + ("resume" + (">" + "\n")));
    EscapePlain(w.dividerHead);
    TagEscapes();
  }

  lemma TagEscapes()
    ensures Escape("<" + ("resume" + (">" + "\n"))) == "&lt;" + ("resume" + ("&gt;" + "\n"))
  {
    EscapeCons('<', "resume" + (">" + "\n"));
    EscapeAppends("resume", ">" + "\n");
    EscapePlain("resume");
    EscapeCons('>', "\n");
    EscapePlain("\n");
  }

  lemma EscapeCons(c: char, rest: string)
    ensures Escape([c] + rest) == Code(c) + Escape(rest)
  {
    assert ([c] + rest)[1..] == rest;
  }

  // ---- Which prompts the prepare envelope separates ----

  /** The two prompts with the divider spelled out between them. */
  function Joined(w: Wording, prepare: string, resume: string): string {
    prepare + DividerPrompt(w) + resume
  }

  lemma EscapeJoined(w: Wording, prepare: string, resume: string)
    requires PlainWording(w)
    ensures Escape(Joined(w, prepare, resume)) == Escape(prepare) + Divider(w) + Escape(resume)
  {
    DividerPromptEscapes(w);
    EscapeAppends(prepare, DividerPrompt(w));
    EscapeAppends(prepare + DividerPrompt(w), resume);
  }

  lemma InnerIsJoined(w: Wording, replyTo: string, prepare: string, resume: string)
    requires PlainWording(w)
    ensures PrepareInner(w, replyTo, prepare, resume)
         == w.prepareHead + Escape(Joined(w, prepare, resume))
            + ("\n&lt;/resume&gt;\n" + w.prepareTail + replyTo + w.deferHint)
  {
    EscapeJoined(w, prepare, resume);
    MiddleAssociates(w.prepareHead, Escape(prepare), Divider(w), Escape(resume));
  }

  lemma MiddleAssociates(head: string, a: string, b: string, c: string)
    ensures head + a + b + c == head + (a + b + c)
  {
  }

  lemma MiddleIsUnique(head: string, a: string, b: string, end: string)
    requires head + a + end == head + b + end
    ensures a == b
  {
    assert |a| == |b|;
    assert a == (head + a + end)[|head|..|head| + |a|];
    assert b == (head + b + end)[|head|..|head| + |b|];
  }

  lemma BlockIsUnique(words: seq<string>, a: string, b: string)
    requires words != [] && Block(words, a) == Block(words, b)
    ensures a == b
  {
    MiddleIsUnique("<" + Spaced(words) + ">" + "\n", a, b, Closing(words[0]));
  }

  lemma EscapeIsUnique(a: string, b: string)
    requires Escape(a) == Escape(b)
    ensures a == b
  {
    EscapeRoundTrip(a);
    EscapeRoundTrip(b);
  }

  lemma SameInner(w: Wording, replyTo: string, p: string, r: string, q: string, s: string)
    requires PlainWording(w)
    ensures PrepareInner(w, replyTo, p, r) == PrepareInner(w, replyTo, q, s) <==> Joined(w, p, r) == Joined(w, q, s)
  {
    InnerIsJoined(w, replyTo, p, r);
    InnerIsJoined(w, replyTo, q, s);
    var end := "\n&lt;/resume&gt;\n" + w.prepareTail + replyTo + w.deferHint;
    if PrepareInner(w, replyTo, p, r) == PrepareInner(w, replyTo, q, s) {
      MiddleIsUnique(w.prepareHead, Escape(Joined(w, p, r)), Escape(Joined(w, q, s)), end);
      EscapeIsUnique(Joined(w, p, r), Joined(w, q, s));
    }
  }

  /** Two pairs of prompts render alike exactly when they are alike with the
      divider spelled out between them. */
  lemma SameRendering(w: Wording, from: string, replyTo: string, cycle: int, deadlineMs: int,
                      p: string, r: string, q: string, s: string)
    requires PlainWording(w) && Safe(from) && Safe(replyTo)
    ensures RenderPrepare(w, from, replyTo, cycle, deadlineMs, p, r)
              == RenderPrepare(w, from, replyTo, cycle, deadlineMs, q, s)
       <==> Joined(w, p, r) == Joined(w, q, s)
  {
    SameInner(w, replyTo, p, r, q, s);
    var words := PrepareWords(from, replyTo, cycle, deadlineMs);
    var a, b := PrepareInner(w, replyTo, p, r), PrepareInner(w, replyTo, q, s);
    if Block(words, a) == Block(words, b) { BlockIsUnique(words, a, b); }
  }

  /** The divider is spelled where the prompts meet, and nowhere else. */
  predicate DividesOnce(w: Wording, prepare: string, resume: string) {
    forall i :: 0 <= i <= |Joined(w, prepare, resume)| && OccursAt(Joined(w, prepare, resume), DividerPrompt(w), i)
      ==> i == |prepare|
  }

  ghost predicate Separated(w: Wording, from: string, replyTo: string, cycle: int, deadlineMs: int,
                            p: string, r: string)
  {
    forall q, s :: RenderPrepare(w, from, replyTo, cycle, deadlineMs, q, s)
                     == RenderPrepare(w, from, replyTo, cycle, deadlineMs, p, r)
      ==> q == p && s == r
  }

  lemma DividerCuts(w: Wording, text: string, i: nat)
    requires OccursAt(text, DividerPrompt(w), i)
    ensures text == Joined(w, text[..i], text[i + |DividerPrompt(w)|..])
  {
  }

  lemma JoinedCuts(w: Wording, p: string, r: string)
    ensures OccursAt(Joined(w, p, r), DividerPrompt(w), |p|)
    ensures Joined(w, p, r)[..|p|] == p && Joined(w, p, r)[|p| + |DividerPrompt(w)|..] == r
  {
  }

  /** The two prompts can be told from the rendered text exactly when the divider,
      as it reads before escaping, does not occur a second time in the prompts and
      the divider put together. */
  lemma SeparatedExactly(w: Wording, from: string, replyTo: string, cycle: int, deadlineMs: int, p: string, r: string)
    requires PlainWording(w) && Safe(from) && Safe(replyTo)
    ensures Separated(w, from, replyTo, cycle, deadlineMs, p, r) <==> DividesOnce(w, p, r)
  {
    if DividesOnce(w, p, r) {
      forall q, s | RenderPrepare(w, from, replyTo, cycle, deadlineMs, q, s)
                      == RenderPrepare(w, from, replyTo, cycle, deadlineMs, p, r)
        ensures q == p && s == r
      {
        SameRendering(w, from, replyTo, cycle, deadlineMs, q, s, p, r);
        OnlyCut(w, p, r, q, s);
      }
    }
    if Separated(w, from, replyTo, cycle, deadlineMs, p, r) {
      forall i | 0 <= i <= |Joined(w, p, r)| && OccursAt(Joined(w, p, r), DividerPrompt(w), i)
        ensures i == |p|
      {
        var q, s := Joined(w, p, r)[..i], Joined(w, p, r)[i + |DividerPrompt(w)|..];
        DividerCuts(w, Joined(w, p, r), i);
        SameRendering(w, from, replyTo, cycle, deadlineMs, q, s, p, r);
      }
    }
  }

  lemma OnlyCut(w: Wording, p: string, r: string, q: string, s: string)
    requires DividesOnce(w, p, r) && Joined(w, q, s) == Joined(w, p, r)
    ensures q == p && s == r
  {
    JoinedCuts(w, q, s);
    JoinedCuts(w, p, r);
  }

  /** A pair of prompts that are not separated: one prompt is empty, the other
      spells the divider. */
  lemma PromptsAreNotSeparated(w: Wording, from: string, replyTo: string, cycle: int, deadlineMs: int)
    requires PlainWording(w) && Safe(from) && Safe(replyTo)
    ensures RenderPrepare(w, from, replyTo, cycle, deadlineMs, "", DividerPrompt(w))
         == RenderPrepare(w, from, replyTo, cycle, deadlineMs, DividerPrompt(w), "")
    ensures "" != DividerPrompt(w)
  {
    var d := DividerPrompt(w);
    SwapEmpty(d);
    SameRendering(w, from, replyTo, cycle, deadlineMs, "", d, d, "");
  }

  lemma SwapEmpty(d: string)
    ensures "" + d + d == d + d + ""
  {
  }
}
