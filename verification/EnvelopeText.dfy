/** The envelopes letter by letter: the text of each form, and the error it is refused with. */
module EnvelopeText {
  import opened Envelope
  import opened Wrappers

  function Fault(name: string, value: string): Error {
    if value == "" then EmptyAttribute else UnsafeAttribute(name, value)
  }

  /** An attribute stands unquoted: letters, digits, and five marks. */
  predicate Usable(value: string) {
    value != ""
    && forall i :: 0 <= i < |value| ==>
         || 'a' <= value[i] <= 'z' || 'A' <= value[i] <= 'Z' || '0' <= value[i] <= '9'
         || value[i] == '-' || value[i] == '_' || value[i] == '.' || value[i] == ':' || value[i] == '/'
  }

  lemma UsableIsSafe(value: string)
    ensures Usable(value) <==> Safe(value)
  {
  }

  /** The text, unless one of two attributes is unusable; the first is looked at first. */
  function Guarded(name: string, value: string, other: string, next: string, text: string): Result<string, Error> {
    if !Usable(value) then Err(Fault(name, value)) else if !Usable(next) then Err(Fault(other, next)) else Ok(text)
  }

  lemma CheckedOne(name: string, value: string)
    ensures CheckAll([(name, value)]) == if Usable(value) then Ok(true) else Err(Fault(name, value))
  {
    UsableIsSafe(value);
    assert [(name, value)][1..] == [];
    assert CheckAll([]).Ok?;
  }

  lemma CheckedTwo(name: string, value: string, other: string, next: string)
    ensures CheckAll([(name, value), (other, next)])
         == if !Usable(value) then Err(Fault(name, value))
            else if !Usable(next) then Err(Fault(other, next))
            else Ok(true)
  {
    UsableIsSafe(value);
    CheckedOne(other, next);
    assert [(name, value), (other, next)][1..] == [(other, next)];
  }

  lemma CheckedThree(name: string, value: string, other: string, next: string, last: string, third: string)
    ensures CheckAll([(name, value), (other, next), (last, third)])
         == if !Usable(value) then Err(Fault(name, value)) else CheckAll([(other, next), (last, third)])
  {
    UsableIsSafe(value);
    assert [(name, value), (other, next), (last, third)][1..] == [(other, next), (last, third)];
  }

  lemma SpacedOne(a: string)
    ensures Spaced([a]) == a
  {
  }

  lemma SpacedStep(a: string, rest: seq<string>)
    requires rest != []
    ensures Spaced([a] + rest) == a + " " + Spaced(rest)
  {
    assert ([a] + rest)[1..] == rest;
  }

  lemma SpacedTwo(a: string, b: string)
    ensures Spaced([a, b]) == a + " " + b
  {
    SpacedOne(b);
    SpacedStep(a, [b]);
    assert [a] + [b] == [a, b];
  }

  lemma SpacedThree(a: string, b: string, c: string)
    ensures Spaced([a, b, c]) == a + " " + b + " " + c
  {
    SpacedTwo(b, c);
    SpacedStep(a, [b, c]);
    assert [a] + [b, c] == [a, b, c];
    assert a + " " + (b + " " + c) == a + " " + b + " " + c;
  }

  lemma SpacedFour(a: string, b: string, c: string, d: string)
    ensures Spaced([a, b, c, d]) == a + " " + b + " " + c + " " + d
  {
    SpacedThree(b, c, d);
    SpacedStep(a, [b, c, d]);
    assert [a] + [b, c, d] == [a, b, c, d];
    assert a + " " + (b + " " + c + " " + d) == a + " " + b + " " + c + " " + d;
  }

  lemma SpacedFive(a: string, b: string, c: string, d: string, e: string)
    ensures Spaced([a, b, c, d, e]) == a + " " + b + " " + c + " " + d + " " + e
  {
    SpacedFour(b, c, d, e);
    SpacedStep(a, [b, c, d, e]);
    assert [a] + [b, c, d, e] == [a, b, c, d, e];
    assert a + " " + (b + " " + c + " " + d + " " + e) == a + " " + b + " " + c + " " + d + " " + e;
  }

  function Spelled(c: char): string {
    if c == '&' then "&amp;" else if c == '<' then "&lt;" else if c == '>' then "&gt;" else [c]
  }

  /** Every character of a body is written where it stands: the three marks as their names, and any
      other as itself. */
  lemma EscapeSpells(before: string, c: char, after: string)
    ensures Escape(before + ([c] + after)) == Escape(before) + (Spelled(c) + Escape(after))
  {
    EscapeAppends(before, [c] + after);
    EscapeCons(c, after);
  }

  // ---- Opening and closing tags ----

  lemma TellTag(from: string, id: string)
    ensures "<" + ("kelpie" + " " + Attr("from", from) + " " + Attr("msg", id)) + ">" + "\n"
         == "<kelpie from=" + from + " msg=" + id + ">\n"
  {
  }

  lemma AskTag(from: string, id: string)
    ensures "<" + ("kelpie" + " " + Attr("from", from) + " " + Attr("msg", id) + " " + Attr("reply-to", id))
              + ">" + "\n"
         == "<kelpie from=" + from + " msg=" + id + " reply-to=" + id + ">\n"
  {
  }

  lemma ReplyTag(from: string, re: string, id: string, kind: string)
    ensures "<" + ("kelpie" + " " + Attr("from", from) + " " + Attr("msg", id) + " " + Attr("re", re) + " " + kind)
              + ">" + "\n"
         == "<kelpie from=" + from + " msg=" + id + " re=" + re + " " + kind + ">\n"
  {
  }

  lemma ReminderTag(waiting: string, id: string)
    ensures "<" + ("kelpie-reminder" + " " + Attr("waiting", waiting) + " " + Attr("reply-to", id)) + ">" + "\n"
         == "<kelpie-reminder waiting=" + waiting + " reply-to=" + id + ">\n"
  {
  }

  lemma SystemHead()
    ensures "<" + "kelpie-system" + " " + "cancellation" + " " == "<kelpie-system cancellation "
  {
  }

  lemma AskWord(ask: string)
    ensures " " + Attr("cancelled-ask", ask) == " cancelled-ask=" + ask
  {
  }

  lemma SystemTag(role: string, who: string, ask: string)
    ensures "<" + ("kelpie-system" + " " + "cancellation" + " " + Attr(role, who) + " " + Attr("cancelled-ask", ask))
              + ">" + "\n"
         == "<kelpie-system cancellation " + role + "=" + who + " cancelled-ask=" + ask + ">\n"
  {
    SystemHead();
    AskWord(ask);
    TagOf("kelpie-system", "cancellation", role, who, Attr("cancelled-ask", ask));
  }

  lemma TagOf(tag: string, kind: string, role: string, who: string, last: string)
    ensures "<" + (tag + " " + kind + " " + Attr(role, who) + " " + last) + ">" + "\n"
         == ("<" + tag + " " + kind + " ") + role + "=" + who + (" " + last) + ">\n"
  {
    assert ">" + "\n" == ">\n";
  }

  lemma ClosingTags()
    ensures Closing("kelpie") == "\n</kelpie>" && Closing("kelpie-system") == "\n</kelpie-system>"
    ensures Closing("kelpie-reminder") == "\n</kelpie-reminder>" && Closing("kelpie-renew") == "\n</kelpie-renew>"
  {
  }

  // ---- The seven envelopes ----

  /** A tell: its sender and id, and the escaped body on lines of its own. */
  lemma TellReads(w: Wording, from: string, id: string, body: string)
    ensures Render(w, Tell(from, id, body))
         == Guarded("from", from, "msg", id,
                    "<kelpie from=" + from + " msg=" + id + ">\n" + Escape(body) + "\n</kelpie>")
  {
    CheckedTwo("from", from, "msg", id);
    SpacedThree("kelpie", Attr("from", from), Attr("msg", id));
    TellTag(from, id);
    ClosingTags();
  }

  /** An ask: its id is given twice, as the message's and as what a reply is to. */
  lemma AskReads(w: Wording, from: string, id: string, body: string)
    ensures Render(w, Ask(from, id, body))
         == Guarded("from", from, "reply-to", id,
                    "<kelpie from=" + from + " msg=" + id + " reply-to=" + id + ">\n" + Escape(body) + "\n</kelpie>")
  {
    CheckedTwo("from", from, "reply-to", id);
    SpacedFour("kelpie", Attr("from", from), Attr("msg", id), Attr("reply-to", id));
    AskTag(from, id);
    ClosingTags();
  }

  /** The text of a reply, whose kind is a word of its own. */
  function ReplyText(from: string, re: string, id: string, kind: string, body: string): Result<string, Error> {
    if !Usable(from) then Err(Fault("from", from))
    else Guarded("re", re, "msg", id,
                 "<kelpie from=" + from + " msg=" + id + " re=" + re + " " + kind + ">\n"
                   + Escape(body) + "\n</kelpie>")
  }

  lemma ProgressReads(w: Wording, from: string, re: string, id: string, body: string)
    ensures Render(w, Progress(from, re, id, body)) == ReplyText(from, re, id, "progress", body)
  {
    CheckedThree("from", from, "re", re, "msg", id);
    CheckedTwo("re", re, "msg", id);
    SpacedFive("kelpie", Attr("from", from), Attr("msg", id), Attr("re", re), "progress");
    ReplyTag(from, re, id, "progress");
    ClosingTags();
  }

  lemma FinalReads(w: Wording, from: string, re: string, id: string, body: string)
    ensures Render(w, Final(from, re, id, body)) == ReplyText(from, re, id, "final", body)
  {
    CheckedThree("from", from, "re", re, "msg", id);
    CheckedTwo("re", re, "msg", id);
    SpacedFive("kelpie", Attr("from", from), Attr("msg", id), Attr("re", re), "final");
    ReplyTag(from, re, id, "final");
    ClosingTags();
  }

  /** What the reminder is filled in with. */
  lemma ReminderReads(w: Wording, waiting: string, id: string)
    ensures Render(w, Reminder(waiting, id))
         == Guarded("waiting", waiting, "reply-to", id,
                    "<kelpie-reminder waiting=" + waiting + " reply-to=" + id + ">\n"
                      + ReminderText(w.reminder, waiting, id) + "\n</kelpie-reminder>")
  {
    CheckedTwo("waiting", waiting, "reply-to", id);
    SpacedThree("kelpie-reminder", Attr("waiting", waiting), Attr("reply-to", id));
    ReminderTag(waiting, id);
    ClosingTags();
  }

  /** The notice of a cancelled ask; `role` says whether its reader asked or owed the answer. */
  function SystemText(role: string, who: string, ask: string, inner: string): Result<string, Error> {
    Guarded(role, who, "cancelled-ask", ask,
            "<kelpie-system cancellation " + role + "=" + who + " cancelled-ask=" + ask + ">\n" + inner
              + "\n</kelpie-system>")
  }

  lemma CancellationReads(w: Wording, waiting: string, ask: string, reason: string)
    ensures Render(w, Cancellation(waiting, ask, reason)) == SystemText("waiting", waiting, ask, Escape(reason))
  {
    CheckedTwo("waiting", waiting, "cancelled-ask", ask);
    SpacedFour("kelpie-system", "cancellation", Attr("waiting", waiting), Attr("cancelled-ask", ask));
    SystemTag("waiting", waiting, ask);
    ClosingTags();
  }

  lemma OwingCancellationReads(w: Wording, owing: string, ask: string, reason: string)
    ensures Render(w, OwingCancellation(owing, ask, reason))
         == SystemText("owing", owing, ask, w.stop + Escape(reason) + w.noReply)
  {
    CheckedTwo("owing", owing, "cancelled-ask", ask);
    SpacedFour("kelpie-system", "cancellation", Attr("owing", owing), Attr("cancelled-ask", ask));
    SystemTag("owing", owing, ask);
    ClosingTags();
  }

  // ---- The reminder's blanks ----

  lemma ReminderStep(first: Fragment, rest: seq<Fragment>, waiting: string, id: string)
    ensures ReminderText([first] + rest, waiting, id)
         == (if first == WaitingName then waiting else if first == AskId then id else first.text)
            + ReminderText(rest, waiting, id)
  {
    assert ([first] + rest)[1..] == rest;
  }

  lemma Regrouped(a: string, b: string, c: string)
    ensures a + (b + c) == (a + b) + c
  {
  }

  lemma {:induction false} ReminderAppends(before: seq<Fragment>, after: seq<Fragment>, waiting: string, id: string)
    ensures ReminderText(before + after, waiting, id)
         == ReminderText(before, waiting, id) + ReminderText(after, waiting, id)
  {
    if before == [] {
      assert before + after == after;
    } else {
      ReminderAppends(before[1..], after, waiting, id);
      assert before + after == [before[0]] + (before[1..] + after) && before == [before[0]] + before[1..];
      StepAppends(before[0], before[1..], after, waiting, id);
    }
  }

  lemma StepAppends(first: Fragment, rest: seq<Fragment>, after: seq<Fragment>, waiting: string, id: string)
    requires ReminderText(rest + after, waiting, id)
          == ReminderText(rest, waiting, id) + ReminderText(after, waiting, id)
    ensures ReminderText([first] + (rest + after), waiting, id)
         == ReminderText([first] + rest, waiting, id) + ReminderText(after, waiting, id)
  {
    ReminderStep(first, rest + after, waiting, id);
    ReminderStep(first, rest, waiting, id);
    Regrouped(if first == WaitingName then waiting else if first == AskId then id else first.text,
              ReminderText(rest, waiting, id), ReminderText(after, waiting, id));
  }

  /** The blanks of a reminder are filled in where they stand, each with its own attribute. */
  lemma ReminderFillsIn(before: seq<Fragment>, blank: Fragment, after: seq<Fragment>, waiting: string, id: string)
    ensures ReminderText(before + ([blank] + after), waiting, id)
         == ReminderText(before, waiting, id)
            + ((if blank == WaitingName then waiting else if blank == AskId then id else blank.text)
                 + ReminderText(after, waiting, id))
  {
    ReminderAppends(before, [blank] + after, waiting, id);
    ReminderStep(blank, after, waiting, id);
  }

  // ---- The two renew envelopes ----

  lemma RenewWords(from: string, replyTo: string)
    ensures "<" + "kelpie-renew" + " " + Attr("from", from) == "<kelpie-renew from=" + from
    ensures " " + Attr("reply-to", replyTo) == " reply-to=" + replyTo
  {
  }

  lemma CycleWords(cycle: string)
    ensures " " + "prepare" + " " + Attr("cycle", cycle) == " prepare cycle=" + cycle
    ensures " " + "resumed" + " " + Attr("cycle", cycle) == " resumed cycle=" + cycle
  {
  }

  lemma TimeWords(deadline: string, checkpoint: string)
    ensures " " + Attr("deadline-ms", deadline) == " deadline-ms=" + deadline
    ensures " " + Attr("checkpointed-at-ms", checkpoint) == " checkpointed-at-ms=" + checkpoint
  {
  }

  lemma SpacedSix(a: string, b: string, c: string, d: string, e: string, f: string)
    ensures Spaced([a, b, c, d, e, f]) == a + " " + b + " " + c + " " + d + " " + e + " " + f
  {
    SpacedFive(b, c, d, e, f);
    SpacedStep(a, [b, c, d, e, f]);
    assert [a] + [b, c, d, e, f] == [a, b, c, d, e, f];
    assert a + " " + (b + " " + c + " " + d + " " + e + " " + f) == a + " " + b + " " + c + " " + d + " " + e + " " + f;
  }

  lemma SixGrouped(a: string, b: string, c: string, d: string, e: string, f: string)
    ensures "<" + (a + " " + b + " " + c + " " + d + " " + e + " " + f) + ">" + "\n"
         == ("<" + a + " " + b) + (" " + c) + (" " + d + " " + e) + (" " + f) + ">\n"
  {
    assert ">" + "\n" == ">\n";
  }

  lemma FiveGrouped(a: string, b: string, c: string, d: string, e: string)
    ensures "<" + (a + " " + b + " " + c + " " + d + " " + e) + ">" + "\n"
         == ("<" + a + " " + b) + (" " + c + " " + d) + (" " + e) + ">\n"
  {
    assert ">" + "\n" == ">\n";
  }

  lemma ResumeMark(head: string, before: string, after: string)
    ensures before + (head + ("&lt;" + ("resume" + ("&gt;" + "\n")))) + after
         == before + head + "&lt;resume&gt;\n" + after
  {
    assert "&lt;" + ("resume" + ("&gt;" + "\n")) == "&lt;resume&gt;\n";
  }

  /** The prepare envelope: where it comes from, where its answer goes, its cycle and deadline, and
      the two prompts, the second between escaped marks. */
  lemma PrepareReads(w: Wording, from: string, replyTo: string, cycle: int, deadlineMs: int,
                     prepare: string, resume: string)
    ensures RenderPrepare(w, from, replyTo, cycle, deadlineMs, prepare, resume)
         == Guarded("from", from, "reply-to", replyTo,
              "<kelpie-renew from=" + from + " reply-to=" + replyTo + (" prepare cycle=" + Number(cycle))
                + (" deadline-ms=" + Number(deadlineMs)) + ">\n"
                + (w.prepareHead + Escape(prepare) + w.dividerHead + "&lt;resume&gt;\n" + Escape(resume)
                     + ("\n&lt;/resume&gt;\n" + w.prepareTail + replyTo + w.deferHint))
                + "\n</kelpie-renew>")
  {
    CheckedTwo("from", from, "reply-to", replyTo);
    PrepareTag(from, replyTo, Number(cycle), Number(deadlineMs));
    ResumeMark(w.dividerHead, w.prepareHead + Escape(prepare), Escape(resume));
    ClosingTags();
  }

  lemma PrepareTag(from: string, replyTo: string, cycle: string, deadline: string)
    ensures "<" + Spaced(["kelpie-renew", Attr("from", from), Attr("reply-to", replyTo), "prepare",
                          Attr("cycle", cycle), Attr("deadline-ms", deadline)]) + ">" + "\n"
         == "<kelpie-renew from=" + from + " reply-to=" + replyTo + (" prepare cycle=" + cycle)
              + (" deadline-ms=" + deadline) + ">\n"
  {
    RenewWords(from, replyTo);
    CycleWords(cycle);
    TimeWords(deadline, "");
    SpacedSix("kelpie-renew", Attr("from", from), Attr("reply-to", replyTo), "prepare", Attr("cycle", cycle),
              Attr("deadline-ms", deadline));
    SixGrouped("kelpie-renew", Attr("from", from), Attr("reply-to", replyTo), "prepare", Attr("cycle", cycle),
               Attr("deadline-ms", deadline));
  }

  /** The resume envelope: its cycle, when the checkpoint was made, and the prompt. */
  lemma ResumeReads(w: Wording, from: string, cycle: int, checkpointedAtMs: int, resume: string)
    ensures RenderResume(w, from, cycle, checkpointedAtMs, resume)
         == if !Usable(from) then Err(Fault("from", from))
            else Ok("<kelpie-renew from=" + from + (" resumed cycle=" + Number(cycle))
                      + (" checkpointed-at-ms=" + Number(checkpointedAtMs)) + ">\n"
                      + (w.resumeHead + Escape(resume)) + "\n</kelpie-renew>")
  {
    CheckedOne("from", from);
    ResumeTag(from, Number(cycle), Number(checkpointedAtMs));
    ClosingTags();
  }

  lemma ResumeTag(from: string, cycle: string, checkpoint: string)
    ensures "<" + Spaced(["kelpie-renew", Attr("from", from), "resumed", Attr("cycle", cycle),
                          Attr("checkpointed-at-ms", checkpoint)]) + ">" + "\n"
         == "<kelpie-renew from=" + from + (" resumed cycle=" + cycle) + (" checkpointed-at-ms=" + checkpoint) + ">\n"
  {
    RenewWords(from, "");
    CycleWords(cycle);
    TimeWords("", checkpoint);
    SpacedFive("kelpie-renew", Attr("from", from), "resumed", Attr("cycle", cycle),
               Attr("checkpointed-at-ms", checkpoint));
    FiveGrouped("kelpie-renew", Attr("from", from), "resumed", Attr("cycle", cycle),
                Attr("checkpointed-at-ms", checkpoint));
  }
}
