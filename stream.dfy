/** The response-streaming classifier as functions of its state.

    A response arrives as text fragments. For each fragment the classifier
    decides what is displayed, which finished code lines go to the syntax
    highlighter and which text is voiced; it toggles code-block mode when the
    line accumulated so far strips to a fence "```". The class in the
    Terminal module runs these same rules step by step on its fields and is
    proved to agree with `Step`, `Feed` and `Flush`. */
module Stream {
  import opened Text
  import opened Enums
  import opened Output

  const Fence := "```"
  const HalfFence := "``"

  /** The settings the classifier reads. */
  datatype Voicing = Voicing(useVoice: bool, voiceOver: bool, stop: VoiceStop)

  /** The terminal's per-response fields: `resp_line`, `resp_sentence`,
      `in_code_block`, `first_sentence`, `code_block_idx`, `resp_start`. */
  datatype Response = Response(line: string, sentence: string, inCode: bool,
                               firstSentence: bool, codeIdx: nat, start: bool)

  /** A new state and the events produced on the way to it. */
  datatype Outcome = Outcome(state: Response, events: seq<Event>)

  /** `add_gpt_prefix`: an optional "[GPT]: " label, and a newline in front
      of a bare "``" so that a fence split over two fragments starts a line. */
  function AddGptPrefix(text: string, includePrefix: bool): string
  {
    (if includePrefix then "[GPT]: " else "") + (if text == HalfFence then "\n" else "") + text
  }

  /** The prefixed text ends in the text itself, after the label (when asked
      for) and a newline exactly when the text is "``". */
  lemma AddGptPrefixShape(text: string, includePrefix: bool)
    ensures var r := AddGptPrefix(text, includePrefix);
      && |r| == |text| + (if includePrefix then 7 else 0) + (if text == HalfFence then 1 else 0)
      && r[|r| - |text|..] == text
      && (includePrefix ==> r[..7] == "[GPT]: ")
      && (!includePrefix ==> r == if text == HalfFence then "\n" + text else text)
  {
  }

  /** `print_chat_response`: suppressed under voice-over unless forced; the
      first fragment of a response goes through `AddGptPrefix` without label. */
  function PrintChat(v: Voicing, start: bool, text: string, force: bool): seq<Event>
  {
    if v.voiceOver && !force then []
    else [Display(if start then AddGptPrefix(text, false) else text)]
  }

  /** `text.replace('"', '\\"')`. */
  function QuoteEscaped(s: string): (r: string)
  {
    if s == [] then []
    else (if s[0] == '"' then ['\\', '"'] else [s[0]]) + QuoteEscaped(s[1..])
  }

  /** `text.replace('`', '')`. */
  function WithoutBackticks(s: string): (r: string)
  {
    if s == [] then []
    else (if s[0] == '`' then [] else [s[0]]) + WithoutBackticks(s[1..])
  }

  /** The text handed to `say`: quotes escaped, backticks removed, and a
      backslash in front of a leading '-' so it is not read as an option. */
  function SpeakText(text: string): (r: string)
  {
    var t := WithoutBackticks(QuoteEscaped(text));
    if t != [] && t[0] == '-' then "\\" + t else t
  }

  /** Undoes `QuoteEscaped`: every backslash-quote pair becomes a quote. */
  function Unescape(s: string): string
  {
    if s == [] then []
    else if |s| >= 2 && s[0] == '\\' && s[1] == '"' then "\"" + Unescape(s[2..])
    else [s[0]] + Unescape(s[1..])
  }

  /** The quote escaping loses nothing. */
  lemma {:induction false} UnescapeQuoteEscaped(s: string)
    ensures Unescape(QuoteEscaped(s)) == s
  {
    if s != [] {
      UnescapeQuoteEscaped(s[1..]);
      var rest := QuoteEscaped(s[1..]);
      if s[0] == '"' {
        assert QuoteEscaped(s) == ['\\', '"'] + rest;
        assert QuoteEscaped(s)[2..] == rest;
      } else {
        assert QuoteEscaped(s) == [s[0]] + rest;
        assert QuoteEscaped(s)[1..] == rest;
      }
    }
  }

  /** Removing backticks and escaping quotes can be done in either order. */
  lemma {:induction false} EscapeCommutes(s: string)
    ensures WithoutBackticks(QuoteEscaped(s)) == QuoteEscaped(WithoutBackticks(s))
  {
    if s != [] {
      var c, t := s[0], s[1..];
      EscapeCommutes(t);
      assert s == [c] + t;
      QuoteEscapedAppend([c], t);
      WithoutBackticksAppend([c], t);
      WithoutBackticksAppend(QuoteEscaped([c]), QuoteEscaped(t));
      QuoteEscapedAppend(WithoutBackticks([c]), WithoutBackticks(t));
      assert QuoteEscaped([c]) == (if c == '"' then ['\\', '"'] else [c]) by {
        assert [c][1..] == [];
      }
      assert WithoutBackticks([c]) == (if c == '`' then [] else [c]) by {
        assert [c][1..] == [];
      }
      if c == '"' {
        assert ['\\', '"'][1..] == ['"'] && ['"'][1..] == [];
      }
    }
  }

  /** The escaping works character by character. */
  lemma {:induction false} QuoteEscapedAppend(a: string, b: string)
    ensures QuoteEscaped(a + b) == QuoteEscaped(a) + QuoteEscaped(b)
  {
    if a != [] {
      QuoteEscapedAppend(a[1..], b);
      assert (a + b)[1..] == a[1..] + b;
    } else {
      assert a + b == b;
    }
  }

  /** So does the removal of backticks. */
  lemma {:induction false} WithoutBackticksAppend(a: string, b: string)
    ensures WithoutBackticks(a + b) == WithoutBackticks(a) + WithoutBackticks(b)
  {
    if a != [] {
      WithoutBackticksAppend(a[1..], b);
      assert (a + b)[1..] == a[1..] + b;
    } else {
      assert a + b == b;
    }
  }

  /** Every quote in `r` has a backslash in front of it. */
  predicate QuotesEscaped(r: string)
  {
    forall i :: 0 <= i < |r| && r[i] == '"' ==> 0 < i && r[i - 1] == '\\'
  }

  /** Escaped text has a backslash in front of every quote. */
  lemma {:induction false} QuoteEscapedQuotes(s: string)
    ensures QuotesEscaped(QuoteEscaped(s))
  {
    if s != [] {
      QuoteEscapedQuotes(s[1..]);
      var rest := QuoteEscaped(s[1..]);
      var head: string := if s[0] == '"' then ['\\', '"'] else [s[0]];
      var r := head + rest;
      assert QuoteEscaped(s) == r;
      forall i | 0 <= i < |r| && r[i] == '"'
        ensures 0 < i && r[i - 1] == '\\'
      {
        if i >= |head| {
          var j := i - |head|;
          assert rest[j] == '"';
          assert r[i - 1] == rest[j - 1];
        } else if s[0] == '"' {
          assert r[0] == '\\' && r[1] == '"';
        }
      }
    }
  }

  /** Escaping quotes adds backslashes and nothing else. */
  lemma {:induction false} QuoteEscapedAdds(s: string, c: char)
    requires c != '\\' && c !in s
    ensures c !in QuoteEscaped(s)
  {
    if s != [] {
      assert c !in s[1..] by { assert forall x :: x in s[1..] ==> x in s; }
      QuoteEscapedAdds(s[1..], c);
    }
  }

  /** Text without backticks keeps none after the removal. */
  lemma {:induction false} WithoutBackticksNone(s: string)
    ensures '`' !in WithoutBackticks(s)
  {
    if s != [] {
      WithoutBackticksNone(s[1..]);
    }
  }

  /** What the escaping leaves in the text handed to `say`: no backtick, a
      backslash before every double quote, and no leading '-' that `say`
      would read as an option. Other characters the shell interprets inside
      double quotes, such as '$' and '\\', pass through unchanged. */
  lemma SpeakTextSafe(text: string)
    ensures var r := SpeakText(text);
      && '`' !in r
      && (r == [] || r[0] != '-')
      && QuotesEscaped(r)
  {
    var u := WithoutBackticks(text);
    WithoutBackticksNone(text);
    EscapeCommutes(text);
    QuoteEscapedQuotes(u);
    var t := QuoteEscaped(u);
    QuoteEscapedAdds(u, '`');
    if t != [] && t[0] == '-' {
      var r := "\\" + t;
      forall i | 0 <= i < |r| && r[i] == '"' ensures 0 < i && r[i - 1] == '\\' {
        assert i > 0 && r[i] == t[i - 1] && t[0] == '-';
        if i - 1 > 0 {
          assert r[i - 1] == t[i - 2];
        }
      }
    }
  }

  /** Text without quotes is not changed by the escaping. */
  lemma {:induction false} QuoteEscapedPlain(s: string)
    requires '"' !in s
    ensures QuoteEscaped(s) == s
  {
    if s != [] {
      assert s[0] != '"';
      assert '"' !in s[1..] by { assert forall c :: c in s[1..] ==> c in s; }
      QuoteEscapedPlain(s[1..]);
      assert s == [s[0]] + s[1..];
    }
  }

  /** Text without backticks is not changed by their removal. */
  lemma {:induction false} WithoutBackticksPlain(s: string)
    requires '`' !in s
    ensures WithoutBackticks(s) == s
  {
    if s != [] {
      assert s[0] != '`';
      assert '`' !in s[1..] by { assert forall c :: c in s[1..] ==> c in s; }
      WithoutBackticksPlain(s[1..]);
      assert s == [s[0]] + s[1..];
    }
  }

  /** Text with no quote, no backtick and no leading '-' is spoken as it is. */
  lemma SpeakPlain(s: string)
    requires '"' !in s && '`' !in s && (s == [] || s[0] != '-')
    ensures SpeakText(s) == s
  {
    QuoteEscapedPlain(s);
    WithoutBackticksPlain(s);
  }

  /** The escaping leaves a command substitution alone: it reaches the
      double-quoted `say` command line as it is. */
  lemma SubstitutionPassesThrough()
    ensures SpeakText("$(touch x)") == "$(touch x)"
  {
    var t := "$(touch x)";
    assert |t| == 10 && t[0] == '$';
    assert forall i :: 0 <= i < 10 ==> t[i] in "$(touchx) ";
    SpeakPlain(t);
  }

  /** `voice`: nothing for empty text, with voice off, inside a code block
      or for a bare fence; otherwise one `say` of the escaped text. */
  function Voice(v: Voicing, inCode: bool, text: string): (es: seq<Event>)
  {
    if text == "" || !v.useVoice || inCode || text == Fence || text == HalfFence then []
    else [Speak(SpeakText(text))]
  }

  /** The line without one trailing newline, if it has one. */
  function DropNewline(line: string): string
  {
    if line != [] && line[|line| - 1] == '\n' then line[..|line| - 1] else line
  }

  /** Exactly one trailing newline is dropped, and only if there is one. */
  lemma DropNewlineSpec(line: string)
    ensures line != [] && line[|line| - 1] == '\n' ==> DropNewline(line) + "\n" == line
    ensures (line == [] || line[|line| - 1] != '\n') ==> DropNewline(line) == line
  {
  }

  /** `print_code_response`: a bare "\n" at the head of a block is skipped;
      any other line is counted and emitted without its trailing newline. */
  function PrintCode(r: Response): (o: Outcome)
  {
    if r.line == "\n" && r.codeIdx == 0 then Outcome(r, [])
    else
      var l := DropNewline(r.line);
      Outcome(r.(codeIdx := r.codeIdx + 1, line := l), [CodeLine(l)])
  }

  /** The toggle test: the accumulated line, stripped, is a fence. */
  predicate AtFence(r: Response, frag: string) {
    Strip(r.line + frag) == Fence
  }

  /** A fragment ends a line when it holds a newline or is the final flush. */
  predicate EndOfLine(frag: string, end: bool) {
    end || '\n' in frag
  }

  /** A fragment ends a sentence when it ends a line or holds a period. */
  predicate EndOfSentence(frag: string, end: bool) {
    EndOfLine(frag, end) || '.' in frag
  }

  /** The fence branch: flip the mode, restart the code line count, clear the
      line (the sentence keeps the fragment) and force the fence onto the
      display. */
  function Toggle(v: Voicing, r: Response, frag: string): Outcome
  {
    Outcome(r.(line := "", sentence := r.sentence + frag, inCode := !r.inCode, codeIdx := 0),
            PrintChat(v, r.start, Strip(frag) + "\n", true))
  }

  /** The fragment is displayed outside a code block, and a "``" inside one. */
  function Shown(v: Voicing, r: Response, frag: string): seq<Event>
  {
    if !r.inCode || frag == HalfFence then PrintChat(v, r.start, frag, false) else []
  }

  /** The end-of-line branch on a state whose line is complete: a code line
      inside a block, the line voiced under the newline policy outside one;
      the line is cleared either way. */
  function LineEnd(v: Voicing, r: Response): Outcome
  {
    if r.inCode then
      var c := PrintCode(r);
      Outcome(c.state.(line := ""), c.events)
    else Outcome(r.(line := ""), if v.stop == Newline then Voice(v, r.inCode, r.line) else [])
  }

  /** The end-of-sentence branch, on a state that already holds the
      fragment: the first sentence is over, an end of line is handled, the
      sentence is voiced under the period policy and cleared. */
  function SentenceEnd(v: Voicing, r: Response, eol: bool): Outcome
  {
    var r1 := r.(firstSentence := false);
    var a := if eol then LineEnd(v, r1) else Outcome(r1, []);
    var spoken := if v.stop == Period then Voice(v, r.inCode, r.sentence) else [];
    Outcome(a.state.(sentence := ""), a.events + spoken)
  }

  /** The sentence voiced at its end under the period policy. */
  function SentenceVoice(v: Voicing, r: Response): seq<Event>
  {
    if v.stop == Period then Voice(v, r.inCode, r.sentence) else []
  }

  /** `SentenceEnd` as the end of line, if there is one, followed by the
      voicing of the sentence, which the end of line leaves alone. */
  lemma SentenceEndInParts(v: Voicing, r: Response, eol: bool)
    ensures var r1 := r.(firstSentence := false);
      var a := if eol then LineEnd(v, r1) else Outcome(r1, []);
      && a.state.sentence == r.sentence && a.state.inCode == r.inCode
      && SentenceEnd(v, r, eol) == Outcome(a.state.(sentence := ""), a.events + SentenceVoice(v, a.state))
  {
  }

  /** The branch for a fragment that does not complete a fence. */
  function Advance(v: Voicing, r: Response, frag: string, end: bool): Outcome
  {
    var shown := Shown(v, r, frag);
    var r1 := r.(line := r.line + frag, sentence := r.sentence + frag);
    if !EndOfSentence(frag, end) then Outcome(r1, shown)
    else
      var e := SentenceEnd(v, r1, EndOfLine(frag, end));
      Outcome(e.state, shown + e.events)
  }

  /** `Advance` as the display of the fragment followed by the end of
      sentence, if the fragment marks one. */
  lemma AdvanceInParts(v: Voicing, r: Response, frag: string, end: bool)
    ensures var r1 := r.(line := r.line + frag, sentence := r.sentence + frag);
      var e := SentenceEnd(v, r1, EndOfLine(frag, end));
      && (EndOfSentence(frag, end) ==> Advance(v, r, frag, end) == Outcome(e.state, Shown(v, r, frag) + e.events))
      && (!EndOfSentence(frag, end) ==> Advance(v, r, frag, end) == Outcome(r1, Shown(v, r, frag)))
  {
  }

  /** `handle_response_line(frag, end)`. */
  function Step(v: Voicing, r: Response, frag: string, end: bool): Outcome
  {
    if AtFence(r, frag) then Toggle(v, r, frag) else Advance(v, r, frag, end)
  }

  /** The fragments `handle_completion` classifies: all but a "\n" at index 0. */
  function Kept(frags: seq<string>): (k: seq<string>)
    ensures frags == [] ==> k == []
    ensures frags != [] ==> k == (if frags[0] == "\n" then frags[1..] else frags)
  {
    if frags != [] && frags[0] == "\n" then frags[1..] else frags
  }

  /** The fragments kept from a prefix grow by one fragment per index, except
      for a bare newline at index 0. */
  lemma KeptSnoc(frags: seq<string>, i: nat)
    requires i < |frags|
    ensures Kept(frags[..i + 1]) ==
      if i == 0 && frags[0] == "\n" then Kept(frags[..i]) else Kept(frags[..i]) + [frags[i]]
  {
    if i > 0 && frags[0] == "\n" {
      assert frags[..i + 1][1..] == frags[..i][1..] + [frags[i]];
    }
  }

  /** Classifying the fragments in order, each by `handle_response_line(frag)`
      followed by clearing `resp_start`, and collecting the events. */
  function Feed(v: Voicing, r: Response, frags: seq<string>): Outcome
    decreases |frags|
  {
    if frags == [] then Outcome(r, [])
    else
      var o := Feed(v, r, frags[..|frags| - 1]);
      var s := Step(v, o.state, frags[|frags| - 1], false);
      Outcome(s.state.(start := false), o.events + s.events)
  }

  /** The state at the start of a response (`reset_response_state` and the
      first lines of `handle_completion`); `in_code_block` is kept. */
  function Begin(r: Response): (b: Response)
    ensures b.inCode == r.inCode
    ensures b.line == "" && b.sentence == "" && b.start && b.firstSentence && b.codeIdx == 0
  {
    r.(line := "", sentence := "", start := true, firstSentence := true, codeIdx := 0)
  }

  /** The state after an abort (`reset_response_state`). */
  function Abandon(r: Response): (b: Response)
    ensures b.line == "" && b.sentence == "" && b.start
    ensures b.inCode == r.inCode && b.codeIdx == r.codeIdx && b.firstSentence == r.firstSentence
  {
    r.(line := "", sentence := "", start := true)
  }

  /** The final `handle_response_line('', end=True)` for a pending line. */
  function Flush(v: Voicing, r: Response): Outcome
  {
    if r.line != "" then Step(v, r, "", true) else Outcome(r, [])
  }

  /** A whole response that was not aborted. */
  function Respond(v: Voicing, r: Response, frags: seq<string>): Outcome
  {
    var o := Feed(v, Begin(r), Kept(frags));
    var f := Flush(v, o.state);
    Outcome(f.state, o.events + f.events)
  }

  // ---------------------------------------------------------------------
  // Properties of one step

  /** When the accumulated line strips to a fence, the step flips the mode,
      restarts the code line count, clears the line, keeps the fragment in
      the sentence and displays the stripped fragment with a newline, even
      under voice-over; nothing else is emitted. */
  lemma StepAtFence(v: Voicing, r: Response, frag: string, end: bool)
    requires AtFence(r, frag)
    ensures Step(v, r, frag, end).state ==
      r.(inCode := !r.inCode, codeIdx := 0, line := "", sentence := r.sentence + frag)
    ensures Step(v, r, frag, end).events == [Display(Strip(frag) + "\n")]
  {
    var t := Strip(frag) + "\n";
    assert t != HalfFence by { assert t[|t| - 1] == '\n'; }
    AddGptPrefixShape(t, false);
  }

  /** Away from a fence the mode is kept, and the line and sentence buffers
      follow the fragment's boundaries: a newline or `end` clears the line,
      and that or a period clears the sentence and ends the first sentence;
      the code line count moves only at a code line. */
  lemma StepBoundaries(v: Voicing, r: Response, frag: string, end: bool)
    requires !AtFence(r, frag)
    ensures var s := Step(v, r, frag, end).state;
      var eol := EndOfLine(frag, end);
      var eos := EndOfSentence(frag, end);
      && s.inCode == r.inCode && s.start == r.start
      && (eol ==> s.line == "")
      && (!eol ==> s.line == r.line + frag)
      && (eos ==> s.sentence == "" && !s.firstSentence)
      && (!eos ==> s.sentence == r.sentence + frag && s.firstSentence == r.firstSentence)
      && (s.codeIdx != r.codeIdx ==> eol && r.inCode && s.codeIdx == r.codeIdx + 1)
  {
  }

  /** The state after a step away from a fence, field by field. */
  lemma AdvanceState(v: Voicing, r: Response, frag: string, end: bool)
    requires !AtFence(r, frag)
    ensures var eol := EndOfLine(frag, end);
      var eos := EndOfSentence(frag, end);
      var coded := eol && r.inCode && !(r.line + frag == "\n" && r.codeIdx == 0);
      Step(v, r, frag, end).state == Response(
        if eol then "" else r.line + frag,
        if eos then "" else r.sentence + frag,
        r.inCode,
        r.firstSentence && !eos,
        if coded then r.codeIdx + 1 else r.codeIdx,
        r.start)
  {
  }

  /** Code-block mode flips exactly where the accumulated line strips to a
      fence. */
  lemma StepTogglesOnlyAtFence(v: Voicing, r: Response, frag: string, end: bool)
    ensures Step(v, r, frag, end).state.inCode != r.inCode <==> AtFence(r, frag)
  {
    if !AtFence(r, frag) {
      AdvanceKeepsMode(v, r, frag, end);
    }
  }

  /** A fragment that does not complete a fence leaves the mode alone. */
  lemma AdvanceKeepsMode(v: Voicing, r: Response, frag: string, end: bool)
    ensures Advance(v, r, frag, end).state.inCode == r.inCode
  {
    AdvanceInParts(v, r, frag, end);
    SentenceEndInParts(v, r.(line := r.line + frag, sentence := r.sentence + frag), EndOfLine(frag, end));
  }

  /** The end-of-line events of a step that does not complete a fence. */
  function LineEvents(v: Voicing, r: Response, frag: string, end: bool): seq<Event>
  {
    if EndOfLine(frag, end) then
      LineEnd(v, r.(line := r.line + frag, sentence := r.sentence + frag, firstSentence := false)).events
    else []
  }

  /** The sentence voiced by a step that does not complete a fence. */
  function Spoken(v: Voicing, r: Response, frag: string, end: bool): seq<Event>
  {
    if EndOfSentence(frag, end) && v.stop == Period then Voice(v, r.inCode, r.sentence + frag) else []
  }

  /** The events of a step away from a fence, in their three parts. */
  lemma AdvanceEvents(v: Voicing, r: Response, frag: string, end: bool)
    requires !AtFence(r, frag)
    ensures Step(v, r, frag, end).events ==
      Shown(v, r, frag) + LineEvents(v, r, frag, end) + Spoken(v, r, frag, end)
  {
  }

  /** The three projections of an event list of at most one event. */
  lemma Projections(es: seq<Event>)
    requires |es| <= 1
    ensures Displays(es) == (if es != [] && es[0].Display? then [es[0].text] else [])
    ensures CodeLines(es) == (if es != [] && es[0].CodeLine? then [es[0].text] else [])
    ensures Speeches(es) == (if es != [] && es[0].Speak? then [es[0].text] else [])
  {
    if es != [] {
      assert es[..0] == [];
    }
  }

  /** The projections of three concatenated parts. */
  lemma ProjectionsOf3(a: seq<Event>, b: seq<Event>, c: seq<Event>)
    ensures Displays(a + b + c) == Displays(a) + Displays(b) + Displays(c)
    ensures CodeLines(a + b + c) == CodeLines(a) + CodeLines(b) + CodeLines(c)
    ensures Speeches(a + b + c) == Speeches(a) + Speeches(b) + Speeches(c)
  {
    DisplaysAppend(a + b, c);
    DisplaysAppend(a, b);
    CodeLinesAppend(a + b, c);
    CodeLinesAppend(a, b);
    SpeechesAppend(a + b, c);
    SpeechesAppend(a, b);
  }

  lemma ShownProjections(v: Voicing, r: Response, frag: string)
    ensures Displays(Shown(v, r, frag)) ==
      if (!r.inCode || frag == HalfFence) && !v.voiceOver
      then [if r.start && frag == HalfFence then "\n" + frag else frag]
      else []
    ensures CodeLines(Shown(v, r, frag)) == [] && Speeches(Shown(v, r, frag)) == []
  {
    AddGptPrefixShape(frag, false);
    Projections(Shown(v, r, frag));
  }

  /** Displaying a fragment voices nothing. */
  lemma ShownSilent(v: Voicing, r: Response, frag: string)
    ensures !Spoke(Shown(v, r, frag))
  {
    ShownProjections(v, r, frag);
    SpokeSpeeches(Shown(v, r, frag));
  }

  lemma LineEventsProjections(v: Voicing, r: Response, frag: string, end: bool)
    ensures var line := r.line + frag;
      var emit := EndOfLine(frag, end) && r.inCode && !(line == "\n" && r.codeIdx == 0);
      CodeLines(LineEvents(v, r, frag, end)) == (if emit then [DropNewline(line)] else [])
    ensures Displays(LineEvents(v, r, frag, end)) == []
    ensures Speeches(LineEvents(v, r, frag, end)) ==
      if EndOfLine(frag, end) && !r.inCode && v.stop == Newline then Speeches(Voice(v, false, r.line + frag)) else []
  {
    Projections(LineEvents(v, r, frag, end));
    Projections(Voice(v, false, r.line + frag));
  }

  lemma SpokenProjections(v: Voicing, r: Response, frag: string, end: bool)
    ensures Displays(Spoken(v, r, frag, end)) == [] && CodeLines(Spoken(v, r, frag, end)) == []
    ensures Speeches(Spoken(v, r, frag, end)) ==
      if EndOfSentence(frag, end) && v.stop == Period then Speeches(Voice(v, r.inCode, r.sentence + frag)) else []
  {
    Projections(Spoken(v, r, frag, end));
  }

  lemma StepDisplays(v: Voicing, r: Response, frag: string, end: bool)
    requires !AtFence(r, frag)
    ensures Displays(Step(v, r, frag, end).events) ==
      if (!r.inCode || frag == HalfFence) && !v.voiceOver
      then [if r.start && frag == HalfFence then "\n" + frag else frag]
      else []
  {
    AdvanceEvents(v, r, frag, end);
    ProjectionsOf3(Shown(v, r, frag), LineEvents(v, r, frag, end), Spoken(v, r, frag, end));
    ShownProjections(v, r, frag);
    LineEventsProjections(v, r, frag, end);
    SpokenProjections(v, r, frag, end);
  }

  lemma StepCodeLines(v: Voicing, r: Response, frag: string, end: bool)
    requires !AtFence(r, frag)
    ensures var line := r.line + frag;
      var emit := EndOfLine(frag, end) && r.inCode && !(line == "\n" && r.codeIdx == 0);
      CodeLines(Step(v, r, frag, end).events) == (if emit then [DropNewline(line)] else [])
  {
    AdvanceEvents(v, r, frag, end);
    ProjectionsOf3(Shown(v, r, frag), LineEvents(v, r, frag, end), Spoken(v, r, frag, end));
    ShownProjections(v, r, frag);
    LineEventsProjections(v, r, frag, end);
    SpokenProjections(v, r, frag, end);
  }

  lemma StepSpeaks(v: Voicing, r: Response, frag: string, end: bool)
    requires !AtFence(r, frag)
    ensures Speeches(Step(v, r, frag, end).events) ==
      (if EndOfLine(frag, end) && !r.inCode && v.stop == Newline
       then Speeches(Voice(v, false, r.line + frag)) else []) +
      (if EndOfSentence(frag, end) && v.stop == Period
       then Speeches(Voice(v, r.inCode, r.sentence + frag)) else [])
  {
    AdvanceEvents(v, r, frag, end);
    ProjectionsOf3(Shown(v, r, frag), LineEvents(v, r, frag, end), Spoken(v, r, frag, end));
    ShownProjections(v, r, frag);
    LineEventsProjections(v, r, frag, end);
    SpokenProjections(v, r, frag, end);
  }

  /** `voice` emits nothing exactly in its four filtered cases, and otherwise
      the escaped text once. */
  lemma VoiceFilter(v: Voicing, inCode: bool, text: string)
    ensures Voice(v, inCode, text) == [] <==>
      text == "" || !v.useVoice || inCode || text == Fence || text == HalfFence
    ensures Voice(v, inCode, text) != [] ==>
      Speeches(Voice(v, inCode, text)) == [SpeakText(text)]
  {
  }

  // ---------------------------------------------------------------------
  // Properties of whole responses

  /** A fence needs a backtick: while neither the pending line nor any
      fragment holds one, the mode never changes and no line gets one. */
  lemma {:induction false} NoBacktickNoToggle(v: Voicing, r: Response, frags: seq<string>)
    requires '`' !in r.line
    requires forall i :: 0 <= i < |frags| ==> '`' !in frags[i]
    ensures Feed(v, r, frags).state.inCode == r.inCode
    ensures '`' !in Feed(v, r, frags).state.line
    decreases |frags|
  {
    if frags != [] {
      var init := frags[..|frags| - 1];
      NoBacktickNoToggle(v, r, init);
      var o := Feed(v, r, init);
      var f := frags[|frags| - 1];
      if Strip(o.state.line + f) == Fence {
        assert '`' in Fence;
        StripKeeps(o.state.line + f, '`');
        assert false;
      }
      StepBoundaries(v, o.state, f, false);
    }
  }

  lemma FeedSnoc(v: Voicing, r: Response, a: seq<string>, f: string)
    ensures var o := Feed(v, r, a);
      var s := Step(v, o.state, f, false);
      Feed(v, r, a + [f]) == Outcome(s.state.(start := false), o.events + s.events)
  {
    assert (a + [f])[..|a|] == a;
  }

  /** `resp_start` holds only until the first fragment is classified. */
  lemma FeedStart(v: Voicing, r: Response, frags: seq<string>)
    ensures Feed(v, r, frags).state.start == (if frags == [] then r.start else false)
  {
  }

  /** The fragments of a response are classified one after another: feeding
      a sequence in two parts is feeding it whole. */
  lemma {:induction false} FeedAppend(v: Voicing, r: Response, a: seq<string>, b: seq<string>)
    ensures Feed(v, r, a + b).state == Feed(v, Feed(v, r, a).state, b).state
    ensures Feed(v, r, a + b).events == Feed(v, r, a).events + Feed(v, Feed(v, r, a).state, b).events
    decreases |b|
  {
    if b == [] {
      assert a + b == a;
    } else {
      var b', f := b[..|b| - 1], b[|b| - 1];
      assert a + b == (a + b') + [f];
      assert b == b' + [f];
      FeedAppend(v, r, a, b');
      var ra := Feed(v, r, a).state;
      FeedSnoc(v, r, a + b', f);
      FeedSnoc(v, ra, b', f);
      var s := Step(v, Feed(v, r, a + b').state, f, false);
      assert Step(v, Feed(v, ra, b').state, f, false) == s;
      Assoc(Feed(v, r, a).events, Feed(v, ra, b').events, s.events);
    }
  }

  /** Text without whitespace at either end is its own `strip()`. */
  lemma StripUnchanged(s: string)
    requires s != [] && '!' <= s[0] <= '~' && '!' <= s[|s| - 1] <= '~'
    ensures Strip(s) == s
  {
    PrintableNotSpace(s[0]);
    PrintableNotSpace(s[|s| - 1]);
  }

  /** A fence fragment on an empty line toggles. */
  lemma FenceStep(v: Voicing, r: Response)
    requires r.line == ""
    ensures Step(v, r, Fence, false) == Outcome(
      r.(inCode := !r.inCode, codeIdx := 0, sentence := r.sentence + Fence),
      [Display("```\n")])
  {
    assert r.line + Fence == Fence;
    StripUnchanged(Fence);
    StepAtFence(v, r, Fence, false);
    assert Fence + "\n" == "```\n";
  }

  /** A fragment that neither completes a fence nor ends a sentence is only
      buffered, and shown outside a code block. */
  lemma PlainStep(v: Voicing, r: Response, frag: string)
    requires !AtFence(r, frag) && !EndOfSentence(frag, false)
    ensures Step(v, r, frag, false) == Outcome(
      r.(line := r.line + frag, sentence := r.sentence + frag), Shown(v, r, frag))
  {
  }

  /** A newline inside a code block after a started line emits that line. */
  lemma CodeLineStep(v: Voicing, r: Response)
    requires r.inCode && r.line != "" && !AtFence(r, "\n")
    ensures Step(v, r, "\n", false) == Outcome(
      r.(line := "", sentence := "", firstSentence := false, codeIdx := r.codeIdx + 1),
      [CodeLine(r.line)])
  {
    var l := r.line + "\n";
    assert l != "\n" by { assert |l| > 1; }
    assert DropNewline(l) == r.line by { assert l[..|l| - 1] == r.line; }
    assert Shown(v, r, "\n") == [];
  }

  /** Feeding a fence on an empty line. */
  lemma FeedFence(v: Voicing, r: Response, a: seq<string>)
    requires Feed(v, r, a).state.line == ""
    ensures var o := Feed(v, r, a);
      Feed(v, r, a + [Fence]) == Outcome(
        o.state.(inCode := !o.state.inCode, codeIdx := 0, sentence := o.state.sentence + Fence, start := false),
        o.events + [Display("```\n")])
  {
    FenceStep(v, Feed(v, r, a).state);
    FeedSnoc(v, r, a, Fence);
  }

  /** Text that is neither a fence nor a boundary, arriving on an empty line
      inside a code block, only accumulates. */
  lemma CodeTextStep(v: Voicing, s: Response, p: string)
    requires s.line == "" && s.inCode && Strip(p) == p && |p| != |Fence| && p != HalfFence
    requires '\n' !in p && '.' !in p
    ensures Step(v, s, p, false) == Outcome(s.(line := p, sentence := s.sentence + p), [])
  {
    assert s.line + p == p;
    PlainStep(v, s, p);
  }

  /** "print(1)" on an empty line inside a code block only accumulates. */
  lemma PrintStep(v: Voicing, s: Response)
    requires s.line == "" && s.inCode
    ensures Step(v, s, "print(1)", false) == Outcome(
      s.(line := "print(1)", sentence := s.sentence + "print(1)"), [])
  {
    var p := "print(1)";
    StripUnchanged(p);
    assert forall i :: 0 <= i < |p| ==> p[i] != '\n' && p[i] != '.';
    CodeTextStep(v, s, p);
  }

  /** Feeding "print(1)" on an empty line inside a code block. */
  lemma FeedPrint(v: Voicing, r: Response, a: seq<string>)
    requires Feed(v, r, a).state.line == "" && Feed(v, r, a).state.inCode
    ensures var o := Feed(v, r, a);
      Feed(v, r, a + ["print(1)"]) == Outcome(
        o.state.(line := "print(1)", sentence := o.state.sentence + "print(1)", start := false),
        o.events)
  {
    var o := Feed(v, r, a);
    PrintStep(v, o.state);
    FeedSnoc(v, r, a, "print(1)");
    assert o.events + [] == o.events;
  }

  /** Feeding "\n" after a non-fence line inside a code block. */
  lemma FeedCodeLine(v: Voicing, r: Response, a: seq<string>)
    requires var s := Feed(v, r, a).state;
      s.inCode && s.line != "" && Strip(s.line + "\n") != Fence
    ensures var o := Feed(v, r, a);
      Feed(v, r, a + ["\n"]) == Outcome(
        o.state.(line := "", sentence := "", firstSentence := false, codeIdx := o.state.codeIdx + 1, start := false),
        o.events + [CodeLine(o.state.line)])
  {
    CodeLineStep(v, Feed(v, r, a).state);
    FeedSnoc(v, r, a, "\n");
  }

  /** A stripped "print(1)" line is not a fence. */
  lemma PrintLineNoFence()
    ensures Strip("print(1)" + "\n") == "print(1)"
  {
    var p := "print(1)";
    StripUnchanged(p);
    assert RStrip(p + "\n") == RStrip(p) by { assert (p + "\n")[..|p|] == p; }
  }

  /** A response whose first fragment is not a bare newline and whose last
      line is complete needs no flush: it is the fold of its fragments. */
  lemma RespondWhole(v: Voicing, r: Response, frags: seq<string>)
    requires frags != [] && frags[0] != "\n"
    requires Feed(v, Begin(r), frags).state.line == ""
    ensures Respond(v, r, frags) == Feed(v, Begin(r), frags)
  {
  }

  /** A response fed in two parts voices what each part voices, in order,
      followed by what the final flush of its pending line voices. Only the
      first part can lose a leading "\n". */
  lemma RespondInTwo(v: Voicing, r: Response, first: seq<string>, second: seq<string>)
    requires first != []
    ensures var o1 := Feed(v, Begin(r), Kept(first));
      var o2 := Feed(v, o1.state, second);
      Speeches(Respond(v, r, first + second).events) ==
        Speeches(o1.events) + Speeches(o2.events) + Speeches(Flush(v, o2.state).events)
  {
    var o1 := Feed(v, Begin(r), Kept(first));
    var o2 := Feed(v, o1.state, second);
    assert (first + second)[0] == first[0];
    assert Kept(first + second) == Kept(first) + second by {
      if first[0] == "\n" {
        assert (first + second)[1..] == first[1..] + second;
      }
    }
    FeedAppend(v, Begin(r), Kept(first), second);
    SpeechesAppend(o1.events + o2.events, Flush(v, o2.state).events);
    SpeechesAppend(o1.events, o2.events);
  }

  /** Opening a block with a fence and one code line, from an empty line:
      the fence is displayed (even under voice-over) and the line goes to the
      highlighter. */
  lemma OpenBlockFeed(v: Voicing, b: Response)
    requires b.line == "" && !b.inCode
    ensures Feed(v, b, ["```", "print(1)", "\n"]) == Outcome(
      b.(inCode := true, codeIdx := 1, sentence := "", firstSentence := false, start := false),
      [Display("```\n"), CodeLine("print(1)")])
  {
    var f1: seq<string> := [Fence];
    var f2: seq<string> := [Fence, "print(1)"];
    var s1 := b.(inCode := true, codeIdx := 0, sentence := b.sentence + Fence, start := false);
    var e1 := [Display("```\n")];
    assert Feed(v, b, f1) == Outcome(s1, e1) by {
      assert [] + [Fence] == f1;
      FeedFence(v, b, []);
    }
    var s2 := s1.(line := "print(1)", sentence := s1.sentence + "print(1)");
    assert Feed(v, b, f2) == Outcome(s2, e1) by {
      assert f1 + ["print(1)"] == f2;
      FeedPrint(v, b, f1);
    }
    assert f2 + ["\n"] == ["```", "print(1)", "\n"];
    PrintLineNoFence();
    FeedCodeLine(v, b, f2);
  }

  /** A fenced block delivered as ["```", "print(1)", "\n", "```"] opens and
      closes the block and emits the one code line; the fences are shown and
      nothing is voiced. */
  lemma CodeBlockExample(v: Voicing, r: Response)
    requires !r.inCode
    ensures var o := Respond(v, r, ["```", "print(1)", "\n", "```"]);
      && o.events == [Display("```\n"), CodeLine("print(1)"), Display("```\n")]
      && !o.state.inCode
  {
    var frags := ["```", "print(1)", "\n", "```"];
    var b := Begin(r);
    assert frags[..3] == ["```", "print(1)", "\n"];
    OpenBlockFeed(v, b);
    assert frags[..3] + [Fence] == frags;
    FeedFence(v, b, frags[..3]);
    RespondWhole(v, r, frags);
  }

  /** A response that opens a block and ends inside it. */
  lemma OpenBlockExample(v: Voicing, r: Response)
    requires !r.inCode
    ensures var o := Respond(v, r, ["```", "print(1)", "\n"]);
      && o.state.inCode
      && o.events == [Display("```\n"), CodeLine("print(1)")]
  {
    OpenBlockFeed(v, Begin(r));
    RespondWhole(v, r, ["```", "print(1)", "\n"]);
  }

  /** The code-block mode survives the start of the next response: once a
      response leaves a block open, the next response's text, up to a
      backtick, is neither displayed nor voiced and the block stays open. */
  lemma UnbalancedBlockCarriesOver(v: Voicing, r: Response, frags: seq<string>)
    requires r.inCode
    requires forall i :: 0 <= i < |frags| ==> '`' !in frags[i]
    ensures var o := Respond(v, r, frags);
      o.state.inCode && Displays(o.events) == [] && Speeches(o.events) == []
  {
    var b := Begin(r);
    var k := Kept(frags);
    assert forall i :: 0 <= i < |k| ==> '`' !in k[i] by {
      if frags != [] && frags[0] == "\n" {
        assert forall i :: 0 <= i < |k| ==> k[i] == frags[i + 1];
      }
    }
    InBlockQuiet(v, b, k);
    var o := Feed(v, b, k);
    var f := Flush(v, o.state);
    assert Respond(v, r, frags) == Outcome(f.state, o.events + f.events);
    if o.state.line != "" {
      assert !AtFence(o.state, "") by {
        assert o.state.line + "" == o.state.line;
        if AtFence(o.state, "") {
          StripKeeps(o.state.line + "", '`');
        }
      }
      StepDisplays(v, o.state, "", true);
      StepSpeaks(v, o.state, "", true);
      StepBoundaries(v, o.state, "", true);
    } else {
      assert f.events == [];
    }
    DisplaysAppend(o.events, f.events);
    SpeechesAppend(o.events, f.events);
  }

  /** Inside a block, fragments without a backtick are neither displayed nor
      voiced, and the block stays open. */
  lemma {:induction false} InBlockQuiet(v: Voicing, r: Response, frags: seq<string>)
    requires r.inCode && '`' !in r.line
    requires forall i :: 0 <= i < |frags| ==> '`' !in frags[i]
    ensures var o := Feed(v, r, frags);
      && o.state.inCode && '`' !in o.state.line
      && Displays(o.events) == [] && Speeches(o.events) == []
    decreases |frags|
  {
    if frags != [] {
      var init, f := frags[..|frags| - 1], frags[|frags| - 1];
      InBlockQuiet(v, r, init);
      var o := Feed(v, r, init);
      var s := Step(v, o.state, f, false);
      assert Feed(v, r, frags) == Outcome(s.state.(start := false), o.events + s.events);
      assert '`' !in f;
      if AtFence(o.state, f) {
        assert '`' in Fence;
        StripKeeps(o.state.line + f, '`');
        assert false;
      }
      StepTogglesOnlyAtFence(v, o.state, f, false);
      StepDisplays(v, o.state, f, false);
      StepSpeaks(v, o.state, f, false);
      DisplaysAppend(o.events, s.events);
      SpeechesAppend(o.events, s.events);
    }
  }

  /** A prose fragment outside a block under the period policy: the mode is
      kept, and what is voiced is the sentence it completes, if it completes
      one. */
  lemma ProseStep(v: Voicing, s: Response, p: string)
    requires !s.inCode && v.stop == Period && '`' !in s.line && '`' !in p
    ensures var o := Step(v, s, p, false);
      && !o.state.inCode && '`' !in o.state.line
      && (EndOfLine(p, false) ==> o.state.line == "")
      && o.state.sentence == (if EndOfSentence(p, false) then "" else s.sentence + p)
      && Speeches(o.events) ==
           (if EndOfSentence(p, false) then Speeches(Voice(v, false, s.sentence + p)) else [])
  {
    if AtFence(s, p) {
      assert '`' in Fence;
      StripKeeps(s.line + p, '`');
      assert false;
    }
    StepBoundaries(v, s, p, false);
    StepSpeaks(v, s, p, false);
  }

  /** Two prose fragments, the second of which ends the sentence the first
      began, voice that sentence once. */
  lemma TwoPartSentence(v: Voicing, s: Response, a: string, b: string)
    requires !s.inCode && v.stop == Period && '`' !in s.line && '`' !in a && '`' !in b
    requires !EndOfSentence(a, false) && EndOfSentence(b, false)
    ensures var o := Feed(v, s, [a, b]);
      && !o.state.inCode && '`' !in o.state.line && o.state.sentence == ""
      && (EndOfLine(b, false) ==> o.state.line == "")
      && Speeches(o.events) == Speeches(Voice(v, false, s.sentence + a + b))
  {
    var o0 := Feed(v, s, []);
    var s1 := Step(v, o0.state, a, false);
    assert Feed(v, s, [a]) == Outcome(s1.state.(start := false), o0.events + s1.events) by {
      FeedSnoc(v, s, [], a);
      assert [] + [a] == [a];
    }
    ProseStep(v, s, a);
    var o1 := Feed(v, s, [a]);
    var s2 := Step(v, o1.state, b, false);
    assert Feed(v, s, [a, b]) == Outcome(s2.state.(start := false), o1.events + s2.events) by {
      FeedSnoc(v, s, [a], b);
      assert [a] + [b] == [a, b];
    }
    ProseStep(v, o1.state, b);
    assert o1.state.sentence + b == s.sentence + a + b;
    SpeechesAppend(o0.events, s1.events);
    SpeechesAppend(o1.events, s2.events);
  }

  /** The four fragments of the voicing example hold no backtick, and only
      the second and the fourth end a sentence, the fourth also a line. */
  lemma ExampleFragments()
    ensures '`' !in "Hello" && !EndOfSentence("Hello", false)
    ensures '`' !in " world." && EndOfSentence(" world.", false)
    ensures '`' !in " Next" && !EndOfSentence(" Next", false)
    ensures '`' !in " sentence.\n" && EndOfLine(" sentence.\n", false) && EndOfSentence(" sentence.\n", false)
    ensures "" + "Hello" + " world." == "Hello world."
    ensures "" + " Next" + " sentence.\n" == " Next sentence.\n"
  {
    assert forall i :: 0 <= i < 5 ==> "Hello"[i] in "Helo";
    assert " world."[6] == '.';
    assert forall i :: 0 <= i < 7 ==> " world."[i] in " world.";
    assert forall i :: 0 <= i < 5 ==> " Next"[i] in " Next";
    assert " sentence.\n"[10] == '\n';
    assert forall i :: 0 <= i < 11 ==> " sentence.\n"[i] in " sentc.\n";
  }

  /** The characters of the example sentences are letters, spaces, '.' and
      a newline. */
  lemma ExampleSentence(t: string)
    requires t == "Hello world." || t == " Next sentence.\n"
    ensures t != "" && t != Fence && t != HalfFence
    ensures '"' !in t && '`' !in t && t[0] != '-'
  {
    if t == "Hello world." {
      assert |t| == 12 && t[0] == 'H';
      assert forall i :: 0 <= i < 12 ==> t[i] in "Helo wrd.";
    } else {
      assert |t| == 16 && t[0] == ' ';
      assert forall i :: 0 <= i < 16 ==> t[i] in " Nextsnc.\n";
    }
  }

  /** A plain sentence that is not a fence is voiced verbatim. */
  lemma ExampleVoice(v: Voicing, t: string)
    requires v.useVoice && t != "" && t != Fence && t != HalfFence
    requires '"' !in t && '`' !in t && t[0] != '-'
    ensures Speeches(Voice(v, false, t)) == [t]
  {
    VoiceFilter(v, false, t);
    SpeakPlain(t);
  }

  /** The first sentence of the voicing example, fed from a fresh sentence. */
  lemma ExampleFirst(v: Voicing, s: Response)
    requires v.useVoice && v.stop == Period && !s.inCode && '`' !in s.line && s.sentence == ""
    ensures var o := Feed(v, s, ["Hello", " world."]);
      && !o.state.inCode && '`' !in o.state.line && o.state.sentence == ""
      && Speeches(o.events) == ["Hello world."]
  {
    ExampleFragments();
    TwoPartSentence(v, s, "Hello", " world.");
    ExampleSentence("Hello world.");
    ExampleVoice(v, "Hello world.");
  }

  /** The second sentence of the voicing example ends the line as well. */
  lemma ExampleSecond(v: Voicing, s: Response)
    requires v.useVoice && v.stop == Period && !s.inCode && '`' !in s.line && s.sentence == ""
    ensures var o := Feed(v, s, [" Next", " sentence.\n"]);
      && o.state.line == "" && Speeches(o.events) == [" Next sentence.\n"]
  {
    ExampleFragments();
    TwoPartSentence(v, s, " Next", " sentence.\n");
    ExampleSentence(" Next sentence.\n");
    ExampleVoice(v, " Next sentence.\n");
  }

  /** Under the period policy the fragments ["Hello", " world.", " Next",
      " sentence.\n"] are voiced as exactly the two sentences "Hello
      world." and " Next sentence.\n". */
  lemma PeriodVoiceExample(v: Voicing, r: Response)
    requires v.useVoice && v.stop == Period && !r.inCode
    ensures Speeches(Respond(v, r, ["Hello", " world.", " Next", " sentence.\n"]).events) ==
      ["Hello world.", " Next sentence.\n"]
  {
    var first, second := ["Hello", " world."], [" Next", " sentence.\n"];
    assert first + second == ["Hello", " world.", " Next", " sentence.\n"];
    var b := Begin(r);
    ExampleFirst(v, b);
    ExampleSecond(v, Feed(v, b, first).state);
    assert Kept(first) == first;
    RespondInTwo(v, r, first, second);
  }

  /** The fence is recognised on the accumulated line, so one split over two
      fragments toggles too; the "``" half is displayed even inside a block
      so that a closing fence shows whole. */
  lemma SplitFenceToggles(v: Voicing, r: Response)
    requires r.line == "" && !r.start && !v.voiceOver
    ensures var o1 := Step(v, r, HalfFence, false);
      var o2 := Step(v, o1.state, "`", false);
      && o2.state.inCode == !r.inCode
      && o1.events + o2.events == [Display("``"), Display("`\n")]
  {
    StripUnchanged(HalfFence);
    StripUnchanged("`");
    assert r.line + HalfFence == HalfFence;
    assert !AtFence(r, HalfFence) by { assert |HalfFence| != |Fence|; }
    assert !EndOfSentence(HalfFence, false) by {
      assert forall i :: 0 <= i < |HalfFence| ==> HalfFence[i] == '`';
    }
    PlainStep(v, r, HalfFence);
    var o1 := Step(v, r, HalfFence, false);
    assert o1.events == [Display("``")];
    assert o1.state.line + "`" == Fence;
    StripUnchanged(Fence);
    StepAtFence(v, o1.state, "`", false);
    assert "`" + "\n" == "`\n";
  }
}
