/** The terminal object: its per-response fields, its transcript and its
    token budget, updated in place. Each method is proved against the
    functions of the Stream and Ledger modules; the console, the syntax
    highlighter and `say` are replaced by the ghost event log `events`. */
module Terminal {
  import opened Wrappers
  import opened Text
  import opened Enums
  import opened Output
  import opened Settings
  import opened Stream
  import opened Ledger

  /** How a completion request ended: the streamed fragments; the error
      message of the exception the request itself raised; or fragments
      streamed before reading the stream raised an exception. */
  datatype Reply =
    | Streamed(frags: seq<string>)
    | Failed(error: string)
    | Broken(frags: seq<string>, error: string)
  {
    /** The exception that ends a stream, if any. */
    function StreamError(): Option<string>
      requires !Failed?
    {
      if Broken? then Some(error) else None
    }
  }

  /** `print_error`'s console line. */
  function ErrorLine(e: string): string {
    "[bold red]*** got error: " + e + " ***[/]"
  }

  const MaxTokensMessage := "[bold red]*** reached max tokens. resetting chat context ***[/]"

  /** The classifier state a stream of `frags` leaves, and the events it
      logs, when the response began in state `r`, `n` fragments were taken
      from it and reading it ends with `error` (`None` for a normal end):
      cut short by a failed `say`, it is abandoned; complete and ending
      normally, it is `Respond`; complete and ending in an exception, it
      is fed but not flushed, and the error is reported. */
  function AnswerOutcome(v: Stream.Voicing, r: Response, frags: seq<string>, n: nat, error: Option<string>): Outcome
    requires n <= |frags|
  {
    if n < |frags| then
      var o := Feed(v, Begin(r), Kept(frags[..n]));
      Outcome(Abandon(o.state), o.events)
    else if error.None? then Respond(v, r, frags)
    else
      var o := Feed(v, Begin(r), Kept(frags));
      Outcome(o.state, o.events + [Info(ErrorLine(error.value))])
  }

  /** A stream that raises once all of its fragments were classified
      differs from the same stream ending normally only in the final flush:
      the raise loses the flush's events and state change and reports the
      error instead; with no pending line the two end in the same state. */
  lemma RaiseSkipsFlush(v: Stream.Voicing, r: Response, frags: seq<string>, e: string)
    ensures var o := Feed(v, Begin(r), Kept(frags));
      var whole := AnswerOutcome(v, r, frags, |frags|, None);
      var broken := AnswerOutcome(v, r, frags, |frags|, Some(e));
      && whole.events == o.events + Flush(v, o.state).events
      && broken.events == o.events + [Info(ErrorLine(e))]
      && broken.state == o.state
      && (o.state.line == "" ==> broken.state == whole.state)
  {
  }

  /** What `submit_prompt` reports before its request: nothing while the
      prompt block fits the budget; otherwise the notice of
      `update_max_tokens` and, with code format on, the directive. */
  function PrepareLog(p: Palette, d: string, codeFormat: bool, m: GptModel, conversation: string, prompt: string): seq<Event>
  {
    if |conversation + SubmitBlock(prompt)| <= TokensPerModel(m) then []
    else [Info(MaxTokensMessage)] + (if codeFormat then [Info(DirectiveLine(p, d))] else [])
  }

  /** The formatted conversation `submit_prompt` has before its request:
      the old one with the prompt's entry, or the one a reset leaves. */
  function PrepareFormatted(p: Palette, d: string, codeFormat: bool, m: GptModel, conversation: string,
                            formatted: string, prompt: string): string
  {
    if |conversation + SubmitBlock(prompt)| <= TokensPerModel(m) then formatted + UserEntry(p, SubmitBlock(prompt))
    else ResetFormatted(p, d, prompt, codeFormat)
  }

  /** The console line `apply_code_format_directive` prints for the
      directive `d`. */
  function DirectiveLine(p: Palette, d: string): string {
    "[" + p.cmessage + "]" + d + "[/]"
  }

  class GptTerminal {
    const cfg: Config
    /** The text `_setup_code_format` installs; see `CodeFormatDirective`. */
    const codeFormatDirective: string
    var colors: Palette
    var conversation: string
    var conversationFormatted: string
    var promptIdx: nat
    var respLine: string
    var respSentence: string
    var respStart: bool
    var inCodeBlock: bool
    var firstSentence: bool
    var codeBlockIdx: nat
    var inGptResponse: bool
    var abortResponse: bool
    var prompt: string
    var promptInput: string
    var maxTokens: int
    /** What was displayed, highlighted, spoken and reported, in order. */
    ghost var events: seq<Event>

    /** The colours follow the configured theme. */
    ghost predicate Valid()
      reads this`colors, cfg`colorTheme
    {
      colors == PaletteOf(cfg.colorTheme)
    }

    /** The settings the classifier reads. */
    function Voicing(): Stream.Voicing
      reads cfg`useVoice, cfg`voiceOver, cfg`voiceStop
    {
      Stream.Voicing(cfg.useVoice, cfg.voiceOver, cfg.voiceStop)
    }

    /** The classifier's fields as one value. */
    function State(): Response
      reads this`respLine, this`respSentence, this`inCodeBlock, this`firstSentence
      reads this`codeBlockIdx, this`respStart
    {
      Response(respLine, respSentence, inCodeBlock, firstSentence, codeBlockIdx, respStart)
    }

    /** A terminal with the default settings, optionally with the theme given
        on the command line; the budget is the whole of the model's. */
    constructor (theme: Option<ThemeMode>)
      ensures Valid() && fresh(cfg)
      ensures cfg.colorTheme == (if theme.Some? then theme.value else Dark)
      ensures !cfg.useCodeFormat && !cfg.displayAdvanced && cfg.useVoice && !cfg.voiceOver
      ensures cfg.voiceStop == Period && cfg.model == Davinci
      ensures cfg.voiceName == "Karen" && cfg.imageSize == 256 && cfg.imageView
      ensures cfg.imageStore == DefaultImageStorePath
      ensures conversation == "" && conversationFormatted == "" && promptIdx == 0
      ensures State() == Response("", "", false, true, 0, true)
      ensures !inGptResponse && !abortResponse && prompt == "" && promptInput == ""
      ensures maxTokens == 4086 && events == [] && codeFormatDirective == CodeFormatDirective
    {
      var c := new Config();
      if theme.Some? {
        c.colorTheme := theme.value;
      }
      cfg := c;
      codeFormatDirective := CodeFormatDirective;
      colors := PaletteOf(c.colorTheme);
      conversation := "";
      conversationFormatted := "";
      promptIdx := 0;
      respLine := "";
      respSentence := "";
      respStart := true;
      inCodeBlock := false;
      prompt := "";
      promptInput := "";
      firstSentence := true;
      inGptResponse := false;
      abortResponse := false;
      maxTokens := TokensPerModel(c.model);
      codeBlockIdx := 0;
      events := [];
    }

    // -------------------------------------------------------------------
    // Settings

    method ToggleAdvanced() returns (on: bool)
      modifies cfg`displayAdvanced
      ensures cfg.displayAdvanced == !old(cfg.displayAdvanced) && on == cfg.displayAdvanced
    {
      cfg.displayAdvanced := !cfg.displayAdvanced;
      on := cfg.displayAdvanced;
    }

    method ToggleVoice() returns (on: bool)
      modifies cfg`useVoice
      ensures cfg.useVoice == !old(cfg.useVoice) && on == cfg.useVoice
    {
      cfg.useVoice := !cfg.useVoice;
      on := cfg.useVoice;
    }

    method ToggleVoiceOver() returns (on: bool)
      modifies cfg`voiceOver
      ensures cfg.voiceOver == !old(cfg.voiceOver) && on == cfg.voiceOver
    {
      cfg.voiceOver := !cfg.voiceOver;
      on := cfg.voiceOver;
    }

    method ToggleVoiceStop() returns (stop: VoiceStop)
      modifies cfg`voiceStop
      ensures cfg.voiceStop == old(cfg.voiceStop).Toggled() && stop == cfg.voiceStop
    {
      cfg.voiceStop := if cfg.voiceStop == Newline then Period else Newline;
      stop := cfg.voiceStop;
    }

    method ToggleImageView() returns (on: bool)
      modifies cfg`imageView
      ensures cfg.imageView == !old(cfg.imageView) && on == cfg.imageView
    {
      cfg.imageView := !cfg.imageView;
      on := cfg.imageView;
    }

    /** Switches the theme and the colours with it. */
    method ToggleTheme() returns (theme: ThemeMode)
      requires Valid()
      modifies cfg`colorTheme, this`colors
      ensures Valid()
      ensures cfg.colorTheme == old(cfg.colorTheme).Toggled() && theme == cfg.colorTheme
    {
      cfg.colorTheme := if cfg.colorTheme == Light then Dark else Light;
      colors := PaletteOf(cfg.colorTheme);
      theme := cfg.colorTheme;
    }

    method ToggleCode() returns (on: bool)
      modifies cfg`useCodeFormat
      ensures cfg.useCodeFormat == !old(cfg.useCodeFormat) && on == cfg.useCodeFormat
    {
      cfg.useCodeFormat := !cfg.useCodeFormat;
      on := cfg.useCodeFormat;
    }

    // -------------------------------------------------------------------
    // Output

    /** `print_chat_response`. */
    method PrintChatResponse(text: string, force: bool)
      modifies this`events
      ensures events == old(events) + PrintChat(Voicing(), respStart, text, force)
    {
      if cfg.voiceOver && !force {
        return;
      }
      var shown := text;
      if respStart {
        shown := AddGptPrefix(text, false);
      }
      events := events + [Display(shown)];
    }

    /** `voice`: the filter, the escaping and the `say` call, whose exit
        status is not known here; a failure asks the response to stop. */
    method Voice(text: string)
      modifies this`events, this`abortResponse
      ensures events == old(events) + Stream.Voice(Voicing(), inCodeBlock, text)
      ensures abortResponse ==> old(abortResponse) || Spoke(Stream.Voice(Voicing(), inCodeBlock, text))
    {
      if text == "" || !cfg.useVoice {
        return;
      }
      if inCodeBlock || text == Fence || text == HalfFence {
        return;
      }
      var line := WithoutBackticks(QuoteEscaped(text));
      if line != [] && line[0] == '-' {
        line := "\\" + line;
      }
      events := events + [Speak(line)];
      assert Spoke([Speak(line)]) by { assert [Speak(line)][0].Speak?; }
      var rc: int := *;
      if rc != 0 {
        abortResponse := true;
      }
    }

    /** `print_code_response`. */
    method PrintCodeResponse()
      modifies this`codeBlockIdx, this`respLine, this`events
      ensures State() == old(PrintCode(State()).state)
      ensures events == old(events) + old(PrintCode(State()).events)
    {
      if respLine == "\n" && codeBlockIdx == 0 {
        return;
      }
      codeBlockIdx := codeBlockIdx + 1;
      if respLine != [] && respLine[|respLine| - 1] == '\n' {
        respLine := respLine[..|respLine| - 1];
      }
      events := events + [CodeLine(respLine)];
    }

    // -------------------------------------------------------------------
    // The classifier

    /** The end-of-line part of `handle_response_line`: a code line inside a
        block, the line voiced under the newline policy outside one; the line
        is cleared either way. */
    method EndLine()
      modifies this`respLine, this`codeBlockIdx, this`events, this`abortResponse
      ensures State() == old(LineEnd(Voicing(), State()).state)
      ensures events == old(events) + old(LineEnd(Voicing(), State()).events)
      ensures abortResponse ==> old(abortResponse) || Spoke(old(LineEnd(Voicing(), State()).events))
    {
      if inCodeBlock {
        PrintCodeResponse();
      } else if cfg.voiceStop == Newline {
        Voice(respLine);
      }
      respLine := "";
    }

    /** The sentence is voiced under the period policy, then cleared. */
    method VoiceSentence()
      modifies this`respSentence, this`events, this`abortResponse
      ensures State() == old(State()).(sentence := "")
      ensures events == old(events) + SentenceVoice(Voicing(), old(State()))
      ensures abortResponse ==> old(abortResponse) || Spoke(SentenceVoice(Voicing(), old(State())))
    {
      if cfg.voiceStop == Period {
        Voice(respSentence);
      }
      respSentence := "";
    }

    /** The end-of-sentence part of `handle_response_line`, once the
        fragment is in the line and the sentence. */
    method EndSentence(eol: bool)
      modifies this`respLine, this`respSentence, this`firstSentence
      modifies this`codeBlockIdx, this`events, this`abortResponse
      ensures State() == old(SentenceEnd(Voicing(), State(), eol).state)
      ensures events == old(events) + old(SentenceEnd(Voicing(), State(), eol).events)
      ensures abortResponse ==> old(abortResponse) || Spoke(old(SentenceEnd(Voicing(), State(), eol).events))
    {
      ghost var v, r := Voicing(), State().(firstSentence := false);
      ghost var a := if eol then LineEnd(v, r) else Outcome(r, []);
      ghost var spoken := SentenceVoice(v, a.state);
      ghost var e0 := events;
      SentenceEndInParts(v, State(), eol);
      firstSentence := false;
      if eol {
        EndLine();
      }
      VoiceSentence();
      Assoc(e0, a.events, spoken);
      SpokeAppend(a.events, spoken);
    }

    /** The fence branch of `handle_response_line`, once the fragment is in
        the line and the sentence: restart the code line count, force the
        fence onto the display, flip the mode and clear the line. */
    method ToggleCodeBlock(frag: string, ghost r: Response)
      requires State() == r.(line := r.line + frag, sentence := r.sentence + frag)
      requires AtFence(r, frag)
      modifies this`respLine, this`inCodeBlock, this`codeBlockIdx, this`events
      ensures State() == Toggle(Voicing(), r, frag).state
      ensures events == old(events) + Toggle(Voicing(), r, frag).events
    {
      codeBlockIdx := 0;
      PrintChatResponse(Strip(frag) + "\n", true);
      inCodeBlock := !inCodeBlock;
      respLine := "";
    }

    /** The display of a fragment that does not complete a fence: outside a
        code block, or when it is "``". */
    method ShowFragment(frag: string, ghost r: Response)
      requires inCodeBlock == r.inCode && respStart == r.start
      modifies this`events
      ensures events == old(events) + Shown(Voicing(), r, frag)
    {
      if !inCodeBlock || frag == HalfFence {
        PrintChatResponse(frag, false);
      }
    }

    /** The rest of `handle_response_line` for a fragment that does not
        complete a fence, once the fragment is in the line and the sentence:
        the display, then the boundaries the fragment marks. */
    method ClassifyFragment(frag: string, end: bool, ghost v: Stream.Voicing, ghost r: Response)
      requires v == Voicing() && State() == r.(line := r.line + frag, sentence := r.sentence + frag)
      modifies this`respLine, this`respSentence, this`firstSentence
      modifies this`codeBlockIdx, this`events, this`abortResponse
      ensures State() == Advance(v, r, frag, end).state
      ensures events == old(events) + Advance(v, r, frag, end).events
      ensures abortResponse ==> old(abortResponse) || Spoke(Advance(v, r, frag, end).events)
    {
      ghost var e0 := events;
      ghost var shown := Shown(v, r, frag);
      ShowFragment(frag, r);
      AdvanceInParts(v, r, frag, end);
      var hasNl := '\n' in frag;
      var hasFs := '.' in frag;
      var isEol := end || hasNl;
      var isEos := isEol || hasFs;
      if isEos {
        ghost var e := SentenceEnd(v, State(), isEol);
        EndSentence(isEol);
        Assoc(e0, shown, e.events);
        SpokeAppend(shown, e.events);
      } else {
        ShownSilent(v, r, frag);
      }
    }

    /** `handle_response_line(frag, end)`: one step of the classifier. A
        failed `say` can only have happened if the step voiced something. */
    method HandleResponseLine(frag: string, end: bool)
      modifies this`respLine, this`respSentence, this`inCodeBlock, this`firstSentence
      modifies this`codeBlockIdx, this`events, this`abortResponse
      ensures State() == old(Step(Voicing(), State(), frag, end).state)
      ensures events == old(events) + old(Step(Voicing(), State(), frag, end).events)
      ensures abortResponse ==> old(abortResponse) || Spoke(old(Step(Voicing(), State(), frag, end).events))
    {
      ghost var r := State();
      assert old(Step(Voicing(), State(), frag, end)) == Step(Voicing(), r, frag, end);
      respLine := respLine + frag;
      respSentence := respSentence + frag;
      if Strip(respLine) == Fence {
        ToggleCodeBlock(frag, r);
        return;
      }
      ClassifyFragment(frag, end, Voicing(), r);
    }
  
    // -------------------------------------------------------------------
    // Conversation and budget

    /** `add_to_conversation`: an optional reset of both transcripts, then the
        text verbatim on the plain one and its formatted twin on the other. */
    method AddToConversation(text: string, isResponse: bool, reset: bool)
      requires Valid()
      modifies this`conversation, this`conversationFormatted
      ensures Valid()
      ensures conversation == (if reset then "" else old(conversation)) + text
      ensures conversationFormatted == (if reset then "" else old(conversationFormatted)) +
        (if isResponse then ResponseEntry(colors, text, respStart) else UserEntry(colors, text))
    {
      if reset {
        conversation := "";
        conversationFormatted := "";
      }
      conversation := conversation + text;
      var entry := "";
      if isResponse {
        var shown := text;
        if respStart {
          shown := AddGptPrefix(text, true);
        }
        entry := "[" + colors.cresponse + "]" + shown + "[/]";
      } else if Strip(text) != "" {
        entry := "\n\n[" + colors.cinput + "][Me]: " + LStrip(text) + "[/]";
      }
      conversationFormatted := conversationFormatted + entry;
    }

    /** `calc_max_tokens`: the model's budget less the prompt input. */
    method CalcMaxTokens()
      modifies this`maxTokens
      ensures maxTokens == MaxTokens(cfg.model, promptInput)
      ensures maxTokens + |promptInput| == TokensPerModel(cfg.model)
    {
      var total := TokensPerModel(cfg.model);
      maxTokens := total - TextToTokens(promptInput);
    }

    /** `apply_code_format_directive(prompt, submit=False)`: with code format
        on, the directive is printed, becomes the prompt (followed by the
        prompt block) and is added to the conversation as user text. */
    method ApplyCodeFormatDirective(p: string)
      requires Valid()
      modifies this`prompt, this`conversation, this`conversationFormatted, this`events
      ensures Valid()
      ensures !cfg.useCodeFormat ==>
        && prompt == old(prompt) && conversation == old(conversation)
        && conversationFormatted == old(conversationFormatted) && events == old(events)
      ensures cfg.useCodeFormat ==>
        && prompt == DirectivePrompt(codeFormatDirective, p)
        && conversation == old(conversation) + DirectivePrompt(codeFormatDirective, p)
        && conversationFormatted == old(conversationFormatted) + UserEntry(colors, DirectivePrompt(codeFormatDirective, p))
        && events == old(events) + [Info(DirectiveLine(colors, codeFormatDirective))]
    {
      if !cfg.useCodeFormat {
        return;
      }
      events := events + [Info(DirectiveLine(colors, codeFormatDirective))];
      prompt := codeFormatDirective + "\n";
      if p != "" {
        prompt := prompt + "\n" + p + "\n";
      }
      assert prompt == DirectivePrompt(codeFormatDirective, p);
      AddToConversation(prompt, false, false);
    }

    /** `reset_context(prompt, submit=False)`: the conversation restarts from
        the prompt block (and the directive, with code format on), the
        prompt input becomes that conversation and the budget is
        recomputed from it. */
    method ResetContext(p: string)
      requires Valid()
      modifies this`prompt, this`conversation, this`conversationFormatted
      modifies this`events, this`promptInput, this`maxTokens
      ensures Valid()
      ensures conversation == ResetConversation(codeFormatDirective, p, cfg.useCodeFormat)
      ensures conversationFormatted == ResetFormatted(colors, codeFormatDirective, p, cfg.useCodeFormat)
      ensures prompt == (if cfg.useCodeFormat then DirectivePrompt(codeFormatDirective, p) else p)
      ensures promptInput == conversation
      ensures maxTokens == MaxTokens(cfg.model, conversation)
      ensures events == old(events) + (if cfg.useCodeFormat then [Info(DirectiveLine(colors, codeFormatDirective))] else [])
    {
      prompt := p;
      var current := "";
      if prompt != "" {
        current := "\n" + prompt + "\n";
      }
      ghost var entry := UserEntry(colors, PromptBlock(p));
      AddToConversation(current, false, true);
      assert conversation == PromptBlock(p);
      assert conversationFormatted == entry;
      ApplyCodeFormatDirective(p);
      if cfg.useCodeFormat {
        assert conversation == ResetConversation(codeFormatDirective, p, true);
        assert conversationFormatted == entry + UserEntry(colors, DirectivePrompt(codeFormatDirective, p));
      } else {
        assert conversation == ResetConversation(codeFormatDirective, p, false);
        assert conversationFormatted == entry + "";
      }
      promptInput := conversation;
      CalcMaxTokens();
    }

    /** `update_max_tokens`: the budget from the prompt input; when it is
        negative, a notice and one reset to the current prompt, whose new
        budget is returned unchecked. */
    method UpdateMaxTokens() returns (n: int)
      requires Valid()
      modifies this`prompt, this`conversation, this`conversationFormatted
      modifies this`events, this`promptInput, this`maxTokens
      ensures Valid() && n == maxTokens
      ensures |old(promptInput)| <= TokensPerModel(cfg.model) ==>
        && maxTokens == MaxTokens(cfg.model, promptInput) && maxTokens >= 0
        && promptInput == old(promptInput) && conversation == old(conversation)
        && conversationFormatted == old(conversationFormatted)
        && events == old(events) && prompt == old(prompt)
      ensures |old(promptInput)| > TokensPerModel(cfg.model) ==>
        && conversation == ResetConversation(codeFormatDirective, old(prompt), cfg.useCodeFormat)
        && conversationFormatted == ResetFormatted(colors, codeFormatDirective, old(prompt), cfg.useCodeFormat)
        && prompt == (if cfg.useCodeFormat then DirectivePrompt(codeFormatDirective, old(prompt)) else old(prompt))
        && promptInput == conversation
        && maxTokens == MaxTokens(cfg.model, conversation)
        && events == old(events) + [Info(MaxTokensMessage)] +
             (if cfg.useCodeFormat then [Info(DirectiveLine(colors, codeFormatDirective))] else [])
    {
      CalcMaxTokens();
      if maxTokens < 0 {
        events := events + [Info(MaxTokensMessage)];
        ResetContext(prompt);
      }
      n := maxTokens;
    }

    // -------------------------------------------------------------------
    // Streaming a response

    /** `reset_response_state`: the line, the sentence and the start flag
        are reset; the code-block mode is not. */
    method ResetResponseState()
      modifies this`respLine, this`respSentence, this`respStart, this`inGptResponse
      ensures State() == Abandon(old(State())) && !inGptResponse
    {
      respLine := "";
      respSentence := "";
      respStart := true;
      inGptResponse := false;
    }

    /** The classifier's part of `handle_completion`'s loop for a kept
        fragment: `handle_response_line(frag)`, after which the response is
        no longer at its start. In terms of the fragments `k` kept so far
        from a response that began in state `b`, this classifies one more. */
    method ClassifyKept(frag: string, ghost v: Stream.Voicing, ghost b: Response, ghost k: seq<string>, ghost e0: seq<Event>)
      requires v == Voicing() && !abortResponse
      requires State() == Feed(v, b, k).state && events == e0 + Feed(v, b, k).events
      modifies this`respLine, this`respSentence, this`respStart, this`inCodeBlock
      modifies this`firstSentence, this`codeBlockIdx, this`abortResponse, this`events
      ensures State() == Feed(v, b, k + [frag]).state
      ensures events == e0 + Feed(v, b, k + [frag]).events
      ensures abortResponse ==> Spoke(Feed(v, b, k + [frag]).events)
    {
      ghost var o := Feed(v, b, k);
      ghost var step := Step(v, o.state, frag, false);
      FeedSnoc(v, b, k, frag);
      HandleResponseLine(frag, false);
      respStart := false;
      SpokeAppend(o.events, step.events);
      Assoc(e0, o.events, step.events);
    }

    /** The classifier has run over the fragments `k` of a response that
        began in state `b`, the log growing from `e0`; a failed `say` can
        only have happened if something was voiced. */
    ghost predicate Streamed(v: Stream.Voicing, b: Response, k: seq<string>, e0: seq<Event>)
      reads this`respLine, this`respSentence, this`inCodeBlock, this`firstSentence
      reads this`codeBlockIdx, this`respStart, this`events, this`abortResponse
    {
      var o := Feed(v, b, k);
      State() == o.state && events == e0 + o.events && (abortResponse ==> Spoke(o.events))
    }

    /** Both transcripts have grown from `c0` and `f0` by the fragments `k`. */
    ghost predicate Transcribed(c0: string, f0: string, k: seq<string>)
      reads this`conversation, this`conversationFormatted, this`colors
    {
      conversation == c0 + Concat(k) && conversationFormatted == f0 + Formatted(colors, k)
    }

    /** The body of `handle_completion`'s loop for a kept fragment: into the
        conversation verbatim (labelled when it opens the response), then
        through the classifier. */
    method TakeFragment(frag: string, ghost v: Stream.Voicing, ghost b: Response, ghost k: seq<string>,
                        ghost c0: string, ghost f0: string, ghost e0: seq<Event>)
      requires Valid() && v == Voicing() && b.start && !abortResponse
      requires Streamed(v, b, k, e0) && Transcribed(c0, f0, k)
      modifies this`respLine, this`respSentence, this`respStart, this`inCodeBlock
      modifies this`firstSentence, this`codeBlockIdx, this`abortResponse
      modifies this`conversation, this`conversationFormatted, this`events
      ensures Valid() && Streamed(v, b, k + [frag], e0) && Transcribed(c0, f0, k + [frag])
    {
      FeedStart(v, b, k);
      ConcatSnoc(c0, k, frag);
      FormattedSnoc(colors, f0, k, frag);
      AddToConversation(frag, true, false);
      ClassifyKept(frag, v, b, k, e0);
    }

    /** The end of `handle_completion`'s stream: a pending line is classified
        once more as a final line end. */
    method FlushLine()
      modifies this`respLine, this`respSentence, this`inCodeBlock, this`firstSentence
      modifies this`codeBlockIdx, this`events, this`abortResponse
      ensures State() == old(Flush(Voicing(), State()).state)
      ensures events == old(events) + old(Flush(Voicing(), State()).events)
      ensures old(respLine) == "" ==> State() == old(State()) && events == old(events)
    {
      if respLine != "" {
        HandleResponseLine("", true);
      }
    }

    /** The abort branch of `handle_completion`'s loop: a newline closes the
        conversation's partial response and the response state is reset
        (closing the stream is left to the caller). */
    method StopResponse()
      requires Valid()
      modifies this`respLine, this`respSentence, this`respStart, this`inGptResponse
      modifies this`conversation, this`conversationFormatted
      ensures Valid() && !inGptResponse
      ensures conversation == old(conversation) + "\n"
      ensures conversationFormatted == old(conversationFormatted)
      ensures State() == Abandon(old(State()))
    {
      AddToConversation("\n", false, false);
      assert UserEntry(colors, "\n") == "" by { StripEmpty("\n"); }
      ResetResponseState();
    }

    /** `handle_completion`'s loop over the stream, from the response's
        initial state `b`: every fragment but a leading "\n" is taken, until
        a failed `say` has asked for an abort, which is noticed before the
        next fragment. `n` is the number of fragments taken from the stream,
        `aborted` tells whether it was cut short and `k` is what was kept. */
    method PumpFragments(frags: seq<string>, ghost v: Stream.Voicing, ghost b: Response)
      returns (ghost n: nat, aborted: bool, ghost k: seq<string>)
      requires Valid() && v == Voicing() && b.start && State() == b && !abortResponse && !inGptResponse
      modifies this`respLine, this`respSentence, this`respStart, this`inCodeBlock
      modifies this`firstSentence, this`codeBlockIdx, this`inGptResponse, this`abortResponse
      modifies this`conversation, this`conversationFormatted, this`events
      ensures Valid() && n <= |frags| && (aborted <==> n < |frags|) && k == Kept(frags[..n])
      ensures inGptResponse == (!aborted && |frags| > 0)
      ensures conversation == old(conversation) + Concat(k) + (if aborted then "\n" else "")
      ensures conversationFormatted == old(conversationFormatted) + Formatted(colors, k)
      ensures events == old(events) + Feed(v, b, k).events
      ensures State() == if aborted then Abandon(Feed(v, b, k).state) else Feed(v, b, k).state
      ensures aborted ==> Spoke(Feed(v, b, k).events)
    {
      ghost var c0, f0, e0 := conversation, conversationFormatted, events;
      var i := 0;
      aborted := false;
      k := [];
      assert frags[..0] == [];
      while i < |frags|
        invariant i <= |frags| && Valid() && k == Kept(frags[..i]) && inGptResponse == (i > 0)
        invariant Streamed(v, b, k, e0) && Transcribed(c0, f0, k)
      {
        var stop;
        stop, k := NextFragment(frags, i, v, b, k, c0, f0, e0);
        if stop {
          aborted := true;
          break;
        }
        i := i + 1;
      }
      n := i;
    }

    /** One pass of `handle_completion`'s loop, at index `i` of the stream,
        with the fragments `k` kept before it: the abort asked for by a
        failed `say` is noticed and stops the loop, a "\n" at index 0 is
        skipped, and any other fragment is taken. */
    method NextFragment(frags: seq<string>, i: nat, ghost v: Stream.Voicing, ghost b: Response, ghost k: seq<string>,
                   ghost c0: string, ghost f0: string, ghost e0: seq<Event>) returns (stop: bool, ghost k': seq<string>)
      requires i < |frags| && Valid() && v == Voicing() && b.start && k == Kept(frags[..i])
      requires Streamed(v, b, k, e0) && Transcribed(c0, f0, k)
      modifies this`respLine, this`respSentence, this`respStart, this`inCodeBlock
      modifies this`firstSentence, this`codeBlockIdx, this`inGptResponse, this`abortResponse
      modifies this`conversation, this`conversationFormatted, this`events
      ensures Valid() && inGptResponse == !stop
      ensures !stop ==> k' == Kept(frags[..i + 1]) && Streamed(v, b, k', e0) && Transcribed(c0, f0, k')
      ensures stop ==> k' == k && events == old(events) && State() == Abandon(old(State()))
      ensures stop ==> Spoke(Feed(v, b, k).events)
      ensures stop ==> conversation == old(conversation) + "\n" && conversationFormatted == old(conversationFormatted)
    {
      inGptResponse := true;
      k' := k;
      if abortResponse {
        StopResponse();
        return true, k;
      }
      var frag := frags[i];
      KeptSnoc(frags, i);
      if i == 0 && frag == "\n" {
        return false, k;
      }
      TakeFragment(frag, v, b, k, c0, f0, e0);
      return false, k + [frag];
    }

    /** The start of `handle_completion`: the response state is reset, the
        first sentence and the code line count restart and no abort is
        pending; the code-block mode is kept. */
    method BeginResponse()
      modifies this`respLine, this`respSentence, this`respStart, this`inGptResponse
      modifies this`firstSentence, this`codeBlockIdx, this`abortResponse
      ensures State() == Begin(old(State())) && !abortResponse && !inGptResponse
    {
      ResetResponseState();
      firstSentence := true;
      codeBlockIdx := 0;
      abortResponse := false;
    }

    /** The end of `handle_completion` after its loop over the fragments
        `k` kept from a response that began in state `b`: a pending line is
        flushed (there is none after an abort) and the response is over. */
    method FinishResponse(ghost v: Stream.Voicing, ghost b: Response, ghost k: seq<string>,
                          ghost aborted: bool, ghost e0: seq<Event>)
      requires v == Voicing() && events == e0 + Feed(v, b, k).events
      requires State() == if aborted then Abandon(Feed(v, b, k).state) else Feed(v, b, k).state
      modifies this`respLine, this`respSentence, this`inCodeBlock, this`firstSentence
      modifies this`codeBlockIdx, this`inGptResponse, this`events, this`abortResponse
      ensures !inGptResponse
      ensures aborted ==> State() == old(State()) && events == old(events)
      ensures !aborted ==>
        var f := Flush(v, Feed(v, b, k).state);
        State() == f.state && events == e0 + (Feed(v, b, k).events + f.events)
    {
      ghost var o := Feed(v, b, k);
      ghost var f := Flush(v, State());
      FlushLine();
      if !aborted {
        Assoc(e0, o.events, f.events);
      }
      inGptResponse := false;
    }

    /** `handle_completion` on a streamed reply. Every kept fragment goes
        verbatim into the conversation and then through the classifier; a
        failed `say` stops the stream before the next fragment, which adds a
        newline to the conversation and abandons the response, and a
        pending line is flushed once at the end. When reading the stream
        raises after `frags` (`raises`), the exception leaves the loop
        (`raised`): nothing is flushed and the response is not marked over.
        `n` is the number of fragments taken from the stream and `aborted`
        tells whether it was cut short. */
    method HandleCompletion(frags: seq<string>, raises: bool) returns (raised: bool, ghost n: nat, aborted: bool)
      requires Valid()
      modifies this`respLine, this`respSentence, this`respStart, this`inCodeBlock
      modifies this`firstSentence, this`codeBlockIdx, this`inGptResponse, this`abortResponse
      modifies this`conversation, this`conversationFormatted, this`events
      ensures Valid() && raised == (raises && !aborted)
      ensures inGptResponse == (raised && |frags| > 0)
      ensures n <= |frags| && (aborted <==> n < |frags|)
      ensures conversation == old(conversation) + Concat(Kept(frags[..n])) + (if aborted then "\n" else "")
      ensures conversationFormatted == old(conversationFormatted) + Formatted(colors, Kept(frags[..n]))
      ensures !aborted && !raises ==>
        && State() == Respond(Voicing(), old(State()), frags).state
        && events == old(events) + Respond(Voicing(), old(State()), frags).events
      ensures raised ==>
        var o := Feed(Voicing(), Begin(old(State())), Kept(frags));
        && State() == o.state
        && events == old(events) + o.events
      ensures aborted ==>
        var o := Feed(Voicing(), Begin(old(State())), Kept(frags[..n]));
        && State() == Abandon(o.state)
        && events == old(events) + o.events
        && Spoke(o.events)
    {
      ghost var v, r0 := Voicing(), State();
      ghost var b := Begin(r0);
      ghost var e0 := events;
      BeginResponse();
      ghost var k;
      n, aborted, k := PumpFragments(frags, v, b);
      if !aborted {
        assert frags[..n] == frags;
      }
      if raises && !aborted {
        return true, n, aborted;
      }
      raised := false;
      FinishResponse(v, b, k, aborted, e0);
    }

    // -------------------------------------------------------------------
    // Submitting a prompt

    /** The start of `submit_prompt`: the prompt is remembered and its block
        joins the conversation, which becomes the prompt input. */
    method AppendPrompt(p: string)
      requires Valid()
      modifies this`prompt, this`conversation, this`conversationFormatted, this`promptInput
      ensures Valid() && prompt == p
      ensures conversation == old(conversation) + SubmitBlock(p) && promptInput == conversation
      ensures conversationFormatted == old(conversationFormatted) + UserEntry(colors, SubmitBlock(p))
    {
      prompt := p;
      AddToConversation("\n" + prompt + "\n", false, false);
      promptInput := conversation;
    }

    /** The part of `submit_prompt` before the request: the prompt block
        joins the conversation, which becomes the prompt input, and the
        budget is updated, with one reset to this prompt when it ran out. */
    method PreparePrompt(p: string)
      requires Valid()
      modifies this`prompt, this`conversation, this`conversationFormatted
      modifies this`events, this`promptInput, this`maxTokens
      ensures Valid()
      ensures conversation == SubmitContext(cfg.model, codeFormatDirective, cfg.useCodeFormat, old(conversation), p)
      ensures promptInput == conversation && maxTokens == MaxTokens(cfg.model, promptInput)
      ensures events == old(events) + PrepareLog(colors, codeFormatDirective, cfg.useCodeFormat, cfg.model, old(conversation), p)
      ensures conversationFormatted ==
        PrepareFormatted(colors, codeFormatDirective, cfg.useCodeFormat, cfg.model, old(conversation), old(conversationFormatted), p)
      ensures |old(conversation) + SubmitBlock(p)| <= TokensPerModel(cfg.model) ==>
        && prompt == p && events == old(events) && maxTokens >= 0
        && conversationFormatted == old(conversationFormatted) + UserEntry(colors, SubmitBlock(p))
      ensures |old(conversation) + SubmitBlock(p)| > TokensPerModel(cfg.model) ==>
        && prompt == (if cfg.useCodeFormat then DirectivePrompt(codeFormatDirective, p) else p)
        && events == old(events) + [Info(MaxTokensMessage)] +
             (if cfg.useCodeFormat then [Info(DirectiveLine(colors, codeFormatDirective))] else [])
        && conversationFormatted == ResetFormatted(colors, codeFormatDirective, p, cfg.useCodeFormat)
    {
      AppendPrompt(p);
      var _ := UpdateMaxTokens();
    }

    /** The end of `submit_prompt` once the request has returned a stream
        of `frags`, followed by the exception `error` when reading it raises:
        the stream is handled; a raise from the stream is reported, and
        otherwise the prompt is counted. */
    method Answer(frags: seq<string>, error: Option<string>) returns (ghost n: nat, ghost aborted: bool)
      requires Valid()
      modifies this`respLine, this`respSentence, this`respStart, this`inCodeBlock
      modifies this`firstSentence, this`codeBlockIdx, this`inGptResponse, this`abortResponse
      modifies this`conversation, this`conversationFormatted, this`events, this`promptIdx
      ensures Valid()
      ensures n <= |frags| && (aborted <==> n < |frags|)
      ensures conversation == old(conversation) + Concat(Kept(frags[..n])) + (if aborted then "\n" else "")
      ensures conversationFormatted == old(conversationFormatted) + Formatted(colors, Kept(frags[..n]))
      ensures promptIdx == old(promptIdx) + (if error.None? || aborted then 1 else 0)
      ensures inGptResponse == (error.Some? && !aborted && |frags| > 0)
      ensures State() == AnswerOutcome(Voicing(), old(State()), frags, n, error).state
      ensures events == old(events) + AnswerOutcome(Voicing(), old(State()), frags, n, error).events
      ensures aborted ==> Spoke(Feed(Voicing(), Begin(old(State())), Kept(frags[..n])).events)
    {
      var raised, stopped;
      raised, n, stopped := HandleCompletion(frags, error.Some?);
      aborted := stopped;
      if raised {
        events := events + [Info(ErrorLine(error.value))];
      } else {
        promptIdx := promptIdx + 1;
      }
    }

    /** `submit_prompt(p)` with the request's outcome as a parameter. The
        prompt input and the budget are those `PreparePrompt` computed. An
        error of the request is reported and the prompt is not counted. A
        stream is handled as `Answer` says, after the notices of the budget
        check: a complete stream ends as `Respond` says and is counted; one
        cut short by a failed `say` is abandoned and counted; one whose
        reading raised keeps what was classified, is not flushed, and is
        reported instead of counted. */
    method SubmitPrompt(p: string, reply: Reply) returns (ghost n: nat, ghost aborted: bool)
      requires Valid()
      modifies this`prompt, this`conversation, this`conversationFormatted
      modifies this`events, this`promptInput, this`maxTokens, this`promptIdx
      modifies this`respLine, this`respSentence, this`respStart, this`inCodeBlock
      modifies this`firstSentence, this`codeBlockIdx, this`inGptResponse, this`abortResponse
      ensures Valid()
      ensures promptInput == SubmitContext(cfg.model, codeFormatDirective, cfg.useCodeFormat, old(conversation), p)
      ensures maxTokens == MaxTokens(cfg.model, promptInput)
      ensures reply.Failed? ==>
        && promptIdx == old(promptIdx) && conversation == promptInput && State() == old(State())
        && conversationFormatted == PrepareFormatted(colors, codeFormatDirective, cfg.useCodeFormat, cfg.model,
             old(conversation), old(conversationFormatted), p)
        && events == old(events) +
             PrepareLog(colors, codeFormatDirective, cfg.useCodeFormat, cfg.model, old(conversation), p) +
             [Info(ErrorLine(reply.error))]
      ensures reply.Failed? ==> !aborted
      ensures !reply.Failed? ==> n <= |reply.frags| && (aborted <==> n < |reply.frags|)
      ensures !reply.Failed? && n <= |reply.frags| ==>
        var k := Kept(reply.frags[..n]);
        && conversation == promptInput + Concat(k) + (if aborted then "\n" else "")
        && conversationFormatted == PrepareFormatted(colors, codeFormatDirective, cfg.useCodeFormat, cfg.model,
             old(conversation), old(conversationFormatted), p) + Formatted(colors, k)
        && promptIdx == old(promptIdx) + (if reply.Streamed? || aborted then 1 else 0)
        && inGptResponse == (reply.Broken? && !aborted && |reply.frags| > 0)
        && State() == AnswerOutcome(Voicing(), old(State()), reply.frags, n, reply.StreamError()).state
        && events == old(events) +
             PrepareLog(colors, codeFormatDirective, cfg.useCodeFormat, cfg.model, old(conversation), p) +
             AnswerOutcome(Voicing(), old(State()), reply.frags, n, reply.StreamError()).events
    {
      ghost var s0 := State();
      PreparePrompt(p);
      assert State() == s0;
      if reply.Failed? {
        n, aborted := 0, false;
        events := events + [Info(ErrorLine(reply.error))];
      } else {
        n, aborted := Answer(reply.frags, reply.StreamError());
      }
    }
  }
}
