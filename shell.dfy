/** The command shell: the handlers whose effects lie in the settings, the
    dispatch of `handle_command`, the multi-line reader and `default`. */
module Shell {
  import opened Wrappers
  import opened Text
  import opened Enums
  import opened Output
  import opened Settings
  import opened Ledger
  import opened Terminal
  import opened Commands

  /** The console line of `print_info(msg)`. */
  function InfoLine(msg: string): string {
    msg + "\n"
  }

  /** Python's `str` of a bool. */
  function BoolText(b: bool): string {
    if b then "True" else "False"
  }

  /** The settings the modelled handlers read and change. */
  datatype Prefs = Prefs(
    theme: ThemeMode, advanced: bool, voice: bool, voiceOver: bool,
    voiceStop: VoiceStop, imageView: bool, imageSize: int, model: GptModel)

  /** A handler's new settings and the message it returns ("" for none). */
  datatype HandlerResult = HandlerResult(prefs: Prefs, msg: string)

  /** The handlers whose whole effect is on `Prefs` and the message. */
  predicate InModel(k: Key) {
    k in {Theme, Advanced, Voice, VoiceOver, VoiceStop, ImageView, ImageSize, Model}
  }

  /** The handlers whose effects lie outside this model, given whether code
      format is on: help (which prints the introduction), exit and abort,
      the voice name and image store (which probe `say` and the
      filesystem), the temperature (a float), the multi-line prompt and
      image requests, the initial code directive, and /reset and /code
      when they end with code format on, since they then submit the
      directive over the network. */
  predicate Unmodelled(k: Key, codeFormat: bool) {
    || k in {Help, Exit, Abort, VoiceName, Temperature, Block, Image, ImageStore, CodeInitial}
    || (k == Reset && codeFormat)
    || (k == Code && !codeFormat)
  }

  /** /reset, or /code switching code format off: the context is reset
      without a submit. */
  predicate Resets(k: Key, codeFormat: bool) {
    (k == Reset && !codeFormat) || (k == Code && codeFormat)
  }

  /** Every handler is in exactly one group: a settings handler, /save,
      /context, a reset without submit, or one outside the model. */
  lemma HandlerGroups(k: Key, codeFormat: bool)
    ensures InModel(k) || k == Save || k == Context || Resets(k, codeFormat) || Unmodelled(k, codeFormat)
    ensures InModel(k) ==> k != Save && k != Context && !Resets(k, codeFormat) && !Unmodelled(k, codeFormat)
    ensures Resets(k, codeFormat) ==> !Unmodelled(k, codeFormat)
  {
  }

  const ResetMessage := "[bold red]*** Chat context reset ***[/]"
  const SaveMessage := "Settings saved to disk"

  /** The message of /reset, or of /code switching code format off. */
  function ResetsMessage(k: Key): string {
    if k == Code then ResetMessage + "\nCode format = False" else ResetMessage
  }

  /** The handlers that flip one setting. */
  predicate IsToggle(k: Key) {
    k in {Theme, Advanced, Voice, VoiceOver, VoiceStop, ImageView}
  }

  const ImageSizeUsage := "Command format: /image-size <256|512|1024>"

  /** The size `handle_image_size` installs: one argument that `int()`
      accepts and that is 256, 512 or 1024. */
  function ImageSizeChoice(command: seq<string>): (r: Option<int>)
    ensures r.Some? ==> |command| == 2 && r.value in {256, 512, 1024} && ParseInt(command[1]) == r
    ensures |command| == 2 && ParseInt(command[1]).Some? && ParseInt(command[1]).value in {256, 512, 1024} ==>
      r == ParseInt(command[1])
  {
    if |command| == 2 then
      match ParseInt(command[1])
      case Some(v) => if v in {256, 512, 1024} then Some(v) else None
      case None => None
    else None
  }

  /** `handle_image_size`'s message. */
  function ImageSizeMessage(command: seq<string>): string {
    match ImageSizeChoice(command)
    case Some(v) => "Generated image size set to: " + NatToString(v) + " x " + NatToString(v)
    case None => ImageSizeUsage
  }

  /** Each offered size, written as `str` writes it, is accepted. */
  lemma ImageSizeAccepted(n: nat)
    requires n in {256, 512, 1024}
    ensures ImageSizeChoice(["/image-size", NatToString(n)]) == Some(n)
  {
    ParseNatToString(n);
  }

  /** What `int()` lets through: a sign and digit separators are accepted;
      other sizes, words and extra arguments are refused. */
  lemma ImageSizeExamples()
    ensures ImageSizeChoice(["/image-size", "+512"]) == Some(512)
    ensures ImageSizeChoice(["/image-size", "5_12"]) == Some(512)
    ensures ImageSizeChoice(["/image-size", "128"]) == None
    ensures ImageSizeChoice(["/image-size", "large"]) == None
    ensures ImageSizeChoice(["/image-size", "512", "512"]) == None
  {
    assert DigitsValue("512") == 512 by {
      assert "512"[..2] == "51" && "51"[..1] == "5";
    }
    assert DigitsValue("5_12") == 512 by {
      assert "5_12"[..3] == "5_1" && "5_1"[..2] == "5_" && "5_"[..1] == "5";
    }
    assert DigitsValue("128") == 128 by {
      assert "128"[..2] == "12" && "12"[..1] == "1";
    }
    assert !DigitOrSeparator("large", 0);
  }

  /** The usage text of `/model`, listing the model names joined by '|'. */
  function ModelUsage(): string {
    "Command format: /model <" + Join(ModelNames, '|') + ">"
  }

  /** The model `handle_model` installs: one argument naming a model. */
  function ModelChoice(command: seq<string>): (r: Option<GptModel>)
    ensures r.Some? <==> |command| == 2 && command[1] in ModelNames
    ensures r.Some? ==> r.value.Name() == command[1]
  {
    if |command| == 2 && command[1] in ModelNames then ModelByName(command[1]) else None
  }

  /** Every model can be chosen by its name, and only by it. */
  lemma ModelChoiceByName(m: GptModel, command: seq<string>)
    ensures ModelChoice(["/model", m.Name()]) == Some(m)
    ensures ModelChoice(command) == Some(m) ==> command[1] == m.Name()
  {
    ModelByNameOfName(m);
  }

  /** The usage text lists the four names. */
  lemma ModelUsageText()
    ensures ModelUsage() == "Command format: /model <davinci|curie|babbage|ada>"
  {
    assert ModelNames[1..][1..][1..] == ["ada"];
  }

  /** `handle_model`'s message. */
  function ModelMessage(command: seq<string>): string {
    match ModelChoice(command)
    case Some(m) => "GPT-3 Model set to '" + m.Name() + "'"
    case None => ModelUsage()
  }

  /** The handler of `k` called with `command`, for the handlers whose
      whole effect is on `Prefs`: a toggle flips its setting and reports the
      new value; the image size and the model change only for an accepted
      argument. */
  function Handle(k: Key, command: seq<string>, p: Prefs): (r: HandlerResult)
    requires InModel(k)
    ensures k != Theme ==> r.prefs.theme == p.theme
    ensures k != Advanced ==> r.prefs.advanced == p.advanced
    ensures k != Voice ==> r.prefs.voice == p.voice
    ensures k != VoiceOver ==> r.prefs.voiceOver == p.voiceOver
    ensures k != VoiceStop ==> r.prefs.voiceStop == p.voiceStop
    ensures k != ImageView ==> r.prefs.imageView == p.imageView
    ensures k != ImageSize ==> r.prefs.imageSize == p.imageSize
    ensures k != Model ==> r.prefs.model == p.model
    ensures r.msg != ""
  {
    match k
    case Theme =>
      var t := p.theme.Toggled();
      HandlerResult(p.(theme := t), "Color theme = " + t.Name())
    case Advanced =>
      HandlerResult(p.(advanced := !p.advanced), "Display advanced commands = " + BoolText(!p.advanced))
    case Voice =>
      HandlerResult(p.(voice := !p.voice), "Voice = " + BoolText(!p.voice))
    case VoiceOver =>
      HandlerResult(p.(voiceOver := !p.voiceOver), "voice over = " + BoolText(!p.voiceOver))
    case VoiceStop =>
      var s := p.voiceStop.Toggled();
      HandlerResult(p.(voiceStop := s), "voice stop = " + s.Name())
    case ImageView =>
      HandlerResult(p.(imageView := !p.imageView), "image view = " + BoolText(!p.imageView))
    case ImageSize =>
      var v := ImageSizeChoice(command);
      HandlerResult(if v.Some? then p.(imageSize := v.value) else p, ImageSizeMessage(command))
    case Model =>
      var m := ModelChoice(command);
      HandlerResult(if m.Some? then p.(model := m.value) else p, ModelMessage(command))
  }

  /** The budget after settings handler `k`: only a chosen model
      recomputes it, for that model and the unchanged prompt input. */
  function BudgetAfter(k: Key, command: seq<string>, promptInput: string, budget: int): int
  {
    if k == Model && ModelChoice(command).Some? then MaxTokens(ModelChoice(command).value, promptInput) else budget
  }

  /** A toggle called twice restores the settings; it never leaves them
      unchanged after one call. */
  lemma ToggleTwice(k: Key, command: seq<string>, p: Prefs)
    requires IsToggle(k)
    ensures Handle(k, command, Handle(k, command, p).prefs).prefs == p
    ensures Handle(k, command, p).prefs != p
  {
  }

  /** Setting the image size or the model again with the same command
      changes nothing more. */
  lemma SetTwice(k: Key, command: seq<string>, p: Prefs)
    requires k == ImageSize || k == Model
    ensures Handle(k, command, Handle(k, command, p).prefs) == Handle(k, command, p)
  {
  }

  /** A refused argument leaves the settings as they were and returns the
      usage text. */
  lemma Refused(k: Key, command: seq<string>, p: Prefs)
    requires (k == ImageSize && ImageSizeChoice(command).None?) || (k == Model && ModelChoice(command).None?)
    ensures Handle(k, command, p).prefs == p
    ensures Handle(k, command, p).msg == (if k == ImageSize then ImageSizeUsage else ModelUsage())
  {
  }

  /** The position of the first "." line. */
  function Terminator(input: seq<string>): (i: nat)
    requires "." in input
    ensures i < |input| && input[i] == "." && "." !in input[..i]
  {
    if input[0] == "." then 0
    else
      var j := Terminator(input[1..]);
      assert input[1..][..j] == input[1..j + 1];
      j + 1
  }

  /** What `get_multiline` returns when the user types `input`: the lines
      before the first "." line joined by newlines, or `None` when the input
      ends first and `input()` raises. */
  function Multiline(input: seq<string>): (r: Option<string>)
    ensures r.None? <==> "." !in input
  {
    if "." in input then Some(Join(input[..Terminator(input)], '\n')) else None
  }

  /** Typing some lines, then ".", gives those lines back: splitting the
      result at newlines recovers them, whatever follows the ".". */
  lemma {:induction false} MultilineLines(lines: seq<string>, rest: seq<string>)
    requires lines != [] && "." !in lines
    requires forall k :: 0 <= k < |lines| ==> '\n' !in lines[k]
    ensures Multiline(lines + ["."] + rest).Some?
    ensures SplitOn(Multiline(lines + ["."] + rest).value, '\n') == lines
  {
    var input := lines + ["."] + rest;
    assert input[|lines|] == ".";
    var t := Terminator(input);
    assert forall j :: 0 <= j < |lines| ==> input[j] == lines[j];
    assert t == |lines|;
    assert input[..t] == lines;
    SplitOnJoin(lines, '\n');
  }

  /** A "." first gives the empty prompt, which `handle_block` does not
      submit. */
  lemma MultilineEmpty(rest: seq<string>)
    ensures Multiline(["."] + rest) == Some("")
  {
    assert (["."] + rest)[0] == ".";
  }

  class ShellHandler {
    const term: GptTerminal

    constructor (t: GptTerminal)
      ensures term == t
    {
      term := t;
    }

    /** The modelled settings of the terminal. */
    function Current(): Prefs
      reads term.cfg`colorTheme, term.cfg`displayAdvanced, term.cfg`useVoice, term.cfg`voiceOver
      reads term.cfg`voiceStop, term.cfg`imageView, term.cfg`imageSize, term.cfg`model
    {
      Prefs(term.cfg.colorTheme, term.cfg.displayAdvanced, term.cfg.useVoice, term.cfg.voiceOver,
        term.cfg.voiceStop, term.cfg.imageView, term.cfg.imageSize, term.cfg.model)
    }

    /** `get_multiline(instruction)` reading the lines of `input`: the
        instruction is printed, lines are collected up to the first "."
        line, and the collected lines are joined by newlines. */
    method GetMultiline(instruction: string, input: seq<string>) returns (r: Option<string>)
      modifies term`events
      ensures r == Multiline(input)
      ensures term.events == old(term.events) + [Info(instruction + ". End with a '.' on a line by itself.")]
    {
      term.events := term.events + [Info(instruction + ". End with a '.' on a line by itself.")];
      var lines: seq<string> := [];
      var i := 0;
      while i < |input| && input[i] != "."
        invariant i <= |input| && lines == input[..i] && "." !in lines
      {
        lines := lines + [input[i]];
        i := i + 1;
      }
      if i == |input| {
        assert input[..i] == input;
        return None;
      }
      assert Terminator(input) == i;
      r := Some(Join(lines, '\n'));
    }

    method HandleTheme() returns (msg: string)
      requires term.Valid()
      modifies term.cfg`colorTheme, term`colors
      ensures term.Valid()
      ensures Current() == Handle(Theme, [], old(Current())).prefs && msg == Handle(Theme, [], old(Current())).msg
    {
      var theme := term.ToggleTheme();
      msg := "Color theme = " + (if theme == Dark then "dark" else "light");
    }

    method HandleAdvanced() returns (msg: string)
      modifies term.cfg`displayAdvanced
      ensures Current() == Handle(Advanced, [], old(Current())).prefs && msg == Handle(Advanced, [], old(Current())).msg
    {
      var on := term.ToggleAdvanced();
      msg := "Display advanced commands = " + BoolText(on);
    }

    method HandleVoice() returns (msg: string)
      modifies term.cfg`useVoice
      ensures Current() == Handle(Voice, [], old(Current())).prefs && msg == Handle(Voice, [], old(Current())).msg
    {
      var on := term.ToggleVoice();
      msg := "Voice = " + BoolText(on);
    }

    method HandleVoiceOver() returns (msg: string)
      modifies term.cfg`voiceOver
      ensures Current() == Handle(VoiceOver, [], old(Current())).prefs && msg == Handle(VoiceOver, [], old(Current())).msg
    {
      var on := term.ToggleVoiceOver();
      msg := "voice over = " + BoolText(on);
    }

    method HandleVoiceStop() returns (msg: string)
      modifies term.cfg`voiceStop
      ensures Current() == Handle(VoiceStop, [], old(Current())).prefs && msg == Handle(VoiceStop, [], old(Current())).msg
    {
      var stop := term.ToggleVoiceStop();
      msg := "voice stop = ";
      msg := msg + if stop == Period then "period" else "newline";
    }

    method HandleImageView() returns (msg: string)
      modifies term.cfg`imageView
      ensures Current() == Handle(ImageView, [], old(Current())).prefs && msg == Handle(ImageView, [], old(Current())).msg
    {
      var on := term.ToggleImageView();
      msg := "image view = " + BoolText(on);
    }

    /** `handle_image_size(command)`. */
    method HandleImageSize(command: seq<string>) returns (msg: string)
      modifies term.cfg`imageSize
      ensures Current() == Handle(ImageSize, command, old(Current())).prefs
      ensures msg == Handle(ImageSize, command, old(Current())).msg
    {
      msg := ImageSizeUsage;
      if |command| == 2 {
        var val := ParseInt(command[1]);
        if val.Some? && val.value in [256, 512, 1024] {
          term.cfg.imageSize := val.value;
          msg := "Generated image size set to: " + NatToString(val.value) + " x " + NatToString(val.value);
        }
      }
    }

    /** `handle_model(command)`: an accepted model also renews the budget. */
    method HandleModel(command: seq<string>) returns (msg: string)
      modifies term.cfg`model, term`maxTokens
      ensures Current() == Handle(Model, command, old(Current())).prefs
      ensures msg == Handle(Model, command, old(Current())).msg
      ensures ModelChoice(command).Some? ==> term.maxTokens == MaxTokens(term.cfg.model, term.promptInput)
      ensures ModelChoice(command).None? ==> term.maxTokens == old(term.maxTokens)
      ensures term.maxTokens == BudgetAfter(Model, command, term.promptInput, old(term.maxTokens))
    {
      msg := ModelUsage();
      if |command| == 2 && command[1] in ModelNames {
        term.cfg.model := ModelByName(command[1]).value;
        term.CalcMaxTokens();
        msg := "GPT-3 Model set to '" + term.cfg.model.Name() + "'";
      }
    }

    /** The transcript, the prompt and the prompt count. */
    function Session(): (string, string, string, string, nat)
      reads term`conversation, term`conversationFormatted, term`prompt, term`promptInput, term`promptIdx
    {
      (term.conversation, term.conversationFormatted, term.prompt, term.promptInput, term.promptIdx)
    }

    /** The settings outside `Prefs` that handlers change. */
    function Others(): (bool, string, string)
      reads term.cfg`useCodeFormat, term.cfg`voiceName, term.cfg`imageStore
    {
      (term.cfg.useCodeFormat, term.cfg.voiceName, term.cfg.imageStore)
    }

    /** `handle_reset` with code format off: `reset_context("")` empties
        both transcripts and the prompt, and the budget is the model's
        whole ceiling again. */
    method HandleReset() returns (msg: string)
      requires term.Valid() && !term.cfg.useCodeFormat
      modifies term`prompt, term`conversation, term`conversationFormatted
      modifies term`events, term`promptInput, term`maxTokens
      ensures term.Valid()
      ensures Session() == ("", "", "", "", old(term.promptIdx))
      ensures term.maxTokens == TokensPerModel(term.cfg.model)
      ensures term.events == old(term.events) && msg == ResetMessage
      ensures Current() == old(Current()) && term.State() == old(term.State())
      ensures Others() == old(Others()).(0 := false)
    {
      term.ResetContext("");
      StripEmpty("");
      msg := ResetMessage;
    }

    /** `handle_code` when code format is on: it is switched off and the
        context is reset without a submit. */
    method HandleCode() returns (msg: string)
      requires term.Valid() && term.cfg.useCodeFormat
      modifies term.cfg`useCodeFormat, term`prompt, term`conversation, term`conversationFormatted
      modifies term`events, term`promptInput, term`maxTokens
      ensures term.Valid() && !term.cfg.useCodeFormat
      ensures Session() == ("", "", "", "", old(term.promptIdx))
      ensures term.maxTokens == TokensPerModel(term.cfg.model)
      ensures term.events == old(term.events) && msg == ResetsMessage(Code)
      ensures Current() == old(Current()) && term.State() == old(term.State())
      ensures Others() == old(Others()).(0 := false)
    {
      var on := term.ToggleCode();
      msg := HandleReset();
      msg := msg + "\nCode format = " + BoolText(on);
    }

    /** `self.cmd_handlers[k](command)`. The settings handlers change the
        settings as `Handle` says; /save answers that the settings were
        saved (the file itself is not modelled); /context prints the
        formatted transcript and answers nothing; /reset, and /code
        switching code format off, reset the context. A handler outside
        the model is recorded as called and answers `external`; what else
        it changes is not stated. */
    method CallHandler(k: Key, command: seq<string>, external: string) returns (msg: string)
      requires term.Valid()
      modifies term.cfg`colorTheme, term`colors, term.cfg`displayAdvanced, term.cfg`useVoice
      modifies term.cfg`voiceOver, term.cfg`voiceStop, term.cfg`imageView, term.cfg`imageSize
      modifies term.cfg`model, term`maxTokens, term`events
      modifies term.cfg`useCodeFormat, term.cfg`voiceName, term.cfg`imageStore
      modifies term`prompt, term`conversation, term`conversationFormatted, term`promptInput
      modifies term`promptIdx, term`respLine, term`respSentence, term`respStart, term`inCodeBlock
      modifies term`firstSentence, term`codeBlockIdx, term`inGptResponse, term`abortResponse
      ensures term.Valid()
      ensures InModel(k) ==>
        var h := Handle(k, command, old(Current()));
        && Current() == h.prefs && msg == h.msg && term.events == old(term.events)
        && Session() == old(Session()) && Others() == old(Others()) && term.State() == old(term.State())
        && term.maxTokens == BudgetAfter(k, command, old(term.promptInput), old(term.maxTokens))
      ensures k == Save || k == Context ==>
        && Current() == old(Current()) && Session() == old(Session()) && Others() == old(Others())
        && term.State() == old(term.State()) && term.maxTokens == old(term.maxTokens)
      ensures k == Save ==> msg == SaveMessage && term.events == old(term.events)
      ensures k == Context ==> msg == "" && term.events == old(term.events) + [Info(InfoLine(old(term.conversationFormatted)))]
      ensures Resets(k, old(term.cfg.useCodeFormat)) ==>
        && Current() == old(Current()) && term.State() == old(term.State())
        && Others() == old(Others()).(0 := false)
        && Session() == ("", "", "", "", old(term.promptIdx))
        && term.maxTokens == TokensPerModel(term.cfg.model)
        && term.events == old(term.events) && msg == ResetsMessage(k)
      ensures Unmodelled(k, old(term.cfg.useCodeFormat)) ==>
        msg == external && term.events == old(term.events) + [Handler(command)]
    {
      HandlerGroups(k, term.cfg.useCodeFormat);
      if Unmodelled(k, term.cfg.useCodeFormat) {
        msg := CallOutside(command, external);
      } else if InModel(k) {
        msg := CallSettings(k, command);
      } else if k == Save || k == Context {
        msg := CallRecord(k);
      } else {
        msg := CallReset(k);
      }
    }

    /** /save and /context: only the answer and the printed transcript. */
    method CallRecord(k: Key) returns (msg: string)
      requires k == Save || k == Context
      modifies term`events
      ensures Current() == old(Current()) && Session() == old(Session()) && Others() == old(Others())
      ensures term.State() == old(term.State()) && term.maxTokens == old(term.maxTokens)
      ensures k == Save ==> msg == SaveMessage && term.events == old(term.events)
      ensures k == Context ==> msg == "" && term.events == old(term.events) + [Info(InfoLine(old(term.conversationFormatted)))]
    {
      if k == Save {
        msg := SaveMessage;
      } else {
        term.events := term.events + [Info(InfoLine(term.conversationFormatted))];
        msg := "";
      }
    }

    /** /reset with code format off, or /code with it on. */
    method CallReset(k: Key) returns (msg: string)
      requires term.Valid() && Resets(k, term.cfg.useCodeFormat)
      modifies term.cfg`useCodeFormat, term`prompt, term`conversation, term`conversationFormatted
      modifies term`events, term`promptInput, term`maxTokens
      ensures term.Valid()
      ensures Current() == old(Current()) && term.State() == old(term.State())
      ensures Others() == old(Others()).(0 := false)
      ensures Session() == ("", "", "", "", old(term.promptIdx))
      ensures term.maxTokens == TokensPerModel(term.cfg.model)
      ensures term.events == old(term.events) && msg == ResetsMessage(k)
    {
      if k == Reset {
        msg := HandleReset();
      } else {
        msg := HandleCode();
      }
    }

    /** A handler outside the model, recorded as called; it answers
        `external`. */
    method CallOutside(command: seq<string>, external: string) returns (msg: string)
      modifies term`events
      ensures term.events == old(term.events) + [Handler(command)] && msg == external
    {
      term.events := term.events + [Handler(command)];
      msg := external;
    }

    /** The settings handlers of the table, each as `Handle` says. */
    method CallSettings(k: Key, command: seq<string>) returns (msg: string)
      requires term.Valid() && InModel(k)
      modifies term.cfg`colorTheme, term`colors, term.cfg`displayAdvanced, term.cfg`useVoice
      modifies term.cfg`voiceOver, term.cfg`voiceStop, term.cfg`imageView, term.cfg`imageSize
      modifies term.cfg`model, term`maxTokens
      ensures term.Valid()
      ensures Current() == Handle(k, command, old(Current())).prefs && msg == Handle(k, command, old(Current())).msg
      ensures term.maxTokens == BudgetAfter(k, command, old(term.promptInput), old(term.maxTokens))
      ensures Session() == old(Session()) && Others() == old(Others()) && term.State() == old(term.State())
    {
      if k in {Theme, Advanced, Voice} {
        msg := CallSwitch(k, command);
      } else if k in {VoiceOver, VoiceStop, ImageView} {
        msg := CallToggle(k, command);
      } else {
        msg := CallChoice(k, command);
      }
    }

    /** The theme, the advanced listing and the voice. */
    method CallSwitch(k: Key, command: seq<string>) returns (msg: string)
      requires term.Valid() && k in {Theme, Advanced, Voice}
      modifies term.cfg`colorTheme, term`colors, term.cfg`displayAdvanced, term.cfg`useVoice
      modifies term.cfg`voiceOver, term.cfg`voiceStop, term.cfg`imageView, term.cfg`imageSize
      modifies term.cfg`model, term`maxTokens
      ensures term.Valid()
      ensures Current() == Handle(k, command, old(Current())).prefs && msg == Handle(k, command, old(Current())).msg
      ensures term.maxTokens == BudgetAfter(k, command, old(term.promptInput), old(term.maxTokens))
      ensures Session() == old(Session()) && Others() == old(Others()) && term.State() == old(term.State())
    {
      match k
      case Theme => msg := HandleTheme();
      case Advanced => msg := HandleAdvanced();
      case Voice => msg := HandleVoice();
    }

    /** Voice-over, the voice-stop policy and the image view. */
    method CallToggle(k: Key, command: seq<string>) returns (msg: string)
      requires term.Valid() && k in {VoiceOver, VoiceStop, ImageView}
      modifies term.cfg`colorTheme, term`colors, term.cfg`displayAdvanced, term.cfg`useVoice
      modifies term.cfg`voiceOver, term.cfg`voiceStop, term.cfg`imageView, term.cfg`imageSize
      modifies term.cfg`model, term`maxTokens
      ensures term.Valid()
      ensures Current() == Handle(k, command, old(Current())).prefs && msg == Handle(k, command, old(Current())).msg
      ensures term.maxTokens == BudgetAfter(k, command, old(term.promptInput), old(term.maxTokens))
      ensures Session() == old(Session()) && Others() == old(Others()) && term.State() == old(term.State())
    {
      match k
      case VoiceOver => msg := HandleVoiceOver();
      case VoiceStop => msg := HandleVoiceStop();
      case ImageView => msg := HandleImageView();
    }

    /** The settings chosen by an argument: the image size and the model. */
    method CallChoice(k: Key, command: seq<string>) returns (msg: string)
      requires term.Valid() && k in {ImageSize, Model}
      modifies term.cfg`colorTheme, term`colors, term.cfg`displayAdvanced, term.cfg`useVoice
      modifies term.cfg`voiceOver, term.cfg`voiceStop, term.cfg`imageView, term.cfg`imageSize
      modifies term.cfg`model, term`maxTokens
      ensures term.Valid()
      ensures Current() == Handle(k, command, old(Current())).prefs && msg == Handle(k, command, old(Current())).msg
      ensures term.maxTokens == BudgetAfter(k, command, old(term.promptInput), old(term.maxTokens))
      ensures Session() == old(Session()) && Others() == old(Others()) && term.State() == old(term.State())
    {
      if k == ImageSize {
        msg := HandleImageSize(command);
      } else {
        msg := HandleModel(command);
      }
    }

    /** `handle_command(line)`: `None` when it raises; otherwise whether the
        line was taken as a command. A usage line, or the handler's
        non-empty message, is printed; `external` is the message a handler
        outside the model returns. */
    method HandleCommand(line: string, external: string) returns (r: Option<bool>)
      requires term.Valid()
      modifies term.cfg`colorTheme, term`colors, term.cfg`displayAdvanced, term.cfg`useVoice
      modifies term.cfg`voiceOver, term.cfg`voiceStop, term.cfg`imageView, term.cfg`imageSize
      modifies term.cfg`model, term`maxTokens, term`events
      modifies term.cfg`useCodeFormat, term.cfg`voiceName, term.cfg`imageStore
      modifies term`prompt, term`conversation, term`conversationFormatted, term`promptInput
      modifies term`promptIdx, term`respLine, term`respSentence, term`respStart, term`inCodeBlock
      modifies term`firstSentence, term`codeBlockIdx, term`inGptResponse, term`abortResponse
      ensures term.Valid()
      ensures r == (match Decide(line) case Submit => Some(false) case Raises => None case _ => Some(true))
      ensures !Decide(line).Call? ==>
        && Current() == old(Current()) && term.maxTokens == old(term.maxTokens)
        && Session() == old(Session()) && Others() == old(Others()) && term.State() == old(term.State())
      ensures Decide(line).Submit? || Decide(line).Raises? ==> term.events == old(term.events)
      ensures Decide(line).Usage? ==>
        term.events == old(term.events) + [Info(InfoLine("Command format: " + Decide(line).key.Text()))]
      ensures Decide(line).Call? && InModel(Decide(line).key) ==>
        var d := Decide(line);
        var h := Handle(d.key, d.tokens, old(Current()));
        && Current() == h.prefs && Session() == old(Session()) && Others() == old(Others())
        && term.State() == old(term.State())
        && term.maxTokens == BudgetAfter(d.key, d.tokens, old(term.promptInput), old(term.maxTokens))
        && term.events == old(term.events) + [Info(InfoLine(h.msg))]
      ensures Decide(line).Call? && Decide(line).key == Save ==>
        term.events == old(term.events) + [Info(InfoLine(SaveMessage))] && Session() == old(Session())
      ensures Decide(line).Call? && Decide(line).key == Context ==>
        term.events == old(term.events) + [Info(InfoLine(old(term.conversationFormatted)))] && Session() == old(Session())
      ensures Decide(line).Call? && Resets(Decide(line).key, old(term.cfg.useCodeFormat)) ==>
        && Session() == ("", "", "", "", old(term.promptIdx)) && term.maxTokens == TokensPerModel(term.cfg.model)
        && term.events == old(term.events) + [Info(InfoLine(ResetsMessage(Decide(line).key)))]
      ensures Decide(line).Call? && Unmodelled(Decide(line).key, old(term.cfg.useCodeFormat)) ==>
        term.events == old(term.events) + [Handler(Decide(line).tokens)] +
          (if external != "" then [Info(InfoLine(external))] else [])
    {
      match Decide(line)
      case Submit => r := Some(false);
      case Raises => r := None;
      case Usage(k) =>
        term.events := term.events + [Info(InfoLine("Command format: " + k.Text()))];
        r := Some(true);
      case Call(k, tokens) =>
        Dispatch(k, tokens, external);
        r := Some(true);
    }

    /** A command line with a handler: the handler runs and its non-empty
        answer is printed. */
    method Dispatch(k: Key, command: seq<string>, external: string)
      requires term.Valid()
      modifies term.cfg`colorTheme, term`colors, term.cfg`displayAdvanced, term.cfg`useVoice
      modifies term.cfg`voiceOver, term.cfg`voiceStop, term.cfg`imageView, term.cfg`imageSize
      modifies term.cfg`model, term`maxTokens, term`events
      modifies term.cfg`useCodeFormat, term.cfg`voiceName, term.cfg`imageStore
      modifies term`prompt, term`conversation, term`conversationFormatted, term`promptInput
      modifies term`promptIdx, term`respLine, term`respSentence, term`respStart, term`inCodeBlock
      modifies term`firstSentence, term`codeBlockIdx, term`inGptResponse, term`abortResponse
      ensures term.Valid()
      ensures InModel(k) ==>
        var h := Handle(k, command, old(Current()));
        && Current() == h.prefs && Session() == old(Session()) && Others() == old(Others())
        && term.State() == old(term.State())
        && term.maxTokens == BudgetAfter(k, command, old(term.promptInput), old(term.maxTokens))
        && term.events == old(term.events) + [Info(InfoLine(h.msg))]
      ensures k == Save ==> term.events == old(term.events) + [Info(InfoLine(SaveMessage))] && Session() == old(Session())
      ensures k == Context ==>
        term.events == old(term.events) + [Info(InfoLine(old(term.conversationFormatted)))] && Session() == old(Session())
      ensures Resets(k, old(term.cfg.useCodeFormat)) ==>
        && Session() == ("", "", "", "", old(term.promptIdx)) && term.maxTokens == TokensPerModel(term.cfg.model)
        && term.events == old(term.events) + [Info(InfoLine(ResetsMessage(k)))]
      ensures Unmodelled(k, old(term.cfg.useCodeFormat)) ==>
        term.events == old(term.events) + [Handler(command)] + (if external != "" then [Info(InfoLine(external))] else [])
    {
      var msg := CallHandler(k, command, external);
      if msg != "" {
        term.events := term.events + [Info(InfoLine(msg))];
      }
    }

    /** `default`: a line the command decision leaves alone is submitted to
        the model as a prompt; a blank line raises before anything is
        submitted. A handled command submits nothing itself: the settings
        handlers, /save and /context keep the transcript, the prompt and
        the prompt count, and a reset without submit empties the transcript
        and the prompt. */
    method Default(line: string, reply: Reply, external: string) returns (handled: Option<bool>, ghost aborted: bool)
      requires term.Valid()
      modifies term.cfg`colorTheme, term`colors, term.cfg`displayAdvanced, term.cfg`useVoice
      modifies term.cfg`voiceOver, term.cfg`voiceStop, term.cfg`imageView, term.cfg`imageSize
      modifies term.cfg`model, term`maxTokens, term`events
      modifies term.cfg`useCodeFormat, term.cfg`voiceName, term.cfg`imageStore
      modifies term`prompt, term`conversation, term`conversationFormatted, term`promptInput
      modifies term`promptIdx, term`respLine, term`respSentence, term`respStart, term`inCodeBlock
      modifies term`firstSentence, term`codeBlockIdx, term`inGptResponse, term`abortResponse
      ensures term.Valid()
      ensures handled == Some(false) <==> Decide(line).Submit?
      ensures handled == None <==> Decide(line).Raises?
      ensures Decide(line).Submit? ==>
        && Current() == old(Current()) && Others() == old(Others())
        && term.promptInput == SubmitContext(term.cfg.model, term.codeFormatDirective, term.cfg.useCodeFormat,
             old(term.conversation), line)
        && (reply.Streamed? ==> term.promptIdx == old(term.promptIdx) + 1)
        && (reply.Failed? ==> term.promptIdx == old(term.promptIdx))
        && (reply.Broken? ==> term.promptIdx == old(term.promptIdx) + (if aborted then 1 else 0))
      ensures aborted ==> Decide(line).Submit? && !reply.Failed?
      ensures Decide(line).Raises? || Decide(line).Usage? ||
              (Decide(line).Call? && (InModel(Decide(line).key) || Decide(line).key in {Save, Context})) ==>
        Session() == old(Session())
      ensures Decide(line).Call? && Resets(Decide(line).key, old(term.cfg.useCodeFormat)) ==>
        Session() == ("", "", "", "", old(term.promptIdx))
    {
      handled := HandleCommand(line, external);
      aborted := false;
      if handled == Some(false) {
        ghost var n;
        n, aborted := term.SubmitPrompt(line, reply);
      }
    }
  }
}
