# gpterm in Dafny

A model of the core of gpterm, a terminal client for OpenAI's GPT-3 completion
models, and proofs about it. The model covers four parts of the program:

- **The streaming response classifier** in `GptTerminal`.
  - A completion arrives as text fragments.
  - For each fragment, `handle_response_line` decides three things: what is displayed, which finished lines go to the syntax highlighter as code, and which text is voiced through `say`.
  - It toggles code-block mode when the line accumulated so far strips to a "```" fence.
  - The module `Stream` states these rules as pure functions: `Step` for one fragment, `Feed` for a sequence, and `Respond` for a whole response with its final flush.
  - The class `Terminal.GptTerminal` runs the same rules step by step on its own fields. Each of its methods is proved to agree with those functions.
  - The console, the highlighter and `say` become an event log: `Display`, `CodeLine`, `Speak`, `Info` and `Handler` events.
- **The conversation and the token budget.**
  - The transcript only grows, and it has a formatted twin.
  - The budget is the model's token ceiling minus the length of the prompt input.
  - When the budget would go negative, the context is reset once. This is in the module `Ledger` and the methods of `GptTerminal`.
- **The shell's command handling.**
  - The command table and the decision `handle_command` makes are in the module `Commands`. That decision is: submit the line as a prompt, print the usage, call a handler, or raise.
  - `Commands` also has the completions.
  - The module `Shell` has the settings handlers, `get_multiline`, `handle_image_size`, `handle_model`, and `default`, which submits a line that is not a command.
- **The model alias tables** of `utils.py`, in the module `Utils`.

The other modules hold supporting pieces:

- `Text`: Python's `strip`, `split`, `'\n'.join`, `split('\n')` and `int()`, written out on `seq<char>`;
- `Enums`: the enumerations;
- `Output`: the event log and its projections;
- `Settings`: the configuration object and its defaults;
- `Wrappers`: `Option`.

Four behaviours of the code a reader might not expect:

- **The fence test.** A fence is recognised on the accumulated line `resp_line.strip()`, not on the fragment alone. A fence split into "``" and "`" therefore toggles the mode (`Stream.SplitFenceToggles`), even though neither fragment is a fence.
- **Line and sentence boundaries.** They are tested on the fragment, not on the accumulated buffer.
- **The sentence buffer at a toggle.** A toggle does not clear `resp_sentence`.
- **Code-block mode between responses.** `in_code_block` is never reset between responses, so a block left open carries over to the next one (`Stream.UnbalancedBlockCarriesOver`).

## Model

| member | source | states |
|---|---|---|
| Stream.StepAtFence | gpterm/gpterm.py:257-265 | When the accumulated line strips to "```", the step flips the mode, sets the code line count to 0, clears the line, keeps the fragment in the sentence and displays only the stripped fragment plus "\n", with no boundary handling |
| Stream.StepTogglesOnlyAtFence | gpterm/gpterm.py:260-265 | The mode changes on a step if and only if the accumulated line strips to a fence |
| Stream.SplitFenceToggles | gpterm/gpterm.py:258-265 | A fence split into "``" and "`" toggles on the second fragment; the first is displayed as is and the second as "`\n" |
| Stream.StepBoundaries | gpterm/gpterm.py:272-289 | Away from a fence: a fragment with '\n' or a flush ends the line and clears it; one with '.' or a line end ends the sentence, clears it and ends the first sentence; the mode never changes; the code line count grows by one only at a line end inside a block |
| Stream.AdvanceState | gpterm/gpterm.py:272-289 | The whole new state of a step away from a fence, field by field, including the skipped leading bare "\n" of a block |
| Stream.StepDisplays | gpterm/gpterm.py:267-268 | A fragment is displayed only outside a block or when it is "``", never under voice-over, and with a leading "\n" for "``" at the start of a response |
| Stream.StepCodeLines | gpterm/gpterm.py:365-372 | A code line is emitted exactly at a line end inside a block, except a bare "\n" at code line count 0; it is the line with one trailing '\n' dropped |
| Stream.StepSpeaks | gpterm/gpterm.py:281-289 | Under the newline policy the line is voiced at a line end outside a block; under the period policy the sentence is voiced at every sentence end |
| Stream.VoiceFilter | gpterm/gpterm.py:304-310 | `voice` says nothing exactly when the text is empty, voice is off, the mode is code, or the text is "```" or "``"; otherwise it says the escaped text once |
| Stream.SpeakTextSafe | gpterm/gpterm.py:311-314 | The text handed to `say` has no backtick, a backslash before every quote, and no leading '-' |
| Stream.EscapeCommutes | gpterm/gpterm.py:312 | Removing backticks and escaping quotes commute |
| Stream.UnescapeQuoteEscaped | gpterm/gpterm.py:312 | The quote escaping loses nothing: undoing it gives back the text |
| Stream.SpeakPlain | gpterm/gpterm.py:311-314 | Text with no quote, no backtick and no leading '-' is spoken verbatim |
| Stream.SubstitutionPassesThrough | gpterm/gpterm.py:311-317 | A command substitution "$(touch x)" in voiced text reaches the double-quoted `say` command line unescaped |
| Stream.DropNewlineSpec | gpterm/gpterm.py:369-370 | Exactly one trailing newline is dropped, and only when there is one |
| Stream.AddGptPrefixShape | gpterm/gpterm.py:384-388 | The prefixed text is the optional "[GPT]: " label, a "\n" exactly for "``", then the text itself |
| Stream.KeptSnoc | gpterm/gpterm.py:339-354 | The fragments kept grow by one per index, except for a bare "\n" at index 0 |
| Stream.Begin | gpterm/gpterm.py:335-338 | A response starts with empty line and sentence, on its first sentence, code line count 0, and the mode of the previous response |
| Stream.Abandon | gpterm/gpterm.py:327-331 | `reset_response_state` empties line and sentence and leaves the mode, the code line count and the first-sentence flag as they are |
| Stream.UnbalancedBlockCarriesOver | gpterm/gpterm.py:327-338 | A response that starts inside a block and brings no backtick stays in the block, displays nothing and voices nothing |
| Stream.InBlockQuiet | gpterm/gpterm.py:267-289 | Inside a block, fragments without a backtick are neither displayed nor voiced and keep the mode |
| Stream.NoBacktickNoToggle | gpterm/gpterm.py:260 | Without a backtick in the line or the fragments the mode never changes |
| Stream.FeedAppend | gpterm/gpterm.py:339-355 | Feeding two runs of fragments is feeding the first, then the second from where it left off |
| Stream.FeedSnoc | gpterm/gpterm.py:339-355 | One more fragment is one more step, after which the response has started |
| Stream.FeedStart | gpterm/gpterm.py:355 | The start flag is cleared by the first classified fragment and by nothing else |
| Stream.RespondWhole | gpterm/gpterm.py:350-358 | A response that ends on an empty line and does not start with "\n" needs no flush |
| Stream.RespondInTwo | gpterm/gpterm.py:339-358 | Split anywhere after a non-empty first part, what a response voices is what its first part (less a leading bare "\n") voices, then what its second part voices, then what the final flush of its pending line voices |
| Stream.CodeBlockExample | gpterm/gpterm.py:257-289 | ["```", "print(1)", "\n", "```"] displays the two fences, emits the code line "print(1)", voices nothing and leaves the block |
| Stream.OpenBlockExample | gpterm/gpterm.py:257-289 | ["```", "print(1)", "\n"] leaves the mode in the block after emitting "print(1)" |
| Stream.PeriodVoiceExample | gpterm/gpterm.py:278-289 | Under the period policy ["Hello", " world.", " Next", " sentence.\n"] voices exactly "Hello world." and " Next sentence.\n" |
| Stream.TwoPartSentence | gpterm/gpterm.py:278-289 | Under the period policy, a sentence that ends in its second fragment is voiced once, as the whole sentence |
| Stream.ProseStep | gpterm/gpterm.py:258-289 | Outside a block and with no backtick, one step voices the sentence exactly when the fragment ends it |
| Stream.ShownProjections | gpterm/gpterm.py:267-268 | What a fragment displays, and that the display step emits no code line and no speech |
| Stream.LineEventsProjections | gpterm/gpterm.py:280-286 | What a line end emits as code and as speech |
| Stream.SpokenProjections | gpterm/gpterm.py:287-289 | What a sentence end voices |
| Stream.FenceStep | gpterm/gpterm.py:260-265 | A bare "```" on an empty line toggles and displays "```\n" |
| Stream.CodeLineStep | gpterm/gpterm.py:365-372 | A "\n" inside a block emits the pending line as code and counts it |
| Ledger.TextToTokensCounts | gpterm/gpterm.py:153-162 | With one character per token, the token count is the length: additive and monotone |
| Ledger.TokensPerModel | gpterm/gpterm.py:141-147 | 4096 - 10 for davinci, 2048 - 10 for every other model |
| Ledger.MaxTokens | gpterm/gpterm.py:149-151 | The budget plus the prompt input's length is the model's ceiling; it is negative exactly when the input is longer than the ceiling |
| Ledger.UserEntryBlank | gpterm/gpterm.py:300-302 | Whitespace-only user text adds nothing to the formatted transcript; other text adds more than its left-stripped self |
| Ledger.ConcatAppend | gpterm/gpterm.py:295 | The transcript of two runs is the concatenation of their transcripts |
| Ledger.FormattedSnoc | gpterm/gpterm.py:296-299 | One more response fragment adds its formatted entry, with the "[GPT]: " label only on the first |
| Ledger.PromptBlock | gpterm/gpterm.py:174 | An empty prompt adds nothing; otherwise the prompt between two newlines |
| Ledger.ResetBudget | gpterm/gpterm.py:172-180 | After a reset without code format the budget is the ceiling minus the prompt and its two newlines (the whole ceiling for an empty prompt); with code format the directive leaves less |
| Ledger.ResetCanStayNegative | gpterm/gpterm.py:164-170 | A prompt longer than the ceiling leaves the budget negative after the one reset: there is no retry |
| Ledger.SubmitBudget | gpterm/gpterm.py:228-237 | A submit that fits keeps the conversation plus the prompt block and a non-negative budget; one that does not fit restarts the conversation from the prompt (or the directive) |
| Output.SpeechesAppend | gpterm/gpterm.py:304-319 | The speech of two event runs is the speech of each, in order |
| Output.DisplaysAppend | gpterm/gpterm.py:374-379 | The same for the displayed text |
| Output.CodeLinesAppend | gpterm/gpterm.py:365-372 | The same for the code lines |
| Output.SpokeSpeeches | gpterm/gpterm.py:317-319 | Some `say` was called exactly when the speech projection is not empty |
| Terminal.GptTerminal.constructor | gpterm/gpterm.py:22-49 | The initial fields; every default of the configuration (code format off, advanced off, voice on as "Karen", voice-over off, period voice stop, image size 256, image view on, the image store path, davinci); a theme given on the command line; and the davinci budget of 4086 |
| Terminal.GptTerminal.ToggleAdvanced | gpterm/gpterm.py:95-97 | Flips `display_advanced` and returns the new value |
| Terminal.GptTerminal.ToggleVoice | gpterm/gpterm.py:99-101 | Flips `use_voice` and returns the new value |
| Terminal.GptTerminal.ToggleVoiceOver | gpterm/gpterm.py:103-105 | Flips `voice_over` and returns the new value |
| Terminal.GptTerminal.ToggleVoiceStop | gpterm/gpterm.py:107-109 | Swaps period and newline and returns the new policy |
| Terminal.GptTerminal.ToggleImageView | gpterm/gpterm.py:111-113 | Flips `image_view` and returns the new value |
| Terminal.GptTerminal.ToggleTheme | gpterm/gpterm.py:115-118 | Swaps dark and light and recomputes the colours for the new theme |
| Terminal.GptTerminal.ToggleCode | gpterm/gpterm.py:120-122 | Flips `use_code_format` and returns the new value |
| Terminal.GptTerminal.PrintChatResponse | gpterm/gpterm.py:374-379 | Logs exactly the display `PrintChat` gives: nothing under voice-over unless forced, and the unlabelled prefix at the start of a response |
| Terminal.GptTerminal.Voice | gpterm/gpterm.py:304-319 | Logs exactly what `Stream.Voice` gives; the abort flag is set only if it was set before or `say` was called |
| Terminal.GptTerminal.PrintCodeResponse | gpterm/gpterm.py:365-372 | Its new state and events are those of `Stream.PrintCode` |
| Terminal.GptTerminal.HandleResponseLine | gpterm/gpterm.py:257-289 | The new per-response fields and the logged events are exactly those of `Stream.Step`; the abort flag is raised only by a `say` |
| Terminal.GptTerminal.AddToConversation | gpterm/gpterm.py:291-302 | With reset both transcripts start empty; the transcript grows by exactly the text, and the formatted one by its response or user entry |
| Terminal.GptTerminal.CalcMaxTokens | gpterm/gpterm.py:149-151 | The budget is the model's ceiling minus the length of the prompt input |
| Terminal.GptTerminal.ApplyCodeFormatDirective | gpterm/gpterm.py:215-226 | Without code format nothing changes; otherwise the directive is printed, becomes the prompt (with the user's prompt after it) and is added to the transcript |
| Terminal.GptTerminal.ResetContext | gpterm/gpterm.py:172-180 | The transcript restarts from the prompt block (and the directive under code format), the prompt input is the transcript and the budget is recomputed from it |
| Terminal.GptTerminal.UpdateMaxTokens | gpterm/gpterm.py:164-170 | A prompt input that fits leaves everything but the budget unchanged and the budget non-negative; one that does not logs the message and resets the context once, from the current prompt |
| Terminal.GptTerminal.ResetResponseState | gpterm/gpterm.py:327-331 | The per-response state becomes `Abandon` of the old one and the response is over |
| Terminal.GptTerminal.PumpFragments | gpterm/gpterm.py:339-355 | The loop consumes a prefix of the fragments, stops early exactly when aborted, adds the kept fragments (and "\n" on abort) to the transcript, logs exactly the events of `Feed` on them, and leaves `in_gpt_response` set exactly when it took every fragment of a non-empty stream |
| Terminal.GptTerminal.HandleCompletion | gpterm/gpterm.py:333-361 | A completed response ends in the state and events of `Stream.Respond`; an aborted one in `Abandon` of the fed state, after some `say`; one whose stream raises after its last fragment raises too, unflushed, in the fed state and with `in_gpt_response` still set; the transcript holds the kept fragments in order |
| Terminal.GptTerminal.FlushLine | gpterm/gpterm.py:357-358 | A non-empty pending line is classified once more as a line end; an empty one changes nothing |
| Terminal.GptTerminal.StopResponse | gpterm/gpterm.py:341-345 | An abort adds "\n" to the transcript only and abandons the response state |
| Terminal.GptTerminal.AppendPrompt | gpterm/gpterm.py:230-232 | The prompt is recorded, added to the transcript between newlines and becomes the prompt input |
| Terminal.GptTerminal.PreparePrompt | gpterm/gpterm.py:228-237 | The prompt input is `SubmitContext` of the old transcript; the budget is computed from it, after one reset when the prompt did not fit |
| Terminal.GptTerminal.Answer | gpterm/gpterm.py:252-255 | The stream's state and events are those of `AnswerOutcome`: `Respond` when complete, `Abandon` of the fed state when cut short by a failed `say`, and the fed state with the error line last when reading it raised; the prompt is counted unless it raised; the transcripts hold the kept fragments |
| Terminal.RaiseSkipsFlush | gpterm/gpterm.py:339-358 | A stream that raises after its last fragment loses only the final flush, which the complete stream performs, and reports the error instead; with no pending line both end in the same state |
| Terminal.GptTerminal.SubmitPrompt | gpterm/gpterm.py:228-255 | The prompt input and budget of `PreparePrompt`, with the budget notices logged first; a failed request then logs only the error line and counts nothing; a stream adds its kept fragments to both transcripts and ends in the state and events of `AnswerOutcome`, counted unless reading it raised |
| Commands.Key.Text | gpterm/shell.py:25-48 | Every command name starts with '/' and has more than one character |
| Commands.KeyOf | gpterm/shell.py:25-48 | A token names a handler exactly when it is one of the handler table's keys |
| Commands.KeyOfText | gpterm/shell.py:25-48 | Every handler's name is recognised as that handler |
| Commands.GetCommands | gpterm/gpterm.py:51-77 | The full table when advanced; otherwise exactly the commands not flagged advanced, in table order |
| Commands.Basic | gpterm/gpterm.py:74-77 | The basic listing holds exactly the non-advanced commands, in table order |
| Commands.ArgCommands | gpterm/gpterm.py:65-72 | The commands that take an argument are /image-size, /image-store, /voice-name, /model and /temperature |
| Commands.Decide | gpterm/shell.py:253-280 | A usage answer is for a known command given arguments it does not take; a call passes the split tokens to a known command that takes its arguments |
| Commands.DecideSubmit | gpterm/shell.py:253-265 | The line is submitted as a prompt exactly when it is empty, has a '\n', or its first token is not a known command |
| Commands.DecideRaises | gpterm/shell.py:260-261 | A non-empty single line of whitespace splits into no token, so indexing the first token raises |
| Commands.TokensEmpty | gpterm/shell.py:260 | The stripped and split line has no token exactly when it is all whitespace |
| Commands.ArgumentChecked | gpterm/shell.py:270-277 | A known command given arguments gets the usage answer when it takes none, and a call with the tokens when it takes some |
| Commands.StartingWith | gpterm/shell.py:96-97 | Exactly the words that start with the text, in their order |
| Commands.Completions | gpterm/shell.py:93-99 | The completions are the listed names plus "shell" that start with the text, in order; empty text gives all of them |
| Commands.CompletionsShell | gpterm/shell.py:95-99 | "shell" is offered exactly when it starts with the text |
| Commands.CompletionsListed | gpterm/shell.py:94-97 | Every other completion is the name of a listed command |
| Shell.ImageSizeChoice | gpterm/shell.py:209-215 | A size is chosen exactly when there is one argument and `int()` parses it to 256, 512 or 1024, and the size is that value |
| Shell.ImageSizeAccepted | gpterm/shell.py:211-215 | Each allowed size written in decimal is accepted |
| Shell.ImageSizeExamples | gpterm/shell.py:211-219 | "+512" and "5_12" are accepted as 512, as `int()` does; "128", "large" and two arguments are refused |
| Shell.ModelChoice | gpterm/shell.py:178-181 | A model is chosen exactly when there is one argument and it is a model name, and it is the model of that name |
| Shell.ModelChoiceByName | gpterm/shell.py:178-181 | Every model can be chosen by its name, and only by it |
| Shell.ModelUsageText | gpterm/shell.py:178-179 | The usage message lists the models in declaration order: davinci, curie, babbage, ada |
| Shell.Handle | gpterm/shell.py:131-224 | Each settings handler changes only its own setting and always answers with a message |
| Shell.HandlerGroups | gpterm/shell.py:25-48 | Every handler is a settings handler, /save, /context, a reset without submit, or one outside the model, and the settings handlers are in no other group |
| Shell.ToggleTwice | gpterm/shell.py:131-224 | A toggle always changes its setting, and toggling twice restores the settings |
| Shell.SetTwice | gpterm/shell.py:177-219 | Repeating the same /image-size or /model command changes nothing more |
| Shell.Refused | gpterm/shell.py:177-219 | A refused size or model leaves every setting unchanged and answers with the usage message |
| Shell.Terminator | gpterm/shell.py:78-82 | The index of the first "." line |
| Shell.Multiline | gpterm/shell.py:73-85 | There is a result exactly when a "." line is read |
| Shell.MultilineLines | gpterm/shell.py:78-85 | The result splits on '\n' back into exactly the lines before the first ".", without it |
| Shell.MultilineEmpty | gpterm/shell.py:78-85 | A "." first gives the empty prompt |
| Shell.ShellHandler.constructor | gpterm/shell.py:60-61 | The shell talks to the given terminal |
| Shell.ShellHandler.GetMultiline | gpterm/shell.py:73-85 | The loop returns `Multiline` of the input lines after printing the instruction |
| Shell.ShellHandler.HandleTheme | gpterm/shell.py:131-134 | Settings and message are those of `Handle(Theme, ...)` |
| Shell.ShellHandler.HandleAdvanced | gpterm/shell.py:142-145 | Settings and message are those of `Handle(Advanced, ...)` |
| Shell.ShellHandler.HandleVoice | gpterm/shell.py:147-150 | Settings and message are those of `Handle(Voice, ...)` |
| Shell.ShellHandler.HandleVoiceOver | gpterm/shell.py:166-169 | Settings and message are those of `Handle(VoiceOver, ...)` |
| Shell.ShellHandler.HandleVoiceStop | gpterm/shell.py:171-175 | Settings and message are those of `Handle(VoiceStop, ...)` |
| Shell.ShellHandler.HandleImageView | gpterm/shell.py:221-224 | Settings and message are those of `Handle(ImageView, ...)` |
| Shell.ShellHandler.HandleImageSize | gpterm/shell.py:209-219 | Settings and message are those of `Handle(ImageSize, ...)` |
| Shell.ShellHandler.HandleModel | gpterm/shell.py:177-185 | Settings and message are those of `Handle(Model, ...)`; a chosen model recomputes the budget for it, and a refused one leaves the budget alone |
| Shell.ShellHandler.HandleReset | gpterm/shell.py:123-126 | With code format off, /reset empties both transcripts and the prompt, restores the whole budget and answers the reset message |
| Shell.ShellHandler.HandleCode | gpterm/shell.py:136-140 | With code format on, /code switches it off, resets as /reset does and answers the reset message with "Code format = False" |
| Shell.ShellHandler.CallSettings | gpterm/shell.py:131-224 | The settings handlers change the settings and answer as `Handle` says; only a chosen model recomputes the budget, for that model; the transcript, the prompt, the other settings and the stream state stay as they were |
| Shell.ShellHandler.CallSwitch | gpterm/shell.py:131-150 | /theme, /advanced and /voice change the settings and answer as `Handle` says, and leave the transcript, the prompt, the stream state and the budget alone |
| Shell.ShellHandler.CallToggle | gpterm/shell.py:166-224 | /voice-over, /voice-stop and /image-view change the settings and answer as `Handle` says, and leave the transcript, the prompt, the stream state and the budget alone |
| Shell.ShellHandler.CallChoice | gpterm/shell.py:177-219 | /image-size and /model change the settings and answer as `Handle` says; an accepted model recomputes the budget for that model and the prompt input, and otherwise the budget is unchanged |
| Shell.ShellHandler.CallRecord | gpterm/shell.py:118-130 | /save answers "Settings saved to disk" and changes nothing; /context prints the formatted transcript, answers nothing and changes nothing else |
| Shell.ShellHandler.CallReset | gpterm/shell.py:123-140 | /reset with code format off, or /code with it on, empties both transcripts and the prompt, restores the whole budget, leaves code format off and the other settings alone, and answers the reset message |
| Shell.ShellHandler.CallHandler | gpterm/shell.py:118-248 | Settings handlers as `Handle` says, with the budget recomputed only for an accepted /model, and nothing else; /save answers "Settings saved to disk"; /context prints the formatted transcript and answers nothing; /reset and /code without a submit reset the context; a handler outside the model is recorded and answers its own message |
| Shell.ShellHandler.HandleCommand | gpterm/shell.py:253-280 | Returns False for a submit, raises on a blank line and otherwise returns True: after logging the usage line, or after calling the handler and printing its message only when it is non-empty, for the handlers in the model and those outside it alike; a settings command changes the settings as `Handle` says, recomputes the budget only for an accepted /model, and leaves the transcript, the prompt and the stream state alone |
| Shell.ShellHandler.Dispatch | gpterm/shell.py:277-280 | A handler's non-empty answer is printed after it runs and an empty one prints nothing, for each group of handlers; a settings handler changes the settings as `Handle` says, recomputes the budget only for an accepted /model, and leaves the transcript, the prompt and the stream state alone |
| Shell.ShellHandler.Default | gpterm/shell.py:66-68 | The line goes to `submit_prompt` exactly when `handle_command` returns False; a submitted prompt is counted after a complete stream or one cut short by a failed `say`, and not after a failed request or a stream whose reading raised; a settings command, /save, /context or a usage line leaves the transcript, the prompt and the prompt count alone, and a reset without submit empties the transcript and the prompt |
| Utils.TablesInverse | gpterm/utils.py:4-18 | The two tables are inverse to each other, and no alias is a model id |
| Utils.ModelFromAliasLookup | gpterm/utils.py:2-10 | A known alias maps to its (different) model id; any other string is returned unchanged |
| Utils.AliasForModelLookup | gpterm/utils.py:13-20 | A known model id maps to its (different) alias; any other string is returned unchanged |
| Utils.RoundTrips | gpterm/utils.py:2-20 | Alias to model to alias, and model to alias to model, give back what they started from |
| Utils.LookupsIdempotent | gpterm/utils.py:2-20 | Both lookups are idempotent |
| Utils.ModelNameForPrintCases | gpterm/utils.py:23-28 | "alias (model)" for a model with an alias, the model alone otherwise |
| Enums.ModelByName | gpterm/enums.py:5-10 | `GptModel[name]` succeeds exactly for the four member names |
| Enums.ModelByNameOfName | gpterm/enums.py:5-10 | Looking a model up by its own name gives it back |
| Enums.VoiceStop.Toggled | gpterm/gpterm.py:107-109 | The voice stop policy always changes when toggled |
| Enums.ThemeMode.Toggled | gpterm/gpterm.py:115-116 | The theme always changes when toggled |
| Settings.Config.constructor | gpterm/config.py:10-23 | The default settings |
| Text.StripEmpty | gpterm/shell.py:260 | `strip()` gives "" exactly for whitespace-only text |
| Text.SplitEmpty | gpterm/shell.py:260 | `split()` gives no token exactly for whitespace-only text |
| Text.JoinSplitOn | gpterm/shell.py:84 | Splitting on a separator and joining with it gives back the text |
| Text.SplitOnJoin | gpterm/shell.py:84 | Joining lines that do not contain the separator and splitting again gives back the lines |
| Text.ParseInt | gpterm/shell.py:213 | `int()` accepts exactly an optional sign and decimal digits, single underscores allowed between digits |
| Text.ParseNatToString | gpterm/shell.py:213-216 | Parsing a number written in decimal gives back the number |

## Left out

- The OpenAI network calls, and the image generation and download. A completion is an input: the sequence of streamed fragments, the message of the exception the request raised, or fragments followed by the exception that reading the stream raised.
- The rich console and `Syntax` highlighting. Each becomes an event in a log. The debug prints and the final `print("\n")` of `handle_completion` are not logged.
- The non-streaming branch of `handle_completion`, since `stream` is always true. The `time.sleep` pacing is also left out.
- Terminal.GptTerminal.Voice: the exit status of `say` is nondeterministic. The branch where `os.system` itself raises, and prints "Failed to produce voiced text", is not modelled.
- The `use_tokenizer` branch of `text_to_tokens`, because it loads a foreign tokenizer library.
- `reset_context` and `apply_code_format_directive` with `submit=True` when code format is on, because they then submit over the network. For the same reason `/reset` with code format on and `/code` switching it on are left out, and so are the `/block`, `/image` and `//code_initial` handlers.
- `update_shell_prompt` and the `cmd.Cmd`/readline plumbing: preloop, the intro, completer delimiters, `do_shell` and `do_help`.
- `run_cmdloop`'s KeyboardInterrupt handling and the `in_gpt_response` flag it reads.
- The closing of the completion stream on abort.
- The arguments `say` gets besides the text: `-v` with the voice name and `-i` under voice-over. A `Speak` event carries only the text.
- Handlers outside the model: help, exit, abort, temperature, voice-name, image-store, block, image and code_initial, and /reset and /code on their submitting paths.
  - They print the introduction, do filesystem or `say` probes, exit the program, parse floats, read input lines, or submit.
- Shell.ShellHandler.CallHandler: for a handler outside the model it logs a `Handler` event with the tokens and returns the message given as its `external` parameter; what else that handler changes is not stated, and its frame admits every field those handlers touch.
- Shell.ShellHandler.HandleCommand: the same holds for a handler outside the model; only the printing of its message is stated.
- Shell.ShellHandler.Dispatch: the same holds for a handler outside the model; only the printing of its message is stated.
- Shell.ShellHandler.HandleReset: models /reset with code format off only, and Shell.ShellHandler.HandleCode /code with code format on only; the other paths submit the code directive.
- The file written by /save. Only its answer is modelled.
- The description and setting columns of the command table. Only `help_message` uses them.
- Loading and saving the YAML configuration. Only the defaults are kept.
- Settings.Config.constructor: the default temperature 0.75 (a float, read only by the left-out request) and the configuration file path (filesystem) are not modelled.
- The theme colour values are kept only as far as the formatted transcript needs them.
- Text.ParseInt: accepts ASCII digits only, while Python's `int()` also accepts other Unicode decimal digits and surrounding whitespace. Tokens from `split()` carry no whitespace, and the other digits are not modelled.
- Shell.ShellHandler.Default: states what is submitted and the prompt count. What the submit displays is stated by `Terminal.GptTerminal.SubmitPrompt` and is not repeated here.

