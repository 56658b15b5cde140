/** The conversation transcript and the token budget as functions: the text
    an entry adds to the plain and to the formatted transcript, and the
    number of tokens left for a completion. */
module Ledger {
  import opened Text
  import opened Enums
  import Stream

  /** Characters per token when no tokenizer is used. */
  const CharsPerToken: nat := 1

  /** Tokens kept free below the model's context size. */
  const SafetyGap: nat := 10

  /** The directive prepended to the context while code format is on. */
  const CodeFormatDirective :=
    "\nAny code snippet in your responses must be inside a code block. respond yes if you will comply"

  /** `text_to_tokens` without a tokenizer: `ceil(len(text) / chars_per_token)`. */
  function TextToTokens(text: string): nat
  {
    (|text| + CharsPerToken - 1) / CharsPerToken
  }

  /** With one character per token, the estimate is the character count, so
      it is additive over concatenation and monotone in the text's length. */
  lemma TextToTokensCounts(a: string, b: string)
    ensures TextToTokens(a) == |a|
    ensures TextToTokens(a + b) == TextToTokens(a) + TextToTokens(b)
    ensures |a| <= |b| ==> TextToTokens(a) <= TextToTokens(b)
  {
  }

  /** `tokens_per_model`: the context size of the model less the safety gap. */
  function TokensPerModel(m: GptModel): (n: nat)
    ensures n == (if m == Davinci then 4086 else 2038)
  {
    (if m == Davinci then 4096 else 2048) - SafetyGap
  }

  /** `calc_max_tokens`: what the prompt leaves of the model's budget; it is
      negative when the prompt alone is over the budget. */
  function MaxTokens(m: GptModel, promptInput: string): (n: int)
    ensures n + |promptInput| == TokensPerModel(m)
    ensures n < 0 <==> |promptInput| > TokensPerModel(m)
  {
    TextToTokensCounts(promptInput, "");
    TokensPerModel(m) - TextToTokens(promptInput)
  }

  /** The theme colours the model uses: console messages, the user's input
      and the response. */
  datatype Palette = Palette(cmessage: string, cinput: string, cresponse: string)

  /** The message, input and response colours of `get_term_colors`. */
  function PaletteOf(t: ThemeMode): Palette
  {
    if t == Dark then Palette("#C7E9FF", "bold cyan", "#FFE8F3")
    else Palette("#191846", "bold #000099", "bold #ad1f98")
  }

  /** The formatted twin of a response fragment: in the response colour,
      labelled "[GPT]: " when it starts the response. */
  function ResponseEntry(p: Palette, text: string, start: bool): string
  {
    "[" + p.cresponse + "]" + (if start then Stream.AddGptPrefix(text, true) else text) + "[/]"
  }

  /** The formatted twin of user text: a "[Me]: " line in the input colour
      with the leading whitespace removed, or nothing for blank text. */
  function UserEntry(p: Palette, text: string): string
  {
    if Strip(text) != "" then "\n\n[" + p.cinput + "][Me]: " + LStrip(text) + "[/]" else ""
  }

  /** Blank user text leaves the formatted transcript as it is; any other
      text adds a "[Me]: " line that ends in the text's last visible part. */
  lemma UserEntryBlank(p: Palette, text: string)
    ensures UserEntry(p, text) == "" <==> AllSpace(text)
    ensures !AllSpace(text) ==> |UserEntry(p, text)| > |LStrip(text)|
  {
    StripEmpty(text);
  }

  /** The texts appended since the last reset, run together. */
  function Concat(texts: seq<string>): string
    decreases |texts|
  {
    if texts == [] then "" else Concat(texts[..|texts| - 1]) + texts[|texts| - 1]
  }

  /** Running texts together in two parts is running them together at once. */
  lemma {:induction false} ConcatAppend(a: seq<string>, b: seq<string>)
    ensures Concat(a + b) == Concat(a) + Concat(b)
    decreases |b|
  {
    if b != [] {
      assert (a + b)[..|a + b| - 1] == a + b[..|b| - 1];
      ConcatAppend(a, b[..|b| - 1]);
    } else {
      assert a + b == a;
    }
  }

  /** The formatted twins of the classified fragments of a response: only the
      first is labelled. */
  function Formatted(p: Palette, frags: seq<string>): string
    decreases |frags|
  {
    if frags == [] then ""
    else Formatted(p, frags[..|frags| - 1]) + ResponseEntry(p, frags[|frags| - 1], |frags| == 1)
  }

  /** One more text run onto a transcript that already holds `texts`. */
  lemma ConcatSnoc(c0: string, texts: seq<string>, text: string)
    ensures c0 + Concat(texts) + text == c0 + Concat(texts + [text])
  {
    assert (texts + [text])[..|texts|] == texts;
  }

  /** One more response fragment formatted onto a transcript that already
      holds the formatted `frags`; only the first is labelled. */
  lemma FormattedSnoc(p: Palette, f0: string, frags: seq<string>, frag: string)
    ensures f0 + Formatted(p, frags) + ResponseEntry(p, frag, frags == []) == f0 + Formatted(p, frags + [frag])
  {
    assert (frags + [frag])[..|frags|] == frags;
  }

  /** `"\n" + prompt + "\n"`, or nothing for an empty prompt: the text
      `reset_context` starts the conversation with. */
  function PromptBlock(prompt: string): (r: string)
    ensures prompt == "" ==> r == ""
    ensures prompt != "" ==> |r| == |prompt| + 2 && r[1..|r| - 1] == prompt
  {
    if prompt != "" then "\n" + prompt + "\n" else ""
  }

  /** The prompt `apply_code_format_directive` writes: the directive `d`
      and a newline, then the prompt block. */
  function DirectivePrompt(d: string, prompt: string): string
  {
    d + "\n" + PromptBlock(prompt)
  }

  /** The conversation after `reset_context(prompt, submit=False)`. */
  function ResetConversation(d: string, prompt: string, codeFormat: bool): string
  {
    PromptBlock(prompt) + (if codeFormat then DirectivePrompt(d, prompt) else "")
  }

  /** The formatted conversation after `reset_context(prompt, submit=False)`. */
  function ResetFormatted(p: Palette, d: string, prompt: string, codeFormat: bool): string
  {
    UserEntry(p, PromptBlock(prompt)) + (if codeFormat then UserEntry(p, DirectivePrompt(d, prompt)) else "")
  }

  /** A reset keeps only the prompt (and, with code format on, the
      directive), so the budget after it is fixed by the prompt's length:
      with code format off it is the model's budget less the prompt and two
      newlines. */
  lemma ResetBudget(m: GptModel, d: string, prompt: string)
    ensures prompt != "" ==>
      MaxTokens(m, ResetConversation(d, prompt, false)) == TokensPerModel(m) - |prompt| - 2
    ensures MaxTokens(m, ResetConversation(d, "", false)) == TokensPerModel(m)
    ensures MaxTokens(m, ResetConversation(d, prompt, true)) <
      MaxTokens(m, ResetConversation(d, prompt, false))
  {
  }

  /** One reset is all `update_max_tokens` does: a prompt longer than the
      model's budget leaves it negative after the reset. */
  lemma ResetCanStayNegative(m: GptModel, d: string, prompt: string)
    requires |prompt| > TokensPerModel(m)
    ensures MaxTokens(m, ResetConversation(d, prompt, false)) < 0
  {
  }

  /** The block `submit_prompt` adds to the conversation: the prompt between
      two newlines, even when it is empty. */
  function SubmitBlock(prompt: string): string
  {
    "\n" + prompt + "\n"
  }

  /** The conversation `submit_prompt` sends: the old one with the prompt
      block, or, when that leaves no budget, the conversation a single reset
      to this prompt leaves. */
  function SubmitContext(m: GptModel, d: string, codeFormat: bool, conversation: string, prompt: string): string
  {
    var c := conversation + SubmitBlock(prompt);
    if MaxTokens(m, c) < 0 then ResetConversation(d, prompt, codeFormat) else c
  }

  /** The budget check of `submit_prompt`: while the prompt block fits, the
      conversation grows by it and the budget stays non-negative; when it
      does not fit, the context is reset once, to the prompt alone with code
      format off, and the new budget is not checked again. */
  lemma {:induction false} SubmitBudget(m: GptModel, d: string, codeFormat: bool, conversation: string, prompt: string)
    ensures var c := conversation + SubmitBlock(prompt);
      var s := SubmitContext(m, d, codeFormat, conversation, prompt);
      && (|c| <= TokensPerModel(m) ==> s == c && MaxTokens(m, s) >= 0)
      && (|c| > TokensPerModel(m) && !codeFormat && prompt != "" ==> s == SubmitBlock(prompt))
      && (|c| > TokensPerModel(m) && prompt == "" ==> s == (if codeFormat then d + "\n" else ""))
  {
    var c := conversation + SubmitBlock(prompt);
    if |c| > TokensPerModel(m) {
      assert MaxTokens(m, c) < 0;
    }
  }
}
