/** The slash commands: the table `get_commands` builds, the keys the shell
    dispatches on, the decision `handle_command` takes for an input line,
    and the completions offered for a partly typed command. */
module Commands {
  import opened Wrappers
  import opened Text

  /** The keys of the shell's handler table. Two of them, `Abort` and
      `CodeInitial`, have no entry in the command table. */
  datatype Key =
    | Help | Exit | Abort | Save | Reset | Context | Theme | Code | Advanced
    | Voice | VoiceName | VoiceOver | VoiceStop | Model | Temperature
    | Block | Image | ImageSize | ImageView | ImageStore | CodeInitial
  {
    /** The word typed for the command. */
    function Text(): (s: string)
      ensures |s| > 1 && s[0] == '/'
    {
      match this
      case Help => "/help"
      case Exit => "/exit"
      case Abort => "/abort"
      case Save => "/save"
      case Reset => "/reset"
      case Context => "/context"
      case Theme => "/theme"
      case Code => "/code"
      case Advanced => "/advanced"
      case Voice => "/voice"
      case VoiceName => "/voice-name"
      case VoiceOver => "/voice-over"
      case VoiceStop => "/voice-stop"
      case Model => "/model"
      case Temperature => "/temperature"
      case Block => "/block"
      case Image => "/image"
      case ImageSize => "/image-size"
      case ImageView => "/image-view"
      case ImageStore => "/image-store"
      case CodeInitial => "//code_initial"
    }
  }

  /** The lookup `command[0] in self.cmd_handlers`: the key typed as
      `token`, if any. */
  function KeyOf(token: string): (k: Option<Key>)
    ensures k.Some? ==> k.value.Text() == token
    ensures k.None? ==> forall key: Key :: key.Text() != token
  {
    if token == "/help" then Some(Help)
    else if token == "/exit" then Some(Exit)
    else if token == "/abort" then Some(Abort)
    else if token == "/save" then Some(Save)
    else if token == "/reset" then Some(Reset)
    else if token == "/context" then Some(Context)
    else if token == "/theme" then Some(Theme)
    else if token == "/code" then Some(Code)
    else if token == "/advanced" then Some(Advanced)
    else if token == "/voice" then Some(Voice)
    else if token == "/voice-name" then Some(VoiceName)
    else if token == "/voice-over" then Some(VoiceOver)
    else if token == "/voice-stop" then Some(VoiceStop)
    else if token == "/model" then Some(Model)
    else if token == "/temperature" then Some(Temperature)
    else if token == "/block" then Some(Block)
    else if token == "/image" then Some(Image)
    else if token == "/image-size" then Some(ImageSize)
    else if token == "/image-view" then Some(ImageView)
    else if token == "/image-store" then Some(ImageStore)
    else if token == "//code_initial" then Some(CodeInitial)
    else None
  }

  /** Each key is found again from its word, so no two keys share one. */
  lemma KeyOfText(k: Key)
    ensures KeyOf(k.Text()) == Some(k)
  {
  }

  /** One entry of the command table: whether it is listed only in the
      advanced mode and how many arguments it takes. */
  datatype Command = Command(key: Key, advanced: bool, nargs: nat)

  /** The table of `get_commands(advanced=True)`, in its order. */
  const Table: seq<Command> := [
    Command(Help, false, 0),
    Command(Exit, false, 0),
    Command(Save, false, 0),
    Command(Context, false, 0),
    Command(Reset, false, 0),
    Command(Block, false, 0),
    Command(Image, false, 0),
    Command(Theme, false, 0),
    Command(Code, false, 0),
    Command(Voice, false, 0),
    Command(Advanced, false, 0),
    Command(ImageSize, true, 1),
    Command(ImageView, true, 0),
    Command(ImageStore, true, 1),
    Command(VoiceName, true, 1),
    Command(VoiceOver, true, 0),
    Command(VoiceStop, true, 0),
    Command(Model, true, 1),
    Command(Temperature, true, 1)
  ]

  /** `a` is `b` with some elements left out, the rest kept in order. */
  predicate Subsequence<T(==)>(a: seq<T>, b: seq<T>)
    decreases |b|
  {
    if a == [] then true
    else if b == [] then false
    else if a[0] == b[0] then Subsequence(a[1..], b[1..])
    else Subsequence(a, b[1..])
  }

  /** Skipping one more element in front of `b` keeps a subsequence one. */
  lemma {:induction false} SubsequenceCons<T>(a: seq<T>, x: T, b: seq<T>)
    requires Subsequence(a, b)
    ensures Subsequence(a, [x] + b)
    decreases |b|, 1
  {
    assert ([x] + b)[1..] == b;
    if a != [] && a[0] == x {
      SubsequenceTail(a, b);
    }
  }

  /** Dropping the first element of a subsequence keeps a subsequence. */
  lemma {:induction false} SubsequenceTail<T>(a: seq<T>, b: seq<T>)
    requires a != [] && Subsequence(a, b)
    ensures Subsequence(a[1..], b)
    decreases |b|, 0
  {
    assert [b[0]] + b[1..] == b;
    if a[0] == b[0] {
      SubsequenceCons(a[1..], b[0], b[1..]);
    } else {
      SubsequenceTail(a, b[1..]);
      SubsequenceCons(a[1..], b[0], b[1..]);
    }
  }

  lemma {:induction false} SubsequenceSelf<T>(a: seq<T>)
    ensures Subsequence(a, a)
    decreases |a|
  {
    if a != [] {
      SubsequenceSelf(a[1..]);
    }
  }

  /** The keys of the commands, in order, as `list(commands.keys())`. */
  function Keys(cs: seq<Command>): (r: seq<Key>)
    ensures |r| == |cs| && forall i :: 0 <= i < |cs| ==> r[i] == cs[i].key
  {
    if cs == [] then [] else [cs[0].key] + Keys(cs[1..])
  }

  /** The words of the commands, in order. */
  function Words(cs: seq<Command>): (r: seq<string>)
    ensures |r| == |cs| && forall i :: 0 <= i < |cs| ==> r[i] == cs[i].key.Text()
  {
    if cs == [] then [] else [cs[0].key.Text()] + Words(cs[1..])
  }

  /** The commands that are not advanced, in order. */
  function Basic(cs: seq<Command>): (r: seq<Command>)
    ensures forall c :: c in r <==> c in cs && !c.advanced
    ensures Subsequence(r, cs)
  {
    if cs == [] then []
    else
      var rest := Basic(cs[1..]);
      assert [cs[0]] + cs[1..] == cs;
      if cs[0].advanced then
        SubsequenceCons(rest, cs[0], cs[1..]);
        rest
      else
        assert ([cs[0]] + rest)[1..] == rest;
        [cs[0]] + rest
  }

  /** `get_commands(advanced)`: the whole table, or the table without its
      advanced entries, in table order. */
  function GetCommands(advanced: bool): (r: seq<Command>)
    ensures advanced ==> r == Table
    ensures forall c :: c in r <==> c in Table && (advanced || !c.advanced)
    ensures Subsequence(r, Table)
  {
    if advanced then
      SubsequenceSelf(Table);
      Table
    else Basic(Table)
  }

  /** The keys of the commands whose `nargs` is positive. */
  function ArgKeys(): set<Key> {
    set c | c in Table && c.nargs > 0 :: c.key
  }

  /** Five commands take an argument. */
  lemma ArgCommands()
    ensures ArgKeys() == {ImageSize, ImageStore, VoiceName, Model, Temperature}
  {
  }

  /** What `handle_command` does with a line. */
  datatype Decision =
      /** It returns False, and `default` submits the line as a prompt. */
    | Submit
      /** `command[0]` raises IndexError: the line holds only whitespace. */
    | Raises
      /** The command takes no argument but got some: "Command format:
          <word>" is printed instead of calling the handler. */
    | Usage(key: Key)
      /** The handler of `key` is called with the tokens. */
    | Call(key: Key, tokens: seq<string>)

  /** `command.strip().split()`. */
  function Tokens(line: string): seq<string> {
    Split(Strip(line))
  }

  /** `handle_command(line)`, the decision only. */
  function Decide(line: string): (d: Decision)
    ensures d.Usage? ==>
      var ts := Tokens(line);
      && '\n' !in line && |ts| > 1 && KeyOf(ts[0]) == Some(d.key) && d.key !in ArgKeys()
    ensures d.Call? ==>
      var ts := Tokens(line);
      && '\n' !in line && d.tokens == ts && ts != [] && KeyOf(ts[0]) == Some(d.key)
      && (|ts| == 1 || d.key in ArgKeys())
  {
    if line == "" then Submit
    else if '\n' in line then Submit
    else
      var ts := Tokens(line);
      if ts == [] then Raises
      else if !("/" <= ts[0]) then Submit
      else match KeyOf(ts[0])
        case None => Submit
        case Some(k) => if |ts| > 1 && k !in ArgKeys() then Usage(k) else Call(k, ts)
  }

  /** A line yields no token exactly when it is all whitespace. */
  lemma TokensEmpty(line: string)
    ensures Tokens(line) == [] <==> AllSpace(line)
  {
    StripEmpty(line);
    SplitEmpty(Strip(line));
    var r := Strip(line);
    StripEnds(line);
    if r != [] {
      assert !IsSpace(r[0]);
    }
  }

  /** A line is left to `default` exactly when it is empty, holds a newline,
      or its first token is not a handler key. */
  lemma DecideSubmit(line: string)
    ensures Decide(line) == Submit <==>
      line == "" || '\n' in line || (Tokens(line) != [] && KeyOf(Tokens(line)[0]).None?)
  {
    TokensEmpty(line);
    var ts := Tokens(line);
    if line != "" && '\n' !in line && ts != [] && KeyOf(ts[0]).Some? {
      var w := KeyOf(ts[0]).value.Text();
      assert w[..1] == "/";
    }
  }

  /** `handle_command` raises exactly for a non-empty, single-line,
      all-whitespace line. */
  lemma DecideRaises(line: string)
    ensures Decide(line) == Raises <==> line != "" && '\n' !in line && AllSpace(line)
  {
    TokensEmpty(line);
  }

  /** A command that takes no argument, listed or not, given one only gets
      its usage printed; one that takes an argument is called. */
  lemma {:induction false} ArgumentChecked(line: string, k: Key)
    requires '\n' !in line
    requires var ts := Tokens(line); |ts| > 1 && ts[0] == k.Text()
    ensures k !in ArgKeys() ==> Decide(line) == Usage(k)
    ensures k in ArgKeys() ==> Decide(line) == Call(k, Tokens(line))
  {
    KeyOfText(k);
    assert k.Text()[..1] == "/";
  }

  /** The candidates offered for completion: the words of the listed
      commands, then "shell". */
  function CompletionWords(listing: seq<Command>): seq<string> {
    Words(listing) + ["shell"]
  }

  /** The words starting with `text`, in order. */
  function StartingWith(words: seq<string>, text: string): (r: seq<string>)
    ensures forall s :: s in r <==> s in words && text <= s
    ensures Subsequence(r, words)
  {
    if words == [] then []
    else
      var rest := StartingWith(words[1..], text);
      assert [words[0]] + words[1..] == words;
      if text <= words[0] then
        assert ([words[0]] + rest)[1..] == rest;
        [words[0]] + rest
      else
        SubsequenceCons(rest, words[0], words[1..]);
        rest
  }

  /** Every word starts with the empty text, so the filter keeps them all. */
  lemma {:induction false} StartingWithEmpty(words: seq<string>)
    ensures StartingWith(words, "") == words
  {
    if words != [] {
      StartingWithEmpty(words[1..]);
      assert [words[0]] + words[1..] == words;
    }
  }

  /** `get_command_completions(text)` over the listing
      `get_commands(advanced=display_advanced)`: the candidates that start
      with `text`, in order; all of them for an empty text. */
  function Completions(listing: seq<Command>, text: string): (r: seq<string>)
    ensures forall s :: s in r <==> s in CompletionWords(listing) && text <= s
    ensures Subsequence(r, CompletionWords(listing))
    ensures text == "" ==> r == CompletionWords(listing)
  {
    var words := CompletionWords(listing);
    if text != "" then StartingWith(words, text)
    else
      SubsequenceSelf(words);
      words
  }

  /** "shell" is offered exactly when it extends the text, whatever the
      listing. */
  lemma CompletionsShell(listing: seq<Command>, text: string)
    ensures "shell" in Completions(listing, text) <==> text <= "shell"
  {
    var words := CompletionWords(listing);
    assert words[|words| - 1] == "shell";
  }

  /** A completion other than "shell" is the word of a listed command; so
      outside the advanced mode no advanced command is offered. */
  lemma {:induction false} CompletionsListed(listing: seq<Command>, text: string, s: string)
    requires s in Completions(listing, text) && s != "shell"
    ensures exists c :: c in listing && c.key.Text() == s
  {
    var words := Words(listing);
    assert s in words;
    var i :| 0 <= i < |words| && words[i] == s;
    assert listing[i] in listing;
  }
}
