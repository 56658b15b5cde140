/** What the terminal sends to its sinks, recorded in order instead of being
    printed or spoken. */
module Output {

  datatype Event =
      /** A response fragment printed to the console as it arrives. */
    | Display(text: string)
      /** A finished code line handed to the syntax highlighter. */
    | CodeLine(text: string)
      /** A `say` invocation, carrying the already escaped text. */
    | Speak(text: string)
      /** An informational or error message printed to the console. */
    | Info(text: string)
      /** A shell command handler whose effects lie outside this model was
          called with these tokens. */
    | Handler(tokens: seq<string>)

  /** The texts of the `Speak` events, in order. */
  function Speeches(es: seq<Event>): seq<string>
  {
    if es == [] then []
    else Speeches(es[..|es| - 1]) + (if es[|es| - 1].Speak? then [es[|es| - 1].text] else [])
  }

  /** The texts of the `Display` events, in order. */
  function Displays(es: seq<Event>): seq<string>
  {
    if es == [] then []
    else Displays(es[..|es| - 1]) + (if es[|es| - 1].Display? then [es[|es| - 1].text] else [])
  }

  /** The texts of the `CodeLine` events, in order. */
  function CodeLines(es: seq<Event>): seq<string>
  {
    if es == [] then []
    else CodeLines(es[..|es| - 1]) + (if es[|es| - 1].CodeLine? then [es[|es| - 1].text] else [])
  }

  lemma {:induction false} SpeechesAppend(a: seq<Event>, b: seq<Event>)
    ensures Speeches(a + b) == Speeches(a) + Speeches(b)
    decreases |b|
  {
    if b == [] {
      assert a + b == a;
    } else {
      assert (a + b)[..|a + b| - 1] == a + b[..|b| - 1];
      SpeechesAppend(a, b[..|b| - 1]);
    }
  }

  lemma {:induction false} DisplaysAppend(a: seq<Event>, b: seq<Event>)
    ensures Displays(a + b) == Displays(a) + Displays(b)
    decreases |b|
  {
    if b == [] {
      assert a + b == a;
    } else {
      assert (a + b)[..|a + b| - 1] == a + b[..|b| - 1];
      DisplaysAppend(a, b[..|b| - 1]);
    }
  }

  lemma {:induction false} CodeLinesAppend(a: seq<Event>, b: seq<Event>)
    ensures CodeLines(a + b) == CodeLines(a) + CodeLines(b)
    decreases |b|
  {
    if b == [] {
      assert a + b == a;
    } else {
      assert (a + b)[..|a + b| - 1] == a + b[..|b| - 1];
      CodeLinesAppend(a, b[..|b| - 1]);
    }
  }

  /** Appending two parts one after the other appends their concatenation. */
  lemma Assoc(a: seq<Event>, b: seq<Event>, c: seq<Event>)
    ensures a + b + c == a + (b + c)
  {
  }

  /** Some event of the list is a `say` invocation. */
  predicate Spoke(es: seq<Event>) {
    exists i :: 0 <= i < |es| && es[i].Speak?
  }

  /** A list holds a `Speak` event exactly when it voices some text. */
  lemma {:induction false} SpokeSpeeches(es: seq<Event>)
    ensures Spoke(es) <==> Speeches(es) != []
    decreases |es|
  {
    if es != [] {
      var init := es[..|es| - 1];
      SpokeSpeeches(init);
      if Spoke(init) {
        var i :| 0 <= i < |init| && init[i].Speak?;
        assert es[i].Speak?;
      }
      if Spoke(es) && !es[|es| - 1].Speak? {
        var i :| 0 <= i < |es| && es[i].Speak?;
        assert init[i].Speak?;
      }
    }
  }

  /** A `Speak` event in either part is one in the whole. */
  lemma SpokeAppend(a: seq<Event>, b: seq<Event>)
    ensures Spoke(a + b) <==> Spoke(a) || Spoke(b)
  {
    if Spoke(a) {
      var i :| 0 <= i < |a| && a[i].Speak?;
      assert (a + b)[i].Speak?;
    }
    if Spoke(b) {
      var i :| 0 <= i < |b| && b[i].Speak?;
      assert (a + b)[|a| + i].Speak?;
    }
    if Spoke(a + b) {
      var i :| 0 <= i < |a + b| && (a + b)[i].Speak?;
      if i < |a| { assert a[i].Speak?; } else { assert b[i - |a|].Speak?; }
    }
  }
}
