/** The selection loop of `showUI`: one prompt and one line of input per
    iteration, each line classified and answered, until a quit token. */
module Selection {
  import opened Wrappers
  import opened IntParse
  import opened Menu

  const PromptText: string := "Type the number of your selection (Type q to exit):"
  const InvalidSelection: string := "Invalid selection."
  const Ending: string := "Ending."
  const EnterAnInteger: string := "Please enter an integer."
  const ReadError: string := "Error reading option."

  /** The prompt is printed with a space as terminator, so the selection is
      typed on the same line. */
  const Prompt: Event := Printed(PromptText, " ")

  /** The only texts the loop ever prints: it never prints the menu again. */
  predicate IsLoopMessage(e: Event) {
    e == Prompt || e == Line(InvalidSelection) || e == Line(Ending)
    || e == Line(EnterAnInteger) || e == Line(ReadError)
  }

  /** Exactly the strings `"q"` and `"Q"`, compared as whole lines. */
  predicate IsQuitToken(s: string) {
    s == "q" || s == "Q"
  }

  /** A line that ends the loop: a quit token that does not read as an integer. */
  predicate IsQuitLine(line: Option<string>) {
    line.Some? && ParseInt(line.value).None? && IsQuitToken(line.value)
  }

  predicate HasQuitLine(inputs: seq<Option<string>>) {
    exists j :: 0 <= j < |inputs| && IsQuitLine(inputs[j])
  }

  predicate NoQuitLine(inputs: seq<Option<string>>) {
    forall j :: 0 <= j < |inputs| ==> !IsQuitLine(inputs[j])
  }

  /** The decision taken for one line read. `Select` carries the 0-based
      index of the chosen option. */
  datatype Outcome =
    | Select(index: nat)
    | OutOfRange(value: int)
    | QuitRequested
    | NotAnInteger
    | ReadFailure

  /** Classifies what `readLine()` returned, given the number of options.
      The integer reading is tried first; only a line that is not an
      integer is compared with the quit tokens. */
  function Classify(count: nat, line: Option<string>): (o: Outcome)
    ensures o.ReadFailure? <==> line.None?
    ensures o.Select? ==> o.index < count && line.Some? && ParseInt(line.value) == Some(o.index + 1)
    ensures o.OutOfRange? ==> line.Some? && ParseInt(line.value) == Some(o.value) && !(1 <= o.value <= count)
    ensures o.QuitRequested? <==> IsQuitLine(line)
    ensures o.NotAnInteger? ==> line.Some? && ParseInt(line.value).None? && !IsQuitToken(line.value)
  {
    match line
    case None => ReadFailure
    case Some(selection) =>
      match ParseInt(selection)
      case Some(v) => if v > 0 && v <= count then Select(v - 1) else OutOfRange(v)
      case None => if selection == "q" || selection == "Q" then QuitRequested else NotAnInteger
  }

  /** An integer line is never a quit request, whatever the number of options. */
  lemma IntegerCheckedBeforeQuit(count: nat, s: string)
    requires ParseInt(s).Some?
    ensures Classify(count, Some(s)).Select? || Classify(count, Some(s)).OutOfRange?
  {
  }

  /** The number v selects option v - 1 exactly when 1 <= v <= count. */
  lemma OneBasedSelection(count: nat, s: string, v: int)
    requires ParseInt(s) == Some(v)
    ensures 1 <= v <= count <==> Classify(count, Some(s)).Select? && Classify(count, Some(s)).index + 1 == v
    ensures !(1 <= v <= count) <==> Classify(count, Some(s)) == OutOfRange(v)
  {
  }

  /** Only the whole lines "q" and "Q" quit; " q", "quit", "q " do not. */
  lemma QuitOnlyOnExactToken(count: nat, s: string)
    ensures Classify(count, Some(s)) == QuitRequested <==> s == "q" || s == "Q"
  {
    if s == "q" || s == "Q" {
      assert !IsDigit(s[0]);
      assert !IsIntLiteral(s);
    }
  }

  /** With no options, every integer is an invalid selection. */
  lemma EmptyMenuRejectsEveryInteger(s: string)
    requires ParseInt(s).Some?
    ensures Classify(0, Some(s)) == OutOfRange(ParseInt(s).value)
  {
  }

  /** Typing the number printed before an option's caption selects that option. */
  lemma DisplayedNumberSelectsOption(m: Menu, i: nat)
    requires 1 <= i <= |m.options| && i <= Int64Max
    ensures Render(m)[i] == Line(OptionLine(i, m.options[i - 1].caption))
    ensures Classify(|m.options|, Some(ShowNat(i))) == Select(i - 1)
  {
    ParseShowRoundTrip(i);
  }

  /** What `showUI` prints or does in answer to one outcome. */
  function Respond(o: Outcome): (r: seq<Event>)
    ensures |r| >= 1
    ensures r[|r| - 1] == Quit <==> o.QuitRequested?
    ensures r[0].Invoke? <==> o.Select?
    ensures o.Select? ==> r == [Invoke(o.index)]
    ensures !o.Select? ==> forall i :: 0 <= i < |r| ==> !r[i].Invoke?
  {
    match o
    case Select(k) => [Invoke(k)]
    case OutOfRange(_) => [Line(InvalidSelection)]
    case QuitRequested => [Line(Ending), Quit]
    case NotAnInteger => [Line(EnterAnInteger)]
    case ReadFailure => [Line(ReadError)]
  }

  /** One pass of the loop body: the prompt, then one reaction to the line read. */
  function Iteration(count: nat, line: Option<string>): (r: seq<Event>)
    ensures 2 <= |r| && r[0] == Prompt
  {
    [Prompt] + Respond(Classify(count, line))
  }

  /** The option a selection runs is the closure added at that position:
      typing `v` runs the `v`-th `addOption` call's closure. */
  lemma SelectionRunsAddedClosure(entries: seq<(string, ActionId)>, s: string)
    requires ParseInt(s).Some? && 1 <= ParseInt(s).value <= |entries|
    ensures var k := ParseInt(s).value - 1;
      && Iteration(|BuildMenu(entries).options|, Some(s)) == [Prompt, Invoke(k)]
      && BuildMenu(entries).options[k] == MenuOption(entries[k].0, entries[k].1)
  {
    var k := ParseInt(s).value - 1;
    var m := BuildMenu(entries);
    assert |m.options| == |entries|;
    assert Iteration(|entries|, Some(s)) == [Prompt, Invoke(k)];
    assert m.options[k] == MenuOption(entries[k].0, entries[k].1) by {
      BuildMenuKeepsInsertionOrder(entries);
    }
  }

  /** Each iteration prompts once, then reacts once: a valid selection runs
      exactly the chosen option and prints nothing; only the option the
      line selects can run; a quit ends the iteration; nothing but the
      loop's fixed messages is printed. */
  lemma IterationShape(count: nat, line: Option<string>)
    ensures var r := Iteration(count, line);
      && Prompt !in r[1..]
      && (Quit in r <==> IsQuitLine(line))
      && (Classify(count, line).Select? ==> r == [Prompt, Invoke(Classify(count, line).index)])
      && (forall e :: e in r && e.Invoke? ==>
            e.index < count && line.Some? && ParseInt(line.value) == Some(e.index + 1))
      && (Quit in r ==> r[|r| - 1] == Quit && Quit !in r[..|r| - 1])
      && (forall e :: e in r && e.Printed? ==> IsLoopMessage(e))
  {
  }

  /** An integer outside [1, count] is reported and runs nothing. */
  lemma OutOfRangeReportsInvalid(count: nat, s: string)
    requires ParseInt(s).Some? && !(1 <= ParseInt(s).value <= count)
    ensures Iteration(count, Some(s)) == [Prompt, Line(InvalidSelection)]
  {
  }

  /** A line that is neither an integer nor a quit token is reported and runs nothing. */
  lemma NonIntegerReportsEnterAnInteger(count: nat, s: string)
    requires ParseInt(s).None? && s != "q" && s != "Q"
    ensures Iteration(count, Some(s)) == [Prompt, Line(EnterAnInteger)]
  {
  }

  /** A quit token prints the farewell and returns. */
  lemma QuitTokenEnds(count: nat, s: string)
    requires s == "q" || s == "Q"
    ensures Iteration(count, Some(s)) == [Prompt, Line(Ending), Quit]
  {
    QuitOnlyOnExactToken(count, s);
  }

  /** A failed read is reported; the iteration does not quit. */
  lemma ReadFailureReportsError(count: nat)
    ensures Iteration(count, None) == [Prompt, Line(ReadError)]
    ensures Quit !in Iteration(count, None)
  {
  }

  /** The `while (true)` loop run over a finite list of `readLine()` results.
      It returns on the first quit line. The trace holds completed passes
      only: when the list runs out without a quit line, the prompt that
      `showUI` prints before its next `readLine()` is not in it. */
  function Loop(m: Menu, inputs: seq<Option<string>>): (r: seq<Event>)
    ensures |inputs| == 0 ==> r == []
    ensures |inputs| > 0 ==> |r| >= 2 && r[0] == Prompt
    decreases |inputs|
  {
    if |inputs| == 0 then []
    else
      var step := Iteration(|m.options|, inputs[0]);
      if IsQuitLine(inputs[0]) then step else step + Loop(m, inputs[1..])
  }

  /** `Quit` is emitted at most once and is the last event: no action runs
      and nothing is printed after the loop has returned. */
  lemma {:induction false} QuitIsLast(m: Menu, inputs: seq<Option<string>>)
    ensures var r := Loop(m, inputs);
      Quit in r ==> r[|r| - 1] == Quit && Quit !in r[..|r| - 1]
    decreases |inputs|
  {
    if |inputs| > 0 {
      var step := Iteration(|m.options|, inputs[0]);
      IterationShape(|m.options|, inputs[0]);
      if Quit !in step {
        var rest := Loop(m, inputs[1..]);
        QuitIsLast(m, inputs[1..]);
        var r := step + rest;
        if Quit in r {
          assert Quit in rest;
          assert r[..|r| - 1] == step + rest[..|rest| - 1];
        }
      }
    }
  }

  /** Every action the loop runs is an index into the option list, and the
      loop prints only its fixed messages: the menu is never shown again. */
  lemma {:induction false} LoopEventsWellFormed(m: Menu, inputs: seq<Option<string>>)
    ensures forall e :: e in Loop(m, inputs) && e.Invoke? ==> e.index < |m.options|
    ensures forall e :: e in Loop(m, inputs) && e.Printed? ==> IsLoopMessage(e)
    decreases |inputs|
  {
    if |inputs| > 0 {
      IterationShape(|m.options|, inputs[0]);
      LoopEventsWellFormed(m, inputs[1..]);
    }
  }

  /** The loop reads one line and either stops on it or goes on with the rest. */
  lemma LoopUnfold(m: Menu, line: Option<string>, rest: seq<Option<string>>)
    ensures Loop(m, [line] + rest)
         == if IsQuitLine(line) then Iteration(|m.options|, line)
            else Iteration(|m.options|, line) + Loop(m, rest)
  {
    assert ([line] + rest)[1..] == rest;
  }

  /** The same, for a line that does not quit and a known rest of the trace. */
  lemma LoopContinues(m: Menu, line: Option<string>, rest: seq<Option<string>>, tail: seq<Event>)
    requires !IsQuitLine(line) && Loop(m, rest) == tail
    ensures Loop(m, [line] + rest) == Iteration(|m.options|, line) + tail
  {
    LoopUnfold(m, line, rest);
  }

  /** The loop ends in `Quit` exactly when some line read is a quit token
      that does not parse as an integer. A read failure never ends it. */
  lemma {:induction false} QuitIffQuitLine(m: Menu, inputs: seq<Option<string>>)
    ensures Quit in Loop(m, inputs) <==> HasQuitLine(inputs)
    decreases |inputs|
  {
    if |inputs| > 0 {
      IterationShape(|m.options|, inputs[0]);
      QuitIffQuitLine(m, inputs[1..]);
      if exists j :: 0 <= j < |inputs[1..]| && IsQuitLine(inputs[1..][j]) {
        var j :| 0 <= j < |inputs[1..]| && IsQuitLine(inputs[1..][j]);
        assert IsQuitLine(inputs[j + 1]);
      }
      if exists j :: 0 <= j < |inputs| && IsQuitLine(inputs[j]) {
        var j :| 0 <= j < |inputs| && IsQuitLine(inputs[j]);
        if j > 0 {
          assert IsQuitLine(inputs[1..][j - 1]);
        }
      }
    }
  }

  /** Number of prompts in a trace, one per line read. */
  function CountPrompts(events: seq<Event>): nat
    decreases |events|
  {
    if |events| == 0 then 0
    else (if events[0] == Prompt then 1 else 0) + CountPrompts(events[1..])
  }

  lemma {:induction false} CountPromptsAppend(a: seq<Event>, b: seq<Event>)
    ensures CountPrompts(a + b) == CountPrompts(a) + CountPrompts(b)
    decreases |a|
  {
    if |a| == 0 {
      assert a + b == b;
    } else {
      CountPromptsAppend(a[1..], b);
      assert (a + b)[1..] == a[1..] + b;
    }
  }

  lemma {:induction false} CountPromptsAbsent(events: seq<Event>)
    requires Prompt !in events
    ensures CountPrompts(events) == 0
    decreases |events|
  {
    if |events| > 0 {
      assert events[0] in events;
      assert forall e :: e in events[1..] ==> e in events;
      CountPromptsAbsent(events[1..]);
    }
  }

  /** Each iteration prompts exactly once. */
  lemma OnePromptPerIteration(count: nat, line: Option<string>)
    ensures CountPrompts(Iteration(count, line)) == 1
  {
    var r := Iteration(count, line);
    IterationShape(count, line);
    assert r == [r[0]] + r[1..];
    CountPromptsAbsent(r[1..]);
  }

  /** A quit line is the first one among `inputs` at position `j`. */
  predicate IsFirstQuit(inputs: seq<Option<string>>, j: nat) {
    j < |inputs| && IsQuitLine(inputs[j]) && forall i :: 0 <= i < j ==> !IsQuitLine(inputs[i])
  }

  /** The loop stops at the first quit line: it reads exactly j + 1 lines,
      and what follows that line is never read. */
  lemma {:induction false} StopsAtFirstQuit(m: Menu, inputs: seq<Option<string>>, j: nat)
    requires IsFirstQuit(inputs, j)
    ensures Loop(m, inputs) == Loop(m, inputs[..j + 1])
    ensures CountPrompts(Loop(m, inputs)) == j + 1
    decreases j
  {
    var step := Iteration(|m.options|, inputs[0]);
    OnePromptPerIteration(|m.options|, inputs[0]);
    if j == 0 {
      assert Quit in step;
    } else {
      assert !IsQuitLine(inputs[0]);
      assert IsFirstQuit(inputs[1..], j - 1);
      StopsAtFirstQuit(m, inputs[1..], j - 1);
      assert inputs[..j + 1][1..] == inputs[1..][..j];
      CountPromptsAppend(step, Loop(m, inputs[1..]));
    }
  }

  /** Without a quit line, the loop reads every line, one prompt each. */
  lemma {:induction false} ReadsEveryLineWithoutQuit(m: Menu, inputs: seq<Option<string>>)
    requires NoQuitLine(inputs)
    ensures Quit !in Loop(m, inputs)
    ensures CountPrompts(Loop(m, inputs)) == |inputs|
    decreases |inputs|
  {
    QuitIffQuitLine(m, inputs);
    if |inputs| > 0 {
      var step := Iteration(|m.options|, inputs[0]);
      OnePromptPerIteration(|m.options|, inputs[0]);
      assert !IsQuitLine(inputs[0]);
      ReadsEveryLineWithoutQuit(m, inputs[1..]);
      CountPromptsAppend(step, Loop(m, inputs[1..]));
    }
  }

  /** Once the loop has quit, later input changes nothing: it is never read. */
  lemma {:induction false} InputAfterQuitIsNotRead(m: Menu, inputs: seq<Option<string>>, rest: seq<Option<string>>)
    requires HasQuitLine(inputs)
    ensures Loop(m, inputs + rest) == Loop(m, inputs)
    decreases |inputs|
  {
    var j :| 0 <= j < |inputs| && IsQuitLine(inputs[j]);
    assert (inputs + rest)[0] == inputs[0];
    if !IsQuitLine(inputs[0]) {
      assert IsQuitLine(inputs[1..][j - 1]);
      InputAfterQuitIsNotRead(m, inputs[1..], rest);
      assert (inputs + rest)[1..] == inputs[1..] + rest;
    }
  }

  /** Before a quit, the loop over consecutive chunks of input is the
      concatenation of the loops over each chunk. */
  lemma {:induction false} LoopAppend(m: Menu, a: seq<Option<string>>, b: seq<Option<string>>)
    requires NoQuitLine(a)
    ensures Loop(m, a + b) == Loop(m, a) + Loop(m, b)
    decreases |a|
  {
    if |a| == 0 {
      assert a + b == b;
    } else {
      assert (a + b)[0] == a[0];
      assert (a + b)[1..] == a[1..] + b;
      assert !IsQuitLine(a[0]);
      LoopAppend(m, a[1..], b);
    }
  }

  /** What one more line does to the loop over a prefix of the input that
      has not quit: it appends that line's iteration, and either the prefix
      still has no quit line or the loop over the whole input stops here. */
  lemma ReadOneMore(m: Menu, inputs: seq<Option<string>>, read: nat)
    requires read < |inputs| && NoQuitLine(inputs[..read])
    ensures Loop(m, inputs[..read + 1]) == Loop(m, inputs[..read]) + Iteration(|m.options|, inputs[read])
    ensures !IsQuitLine(inputs[read]) ==> NoQuitLine(inputs[..read + 1])
    ensures IsQuitLine(inputs[read]) ==> Loop(m, inputs) == Loop(m, inputs[..read + 1])
  {
    LoopAppend(m, inputs[..read], [inputs[read]]);
    assert inputs[..read + 1] == inputs[..read] + [inputs[read]];
    assert Loop(m, [inputs[read]]) == Iteration(|m.options|, inputs[read]);
    if IsQuitLine(inputs[read]) {
      QuitPrefixDecides(m, inputs, read + 1);
    }
  }

  /** Once a prefix of the input has quit, the whole input gives the same trace. */
  lemma QuitPrefixDecides(m: Menu, inputs: seq<Option<string>>, read: nat)
    requires 0 < read <= |inputs| && IsQuitLine(inputs[read - 1])
    ensures Loop(m, inputs) == Loop(m, inputs[..read])
  {
    assert IsQuitLine(inputs[..read][read - 1]);
    InputAfterQuitIsNotRead(m, inputs[..read], inputs[read..]);
    assert inputs[..read] + inputs[read..] == inputs;
  }

  /** `n` copies of the prompt followed by the read error. */
  function RepeatReadError(n: nat): (r: seq<Event>)
    ensures |r| == 2 * n
    decreases n
  {
    if n == 0 then [] else [Prompt, Line(ReadError)] + RepeatReadError(n - 1)
  }

  /** When no line can be read (standard input closed), every iteration
      prints the prompt and the read error, and the loop keeps going. */
  lemma {:induction false} ReadFailuresNeverEndTheLoop(m: Menu, inputs: seq<Option<string>>)
    requires forall j :: 0 <= j < |inputs| ==> inputs[j].None?
    ensures Loop(m, inputs) == RepeatReadError(|inputs|)
    decreases |inputs|
  {
    if |inputs| > 0 {
      ReadFailuresNeverEndTheLoop(m, inputs[1..]);
    }
  }

  /** `showUI` as a whole: the static menu once, then the loop. */
  function Run(m: Menu, inputs: seq<Option<string>>): (r: seq<Event>)
    ensures |r| > |m.options| && r[..|m.options| + 1] == Render(m)
    ensures Quit in r <==> HasQuitLine(inputs)
    ensures Quit in r ==> r[|r| - 1] == Quit
  {
    var menu := Render(m);
    var loop := Loop(m, inputs);
    QuitIffQuitLine(m, inputs);
    QuitIsLast(m, inputs);
    assert Quit !in menu by {
      forall i | 0 <= i < |menu| ensures menu[i] != Quit {
        assert menu[i].Printed?;
      }
    }
    menu + loop
  }

  /** `Run` is the menu followed by the loop. */
  lemma RunIsMenuThenLoop(m: Menu, inputs: seq<Option<string>>)
    ensures Run(m, inputs) == Render(m) + Loop(m, inputs)
  {
  }

  /** A header followed by the numbered option lines is the rendered menu. */
  lemma MenuLinesAreRender(m: Menu, lines: seq<Event>)
    requires |lines| == |m.options| + 1 && lines[0] == Line(Header)
    requires forall j :: 1 <= j <= |m.options| ==> lines[j] == Line(OptionLine(j, m.options[j - 1].caption))
    ensures lines == Render(m)
  {
  }

  /** The printing of the static menu, with `showUI`'s running counter. */
  method PrintMenu(m: Menu) returns (output: seq<Event>)
    ensures output == Render(m)
  {
    output := [Line(Header)];
    var i := 1;
    for k := 0 to |m.options|
      invariant i == k + 1
      invariant |output| == k + 1 && output[0] == Line(Header)
      invariant forall j :: 1 <= j <= k ==> output[j] == Line(OptionLine(j, m.options[j - 1].caption))
    {
      output := output + [Line(OptionLine(i, m.options[k].caption))];
      i := i + 1;
    }
    MenuLinesAreRender(m, output);
  }

  /** One pass of the loop body, with `showUI`'s nested checks in their
      order; `done` is set where `showUI` returns. */
  method HandleLine(count: nat, selection: Option<string>) returns (output: seq<Event>, done: bool)
    ensures output == Iteration(count, selection)
    ensures done <==> IsQuitLine(selection)
  {
    output := [Prompt];
    done := false;
    match selection {
      case Some(line) =>
        match ParseInt(line) {
          case Some(selectionValue) =>
            if selectionValue > 0 && selectionValue <= count {
              output := output + [Invoke(selectionValue - 1)];
            } else {
              output := output + [Line(InvalidSelection)];
            }
          case None =>
            if line == "q" || line == "Q" {
              output := output + [Line(Ending), Quit];
              done := true;
            } else {
              output := output + [Line(EnterAnInteger)];
            }
        }
      case None =>
        output := output + [Line(ReadError)];
    }
  }

  /** The `while (true)` loop: one line per iteration until a quit line. */
  method SelectionLoop(m: Menu, inputs: seq<Option<string>>) returns (output: seq<Event>)
    ensures output == Loop(m, inputs)
  {
    output := [];
    var read := 0;
    while read < |inputs|
      invariant read <= |inputs|
      invariant output == Loop(m, inputs[..read])
      invariant NoQuitLine(inputs[..read])
    {
      var step, done := HandleLine(|m.options|, inputs[read]);
      ReadOneMore(m, inputs, read);
      output := output + step;
      read := read + 1;
      if done {
        return;
      }
    }
    assert inputs[..read] == inputs;
  }

  /** `showUI`: the menu once, then the loop. */
  method ShowUI(m: Menu, inputs: seq<Option<string>>) returns (output: seq<Event>)
    ensures output == Run(m, inputs)
  {
    var menu := PrintMenu(m);
    var loop := SelectionLoop(m, inputs);
    RunIsMenuThenLoop(m, inputs);
    output := menu + loop;
  }
}
