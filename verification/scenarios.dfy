/** Concrete sessions: the two-option greeting menu and the empty menu.
    The concrete menus, counts and input lines enter as parameters pinned by
    a `requires x == ...` rather than as literals in the contracts, so that
    the verifier does not unfold the parser and the renderer on every
    literal string at every step. */
module Scenarios {
  import opened Wrappers
  import opened IntParse
  import opened Menu
  import opened Selection

  /** Two options added as "Say hi" then "Say bye" are printed as a header
      and two numbered lines. */
  lemma GreetingMenuRendering(entries: seq<(string, ActionId)>)
    requires entries == [("Say hi", 0), ("Say bye", 1)]
    ensures BuildMenu(entries) == Menu([MenuOption("Say hi", 0), MenuOption("Say bye", 1)])
    ensures Render(BuildMenu(entries)) == [Line("Choose an option:"), Line("1: Say hi"), Line("2: Say bye")]
  {
    BuildMenuKeepsInsertionOrder(entries);
    assert ShowNat(1) == "1" && ShowNat(2) == "2";
    assert OptionLine(1, "Say hi") == "1: Say hi" && OptionLine(2, "Say bye") == "2: Say bye";
  }

  /** The answers to 1, 2, 5, abc and q on a two-option menu. */
  lemma GreetingAnswers(count: nat)
    requires count == 2
    ensures Iteration(count, Some("1")) == [Prompt, Invoke(0)]
    ensures Iteration(count, Some("2")) == [Prompt, Invoke(1)]
    ensures Iteration(count, Some("5")) == [Prompt, Line("Invalid selection.")]
    ensures Iteration(count, Some("abc")) == [Prompt, Line("Please enter an integer.")]
    ensures Iteration(count, Some("q")) == [Prompt, Line("Ending."), Quit]
    ensures !IsQuitLine(Some("1")) && !IsQuitLine(Some("2")) && !IsQuitLine(Some("5"))
    ensures !IsQuitLine(Some("abc")) && IsQuitLine(Some("q"))
  {
    ParseShowRoundTrip(1);
    ParseShowRoundTrip(2);
    ParseShowRoundTrip(5);
    assert ShowNat(1) == "1" && ShowNat(2) == "2" && ShowNat(5) == "5";
    assert !IsDigit('a');
    QuitOnlyOnExactToken(count, "q");
  }

  /** Five lines, of which only the last quits, give the five passes one
      after the other; the loop stops after the fifth. */
  lemma SessionFromAnswers(m: Menu, a: Option<string>, b: Option<string>, c: Option<string>,
                           d: Option<string>, e: Option<string>)
    requires Iteration(|m.options|, a) == [Prompt, Invoke(0)] && !IsQuitLine(a)
    requires Iteration(|m.options|, b) == [Prompt, Invoke(1)] && !IsQuitLine(b)
    requires Iteration(|m.options|, c) == [Prompt, Line(InvalidSelection)] && !IsQuitLine(c)
    requires Iteration(|m.options|, d) == [Prompt, Line(EnterAnInteger)] && !IsQuitLine(d)
    requires Iteration(|m.options|, e) == [Prompt, Line(Ending), Quit] && IsQuitLine(e)
    ensures Loop(m, [a, b, c, d, e])
         == [Prompt, Invoke(0), Prompt, Invoke(1), Prompt, Line(InvalidSelection),
             Prompt, Line(EnterAnInteger), Prompt, Line(Ending), Quit]
  {
    var t4 := Loop(m, [e]);
    assert t4 == [Prompt, Line(Ending), Quit] by {
      LoopUnfold(m, e, []);
      assert [e] == [e] + [];
    }
    var t3 := Loop(m, [d, e]);
    assert t3 == [Prompt, Line(EnterAnInteger)] + t4 by {
      LoopContinues(m, d, [e], t4);
      assert [d, e] == [d] + [e];
    }
    var t2 := Loop(m, [c, d, e]);
    assert t2 == [Prompt, Line(InvalidSelection)] + t3 by {
      LoopContinues(m, c, [d, e], t3);
      assert [c, d, e] == [c] + [d, e];
    }
    var t1 := Loop(m, [b, c, d, e]);
    assert t1 == [Prompt, Invoke(1)] + t2 by {
      LoopContinues(m, b, [c, d, e], t2);
      assert [b, c, d, e] == [b] + [c, d, e];
    }
    assert Loop(m, [a, b, c, d, e]) == [Prompt, Invoke(0)] + t1 by {
      LoopContinues(m, a, [b, c, d, e], t1);
      assert [a, b, c, d, e] == [a] + [b, c, d, e];
    }
  }

  /** On any two-option menu, the lines 1, 2, 5, abc, q run both actions
      in order, then print the out-of-range and non-integer messages, then
      the farewell. */
  lemma TwoOptionSession(m: Menu, a: Option<string>, b: Option<string>, c: Option<string>,
                         d: Option<string>, e: Option<string>)
    requires |m.options| == 2
    requires a == Some("1") && b == Some("2") && c == Some("5") && d == Some("abc") && e == Some("q")
    ensures Loop(m, [a, b, c, d, e])
         == [Prompt, Invoke(0), Prompt, Invoke(1), Prompt, Line(InvalidSelection),
             Prompt, Line(EnterAnInteger), Prompt, Line(Ending), Quit]
  {
    GreetingAnswers(|m.options|);
    SessionFromAnswers(m, a, b, c, d, e);
  }

  /** No options; the user types 1, then q. */
  lemma EmptyMenuSession(a: Option<string>, b: Option<string>)
    requires a == Some("1") && b == Some("q")
    ensures Run(EmptyMenu, [a, b])
         == [Line(Header), Prompt, Line(InvalidSelection), Prompt, Line(Ending), Quit]
  {
    assert Loop(EmptyMenu, [a, b]) == [Prompt, Line(InvalidSelection), Prompt, Line(Ending), Quit] by {
      ParseShowRoundTrip(1);
      assert ShowNat(1) == "1";
      QuitOnlyOnExactToken(0, "q");
      assert [a, b] == [a] + ([b] + []);
      LoopUnfold(EmptyMenu, b, []);
      LoopUnfold(EmptyMenu, a, [b]);
    }
    assert Render(EmptyMenu) == [Line(Header)];
    RunIsMenuThenLoop(EmptyMenu, [a, b]);
  }

  /** Lines that look like a quit or a number but are neither: " q",
      "quit", " 1" and a bare sign. */
  lemma NearMissesAreNotIntegersOrQuit(count: nat)
    ensures Classify(count, Some(" q")) == NotAnInteger
    ensures Classify(count, Some("quit")) == NotAnInteger
    ensures Classify(count, Some(" 1")) == NotAnInteger
    ensures Classify(count, Some("+")) == NotAnInteger
  {
    assert !IsDigit(' ') && !IsDigit('q');
    assert !IsIntLiteral(" q") && !IsIntLiteral("quit") && !IsIntLiteral(" 1") && !IsIntLiteral("+");
  }
}
