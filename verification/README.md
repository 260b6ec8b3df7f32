# TerminalUI menu — a Dafny model

This project models `TerminalUI`, a Swift struct for numbered console menus.
A caller adds options with `addOption(label:function:)`. Each option is a
caption plus a zero-argument closure. The caller then calls `showUI()`.
`showUI` prints the header `Choose an option:` and one line `i: caption` per
option, numbered from 1 in insertion order. It then loops forever. Each pass
prints the prompt, reads one line and takes one of five decisions:

- an integer in `[1, count]` runs option `v - 1`;
- any other integer prints `Invalid selection.`;
- exactly `q` or `Q` prints `Ending.` and returns;
- any other line prints `Please enter an integer.`;
- a failed read prints `Error reading option.` and loops again.

The model is functional. A menu is an immutable sequence of
`MenuOption(caption, action)`. A closure is an opaque `ActionId`. Standard
input is a finite sequence of `Option<string>`, where `None` is a failed
`readLine()`. Standard output and the closures that run are one trace of
events:

- `Printed(text, terminator)`: one `print`. Lines end in `"\n"`; the prompt
  ends in `" "`, as `showUI` prints it;
- `Invoke(k)`: option `k` (0-based) runs;
- `Quit`: `showUI` returns.

Modules:

- `Wrappers` holds `Option`.
- `IntParse` models Swift's `Int(String)`. This is the standard-library call
  that reads a selection. It is a concrete decimal parser: an optional `+` or
  `-`, then one or more ASCII digits, and `None` when the value falls outside
  the signed 64-bit range. The parser is written as an overflow-checked
  accumulator, and its contract ties it to a declarative reading.
  `ShowNat` is the decimal rendering that string interpolation uses for the
  menu numbers.
- `Menu` holds the option list, `addOption`, and the static menu `Render`.
- `Selection` holds the per-line classifier, the loop, `Run` (all of
  `showUI`), and the method `ShowUI`. `ShowUI` follows `showUI`'s nested
  checks line by line and is proved equal to `Run`.
- `Scenarios` holds concrete sessions: a two-option greeting menu and an
  empty menu. The greeting menu's rendering and its loop are stated as
  separate lemmas. `Run` is, by definition, the rendering followed by the
  loop.

## Model

| member | source | states |
|---|---|---|
| IntParse.ParseInt | Sources/TerminalUI/TerminalUI.swift:75 | whenever `Int(selection)` yields a value, that value is a signed 64-bit integer |
| IntParse.ParseIntMeaning | Sources/TerminalUI/TerminalUI.swift:75 | `Int(selection)` yields `Some(v)` exactly when the line is an optional sign followed by at least one ASCII digit and its value fits in 64 bits; `v` is then that value |
| IntParse.Accumulate | Sources/TerminalUI/TerminalUI.swift:75 | the digit loop succeeds exactly when every remaining character is a digit and the whole value stays within the limit, and then returns the digits' base-10 value, although it stops at the first overflow |
| IntParse.ShowNat | Sources/TerminalUI/TerminalUI.swift:69 | the interpolated number `\(i)` is a non-empty digit string whose value is `i`, with no leading zero unless it is the single digit `0` |
| IntParse.ParseShowRoundTrip | Sources/TerminalUI/TerminalUI.swift:69-75 | a printed option number reads back as the same integer when it fits in 64 bits, and as no integer otherwise |
| IntParse.SignedShowRoundTrip | Sources/TerminalUI/TerminalUI.swift:75 | with `+` the bound is the 64-bit maximum; with `-` the value is negated and reaches down to the 64-bit minimum |
| Menu.AddOption | Sources/TerminalUI/TerminalUI.swift:58-60 | the list grows by exactly one; every earlier option keeps its position, caption and action; the new option is last |
| Menu.BuildMenu | Sources/TerminalUI/TerminalUI.swift:58-60 | a series of `addOption` calls on a fresh value holds one option per call, and the last call's option is last |
| Menu.BuildMenuKeepsInsertionOrder | Sources/TerminalUI/TerminalUI.swift:35-60 | after a series of `addOption` calls on a fresh value, option `i` is the `i`-th added, duplicates and empty captions included |
| Menu.OptionLine | Sources/TerminalUI/TerminalUI.swift:69 | an option line is the decimal digits of its number with no leading zero, then `: `, then the caption unchanged |
| Menu.RenderFrom | Sources/TerminalUI/TerminalUI.swift:67-71 | one line per option, with the counter going up by one per option |
| Menu.Render | Sources/TerminalUI/TerminalUI.swift:66-71 | the menu is `count + 1` lines: the header, then line `i` is `i: caption` of option `i - 1` |
| Menu.DisplayFollowsInsertionOrder | Sources/TerminalUI/TerminalUI.swift:58-71 | the displayed numbering follows the order of the `addOption` calls |
| Selection.Classify | Sources/TerminalUI/TerminalUI.swift:74-89 | a failed read is its own case; a selection's index is one less than the integer read and below the count; an out-of-range integer is outside `[1, count]`; quit happens exactly for a non-integer quit token; anything else is a non-integer that is not a quit token |
| Selection.IntegerCheckedBeforeQuit | Sources/TerminalUI/TerminalUI.swift:75-81 | a line that reads as an integer is a selection or out of range, never a quit |
| Selection.OneBasedSelection | Sources/TerminalUI/TerminalUI.swift:76-79 | integer `v` selects index `v - 1` exactly when `1 <= v <= count`, and is out of range exactly otherwise |
| Selection.QuitOnlyOnExactToken | Sources/TerminalUI/TerminalUI.swift:81 | a line quits if and only if it is exactly `q` or `Q` |
| Selection.EmptyMenuRejectsEveryInteger | Sources/TerminalUI/TerminalUI.swift:76-79 | with no options, every integer is out of range |
| Selection.DisplayedNumberSelectsOption | Sources/TerminalUI/TerminalUI.swift:69-77 | typing the number printed before option `i`'s caption selects option `i - 1` |
| Selection.SelectionRunsAddedClosure | Sources/TerminalUI/TerminalUI.swift:58-77 | typing an integer `v` in `[1, count]` runs option `v - 1`, which holds the caption and closure of the `v`-th `addOption` call |
| Selection.Respond | Sources/TerminalUI/TerminalUI.swift:76-88 | each reaction is at least one event; it ends in `Quit` exactly on a quit request; a selection runs the selected option and does nothing else, and any other outcome runs no option at all |
| Selection.Iteration | Sources/TerminalUI/TerminalUI.swift:73-89 | each pass starts with the prompt and is at least two events long: the prompt, then one action, message or farewell |
| Selection.IterationShape | Sources/TerminalUI/TerminalUI.swift:73-89 | one prompt per pass; a valid selection runs exactly that option once and prints nothing else; only the option the line names can run; `Quit` ends the pass; only the loop's fixed messages are printed |
| Selection.OutOfRangeReportsInvalid | Sources/TerminalUI/TerminalUI.swift:78-79 | an integer outside `[1, count]` prints `Invalid selection.` and runs nothing |
| Selection.NonIntegerReportsEnterAnInteger | Sources/TerminalUI/TerminalUI.swift:84-85 | a line that is neither an integer nor a quit token prints `Please enter an integer.` and runs nothing |
| Selection.QuitTokenEnds | Sources/TerminalUI/TerminalUI.swift:81-83 | `q` or `Q` prints `Ending.` and returns |
| Selection.ReadFailureReportsError | Sources/TerminalUI/TerminalUI.swift:87-88 | a failed read prints `Error reading option.` and does not quit |
| Selection.Loop | Sources/TerminalUI/TerminalUI.swift:72-90 | the trace of completed passes is empty when no line has been read; otherwise it starts with the prompt and has at least the two events of one pass. What the whole loop does is stated by `QuitIffQuitLine`, `QuitIsLast`, `StopsAtFirstQuit` and `SelectionLoop` |
| Selection.QuitIsLast | Sources/TerminalUI/TerminalUI.swift:82-83 | `Quit` occurs at most once and is the last event, so no action runs after quitting |
| Selection.LoopEventsWellFormed | Sources/TerminalUI/TerminalUI.swift:72-90 | every action the loop runs is a valid option index, and the loop never prints the menu again |
| Selection.QuitIffQuitLine | Sources/TerminalUI/TerminalUI.swift:72-90 | over a finite input, the loop quits if and only if some line is a quit token that does not read as an integer |
| Selection.OnePromptPerIteration | Sources/TerminalUI/TerminalUI.swift:73 | each pass prints the prompt exactly once |
| Selection.StopsAtFirstQuit | Sources/TerminalUI/TerminalUI.swift:81-83 | the loop ends at the first quit line: it reads exactly the lines up to that one and prompts once per line |
| Selection.ReadsEveryLineWithoutQuit | Sources/TerminalUI/TerminalUI.swift:72-90 | without a quit line, the loop reads every line, prompts once per line and never quits |
| Selection.InputAfterQuitIsNotRead | Sources/TerminalUI/TerminalUI.swift:82-83 | once the loop has quit, later input does not change the trace |
| Selection.LoopAppend | Sources/TerminalUI/TerminalUI.swift:72-90 | before a quit, the loop over two chunks of input is the loop over the first chunk followed by the loop over the second |
| Selection.ReadFailuresNeverEndTheLoop | Sources/TerminalUI/TerminalUI.swift:87-88 | when every read fails, each pass prints the prompt and the read error, and the loop never ends |
| Selection.Run | Sources/TerminalUI/TerminalUI.swift:65-91 | `showUI` prints the full menu first, whatever the input; it returns if and only if some line is a quit line, and `Quit` is then the last event |
| Selection.PrintMenu | Sources/TerminalUI/TerminalUI.swift:66-71 | the header and the counter loop print exactly the rendered menu |
| Selection.HandleLine | Sources/TerminalUI/TerminalUI.swift:73-89 | `showUI`'s nested checks, in their order, produce exactly the classified iteration, and they return exactly on a quit line |
| Selection.SelectionLoop | Sources/TerminalUI/TerminalUI.swift:72-90 | `showUI`'s `while (true)` loop, reading one line per pass and returning on a quit line, produces exactly the trace `Loop` defines |
| Selection.ShowUI | Sources/TerminalUI/TerminalUI.swift:65-91 | `showUI`'s menu printing followed by its loop produces exactly the trace `Run` defines |
| Scenarios.GreetingMenuRendering | Sources/TerminalUI/TerminalUI.swift:58-71 | options "Say hi" and "Say bye" are shown as `1: Say hi` and `2: Say bye` under the header |
| Scenarios.GreetingAnswers | Sources/TerminalUI/TerminalUI.swift:75-88 | with two options, `1` and `2` run options 0 and 1, `5` is invalid, `abc` is not an integer, and `q` ends |
| Scenarios.SessionFromAnswers | Sources/TerminalUI/TerminalUI.swift:72-90 | when the five lines give, in order, the passes that run option 0, run option 1, print `Invalid selection.`, print `Please enter an integer.` and print `Ending.` and quit, the loop is those five passes in order and stops after the fifth |
| Scenarios.TwoOptionSession | Sources/TerminalUI/TerminalUI.swift:72-90 | with two options, the lines 1, 2, 5, abc, q give both actions, then the two messages, then the farewell |
| Scenarios.EmptyMenuSession | Sources/TerminalUI/TerminalUI.swift:65-91 | with no options, the lines 1, q give `Invalid selection.` then `Ending.` |
| Scenarios.NearMissesAreNotIntegersOrQuit | Sources/TerminalUI/TerminalUI.swift:75-85 | `" q"`, `"quit"`, `" 1"` and `"+"` are neither integers nor quit tokens |

## Left out

- Real standard input and output. `print`, `readLine()` and the prompt's terminator are events in a trace, not I/O. `readLine()` strips the line terminator, so input lines are modelled with the terminator already removed.
- The closures' own effects. They are caller code, so the model records only which option runs.
- The endless loop. `showUI` loops forever until it reads a quit token, and at end of input `readLine()` keeps returning `nil`. The model runs over a finite input list and stops when the list runs out. `ReadFailuresNeverEndTheLoop` covers any finite prefix of the endless stream of failed reads.
- Selection.Loop: the trace holds completed passes only. When the input list runs out without a quit line, `showUI` has already printed one more prompt and waits in `readLine()`; that pending prompt is not in the trace, so `Run(m, [])` is the menu alone.
- Swift `String` equality is Unicode canonical equivalence. For the ASCII tokens `q` and `Q` this is the same as comparing characters, which is what the model does.
- `Int` is modelled as 64-bit, as on the platform the package targets (macOS 10.15). A 32-bit platform, with a smaller bound, is not modelled.
- The counter `i += 1` in the menu loop ends at `count + 1`. It would overflow only for a menu of `Int.max` options, and no array of options (a string and a closure each) can be that large in memory. The model's counter is unbounded.
- Package.swift is a build manifest with no logic.
