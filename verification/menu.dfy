/** The option list of a `TerminalUI` value and the static menu that
    `showUI` prints once before it starts reading selections. */
module Menu {
  import opened IntParse

  /** Stands for the caller's zero-argument closure. The closure itself is
      caller code; the model only records which one is run. */
  type ActionId = nat

  datatype MenuOption = MenuOption(caption: string, action: ActionId)

  /** Options in insertion order; option `k` (0-based) is displayed as number `k + 1`. */
  datatype Menu = Menu(options: seq<MenuOption>)

  /** A freshly initialised `TerminalUI` holds no options. */
  const EmptyMenu: Menu := Menu([])

  /** `addOption`: the only mutation. The new option goes last; every earlier
      option keeps its position, caption and action. */
  function AddOption(m: Menu, caption: string, action: ActionId): (r: Menu)
    ensures |r.options| == |m.options| + 1
    ensures r.options[..|m.options|] == m.options
    ensures r.options[|m.options|].caption == caption && r.options[|m.options|].action == action
  {
    Menu(m.options + [MenuOption(caption, action)])
  }

  /** The menu obtained by calling `addOption` once per entry, in order,
      on a fresh `TerminalUI`. */
  function BuildMenu(entries: seq<(string, ActionId)>): (r: Menu)
    ensures |r.options| == |entries|
    ensures |entries| > 0 ==> r.options[|entries| - 1] == MenuOption(entries[|entries| - 1].0, entries[|entries| - 1].1)
    decreases |entries|
  {
    if |entries| == 0 then EmptyMenu
    else
      var last := entries[|entries| - 1];
      AddOption(BuildMenu(entries[..|entries| - 1]), last.0, last.1)
  }

  /** Insertion order is option order: nothing is dropped, merged or moved,
      duplicates and empty captions included. */
  lemma {:induction false} BuildMenuKeepsInsertionOrder(entries: seq<(string, ActionId)>)
    ensures |BuildMenu(entries).options| == |entries|
    ensures forall i :: 0 <= i < |entries| ==>
      BuildMenu(entries).options[i] == MenuOption(entries[i].0, entries[i].1)
  {
    if |entries| > 0 {
      var front := entries[..|entries| - 1];
      BuildMenuKeepsInsertionOrder(front);
      var m := BuildMenu(front);
      var r := BuildMenu(entries);
      forall i | 0 <= i < |entries|
        ensures r.options[i] == MenuOption(entries[i].0, entries[i].1)
      {
        if i < |front| {
          assert r.options[i] == r.options[..|m.options|][i];
        }
      }
    }
  }

  /** One output line, as `print` writes it with its default terminator. */
  datatype Event =
    | Printed(text: string, terminator: string)
    | Invoke(index: nat)
    | Quit

  function Line(text: string): Event {
    Printed(text, "\n")
  }

  const Header: string := "Choose an option:"

  /** `"\(i): \(caption)"`: the decimal digits of the number without
      leading zeros, a colon and a space, then the caption unchanged. */
  function OptionLine(number: nat, caption: string): (r: string)
    ensures |r| >= |caption| + 3
    ensures var k := |r| - |caption| - 2;
      && AllDigits(r[..k]) && DigitsValue(r[..k]) == number
      && (k == 1 || r[0] != '0')
      && r[k..k + 2] == ": " && r[k + 2..] == caption
  {
    var digits := ShowNat(number);
    var r := digits + ": " + caption;
    assert r[..|digits|] == digits;
    r
  }

  /** The numbered lines for `options`, the first numbered `number`. */
  function RenderFrom(options: seq<MenuOption>, number: nat): (r: seq<Event>)
    ensures |r| == |options|
    ensures forall j :: 0 <= j < |options| ==> r[j] == Line(OptionLine(number + j, options[j].caption))
    decreases |options|
  {
    if |options| == 0 then []
    else [Line(OptionLine(number, options[0].caption))] + RenderFrom(options[1..], number + 1)
  }

  /** What `showUI` prints before its loop: the header, then one line per
      option numbered from 1 in insertion order. */
  function Render(m: Menu): (r: seq<Event>)
    ensures |r| == |m.options| + 1
    ensures r[0] == Line(Header)
    ensures forall i :: 1 <= i <= |m.options| ==> r[i] == Line(OptionLine(i, m.options[i - 1].caption))
  {
    [Line(Header)] + RenderFrom(m.options, 1)
  }

  /** The displayed list follows the order of the `addOption` calls. */
  lemma DisplayFollowsInsertionOrder(entries: seq<(string, ActionId)>)
    ensures |Render(BuildMenu(entries))| == |entries| + 1
    ensures forall i :: 0 <= i < |entries| ==>
      Render(BuildMenu(entries))[i + 1] == Line(OptionLine(i + 1, entries[i].0))
  {
    BuildMenuKeepsInsertionOrder(entries);
  }
}
