/**
 * The text menu of the command-line front end: a list of options that
 * grows by appending, the numbered prompt built from it, the check that an
 * answer picks one of the options, and the loop that reads answers until
 * one of them picks an option that quits the menu, whose action is then
 * performed.
 */
module CliMenu {
  import opened Wrappers
  import opened Numerals

  /** An option as the menu sees it: the text it shows and whether choosing it quits the menu. */
  datatype MenuOption = MenuOption(text: string, quits: bool)

  const PromptHeader := "Select an option... \n"
  const PromptFooter := "\nChoice: "

  /** The answer is what `int` reads as an index of the options, from 0 to one less than their number. */
  predicate IsValidSelection(options: seq<MenuOption>, answer: string) {
    var n := ParseInt(answer);
    n.Some? && 0 <= n.value <= |options| - 1
  }

  /** The option an answer picks, or none when the answer is no valid selection. */
  function SelectedOption(options: seq<MenuOption>, answer: string): (r: Option<MenuOption>)
    ensures r.Some? <==> IsValidSelection(options, answer)
    ensures r.Some? ==> r.value in options
  {
    if IsValidSelection(options, answer) then Some(options[ParseInt(answer).value]) else None
  }

  /** With no options, no answer is a valid selection. */
  lemma NoOptionsNoSelection(answer: string)
    ensures !IsValidSelection([], answer)
    ensures SelectedOption([], answer) == None
  {
  }

  /** The numeral `str` writes for an index picks the option at that index. */
  lemma IndexNumeralSelects(options: seq<MenuOption>, i: nat)
    requires i < |options|
    ensures IsValidSelection(options, NatToString(i))
    ensures SelectedOption(options, NatToString(i)) == Some(options[i])
  {
    ParseIntRoundTrip(i);
  }

  /** A valid selection is the numeral of an index, possibly with a sign: it picks the option at the index it denotes. */
  lemma ValidSelectionIsIndex(options: seq<MenuOption>, answer: string)
    requires IsValidSelection(options, answer)
    ensures |answer| >= 1 && (IsDigit(answer[0]) || answer[0] == '-' || answer[0] == '+')
    ensures forall i :: 1 <= i < |answer| ==> IsDigit(answer[i])
    ensures SelectedOption(options, answer) == Some(options[ParseInt(answer).value])
  {
    ParseIntAccepts(answer);
  }

  /** The prompt line of option o at index i. */
  function OptionLine(i: nat, o: MenuOption): string {
    NatToString(i) + ") " + o.text + "\n"
  }

  /** The prompt lines of the options, in index order. */
  function Listing(options: seq<MenuOption>): string
    decreases |options|
  {
    if options == [] then ""
    else Listing(options[..|options| - 1]) + OptionLine(|options| - 1, options[|options| - 1])
  }

  /** The prompt `start_menu` shows before every answer. */
  function Prompt(options: seq<MenuOption>): string {
    PromptHeader + Listing(options) + PromptFooter
  }

  /** Appending an option appends its line to the listing and leaves the earlier lines as they were. */
  lemma ListingAppend(options: seq<MenuOption>, o: MenuOption)
    ensures Listing(options + [o]) == Listing(options) + OptionLine(|options|, o)
  {
    assert (options + [o])[..|options|] == options;
  }

  /** The lines of the first n options start the listing of all of them. */
  lemma {:induction false} ListingPrefix(options: seq<MenuOption>, n: nat)
    requires n <= |options|
    ensures |Listing(options[..n])| <= |Listing(options)|
    ensures Listing(options)[..|Listing(options[..n])|] == Listing(options[..n])
    decreases |options|
  {
    if n < |options| {
      var init := options[..|options| - 1];
      assert init[..n] == options[..n];
      ListingPrefix(init, n);
      assert Listing(options) == Listing(init) + OptionLine(|options| - 1, options[|options| - 1]);
    } else {
      assert options[..n] == options;
    }
  }

  /** Option i's line is in the prompt, right after the header and the lines of options 0 to i - 1. */
  lemma OptionShownInPrompt(options: seq<MenuOption>, i: nat)
    requires i < |options|
    ensures var at := |PromptHeader| + |Listing(options[..i])|;
      at + |OptionLine(i, options[i])| <= |Prompt(options)|
      && Prompt(options)[at..at + |OptionLine(i, options[i])|] == OptionLine(i, options[i])
  {
    var before, line := Listing(options[..i]), OptionLine(i, options[i]);
    var listing, n := Listing(options), |before| + |line|;
    assert n <= |listing| && listing[|before|..n] == line by {
      var upTo := options[..i + 1];
      assert upTo[..i] == options[..i];
      assert Listing(upTo) == before + line;
      ListingPrefix(options, i + 1);
      assert listing[..n] == before + line;
      assert listing[|before|..n] == listing[..n][|before|..];
      assert (before + line)[|before|..] == line;
    }
    SliceOfMiddle(PromptHeader, listing, PromptFooter, |before|, n);
  }

  /** A slice of the middle part of a + b + c, shifted by the length of a. */
  lemma SliceOfMiddle(a: string, b: string, c: string, i: nat, j: nat)
    requires i <= j <= |b|
    ensures (a + b + c)[|a| + i..|a| + j] == b[i..j]
  {
    assert a + b + c == a + (b + c);
    assert (a + (b + c))[|a|..] == b + c;
    assert (b + c)[i..j] == b[i..j];
  }

  /** Does the answer pick an option that quits the menu? */
  predicate QuitsWith(options: seq<MenuOption>, answer: string) {
    var s := SelectedOption(options, answer);
    s.Some? && s.value.quits
  }

  /** The position of the first answer that picks an option that quits the menu, if there is one. */
  function FirstQuit(options: seq<MenuOption>, answers: seq<string>): (k: Option<nat>)
    ensures k.Some? ==> (k.value < |answers| && QuitsWith(options, answers[k.value])
      && forall j :: 0 <= j < k.value ==> !QuitsWith(options, answers[j]))
    ensures k.None? ==> forall j :: 0 <= j < |answers| ==> !QuitsWith(options, answers[j])
    decreases |answers|
  {
    if answers == [] then None
    else if QuitsWith(options, answers[0]) then Some(0)
    else
      match FirstQuit(options, answers[1..])
      case None => None
      case Some(k) => Some(k + 1)
  }

  /** The menu itself: its name, its options, and the option actions it has performed, in order. */
  class Menu {
    var name: string
    var options: seq<MenuOption>
    var performed: seq<MenuOption>

    /** cli_menu.py:8-13: a menu starts with no options. */
    constructor (name: string)
      ensures this.name == name && options == [] && performed == []
    {
      this.name := name;
      options := [];
      performed := [];
    }

    /** Appends an option: it takes the next index, and the earlier options keep theirs. */
    method AddOption(o: MenuOption)
      modifies this
      ensures options == old(options) + [o]
      ensures name == old(name) && performed == old(performed)
    {
      options := options + [o];
    }

    /** Builds the prompt line by line, as `start_menu` does before its loop. */
    method BuildPrompt() returns (prompt: string)
      ensures prompt == Prompt(options)
    {
      prompt := PromptHeader;
      for i := 0 to |options|
        invariant prompt == PromptHeader + Listing(options[..i])
      {
        assert options[..i + 1][..i] == options[..i];
        prompt := prompt + OptionLine(i, options[i]);
      }
      assert options[..|options|] == options;
      prompt := prompt + PromptFooter;
    }

    /**
     * `start_menu` on the answers the user types, in order: reads answers
     * until one picks an option that quits the menu, then performs that
     * option's action once. When the answers run out first, nothing is
     * performed. Returns the prompt and how many answers were read.
     */
    method StartMenu(answers: seq<string>) returns (prompt: string, consumed: nat)
      modifies this
      ensures options == old(options) && name == old(name)
      ensures prompt == Prompt(options)
      ensures var k := FirstQuit(options, answers);
        k.Some? ==> (consumed == k.value + 1
          && performed == old(performed) + [SelectedOption(options, answers[k.value]).value])
      ensures FirstQuit(options, answers).None? ==> consumed == |answers| && performed == old(performed)
    {
      prompt := BuildPrompt();
      var selected: Option<MenuOption> := None;
      consumed := 0;
      while (selected.None? || !selected.value.quits) && consumed < |answers|
        invariant consumed <= |answers|
        invariant consumed == 0 ==> selected == None
        invariant consumed > 0 ==> selected == SelectedOption(options, answers[consumed - 1])
        invariant forall j :: 0 <= j < consumed - 1 ==> !QuitsWith(options, answers[j])
        invariant options == old(options) && name == old(name) && performed == old(performed)
      {
        selected := SelectedOption(options, answers[consumed]);
        consumed := consumed + 1;
      }
      if selected.Some? && selected.value.quits {
        performed := performed + [selected.value];
      }
    }
  }
}
