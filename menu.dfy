/** The main menu: the trimmed choice line selects one of five commands. */
module Menu {
  import opened Text

  datatype Choice =
    | AddCommand       // "1"
    | ViewAll          // "2"
    | ViewByCategory   // "3"
    | Summarize        // "4"
    | Exit             // "5"
    | InvalidChoice    // anything else: "Invalid choice! Please enter 1-5."

  /** The menu number printed for a command. */
  function ChoiceKey(c: Choice): (key: string)
    requires !c.InvalidChoice?
  {
    match c
    case AddCommand => "1"
    case ViewAll => "2"
    case ViewByCategory => "3"
    case Summarize => "4"
    case Exit => "5"
  }

  predicate IsMenuKey(s: string) {
    s == "1" || s == "2" || s == "3" || s == "4" || s == "5"
  }

  /** Decodes a choice line: compares its trimmed text with "1" to "5". */
  function DecodeChoice(line: string): (c: Choice)
    ensures c.InvalidChoice? <==> !IsMenuKey(Trim(line))
    ensures !c.InvalidChoice? ==> ChoiceKey(c) == Trim(line)
  {
    var choice := Trim(line);
    if choice == "1" then AddCommand
    else if choice == "2" then ViewAll
    else if choice == "3" then ViewByCategory
    else if choice == "4" then Summarize
    else if choice == "5" then Exit
    else InvalidChoice
  }

  /** Typing a command's menu number selects that command. */
  lemma DecodeChoiceKey(c: Choice)
    requires !c.InvalidChoice?
    ensures DecodeChoice(ChoiceKey(c)) == c
  {
    TrimUnpadded(ChoiceKey(c));
  }

  /** Whitespace and control characters around the choice do not change it. */
  lemma DecodeChoicePadded(p: string, line: string, q: string)
    requires AllTrimmable(p) && AllTrimmable(q)
    ensures DecodeChoice(p + line + q) == DecodeChoice(line)
  {
    TrimIgnoresPadding(p, line, q);
  }

  /** The only line that ends the session is "5" up to surrounding whitespace. */
  lemma ExitOnlyOnFive(line: string)
    ensures DecodeChoice(line) == Exit <==> Trim(line) == "5"
  {
  }

  /** A line without surrounding whitespace that is not a menu number is an invalid choice. */
  lemma UnpaddedNonKeyIsInvalid(line: string)
    requires IsTrimmed(line)
    requires !IsMenuKey(line)
    ensures DecodeChoice(line) == InvalidChoice
  {
    TrimUnpadded(line);
  }

  /** "6" is not on the menu. */
  lemma SixIsInvalid()
    ensures DecodeChoice("6") == InvalidChoice
  {
    UnpaddedNonKeyIsInvalid("6");
  }

  /** Two numbers on one line are not a choice. */
  lemma TwoNumbersAreInvalid()
    ensures DecodeChoice("1 2") == InvalidChoice
  {
    UnpaddedNonKeyIsInvalid("1 2");
  }

  /** A blank line is not a choice. */
  lemma BlankIsInvalid()
    ensures DecodeChoice("") == InvalidChoice
  {
    UnpaddedNonKeyIsInvalid("");
  }

  /** " 5 " still exits. */
  lemma PaddedChoiceExample()
    ensures DecodeChoice(" 5 ") == Exit
  {
    assert " 5 " == " " + "5" + " ";
    DecodeChoicePadded(" ", "5", " ");
    DecodeChoiceKey(Exit);
  }
}
