/**
 * Question records and the text `format_question` renders for them:
 * `"QUESTION: " + question + "\n\nOPTIONS:\n"` followed by one line `"<i>. <option>\n"`
 * per option, with 0-based labels, in the records' own order.
 */
module Questions {
  import opened Wrappers
  import opened Text

  /** A dataset row. Absent fields are `None`; `format_question` reads only the stem and options. */
  datatype QuestionRecord = QuestionRecord(
    id: Option<int>,
    question: string,
    options: seq<string>,
    category: Option<string>,
    answerIndex: Option<int>)

  function Header(question: string): string
  {
    "QUESTION: " + question + "\n\nOPTIONS:\n"
  }

  /** The line for the option with 0-based label `i`. */
  function OptionLine(i: nat, option: string): string
  {
    NatToString(i) + ". " + option + "\n"
  }

  /** The option lines, labels counting from 0. */
  function OptionLines(options: seq<string>): string
  {
    if options == [] then ""
    else OptionLines(options[..|options| - 1]) + OptionLine(|options| - 1, options[|options| - 1])
  }

  /** The text of `format_question` for a record. */
  function QuestionText(q: QuestionRecord): string
  {
    Header(q.question) + OptionLines(q.options)
  }

  /** Adding an option adds exactly its line at the end: nothing is skipped or reordered. */
  lemma OptionLinesSnoc(options: seq<string>, option: string)
    ensures OptionLines(options + [option]) == OptionLines(options) + OptionLine(|options|, option)
  {
    assert (options + [option])[..|options|] == options;
  }

  /** The line of option `i` stands in the block after the lines of options `0..i-1`. */
  lemma {:induction false} OptionLineAt(options: seq<string>, i: nat)
    requires i < |options|
    ensures |OptionLines(options[..i])| + |OptionLine(i, options[i])| <= |OptionLines(options)|
    ensures OptionLines(options)[..|OptionLines(options[..i])|] == OptionLines(options[..i])
    ensures OptionLines(options)[|OptionLines(options[..i])|..|OptionLines(options[..i])| + |OptionLine(i, options[i])|]
              == OptionLine(i, options[i])
  {
    var n := |options|;
    var init := options[..n - 1];
    if i == n - 1 {
      assert options[..i] == init;
    } else {
      OptionLineAt(init, i);
      assert init[..i] == options[..i];
      assert OptionLines(options) == OptionLines(init) + OptionLine(n - 1, options[n - 1]);
    }
  }

  /** Each label is the decimal form of the option's 0-based index, read back exactly. */
  lemma OptionLabel(i: nat, option: string)
    ensures OptionLine(i, option)[..|NatToString(i)|] == NatToString(i)
    ensures OptionLine(i, option)[|NatToString(i)|..|NatToString(i)| + 2] == ". "
    ensures DecimalValue(NatToString(i)) == i
  {
    NatToStringRoundTrip(i);
  }

  /** When no option holds a newline, the block has exactly one line per option. */
  lemma {:induction false} OneLinePerOption(options: seq<string>)
    requires forall k :: 0 <= k < |options| ==> Occurrences(options[k], '\n') == 0
    ensures Occurrences(OptionLines(options), '\n') == |options|
  {
    if options != [] {
      var n := |options|;
      var init := options[..n - 1];
      OneLinePerOption(init);
      var line := OptionLine(n - 1, options[n - 1]);
      DigitsHaveNoNewline(NatToString(n - 1));
      OccurrencesAppend(NatToString(n - 1), ". ", '\n');
      OccurrencesAppend(NatToString(n - 1) + ". ", options[n - 1], '\n');
      OccurrencesAppend(NatToString(n - 1) + ". " + options[n - 1], "\n", '\n');
      OccurrencesAppend(OptionLines(init), line, '\n');
      assert Occurrences(". ", '\n') == 0 by {
        assert ". "[..1] == ".";
        assert "."[..0] == "";
      }
      assert Occurrences("\n", '\n') == 1 by {
        assert "\n"[..0] == "";
      }
    }
  }

  lemma {:induction false} DigitsHaveNoNewline(s: string)
    requires forall k :: 0 <= k < |s| ==> IsDigit(s[k])
    ensures Occurrences(s, '\n') == 0
  {
    if s != [] {
      DigitsHaveNoNewline(s[..|s| - 1]);
    }
  }
}
