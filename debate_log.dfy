/**
 * The fixed-layout debate logs of the Angel & Demon and ChatEval strategies: a list
 * of sections, each either a fixed heading or one of the run's texts (the question
 * or a response), joined with newlines.
 */
module DebateLogs {
  import opened Text

  /** One section of a log: a fixed heading, or the text with the given index. */
  datatype Section = Heading(text: string) | Entry(index: nat)

  /** Every entry of the layout names one of the texts. */
  predicate Fits(layout: seq<Section>, texts: seq<string>)
  {
    forall i :: 0 <= i < |layout| && layout[i].Entry? ==> layout[i].index < |texts|
  }

  /** The sections of the log for the given texts, in layout order. */
  function Render(layout: seq<Section>, texts: seq<string>): (xs: seq<string>)
    requires Fits(layout, texts)
    ensures |xs| == |layout|
  {
    seq(|layout|, i requires 0 <= i < |layout| =>
      match layout[i]
      case Heading(t) => t
      case Entry(k) => texts[k])
  }

  /** The log: its sections joined with newlines. */
  function Log(layout: seq<Section>, texts: seq<string>): string
    requires Fits(layout, texts)
  {
    Join("\n", Render(layout, texts))
  }

  /** Where section `i` starts in the log. */
  function Offset(layout: seq<Section>, texts: seq<string>, i: nat): nat
    requires Fits(layout, texts) && i <= |layout|
  {
    Width("\n", Render(layout, texts)[..i])
  }

  /**
   * Every entry appears verbatim in the log at its section's offset, and the sections
   * come in layout order, each ending before the next begins.
   */
  lemma EntryVerbatim(layout: seq<Section>, texts: seq<string>, i: nat, j: nat)
    requires Fits(layout, texts) && i < j < |layout| && layout[j].Entry?
    ensures var log := Log(layout, texts);
            var at := Offset(layout, texts, j);
            var t := texts[layout[j].index];
            Offset(layout, texts, i) + |Render(layout, texts)[i]| < at
            && at + |t| <= |log| && log[at..at + |t|] == t
  {
    var xs := Render(layout, texts);
    JoinSection("\n", xs, j);
    WidthMonotone("\n", xs, i, j);
  }
}
