/**
 * The split of a formatted total into its whole part and its fraction,
 * written the same way in Expenses/Views/ExpenseListView.swift and
 * Expenses/Views/CreditCardView.swift. The number formatter's output is
 * a parameter; `None` stands for a formatter that produced nothing.
 */
module Formatting {
  import opened Wrappers
  import opened Text

  /** The text shown when the formatter produces nothing. */
  const Fallback: string := "0.00"

  /** `formattedTotal`: two pieces around a `.` become (whole, "." + fraction); otherwise the text and ".00". */
  function FormattedTotal(formatted: Option<string>): (parts: (string, string))
  {
    var totalString := formatted.GetOr(Fallback);
    var pieces := Split(totalString, '.');
    if |pieces| == 2 then (pieces[0], "." + pieces[1]) else (totalString, ".00")
  }

  /** Text with a single `.` strictly inside splits there, and the halves put back together give it back. */
  lemma FormattedTotalSplitsAtDot(w: string, f: string)
    requires |w| > 0 && |f| > 0 && '.' !in w && '.' !in f
    ensures FormattedTotal(Some(w + "." + f)) == (w, "." + f)
    ensures FormattedTotal(Some(w + "." + f)).0 + FormattedTotal(Some(w + "." + f)).1 == w + "." + f
  {
    SplitJoined(w, f, '.');
  }

  /** Text without a `.` is the whole part, with ".00" as the fraction. */
  lemma FormattedTotalWithoutDot(s: string)
    requires '.' !in s
    ensures FormattedTotal(Some(s)) == (s, ".00")
  {
    SplitNoSeparator(s, '.');
  }

  /**
   * Empty pieces are dropped by the split, so a trailing `.` leaves one
   * piece and the text is kept whole; no formatter output reads as "0.00".
   */
  lemma FormattedTotalEdgeCases()
    ensures FormattedTotal(Some("5.")) == ("5.", ".00")
    ensures FormattedTotal(None) == ("0", ".00")
    ensures FormattedTotal(Some("1,234.50")) == ("1,234", ".50")
  {
    TrailingDotKept();
    MissingTextFallsBack();
    GroupedTextSplits();
  }

  lemma TrailingDotKept()
    ensures FormattedTotal(Some("5.")) == ("5.", ".00")
  {
    assert IndexOf("5.", '.') == 1;
    assert "5."[..1] == "5" && "5."[2..] == "";
    assert Split("5.", '.') == ["5"];
  }

  lemma MissingTextFallsBack()
    ensures FormattedTotal(None) == ("0", ".00")
  {
    FormattedTotalSplitsAtDot("0", "00");
    assert "0" + "." + "00" == Fallback;
  }

  lemma GroupedTextSplits()
    ensures FormattedTotal(Some("1,234.50")) == ("1,234", ".50")
  {
    FormattedTotalSplitsAtDot("1,234", "50");
    assert "1,234" + "." + "50" == "1,234.50";
  }

  /** Whichever way it goes, the fraction starts with `.` and the whole part is non-empty when the text is. */
  lemma FormattedTotalShape(formatted: Option<string>)
    ensures var (whole, fraction) := FormattedTotal(formatted);
      |fraction| >= 2 && fraction[0] == '.'
      && (formatted.GetOr(Fallback) != "" ==> whole != "")
  {
  }
}
