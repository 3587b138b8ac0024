/**
 * The new-expense form (Expenses/Views/AddExpenseView.swift): the amount
 * field's clean-up on every edit, the Save button's gate, and the expense
 * `saveExpense()` sends to the repository.
 */
module AddExpense {
  import opened Wrappers
  import opened Seqs
  import opened Text
  import opened NumberParsing
  import opened ExpenseModel
  import opened Repository

  /** The characters of the amount text that are kept (`filter { "0123456789.".contains($0) }`). */
  function KeepAmountChars(s: string): (r: string)
    ensures AmountAlphabet(r)
    ensures forall c :: c in r <==> c in s && IsAmountChar(c)
  {
    var r := Filter(s, IsAmountChar);
    assert forall i :: 0 <= i < |r| ==> r[i] in r;
    r
  }

  /** Every digit and '.' is kept as often as it occurs, and nothing else is kept. */
  lemma KeepAmountCharsCount(s: string)
    ensures forall c :: multiset(KeepAmountChars(s))[c] == if IsAmountChar(c) then multiset(s)[c] else 0
  {
    FilterCount(s, IsAmountChar);
  }

  /** The filter works character by character: it distributes over concatenation. */
  lemma KeepAmountCharsConcat(a: string, b: string)
    ensures KeepAmountChars(a + b) == KeepAmountChars(a) + KeepAmountChars(b)
  {
    FilterConcat(a, b, IsAmountChar);
  }

  /** A single character is kept exactly when it is a digit or '.'. */
  lemma KeepAmountCharsOne(c: char)
    ensures KeepAmountChars([c]) == if IsAmountChar(c) then [c] else []
  {
    assert [c][1..] == [];
  }

  /** Cuts the text just before its second `.`, if it has one. */
  function TruncateAtSecondDot(s: string): (r: string)
    ensures |r| <= |s| && r == s[..|r|]
  {
    var k := IndexOf(s, '.');
    if k == |s| then s
    else
      var j := IndexOf(s[k + 1..], '.');
      if j == |s| - k - 1 then s else s[..k + 1 + j]
  }

  /** What the amount field holds after an edit to `s` (the `onChange` handler). */
  function Normalize(s: string): string
  {
    TruncateAtSecondDot(KeepAmountChars(s))
  }

  /** Text with at most one `.` is not cut. */
  lemma TruncateKeepsSingleDot(s: string)
    requires Count(s, '.') <= 1
    ensures TruncateAtSecondDot(s) == s
  {
    var k := IndexOf(s, '.');
    if k < |s| {
      CountAfterFirst(s, '.', k);
      CountZero(s[k + 1..], '.');
    }
  }

  /**
   * The cut text has at most one `.`; when something is cut, the cut is
   * right at the second `.` of the text.
   */
  lemma TruncateFacts(s: string)
    ensures Count(TruncateAtSecondDot(s), '.') <= 1
    ensures var r := TruncateAtSecondDot(s);
      r != s ==> |r| < |s| && s[|r|] == '.' && Count(r, '.') == 1
  {
    var k := IndexOf(s, '.');
    if k == |s| {
      CountZero(s, '.');
    } else if IndexOf(s[k + 1..], '.') == |s| - k - 1 {
      TruncateKeepsOneDot(s, k);
    } else {
      TruncateCutsAtSecondDot(s, k);
    }
  }

  lemma TruncateKeepsOneDot(s: string, k: nat)
    requires k == IndexOf(s, '.') && k < |s|
    requires IndexOf(s[k + 1..], '.') == |s| - k - 1
    ensures TruncateAtSecondDot(s) == s && Count(s, '.') == 1
  {
    CountAfterFirst(s, '.', k);
    CountZero(s[k + 1..], '.');
  }

  lemma TruncateCutsAtSecondDot(s: string, k: nat)
    requires k == IndexOf(s, '.') && k < |s|
    requires IndexOf(s[k + 1..], '.') < |s| - k - 1
    ensures var r := TruncateAtSecondDot(s);
      |r| < |s| && s[|r|] == '.' && Count(r, '.') == 1
  {
    var rest := s[k + 1..];
    var j := IndexOf(rest, '.');
    assert TruncateAtSecondDot(s) == s[..k + 1 + j];
    CutAtSecondDot(s, rest, k, j);
  }

  /** The text cut at its second `.`: that `.` is where the cut is, and one `.` is left. */
  lemma CutAtSecondDot(s: string, rest: string, k: nat, j: nat)
    requires k < |s| && s[k] == '.' && forall i :: 0 <= i < k ==> s[i] != '.'
    requires rest == s[k + 1..] && j < |rest| && rest[j] == '.'
    requires forall i :: 0 <= i < j ==> rest[i] != '.'
    ensures s[k + 1 + j] == '.' && Count(s[..k + 1 + j], '.') == 1
  {
    forall i | 0 <= i < k + 1 + j && i != k
      ensures s[i] != '.'
    {
      if i > k {
        assert s[i] == rest[i - k - 1];
      }
    }
    CountBeforeSecond(s, k, k + 1 + j);
    assert s[k + 1 + j] == rest[j];
  }

  /** Up to a second `.` the text has exactly one `.`. */
  lemma CountBeforeSecond(s: string, k: nat, n: nat)
    requires k < n <= |s| && s[k] == '.'
    requires forall i :: 0 <= i < n && i != k ==> s[i] != '.'
    ensures Count(s[..n], '.') == 1
  {
    var p := s[..n];
    CountAfterFirst(p, '.', k);
    assert '.' !in p[k + 1..];
    CountZero(p[k + 1..], '.');
  }

  /**
   * After an edit the field holds only digits and at most one `.`, text
   * that is already in that form is left alone, and so a second pass
   * changes nothing.
   */
  lemma NormalizeFacts(s: string)
    ensures AmountAlphabet(Normalize(s)) && Count(Normalize(s), '.') <= 1
    ensures AmountAlphabet(s) && Count(s, '.') <= 1 ==> Normalize(s) == s
    ensures Normalize(Normalize(s)) == Normalize(s)
  {
    var f := KeepAmountChars(s);
    var n := TruncateAtSecondDot(f);
    TruncateFacts(f);
    assert AmountAlphabet(n) by {
      forall i | 0 <= i < |n|
        ensures IsAmountChar(n[i])
      {
        assert n[i] == f[i];
      }
    }
    KeepAmountCharsOfAlphabet(n);
    TruncateKeepsSingleDot(n);
    if AmountAlphabet(s) && Count(s, '.') <= 1 {
      KeepAmountCharsOfAlphabet(s);
      TruncateKeepsSingleDot(s);
    }
  }

  lemma KeepAmountCharsOfAlphabet(s: string)
    requires AmountAlphabet(s)
    ensures KeepAmountChars(s) == s
  {
    forall c | c in s
      ensures IsAmountChar(c)
    {
      var i :| 0 <= i < |s| && s[i] == c;
    }
    FilterAll(s, IsAmountChar);
  }

  /** The Save button is enabled when the text reads as a number other than zero. */
  function SaveEnabled(amountText: string): bool
  {
    ParseDouble(amountText).Some? && ParseDouble(amountText).value != 0.0
  }

  /** The title saved: the note, or the category when the note is empty. */
  function TitleFor(note: string, category: string): (t: string)
    ensures note == "" ==> t == category
    ensures note != "" ==> t == note
  {
    if note == "" then category else note
  }

  /**
   * The expense `saveExpense()` sends, or nothing when the amount does
   * not read as a positive number. It carries no id; the store assigns one.
   */
  function ExpenseToSave(amountText: string, note: string, category: string, date: Date): (r: Option<Expense>)
    ensures r.Some? <==> ParseDouble(amountText).Some? && ParseDouble(amountText).value > 0.0
    ensures r.Some? ==> r.value == Expense(None, TitleFor(note, category), ParseDouble(amountText).value, date, category)
  {
    match ParseDouble(amountText)
    case Some(v) => if v > 0.0 then Some(Expense(None, TitleFor(note, category), v, date, category)) else None
    case None => None
  }

  /**
   * On text the amount field can hold, the button's gate and the save
   * guard agree: Save is enabled exactly when an expense would be sent,
   * which is when the text has a digit and does not read as zero.
   */
  lemma SaveGateMatchesGuard(amountText: string, note: string, category: string, date: Date)
    requires AmountAlphabet(amountText) && Count(amountText, '.') <= 1
    ensures SaveEnabled(amountText) <==> ExpenseToSave(amountText, note, category, date).Some?
    ensures SaveEnabled(amountText) <==> HasDigit(amountText) && ParseDouble(amountText) != Some(0.0)
  {
    ParseAmountText(amountText);
  }

  /** The categories the form offers, with the picker's own symbols. */
  const PickerCategories: seq<(string, string)> := [
    ("Food", "fork.knife"), ("Transport", "car"), ("Shopping", "cart"),
    ("Entertainment", "tv"), ("Health", "heart"), ("Bills", "creditcard"),
    ("Misc", "square.grid.2x2")]

  function PickerNames(): (names: seq<string>)
    ensures |names| == |PickerCategories|
    ensures forall i :: 0 <= i < |names| ==> names[i] == PickerCategories[i].0
  {
    seq(|PickerCategories|, i requires 0 <= i < |PickerCategories| => PickerCategories[i].0)
  }

  /**
   * The picker lists the six categories with their own icon and colour,
   * then "Misc", every name once; the default "Food" is among them, and
   * "Misc" gets the record's default symbol and gray.
   */
  lemma PickerCategoriesFacts()
    ensures PickerNames() == KnownCategories + ["Misc"]
    ensures forall i, j :: 0 <= i < j < |PickerNames()| ==> PickerNames()[i] != PickerNames()[j]
    ensures "Food" in PickerNames()
    ensures Icon("Misc") == "ellipsis.circle.fill" && CategoryColor("Misc") == Gray
  {
  }

  /** The form's state (`@State` properties). */
  class AddExpenseForm {
    var amountString: string
    var note: string
    var selectedCategory: string
    var selectedDate: Date

    /** A fresh form: empty amount and note, "Food" selected, dated at the moment it opens. */
    constructor (now: Date)
      ensures amountString == "" && note == "" && selectedCategory == "Food" && selectedDate == now
    {
      amountString := "";
      note := "";
      selectedCategory := "Food";
      selectedDate := now;
    }

    /** The amount field's `onChange`: drop other characters, then cut at a second `.`. */
    method OnAmountStringChange()
      modifies this`amountString
      ensures amountString == Normalize(old(amountString))
    {
      var filtered := KeepAmountChars(amountString);
      if filtered != amountString {
        amountString := filtered;
      }
      var first := IndexOf(amountString, '.');
      if first < |amountString| {
        var second := IndexOf(amountString[first + 1..], '.');
        if second < |amountString| - first - 1 {
          amountString := amountString[..first + 1 + second];
        }
      }
    }

    /** Picks a category from the list. */
    method SelectCategory(index: nat)
      requires index < |PickerCategories|
      modifies this`selectedCategory
      ensures selectedCategory == PickerCategories[index].0
    {
      selectedCategory := PickerCategories[index].0;
    }

    /** `saveExpense()`: sends the expense when the amount is positive, and nothing otherwise. */
    method SaveExpense(repository: ExpenseRepository)
      modifies repository`addRequests
      ensures repository.addRequests == old(repository.addRequests) +
        match ExpenseToSave(amountString, note, selectedCategory, selectedDate)
        case Some(e) => [e]
        case None => []
    {
      var amountValue := ParseDouble(amountString);
      if amountValue.None? || !(amountValue.value > 0.0) {
        return;
      }
      var titleToUse := if note == "" then selectedCategory else note;
      var expense := Expense(None, titleToUse, amountValue.value, selectedDate, selectedCategory);
      repository.AddExpense(expense);
    }
  }
}
