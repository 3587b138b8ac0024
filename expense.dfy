/**
 * The expense record (Expenses/Models/Expense.swift): its fields, the
 * keys it is stored under in the document store, and the category
 * presentation mappings.
 */
module ExpenseModel {
  import opened Wrappers

  /**
   * A moment as the user's calendar breaks it down: year, month (1-12),
   * day of month, and seconds since local midnight. Calendar arithmetic
   * itself is outside the model; every date the app reads arrives in
   * this form.
   */
  datatype Date = Date(year: int, month: int, day: int, seconds: int)

  /** `a` is the same moment as `b` or later (Swift `a >= b` on dates). */
  predicate NotBefore(a: Date, b: Date)
  {
    || a.year > b.year
    || (a.year == b.year && a.month > b.month)
    || (a.year == b.year && a.month == b.month && a.day > b.day)
    || (a.year == b.year && a.month == b.month && a.day == b.day && a.seconds >= b.seconds)
  }

  /** Same calendar month of the same year (`isDate(_:equalTo:toGranularity:)` for `.month` and `.year`). */
  predicate SameMonth(a: Date, b: Date)
  {
    a.year == b.year && a.month == b.month
  }

  /** Same calendar day (`isDate(_:inSameDayAs:)`). */
  predicate SameDay(a: Date, b: Date)
  {
    a.year == b.year && a.month == b.month && a.day == b.day
  }

  /** Midnight at the start of the day of `d` (`startOfDay(for:)`). */
  function StartOfDay(d: Date): (r: Date)
    ensures SameDay(r, d) && r.seconds == 0
  {
    Date(d.year, d.month, d.day, 0)
  }

  lemma StartOfDayIdentifiesDay(a: Date, b: Date)
    ensures StartOfDay(a) == StartOfDay(b) <==> SameDay(a, b)
  {
  }

  /** One expense. `id` is the store's document identifier, absent before the first save. */
  datatype Expense = Expense(id: Option<string>, title: string, amount: real, date: Date, category: string)

  /** The categories with their own icon and colour. */
  const KnownCategories: seq<string> := ["Food", "Transport", "Shopping", "Entertainment", "Health", "Bills"]

  /** The symbol shown for a category (`Expense.icon`). */
  function Icon(category: string): string
  {
    match category
    case "Food" => "fork.knife"
    case "Transport" => "car.fill"
    case "Shopping" => "cart.fill"
    case "Entertainment" => "tv.fill"
    case "Health" => "heart.fill"
    case "Bills" => "doc.text.fill"
    case _ => "ellipsis.circle.fill"
  }

  /** The system colours the app uses for categories. */
  datatype Color = Orange | Blue | Purple | Pink | Red | Yellow | Gray

  /** The colour of a category (`Expense.color`). */
  function CategoryColor(category: string): Color
  {
    match category
    case "Food" => Orange
    case "Transport" => Blue
    case "Shopping" => Purple
    case "Entertainment" => Pink
    case "Health" => Red
    case "Bills" => Yellow
    case _ => Gray
  }

  /**
   * Only the six known categories get a symbol of their own, each a
   * different one; every other string, "Misc" included, gets the default.
   */
  lemma IconMapping(c: string)
    ensures Icon(c) == "ellipsis.circle.fill" <==> c !in KnownCategories
    ensures Icon("Misc") == "ellipsis.circle.fill"
    ensures forall i, j :: 0 <= i < j < |KnownCategories| ==> Icon(KnownCategories[i]) != Icon(KnownCategories[j])
  {
    var icons := ["fork.knife", "car.fill", "cart.fill", "tv.fill", "heart.fill", "doc.text.fill"];
    assert forall i :: 0 <= i < |KnownCategories| ==> Icon(KnownCategories[i]) == icons[i];
    assert forall i, j :: 0 <= i < j < |icons| ==> |icons[i]| != |icons[j]| || icons[i][0] != icons[j][0];
  }

  /** Every string has a colour: the known six their own, all others gray. */
  lemma ColorMapping(c: string)
    ensures CategoryColor(c) == Gray <==> c !in KnownCategories
    ensures forall i, j :: 0 <= i < j < |KnownCategories| ==> CategoryColor(KnownCategories[i]) != CategoryColor(KnownCategories[j])
  {
  }

  /** A field value as the document store holds it. */
  datatype FieldValue =
    | StringValue(s: string)
    | DoubleValue(d: real)
    | IntValue(i: int)
    | TimestampValue(t: Date)
    | OtherValue

  /** The stored key of each field (`CodingKeys`): the title is stored as "note". */
  datatype Field = IdField | TitleField | AmountField | DateField | CategoryField

  function CodingKey(f: Field): string
  {
    match f
    case IdField => "id"
    case TitleField => "note"
    case AmountField => "amount"
    case DateField => "date"
    case CategoryField => "category"
  }

  /**
   * The document data an expense is stored as. The identifier is the
   * document's own id and is not written into the data.
   */
  function Encode(e: Expense): map<string, FieldValue>
  {
    map[CodingKey(TitleField) := StringValue(e.title),
        CodingKey(AmountField) := DoubleValue(e.amount),
        CodingKey(DateField) := TimestampValue(e.date),
        CodingKey(CategoryField) := StringValue(e.category)]
  }

  /**
   * Reads an expense from a document (`document.data(as: Expense.self)`):
   * all four stored fields must be present with the right kind of value;
   * other keys are ignored; the id is the document's id.
   */
  function Decode(documentID: string, data: map<string, FieldValue>): (r: Option<Expense>)
    ensures r.Some? ==> r.value.id == Some(documentID)
  {
    var note, amount, date, category :=
      CodingKey(TitleField), CodingKey(AmountField), CodingKey(DateField), CodingKey(CategoryField);
    if note in data && data[note].StringValue?
      && amount in data && (data[amount].DoubleValue? || data[amount].IntValue?)
      && date in data && data[date].TimestampValue?
      && category in data && data[category].StringValue?
    then
      var value := if data[amount].DoubleValue? then data[amount].d else data[amount].i as real;
      Some(Expense(Some(documentID), data[note].s, value, data[date].t, data[category].s))
    else
      None
  }

  /** Stored keys: the title under "note", the others under their own names, and no id. */
  lemma EncodedKeys(e: Expense)
    ensures Encode(e).Keys == {"note", "amount", "date", "category"}
    ensures "title" !in Encode(e) && "id" !in Encode(e)
    ensures Encode(e)["note"] == StringValue(e.title)
  {
  }

  /** Reading back a stored expense gives it back, with the document's id. */
  lemma DecodeEncode(e: Expense, documentID: string)
    ensures Decode(documentID, Encode(e)) == Some(e.(id := Some(documentID)))
  {
  }

  /** The preview expense (`Expense.example`), dated `now`. */
  function Example(now: Date): (e: Expense)
    ensures e.id == Some("1") && e.amount == 450.0 && e.category == "Food" && e.date == now
    ensures Icon(e.category) == "fork.knife" && CategoryColor(e.category) == Orange
  {
    Expense(Some("1"), "Lunch", 450.0, now, "Food")
  }
}
