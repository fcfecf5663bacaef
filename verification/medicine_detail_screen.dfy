/**
 * The medicine detail screen: finds the medicine by name, and turns the
 * stock buttons and the stock field into updates. Each button press
 * appends one history entry stamped with the current user's e-mail and
 * the date, both inputs here.
 */
module MedicineDetailScreen {
  import opened Wrappers
  import opened Decimal
  import opened Models

  const UNKNOWN := "Unknown"
  const DECREASED := "Decreased stock"
  const INCREASED := "Increased stock"

  /** What the screen shows: it leaves at once, waits for the list, or
      shows one medicine. */
  datatype View = LeaveScreen | Loading | Details(medicine: Medicine)

  /** The index of the first medicine with that name. */
  function FindByName(medicines: seq<Medicine>, name: string): (r: Option<nat>)
    ensures r.Some? ==> r.value < |medicines| && medicines[r.value].name == name
    ensures r.Some? ==> forall j | 0 <= j < r.value :: medicines[j].name != name
    ensures r.None? ==> forall j | 0 <= j < |medicines| :: medicines[j].name != name
  {
    if medicines == [] then None
    else if medicines[0].name == name then Some(0)
    else
      match FindByName(medicines[1..], name)
      case None => None
      case Some(k) => Some(k + 1)
  }

  /** The route argument "Unknown" sends the user back; otherwise the first
      medicine with that name is shown, or a loading text until one exists. */
  function Render(medicines: seq<Medicine>, name: string): (v: View)
    ensures v.LeaveScreen? <==> name == UNKNOWN
    ensures v.Loading? <==> name != UNKNOWN && forall j | 0 <= j < |medicines| :: medicines[j].name != name
    ensures v.Details? ==> v.medicine.name == name && v.medicine in medicines
    ensures v.Details? ==> exists i | 0 <= i < |medicines| :: v.medicine == medicines[i] && forall j | 0 <= j < i :: medicines[j].name != name
  {
    if name == UNKNOWN then LeaveScreen
    else
      match FindByName(medicines, name)
      case None => Loading
      case Some(i) => Details(medicines[i])
  }

  /** The e-mail stamped on history entries. */
  function HistoryUser(currentUserEmail: Option<string>): (u: string)
    ensures currentUserEmail.Some? ==> u == currentUserEmail.value
    ensures currentUserEmail.None? ==> u == UNKNOWN
  {
    currentUserEmail.GetOr(UNKNOWN)
  }

  /** A stock button's effect: the medicine handed to `updateMedicine`, if
      any, and the toast. */
  datatype StockChange = StockChange(update: Option<Medicine>, toast: string)

  /** The decrement button: below one, nothing is updated; otherwise the
      stock drops by one and one "Decreased stock" entry is appended. */
  function Decrement(m: Medicine, currentUserEmail: Option<string>, date: string): (c: StockChange)
    ensures c.update.Some? <==> m.stock > 0
    ensures c.update.None? ==> c.toast == "Stock cannot go below 0"
    ensures c.update.Some? ==>
      && c.update.value == m.(stock := m.stock - 1, histories := c.update.value.histories)
      && c.update.value.histories == m.histories + [History(m.name, HistoryUser(currentUserEmail), date, DECREASED)]
      && c.toast == "Stock decreased"
  {
    if m.stock > 0 then
      var entry := History(m.name, HistoryUser(currentUserEmail), date, DECREASED);
      StockChange(Some(m.(stock := m.stock - 1, histories := m.histories + [entry])), "Stock decreased")
    else StockChange(None, "Stock cannot go below 0")
  }

  /** The increment button: the stock goes up by one as a Kotlin `Int`, and
      one "Increased stock" entry is appended. */
  function Increment(m: Medicine, currentUserEmail: Option<string>, date: string): (c: StockChange)
    ensures c.update.Some? && c.toast == "Stock increased"
    ensures m.stock < INT_MAX ==> c.update.value.stock == m.stock + 1
    ensures m.stock == INT_MAX ==> c.update.value.stock == INT_MIN
    ensures c.update.value == m.(stock := c.update.value.stock, histories := c.update.value.histories)
    ensures c.update.value.histories == m.histories + [History(m.name, HistoryUser(currentUserEmail), date, INCREASED)]
  {
    var entry := History(m.name, HistoryUser(currentUserEmail), date, INCREASED);
    StockChange(Some(m.(stock := Wrap(m.stock as int + 1), histories := m.histories + [entry])), "Stock increased")
  }

  /** Typing in the stock field: a text that parses as an `Int` becomes the
      stock, anything else keeps it; no history is written. */
  function ManualEdit(m: Medicine, text: string): (r: Medicine)
    ensures r == m.(stock := r.stock)
    ensures ParseInt(text).Some? ==> r.stock == ParseInt(text).value
    ensures ParseInt(text).None? ==> r == m
  {
    m.(stock := ParseInt(text).GetOr(m.stock))
  }

  /** The buttons never take a non-negative stock below zero. */
  lemma ButtonsKeepStockNonNegative(m: Medicine, email: Option<string>, date: string)
    requires 0 <= m.stock < INT_MAX
    ensures var d := Decrement(m, email, date).update;
            d.Some? ==> d.value.stock >= 0
    ensures Increment(m, email, date).update.value.stock >= 0
  {
  }

  /** Increment then decrement restores the stock and leaves two entries. */
  lemma IncrementThenDecrement(m: Medicine, email: Option<string>, d1: string, d2: string)
    requires 0 <= m.stock < INT_MAX
    ensures var up := Increment(m, email, d1).update.value;
            var down := Decrement(up, email, d2);
            && down.update.Some?
            && down.update.value.stock == m.stock
            && down.update.value.histories == m.histories
                 + [History(m.name, HistoryUser(email), d1, INCREASED), History(m.name, HistoryUser(email), d2, DECREASED)]
  {
    var up := Increment(m, email, d1).update.value;
    assert up.stock == m.stock + 1;
  }

  /** The field round-trips every `Int`, negative ones included. */
  lemma ManualEditRoundTrip(m: Medicine, x: Int32)
    ensures ManualEdit(m, IntToString(x)).stock == x
  {
    ParseIntToString(x);
  }

  /** The field, unlike the buttons, accepts a negative stock. */
  lemma ManualEditAcceptsNegative(m: Medicine)
    ensures ManualEdit(m, "-1").stock == -1
  {
    ManualEditRoundTrip(m, -1);
    assert IntToString(-1) == "-1";
  }
}
