/**
 * The add-medicine form: a name, a digits-only stock field, an aisle
 * picked from a dropdown of the current aisles, and a submit button that
 * checks every field is filled before building the `Medicine`.
 */
module AddNewMedicineScreen {
  import opened Wrappers
  import opened Text
  import opened Decimal
  import opened Models

  const FILL_ALL_FIELDS := "Please fill all fields"
  const MEDICINE_ADDED := "Medicine added"
  const NO_AISLES := "No aisles available"
  /** The snackbar the corrected submit shows for a stock that does not fit an `Int`. */
  const STOCK_TOO_LARGE := "Stock is too large"

  datatype Form = Form(name: string, stock: string, selectedAisle: string, expanded: bool)

  const Initial := Form("", "", "", false)

  function OnNameChange(f: Form, name: string): (r: Form)
    ensures r == f.(name := name)
  {
    f.(name := name)
  }

  /** The stock field takes an edit only when every character is a digit;
      the empty text qualifies. */
  function OnStockChange(f: Form, text: string): (r: Form)
    ensures r.stock == text <==> AllDigits(text) || f.stock == text
    ensures !AllDigits(text) ==> r == f
    ensures r == f.(stock := r.stock)
  {
    if AllDigits(text) then f.(stock := text) else f
  }

  /** A run of edits on a digits-only field leaves it digits-only. */
  function ApplyStockEdits(f: Form, edits: seq<string>): (r: Form)
    requires AllDigits(f.stock)
    ensures AllDigits(r.stock)
    decreases |edits|
  {
    if edits == [] then f else ApplyStockEdits(OnStockChange(f, edits[0]), edits[1..])
  }

  /** One dropdown entry: its caption and the aisle name it selects, if any. */
  datatype MenuItem = MenuItem(caption: string, selects: Option<string>)

  /** The dropdown: a single inert placeholder when there is no aisle,
      otherwise one entry per aisle, in list order. */
  function MenuItems(aisles: seq<Aisle>): (items: seq<MenuItem>)
    ensures aisles == [] ==> items == [MenuItem(NO_AISLES, None)]
    ensures aisles != [] ==> |items| == |aisles|
    ensures aisles != [] ==> forall i | 0 <= i < |aisles| :: items[i] == MenuItem(aisles[i].name, Some(aisles[i].name))
  {
    if aisles == [] then [MenuItem(NO_AISLES, None)]
    else seq(|aisles|, i requires 0 <= i < |aisles| => MenuItem(aisles[i].name, Some(aisles[i].name)))
  }

  /** Clicking an entry: a real one selects its aisle and closes the menu;
      the placeholder does nothing. */
  function OnMenuClick(f: Form, item: MenuItem): (r: Form)
    ensures item.selects.None? ==> r == f
    ensures item.selects.Some? ==> r == f.(selectedAisle := item.selects.value, expanded := false)
  {
    match item.selects
    case None => f
    case Some(aisleName) => f.(selectedAisle := aisleName, expanded := false)
  }

  /** Whatever entry of the current menu is clicked, the selection is the
      name of a listed aisle or is unchanged. */
  lemma SelectionComesFromAisles(f: Form, aisles: seq<Aisle>, k: nat)
    requires k < |MenuItems(aisles)|
    ensures var r := OnMenuClick(f, MenuItems(aisles)[k]);
            r.selectedAisle == f.selectedAisle || exists a | a in aisles :: a.name == r.selectedAisle
    ensures aisles == [] ==> OnMenuClick(f, MenuItems(aisles)[k]) == f
  {
    if aisles != [] {
      assert aisles[k] in aisles;
    }
  }

  /** What the submit button does. */
  datatype Submission =
    | Rejected(snackbar: string)
    | Added(medicine: Medicine, snackbar: string)
    | NumberFormatError

  predicate AnyBlank(f: Form) {
    IsBlank(f.name) || IsBlank(f.stock) || IsBlank(f.selectedAisle)
  }

  /** The submit button as written: a blank field shows the snackbar;
      otherwise `stock.toInt()` runs, which throws when the digits exceed
      an `Int`. On success one medicine with default other fields is added
      and the screen pops. */
  function Submit(f: Form): (s: Submission)
    ensures s.Rejected? <==> AnyBlank(f)
    ensures s.Rejected? ==> s.snackbar == FILL_ALL_FIELDS
    ensures s.NumberFormatError? <==> !AnyBlank(f) && ParseInt(f.stock).None?
    ensures s.Added? ==> s.medicine == NewMedicine(f.name, ParseInt(f.stock).value, f.selectedAisle) && s.snackbar == MEDICINE_ADDED
  {
    if AnyBlank(f) then Rejected(FILL_ALL_FIELDS)
    else
      match ParseInt(f.stock)
      case None => NumberFormatError
      case Some(n) => Added(NewMedicine(f.name, n, f.selectedAisle), MEDICINE_ADDED)
  }

  /** Appending a digit multiplies the value by ten and adds the digit. */
  lemma DigitsValueSnoc(s: string, c: char)
    requires AllDigits(s) && IsDigit(c)
    ensures AllDigits(s + [c]) && DigitsValue(s + [c]) == DigitsValue(s) * 10 + DigitValue(c)
  {
    assert (s + [c])[..|s|] == s;
  }

  /** Ten nines: digits only, and more than an `Int` holds. */
  lemma TenNines() returns (s: string)
    ensures |s| == 10 && (forall i | 0 <= i < 10 :: s[i] == '9')
    ensures AllDigits(s) && DigitsValue(s) > INT_MAX
  {
    s := [];
    var k := 0;
    while k < 10
      invariant 0 <= k <= 10 && |s| == k
      invariant forall i | 0 <= i < k :: s[i] == '9'
      invariant AllDigits(s) && DigitsValue(s) == Pow10(k) - 1
    {
      DigitsValueSnoc(s, '9');
      s := s + ['9'];
      k := k + 1;
    }
    assert Pow10(10) == 10000000000;
  }

  /** A stock whose digits exceed an `Int` passes the field's filter and
      makes the submit throw; ten nines are such a stock. */
  lemma LongStockThrows(f: Form, text: string)
    requires !IsBlank(f.name) && !IsBlank(f.selectedAisle)
    requires AllDigits(text) && |text| > 0 && DigitsValue(text) > INT_MAX
    ensures OnStockChange(f, text).stock == text
    ensures Submit(OnStockChange(f, text)).NumberFormatError?
  {
    assert !IsWhitespace(text[0]);
  }

  /** The concrete input: "9999999999" with a named medicine in a chosen
      aisle is kept by the field, throws on submit, and is refused by the
      corrected submit. */
  lemma TenNinesThrows(f: Form)
    requires !IsBlank(f.name) && !IsBlank(f.selectedAisle)
    ensures OnStockChange(f, "9999999999").stock == "9999999999"
    ensures Submit(OnStockChange(f, "9999999999")).NumberFormatError?
    ensures SubmitChecked(OnStockChange(f, "9999999999")) == Rejected(STOCK_TOO_LARGE)
  {
    var s := TenNines();
    assert s == "9999999999" by {
      forall i | 0 <= i < 10 ensures s[i] == "9999999999"[i] { }
    }
    LongStockThrows(f, s);
  }

  /** Up to nine digits never throw. */
  lemma ShortStockNeverThrows(f: Form)
    requires AllDigits(f.stock) && |f.stock| <= 9
    ensures !Submit(f).NumberFormatError?
  {
    if |f.stock| > 0 {
      ShortDigitsParse(f.stock);
    }
  }

  /** The submit button with the overflow caught: a stock that does not fit
      an `Int` is refused with its own snackbar instead of throwing. */
  function SubmitChecked(f: Form): (s: Submission)
    ensures !s.NumberFormatError?
    ensures s.Rejected? <==> AnyBlank(f) || ParseInt(f.stock).None?
    ensures s.Rejected? && !AnyBlank(f) ==> s.snackbar == STOCK_TOO_LARGE
    ensures Submit(f).Added? ==> s == Submit(f)
    ensures Submit(f).Rejected? ==> s == Submit(f)
  {
    match Submit(f)
    case NumberFormatError => Rejected(STOCK_TOO_LARGE)
    case other => other
  }
}
