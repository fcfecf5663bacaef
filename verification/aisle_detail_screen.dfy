/**
 * The aisle detail screen: the medicines shelved in one aisle, matched by
 * exact aisle name, and a route to each one's detail screen.
 */
module AisleDetailScreen {
  import opened Models
  import MedicineDetailScreen

  const UNKNOWN := "Unknown"
  const NO_MEDICINES := "No medicines in this aisle"
  const DETAIL_ROUTE_PREFIX := "medicine_detail/"

  /** `filter { it.nameAisle == name }`. */
  function InAisle(medicines: seq<Medicine>, name: string): (r: seq<Medicine>)
    ensures |r| <= |medicines|
    ensures forall m | m in r :: m in medicines && m.nameAisle == name
    ensures forall m | m in medicines && m.nameAisle == name :: m in r
  {
    if medicines == [] then []
    else
      var rest := InAisle(medicines[1..], name);
      assert forall m | m in medicines[1..] :: m in medicines;
      assert forall m | m in medicines && m != medicines[0] :: m in medicines[1..];
      if medicines[0].nameAisle == name then [medicines[0]] + rest else rest
  }

  lemma {:induction false} InAisleAppend(a: seq<Medicine>, b: seq<Medicine>, name: string)
    ensures InAisle(a + b, name) == InAisle(a, name) + InAisle(b, name)
  {
    if a != [] {
      assert (a + b)[1..] == a[1..] + b;
      InAisleAppend(a[1..], b, name);
    } else {
      assert a + b == b;
    }
  }

  /** A medicine of the aisle heads the aisle's list of any list it heads. */
  lemma InAisleCons(m: Medicine, rest: seq<Medicine>, name: string)
    requires m.nameAisle == name
    ensures InAisle([m] + rest, name) == [m] + InAisle(rest, name)
  {
    assert ([m] + rest)[1..] == rest;
  }

  /** The aisle's medicines keep their order in the list: two of them at
      `i < j` appear at positions `p < q`. */
  lemma InAisleKeepsOrder(medicines: seq<Medicine>, name: string, i: nat, j: nat)
    requires i < j < |medicines|
    requires medicines[i].nameAisle == name && medicines[j].nameAisle == name
    ensures exists p: nat, q: nat ::
      (p < q < |InAisle(medicines, name)| && InAisle(medicines, name)[p] == medicines[i] && InAisle(medicines, name)[q] == medicines[j])
  {
    var a, b, c := medicines[..i], medicines[i..j], medicines[j..];
    assert medicines == a + (b + c);
    assert b == [medicines[i]] + b[1..];
    assert c == [medicines[j]] + c[1..];
    InAisleAppend(a, b + c, name);
    InAisleAppend(b, c, name);
    InAisleCons(medicines[i], b[1..], name);
    InAisleCons(medicines[j], c[1..], name);
    var fa, fb, fc := InAisle(a, name), InAisle(b, name), InAisle(c, name);
    var f := InAisle(medicines, name);
    assert f == fa + (fb + fc);
    assert f[|fa|] == medicines[i];
    assert f[|fa| + |fb|] == medicines[j];
  }

  datatype View = PopBack | EmptyAisle(message: string) | MedicineList(medicines: seq<Medicine>)

  /** The route argument "Unknown" pops back; an aisle without medicines
      shows a message; otherwise its medicines are listed. */
  function Render(medicines: seq<Medicine>, name: string): (v: View)
    ensures v.PopBack? <==> name == UNKNOWN
    ensures v.EmptyAisle? <==> name != UNKNOWN && forall m | m in medicines :: m.nameAisle != name
    ensures v.EmptyAisle? ==> v.message == NO_MEDICINES
    ensures v.MedicineList? ==> v.medicines == InAisle(medicines, name) && v.medicines != []
  {
    if name == UNKNOWN then PopBack
    else
      var shown := InAisle(medicines, name);
      if shown == [] then EmptyAisle(NO_MEDICINES)
      else
        assert shown[0] in shown;
        MedicineList(shown)
  }

  /** Clicking a medicine opens its detail route. */
  function OnMedicineClick(medicineName: string): (route: string)
    ensures |route| == |DETAIL_ROUTE_PREFIX| + |medicineName|
    ensures route[..|DETAIL_ROUTE_PREFIX|] == DETAIL_ROUTE_PREFIX && route[|DETAIL_ROUTE_PREFIX|..] == medicineName
  {
    DETAIL_ROUTE_PREFIX + medicineName
  }

  /** The detail screen finds medicines by name, so a click in one aisle can
      open a medicine of the same name shelved in another aisle. */
  lemma DetailMayShowAnotherAisle(a: Medicine, b: Medicine)
    requires a.name == b.name && a.nameAisle != b.nameAisle && a.name != UNKNOWN && b.nameAisle != UNKNOWN
    ensures Render([a, b], b.nameAisle) == MedicineList([b])
    ensures MedicineDetailScreen.Render([a, b], b.name) == MedicineDetailScreen.Details(a)
  {
    assert [a, b][1..] == [b];
    assert [b][1..] == [];
    assert InAisle([b], b.nameAisle) == [b];
    assert InAisle([a, b], b.nameAisle) == [b];
  }
}
