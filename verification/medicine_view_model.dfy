/**
 * The medicine view-model. It publishes the repository's list as is and
 * forwards each intent to the repository, adding two things of its own:
 * the adding user's e-mail on new medicines, and a random medicine for
 * quick testing. The current user and the random draws are inputs.
 */
module MedicineViewModel {
  import opened Wrappers
  import opened Decimal
  import opened Models
  import opened Firestore
  import Repo = MedicineRepository

  const ANONYMOUS := "anonymous"
  const UNKNOWN_AISLE := "Unknown"

  /** The e-mail stamped on a new medicine. */
  function AddingUserEmail(currentUserEmail: Option<string>): (e: string)
    ensures currentUserEmail.Some? ==> e == currentUserEmail.value
    ensures currentUserEmail.None? ==> e == ANONYMOUS
  {
    currentUserEmail.GetOr(ANONYMOUS)
  }

  /** `addNewMedicine`: the repository receives the medicine with the adding
      user's e-mail and nothing else changed. */
  function AddNewMedicine(repo: Repo.Repo, medicine: Medicine, currentUserEmail: Option<string>, freshId: string): (res: (Repo.Repo, Write<Medicine>))
    ensures var (r, w) := res;
            && |r.medicines| == |repo.medicines| + 1
            && r.medicines[..|repo.medicines|] == repo.medicines
            && var added := r.medicines[|repo.medicines|];
            && added == medicine.(addedByEmail := AddingUserEmail(currentUserEmail), id := freshId)
            && w == SetDocument(freshId, added)
  {
    Repo.AddNewMedicine(repo, medicine.(addedByEmail := AddingUserEmail(currentUserEmail)), freshId)
  }

  /** The outcome of the random draws `addRandomMedicine` makes:
      `nextInt(1000)`, `nextInt(100)` and an index into the aisle list. */
  datatype Draws = Draws(nameNumber: nat, stock: nat, aisleIndex: nat)

  predicate DrawsFit(d: Draws, aisleCount: nat) {
    d.nameNumber < 1000 && d.stock < 100 && d.aisleIndex < aisleCount
  }

  /** The medicine `addRandomMedicine` builds, when there is an aisle to
      put it in. */
  function RandomMedicine(aisles: seq<Aisle>, currentUserEmail: Option<string>, d: Draws): (r: Option<Medicine>)
    requires aisles != [] ==> DrawsFit(d, |aisles|)
    ensures r.None? <==> aisles == []
    ensures r.Some? ==>
      var m := r.value;
      && (exists a | a in aisles :: a.name == m.nameAisle)
      && 0 <= m.stock < 100
      && m.histories == [] && m.id == ""
      && m.addedByEmail == AddingUserEmail(currentUserEmail)
      && |m.name| > 9 && m.name[..9] == "Medicine " && ParseInt(m.name[9..]) == Some(d.nameNumber as int)
  {
    if aisles == [] then None
    else
      var number := NatToString(d.nameNumber);
      var name := "Medicine " + number;
      NumberRoundTrip(d.nameNumber);
      assert name[9..] == number;
      assert aisles[d.aisleIndex] in aisles;
      Some(Medicine(name, d.stock, aisles[d.aisleIndex].name, [], "", AddingUserEmail(currentUserEmail)))
  }

  lemma NumberRoundTrip(n: nat)
    requires n < 1000
    ensures ParseInt(NatToString(n)) == Some(n as int)
  {
    ParseIntToString(n);
  }

  /** `addRandomMedicine`: no aisle, no call; otherwise one add. */
  function AddRandomMedicine(repo: Repo.Repo, aisles: seq<Aisle>, currentUserEmail: Option<string>, d: Draws, freshId: string): (res: (Repo.Repo, Option<Write<Medicine>>))
    requires aisles != [] ==> DrawsFit(d, |aisles|)
    ensures aisles == [] ==> res == (repo, None)
    ensures aisles != [] ==>
      var m := RandomMedicine(aisles, currentUserEmail, d).value;
      && res.0.medicines == repo.medicines + [m.(id := freshId)]
      && res.1 == Some(SetDocument(freshId, m.(id := freshId)))
  {
    match RandomMedicine(aisles, currentUserEmail, d)
    case None => (repo, None)
    case Some(m) =>
      var (r, w) := Repo.AddNewMedicine(repo, m, freshId);
      (r, Some(w))
  }

  /** The index of the first medicine with that id. */
  function FindById(medicines: seq<Medicine>, id: string): (r: Option<nat>)
    ensures r.Some? ==> r.value < |medicines| && medicines[r.value].id == id
    ensures r.Some? ==> forall j | 0 <= j < r.value :: medicines[j].id != id
    ensures r.None? ==> forall j | 0 <= j < |medicines| :: medicines[j].id != id
  {
    if medicines == [] then None
    else if medicines[0].id == id then Some(0)
    else
      match FindById(medicines[1..], id)
      case None => None
      case Some(k) => Some(k + 1)
  }

  /** `getAisleForMedicine`: an aisle named after the first medicine with
      that id, or "Unknown"; its id and timestamp are the defaults. */
  function GetAisleForMedicine(medicines: seq<Medicine>, medicineId: string, freshAisleId: string, now: int): (a: Aisle)
    ensures a.id == freshAisleId && a.timestamp == now
    ensures (forall j | 0 <= j < |medicines| :: medicines[j].id != medicineId) ==> a.name == UNKNOWN_AISLE
    ensures forall i | 0 <= i < |medicines| && medicines[i].id == medicineId ::
      (forall j | 0 <= j < i :: medicines[j].id != medicineId) ==> a.name == medicines[i].nameAisle
  {
    var found := FindById(medicines, medicineId);
    Aisle(if found.Some? then medicines[found.value].nameAisle else UNKNOWN_AISLE, freshAisleId, now)
  }

  /** `updateMedicine`, `deleteMedicine`, `filterByName` and the sorts hand
      their argument to the repository as they received it. */
  function UpdateMedicine(medicine: Medicine): (w: Option<Write<Medicine>>)
    ensures w == Repo.UpdateMedicine(medicine)
    ensures w.Some? ==> w.value.value == medicine
  {
    Repo.UpdateMedicine(medicine)
  }

  function DeleteMedicine(medicineId: string): (w: Write<Medicine>)
    ensures w == Repo.DeleteMedicine(medicineId) && w.id == medicineId
  {
    Repo.DeleteMedicine(medicineId)
  }

  function FilterByName(repo: Repo.Repo, name: string): (r: Repo.Repo)
    ensures r == Repo.FilterByName(repo, name)
  {
    Repo.FilterByName(repo, name)
  }

  function SortByName(repo: Repo.Repo): (r: Repo.Repo)
    ensures r == Repo.SortByName(repo)
  {
    Repo.SortByName(repo)
  }

  function SortByStock(repo: Repo.Repo): (r: Repo.Repo)
    ensures r == Repo.SortByStock(repo)
  {
    Repo.SortByStock(repo)
  }

  function SortByNone(repo: Repo.Repo): (r: Repo.Repo)
    ensures r == Repo.SortByNone(repo)
  {
    Repo.SortByNone(repo)
  }

  /** `reloadMedicines` re-observes the plain query, like `sortByNone`. */
  function ReloadMedicines(repo: Repo.Repo): (r: Repo.Repo)
    ensures r == SortByNone(repo) && r.query == Repo.Unordered
  {
    Repo.SortByNone(repo)
  }

  /** `onCleared` detaches the listener. */
  function OnCleared(repo: Repo.Repo): (r: Repo.Repo)
    ensures r == Repo.ClearListener(repo)
    ensures Valid(repo.listeners) ==> r.listeners.live == {} && r.listeners.registration.None?
  {
    Repo.ClearListener(repo)
  }
}
