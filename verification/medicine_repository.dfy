/**
 * The medicine repository: a local mirror of the "medicines" collection.
 * `medicines` is the published list, `allMedicines` the last snapshot,
 * kept aside so the name filter can be undone. Writes go to the store;
 * the mirror only changes through snapshots, the optimistic add, its
 * rollback and the filter.
 */
module MedicineRepository {
  import opened Wrappers
  import opened Text
  import opened Models
  import opened Firestore

  const MEDICINES_COLLECTION := "medicines"

  /** The query the listener watches: the whole collection, or the whole
      collection ordered ascending by one field. */
  datatype Query = Unordered | OrderedBy(field: string)

  datatype Repo = Repo(medicines: seq<Medicine>, allMedicines: seq<Medicine>, listeners: Registry, query: Query)

  /** `observeMedicines(query)`: drop the held listener, watch `query`. */
  function Observe(repo: Repo, query: Query): (r: Repo)
    ensures r.medicines == repo.medicines && r.allMedicines == repo.allMedicines && r.query == query
    ensures r.listeners.registration.Some? && r.listeners.registration.value in r.listeners.live
    ensures Valid(repo.listeners) ==> Valid(r.listeners) && r.listeners.live == {r.listeners.registration.value}
  {
    repo.(listeners := Reinstall(repo.listeners), query := query)
  }

  /** Construction starts with empty lists and observes the whole collection. */
  function Init(): (r: Repo)
    ensures r.medicines == [] && r.allMedicines == [] && r.query == Unordered
    ensures Valid(r.listeners) && |r.listeners.live| == 1
  {
    Observe(Repo([], [], NoListeners, Unordered), Unordered)
  }

  /** The snapshot's medicines, each carrying its document key as id. */
  function Decode(docs: seq<Document<Medicine>>): (r: seq<Medicine>)
    ensures |r| <= |docs|
    ensures forall m | m in r :: exists d | d in docs :: d.data.Some? && m == d.data.value.(id := d.id)
    ensures (forall i | 0 <= i < |docs| :: docs[i].data.Some?) ==>
      |r| == |docs| && forall i | 0 <= i < |docs| :: r[i] == docs[i].data.value.(id := docs[i].id)
  {
    if docs == [] then []
    else
      var rest := Decode(docs[1..]);
      assert forall d | d in docs[1..] :: d in docs;
      match docs[0].data
      case None => rest
      case Some(m) => [m.(id := docs[0].id)] + rest
  }

  lemma {:induction false} DecodeAppend(a: seq<Document<Medicine>>, b: seq<Document<Medicine>>)
    ensures Decode(a + b) == Decode(a) + Decode(b)
  {
    if a != [] {
      assert (a + b)[1..] == a[1..] + b;
      DecodeAppend(a[1..], b);
    } else {
      assert a + b == b;
    }
  }

  /** A listener callback for handle `h`. A removed listener hears nothing;
      an error or a null snapshot changes nothing; a snapshot replaces both
      lists, which also drops any active filter. */
  function OnListenerEvent(repo: Repo, h: nat, event: ListenerEvent<Medicine>): (r: Repo)
    ensures r.listeners == repo.listeners && r.query == repo.query
    ensures h !in repo.listeners.live || !event.Snapshot? ==> r == repo
    ensures h in repo.listeners.live && event.Snapshot? ==>
      r.medicines == r.allMedicines == Decode(event.documents)
  {
    if h !in repo.listeners.live then repo
    else
      match event
      case ListenerError(_) => repo
      case NullSnapshot => repo
      case Snapshot(docs) =>
        var list := Decode(docs);
        repo.(allMedicines := list, medicines := list)
  }

  /** `addNewMedicine`: the medicine takes the fresh document key as id, is
      appended to the published list at once, and is written under that key. */
  function AddNewMedicine(repo: Repo, medicine: Medicine, freshId: string): (res: (Repo, Write<Medicine>))
    ensures var (r, w) := res;
            && r.medicines == repo.medicines + [medicine.(id := freshId)]
            && r.allMedicines == repo.allMedicines && r.listeners == repo.listeners && r.query == repo.query
            && w == SetDocument(freshId, medicine.(id := freshId))
  {
    var withId := medicine.(id := freshId);
    (repo.(medicines := repo.medicines + [withId]), SetDocument(freshId, withId))
  }

  /** `filterNot { it.id == id }`. */
  function WithoutId(s: seq<Medicine>, id: string): (r: seq<Medicine>)
    ensures |r| <= |s|
    ensures forall m | m in r :: m in s && m.id != id
    ensures forall m | m in s && m.id != id :: m in r
  {
    if s == [] then []
    else
      var rest := WithoutId(s[1..], id);
      assert forall m | m in s[1..] :: m in s;
      assert forall m | m in s && m != s[0] :: m in s[1..];
      if s[0].id == id then rest else [s[0]] + rest
  }

  lemma {:induction false} WithoutIdAppend(a: seq<Medicine>, b: seq<Medicine>, id: string)
    ensures WithoutId(a + b, id) == WithoutId(a, id) + WithoutId(b, id)
  {
    if a != [] {
      assert (a + b)[1..] == a[1..] + b;
      WithoutIdAppend(a[1..], b, id);
    } else {
      assert a + b == b;
    }
  }

  lemma {:induction false} WithoutAbsentId(s: seq<Medicine>, id: string)
    requires forall m | m in s :: m.id != id
    ensures WithoutId(s, id) == s
  {
    if s != [] {
      assert forall m | m in s[1..] :: m in s;
      WithoutAbsentId(s[1..], id);
    }
  }

  /** The add failed: every entry with that id leaves the published list;
      the rest keep their order. */
  function OnAddFailure(repo: Repo, id: string): (r: Repo)
    ensures r.medicines == WithoutId(repo.medicines, id)
    ensures r.allMedicines == repo.allMedicines && r.listeners == repo.listeners && r.query == repo.query
  {
    repo.(medicines := WithoutId(repo.medicines, id))
  }

  /** A failed add under a key no listed medicine has restores the repository. */
  lemma RollbackUndoesAdd(repo: Repo, medicine: Medicine, freshId: string)
    requires forall m | m in repo.medicines :: m.id != freshId
    ensures OnAddFailure(AddNewMedicine(repo, medicine, freshId).0, freshId) == repo
  {
    WithoutIdAppend(repo.medicines, [medicine.(id := freshId)], freshId);
    WithoutAbsentId(repo.medicines, freshId);
  }

  /** `updateMedicine`: nothing for an empty id, otherwise an overwrite of
      the document under that id. The mirror waits for the snapshot. */
  function UpdateMedicine(medicine: Medicine): (w: Option<Write<Medicine>>)
    ensures w.None? <==> medicine.id == ""
    ensures w.Some? ==> w.value == SetDocument(medicine.id, medicine)
  {
    if medicine.id == "" then None else Some(SetDocument(medicine.id, medicine))
  }

  /** An update leaves the store holding the medicine under its id, and
      touches no other key; an empty id leaves the store as it was. */
  lemma UpdateWritesOwnKey(store: map<string, Medicine>, medicine: Medicine)
    ensures var w := UpdateMedicine(medicine);
            var s' := if w.Some? then Apply(store, w.value) else store;
            && (medicine.id != "" ==> medicine.id in s' && s'[medicine.id] == medicine)
            && (medicine.id == "" ==> s' == store)
            && (forall k | k in store && k != medicine.id :: k in s' && s'[k] == store[k])
  {
  }

  /** `deleteMedicine`. */
  function DeleteMedicine(medicineId: string): (w: Write<Medicine>)
    ensures w.id == medicineId && w.DeleteDocument?
  {
    DeleteDocument(medicineId)
  }

  /** `filter { it.name.contains(name, ignoreCase = true) }`. */
  function NameFilter(s: seq<Medicine>, name: string): (r: seq<Medicine>)
    ensures |r| <= |s|
    ensures forall m | m in r :: m in s && ContainsIgnoreCase(m.name, name)
    ensures forall m | m in s && ContainsIgnoreCase(m.name, name) :: m in r
  {
    if s == [] then []
    else
      var rest := NameFilter(s[1..], name);
      assert forall m | m in s[1..] :: m in s;
      assert forall m | m in s && m != s[0] :: m in s[1..];
      if ContainsIgnoreCase(s[0].name, name) then [s[0]] + rest else rest
  }

  lemma {:induction false} NameFilterAppend(a: seq<Medicine>, b: seq<Medicine>, name: string)
    ensures NameFilter(a + b, name) == NameFilter(a, name) + NameFilter(b, name)
  {
    if a != [] {
      var head: seq<Medicine> := if ContainsIgnoreCase(a[0].name, name) then [a[0]] else [];
      assert (a + b)[0] == a[0] && (a + b)[1..] == a[1..] + b;
      assert NameFilter(a + b, name) == head + NameFilter(a[1..] + b, name);
      assert NameFilter(a, name) == head + NameFilter(a[1..], name);
      NameFilterAppend(a[1..], b, name);
    } else {
      assert a + b == b;
    }
  }

  /** `filterByName`: a blank query shows the whole snapshot again; any
      other shows its matching entries. Only the snapshot is read. */
  function FilterByName(repo: Repo, name: string): (r: Repo)
    ensures IsBlank(name) ==> r.medicines == repo.allMedicines
    ensures !IsBlank(name) ==> r.medicines == NameFilter(repo.allMedicines, name)
    ensures r.allMedicines == repo.allMedicines && r.listeners == repo.listeners && r.query == repo.query
  {
    repo.(medicines := if IsBlank(name) then repo.allMedicines else NameFilter(repo.allMedicines, name))
  }

  /** Filtering again with another query forgets the first one. */
  lemma LastFilterWins(repo: Repo, first: string, second: string)
    ensures FilterByName(FilterByName(repo, first), second) == FilterByName(repo, second)
  {
  }

  /** An entry added optimistically and not yet in a snapshot disappears
      under any filter, even one that would match it. */
  lemma FilterHidesOptimisticEntries(repo: Repo, medicine: Medicine, freshId: string, name: string)
    ensures FilterByName(AddNewMedicine(repo, medicine, freshId).0, name) == FilterByName(repo, name)
  {
  }

  /** A matching entry heads the filter of any list it heads. */
  lemma NameFilterCons(m: Medicine, rest: seq<Medicine>, name: string)
    requires ContainsIgnoreCase(m.name, name)
    ensures NameFilter([m] + rest, name) == [m] + NameFilter(rest, name)
  {
    assert ([m] + rest)[1..] == rest;
  }

  /** The filter keeps the matching medicines in their snapshot order:
      two matches at `i < j` appear at positions `p < q`. */
  lemma NameFilterKeepsOrder(s: seq<Medicine>, name: string, i: nat, j: nat)
    requires i < j < |s|
    requires ContainsIgnoreCase(s[i].name, name) && ContainsIgnoreCase(s[j].name, name)
    ensures exists p: nat, q: nat ::
      (p < q < |NameFilter(s, name)| && NameFilter(s, name)[p] == s[i] && NameFilter(s, name)[q] == s[j])
  {
    var a, b, c := s[..i], s[i..j], s[j..];
    assert s == a + (b + c);
    assert b == [s[i]] + b[1..];
    assert c == [s[j]] + c[1..];
    NameFilterAppend(a, b + c, name);
    NameFilterAppend(b, c, name);
    NameFilterCons(s[i], b[1..], name);
    NameFilterCons(s[j], c[1..], name);
    var fa, fb, fc := NameFilter(a, name), NameFilter(b, name), NameFilter(c, name);
    var f := NameFilter(s, name);
    assert f == fa + (fb + fc);
    assert f[|fa|] == s[i];
    assert f[|fa| + |fb|] == s[j];
  }

  /** `sortByName`, `sortByStock`, `sortByNone`: re-observe an ordered or
      the plain query; the store does the ordering. */
  function SortByName(repo: Repo): (r: Repo)
    ensures r.query == OrderedBy("name") && r.medicines == repo.medicines && r.allMedicines == repo.allMedicines
    ensures Valid(repo.listeners) ==> Valid(r.listeners) && |r.listeners.live| == 1
  {
    Observe(repo, OrderedBy("name"))
  }

  function SortByStock(repo: Repo): (r: Repo)
    ensures r.query == OrderedBy("stock") && r.medicines == repo.medicines && r.allMedicines == repo.allMedicines
    ensures Valid(repo.listeners) ==> Valid(r.listeners) && |r.listeners.live| == 1
  {
    Observe(repo, OrderedBy("stock"))
  }

  function SortByNone(repo: Repo): (r: Repo)
    ensures r.query == Unordered && r.medicines == repo.medicines && r.allMedicines == repo.allMedicines
    ensures Valid(repo.listeners) ==> Valid(r.listeners) && |r.listeners.live| == 1
  {
    Observe(repo, Unordered)
  }

  /** A re-observe silences the listener it replaces. */
  lemma ReobserveSilencesOldListener(repo: Repo, query: Query, event: ListenerEvent<Medicine>)
    requires Valid(repo.listeners) && repo.listeners.registration.Some?
    ensures var previous := repo.listeners.registration.value;
            var r := Observe(repo, query);
            OnListenerEvent(r, previous, event) == r
  {
  }

  /** `clearListener`. */
  function ClearListener(repo: Repo): (r: Repo)
    ensures r.listeners.registration.None? && r.medicines == repo.medicines && r.allMedicines == repo.allMedicines
    ensures Valid(repo.listeners) ==> Valid(r.listeners) && r.listeners.live == {}
  {
    repo.(listeners := Clear(repo.listeners))
  }

  lemma ClearListenerIdempotent(repo: Repo)
    ensures ClearListener(ClearListener(repo)) == ClearListener(repo)
  {
    ClearIdempotent(repo.listeners);
  }

  /** After clearing, no callback changes the mirror. */
  lemma ClearedRepoIgnoresEvents(repo: Repo, h: nat, event: ListenerEvent<Medicine>)
    requires Valid(repo.listeners)
    ensures var r := ClearListener(repo);
            OnListenerEvent(r, h, event) == r
  {
  }
}
