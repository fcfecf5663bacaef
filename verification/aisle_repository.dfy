/**
 * The aisle repository: the published aisle list, fed by a listener on the
 * "aisles" collection ordered by timestamp. A (re)load first drops the
 * held listener, then reads the collection once; only when that read
 * succeeds does it seed an empty collection and install the listener.
 */
module AisleRepository {
  import opened Wrappers
  import opened Models
  import opened Firestore

  const AISLES_COLLECTION := "aisles"
  const DEFAULT_AISLE_NAME := "Aisle 1"

  datatype Repo = Repo(aisles: seq<Aisle>, listeners: Registry)

  /** How the one-off read of the collection ended. */
  datatype ReadOutcome = ReadFailed | ReadSucceeded(isEmpty: bool)

  /** `loadAisles()`, synchronous part: the held listener stops; the handle
      stays in the field until a new one replaces it. */
  function LoadAisles(repo: Repo): (r: Repo)
    ensures r.aisles == repo.aisles
    ensures r.listeners.registration == repo.listeners.registration
    ensures repo.listeners.registration.Some? ==> repo.listeners.registration.value !in r.listeners.live
    ensures Valid(repo.listeners) ==> Valid(r.listeners) && r.listeners.live == {}
  {
    repo.(listeners := RemoveCurrent(repo.listeners))
  }

  /** The seed aisle: "Aisle 1" with a fresh id and the current time. */
  function DefaultAisle(freshId: string, now: int): (a: Aisle)
    ensures a.name == DEFAULT_AISLE_NAME && a.id == freshId && a.timestamp == now
  {
    Aisle(DEFAULT_AISLE_NAME, freshId, now)
  }

  /** The read's success callback: seed an empty collection with one aisle,
      then install the ordered listener. A failed read does nothing. */
  function OnInitialRead(repo: Repo, read: ReadOutcome, freshId: string, now: int): (res: (Repo, seq<Write<Aisle>>))
    ensures res.0.aisles == repo.aisles
    ensures read.ReadFailed? ==> res == (repo, [])
    ensures read.ReadSucceeded? && read.isEmpty ==> res.1 == [SetDocument(freshId, DefaultAisle(freshId, now))]
    ensures read.ReadSucceeded? && !read.isEmpty ==> res.1 == []
    ensures read.ReadSucceeded? ==>
      var l := res.0.listeners;
      l.registration.Some? && l.registration.value in l.live && l.live == repo.listeners.live + {l.registration.value}
    ensures read.ReadSucceeded? && Valid(repo.listeners) && repo.listeners.live == {} ==>
      Valid(res.0.listeners) && |res.0.listeners.live| == 1
  {
    match read
    case ReadFailed => (repo, [])
    case ReadSucceeded(isEmpty) =>
      var writes := if isEmpty then [AddAisle(DefaultAisle(freshId, now))] else [];
      (repo.(listeners := Install(repo.listeners).0), writes)
  }

  /** Construction loads the aisles. */
  function Init(): (r: Repo)
    ensures r.aisles == [] && Valid(r.listeners) && r.listeners.live == {}
  {
    LoadAisles(Repo([], NoListeners))
  }

  /** Seeding works: after a successful read of an empty collection, the
      collection holds exactly the one default aisle. */
  lemma SeedsEmptyCollection(repo: Repo, freshId: string, now: int)
    ensures var writes := OnInitialRead(repo, ReadSucceeded(true), freshId, now).1;
            var store := ApplyAll(map[], writes);
            store.Keys == {freshId} && store[freshId].name == DEFAULT_AISLE_NAME
  {
    var writes := OnInitialRead(repo, ReadSucceeded(true), freshId, now).1;
    assert writes[1..] == [];
  }

  /** A listener callback for handle `h`: ignored once the listener is
      removed and on an error; a snapshot replaces the list with the bodies
      as stored (ids are not taken from the keys); a null snapshot empties it. */
  function OnListenerEvent(repo: Repo, h: nat, event: ListenerEvent<Aisle>): (r: Repo)
    ensures r.listeners == repo.listeners
    ensures h !in repo.listeners.live || event.ListenerError? ==> r == repo
    ensures h in repo.listeners.live && event.Snapshot? ==> r.aisles == Bodies(event.documents)
    ensures h in repo.listeners.live && event.NullSnapshot? ==> r.aisles == []
  {
    if h !in repo.listeners.live then repo
    else
      match event
      case ListenerError(_) => repo
      case Snapshot(docs) => repo.(aisles := Bodies(docs))
      case NullSnapshot => repo.(aisles := [])
  }

  /** The listener keeps each aisle's own id, whatever key it is stored under. */
  lemma SnapshotKeepsStoredIds(repo: Repo, h: nat, key: string, a: Aisle)
    requires h in repo.listeners.live
    ensures OnListenerEvent(repo, h, Snapshot([Document(key, Some(a))])).aisles == [a]
  {
    assert [Document(key, Some(a))][1..] == [];
  }

  /** `addAisle`: written under the aisle's own id; the list waits for the listener. */
  function AddAisle(aisle: Aisle): (w: Write<Aisle>)
    ensures w.SetDocument? && w.id == aisle.id && w.value == aisle
  {
    SetDocument(aisle.id, aisle)
  }

  /** `deleteAisle`: removes the document under the aisle's id. */
  function DeleteAisle(aisle: Aisle): (w: Write<Aisle>)
    ensures w.DeleteDocument? && w.id == aisle.id
  {
    DeleteDocument(aisle.id)
  }

  /** Adding then deleting the same aisle leaves the collection without it,
      and every other document as it was. */
  lemma DeleteUndoesAdd(store: map<string, Aisle>, aisle: Aisle)
    ensures var s' := Apply(Apply(store, AddAisle(aisle)), DeleteAisle(aisle));
            s'.Keys == store.Keys - {aisle.id}
            && forall k | k in s' :: s'[k] == store[k]
  {
  }

  /** `clearListener`. */
  function ClearListener(repo: Repo): (r: Repo)
    ensures r.aisles == repo.aisles && r.listeners.registration.None?
    ensures Valid(repo.listeners) ==> Valid(r.listeners) && r.listeners.live == {}
  {
    repo.(listeners := Clear(repo.listeners))
  }

  lemma ClearListenerIdempotent(repo: Repo)
    ensures ClearListener(ClearListener(repo)) == ClearListener(repo)
  {
    ClearIdempotent(repo.listeners);
  }

  /** Reloads one after another keep a single live listener. */
  lemma SequentialReloadKeepsOneListener(repo: Repo, read: ReadOutcome, freshId: string, now: int)
    requires Valid(repo.listeners)
    ensures var r := OnInitialRead(LoadAisles(repo), read, freshId, now).0;
            Valid(r.listeners) && |r.listeners.live| <= 1
  {
    var l := LoadAisles(repo);
    if read.ReadSucceeded? {
      AtMostOneLive(OnInitialRead(l, read, freshId, now).0.listeners);
    }
  }

  /** Two reloads whose reads both complete after the second reload leave
      two listeners delivering: the second install does not remove the first. */
  lemma OverlappingReloadsLeaveTwoListeners(repo: Repo, freshId: string, now: int)
    requires Valid(repo.listeners)
    ensures var r0 := LoadAisles(LoadAisles(repo));
            var r1 := OnInitialRead(r0, ReadSucceeded(false), freshId, now).0;
            var r2 := OnInitialRead(r1, ReadSucceeded(false), freshId, now).0;
            |r2.listeners.live| == 2
  {
    var r0 := LoadAisles(LoadAisles(repo));
    assert r0.listeners.live == {};
    var r1 := OnInitialRead(r0, ReadSucceeded(false), freshId, now).0;
    var h1 := r1.listeners.registration.value;
    assert r1.listeners.live == {h1};
    InstallWithoutRemoveDoubles(r1.listeners);
  }
}
