/**
 * The slice of the document store the repositories rely on, as values:
 * snapshot-listener registrations, documents as delivered to a listener,
 * and the writes a repository issues. Delivery itself, and any ordering
 * the store applies to a query, stay outside the model.
 */
module Firestore {
  import opened Wrappers

  /** Listener registrations. `registration` is the handle the repository
      holds (`listenerRegistration`); `live` holds the handles the store
      still delivers to; `nextHandle` is the next fresh handle. */
  datatype Registry = Registry(registration: Option<nat>, live: set<nat>, nextHandle: nat)

  const NoListeners := Registry(None, {}, 0)

  /** Only the held registration can be live, and handles are fresh. */
  predicate Valid(r: Registry) {
    && (forall h | h in r.live :: r.registration == Some(h))
    && (r.registration.Some? ==> r.registration.value < r.nextHandle)
  }

  /** `listenerRegistration?.remove()`: the held handle stops receiving
      events; the field itself keeps its value. */
  function RemoveCurrent(r: Registry): (r': Registry)
    ensures r'.registration == r.registration && r'.nextHandle == r.nextHandle
    ensures r'.live <= r.live
    ensures r.registration.Some? ==> r.registration.value !in r'.live
    ensures r.registration.None? ==> r'.live == r.live
    ensures Valid(r) ==> Valid(r') && r'.live == {}
  {
    match r.registration
    case None => r
    case Some(h) => r.(live := r.live - {h})
  }

  /** `addSnapshotListener`: a fresh handle becomes live and is held. */
  function Install(r: Registry): (res: (Registry, nat))
    ensures var (r', h) := res;
            && r'.registration == Some(h) && r'.live == r.live + {h}
            && r'.nextHandle > h
            && (Valid(r) ==> h !in r.live)
  {
    var h := r.nextHandle;
    (Registry(Some(h), r.live + {h}, h + 1), h)
  }

  /** Remove the held listener, then install a fresh one. */
  function Reinstall(r: Registry): (r': Registry)
    ensures r'.registration.Some? && r'.registration.value in r'.live
    ensures Valid(r) ==> Valid(r') && r'.live == {r'.registration.value}
  {
    Install(RemoveCurrent(r)).0
  }

  /** `clearListener()`. */
  function Clear(r: Registry): (r': Registry)
    ensures r'.registration.None? && r'.nextHandle == r.nextHandle
    ensures Valid(r) ==> Valid(r') && r'.live == {}
  {
    RemoveCurrent(r).(registration := None)
  }

  /** In a valid registry at most one listener is live. */
  lemma AtMostOneLive(r: Registry)
    requires Valid(r)
    ensures |r.live| <= 1
  {
    if r.live != {} {
      var h :| h in r.live;
      assert r.live == {h} by {
        forall g | g in r.live ensures g == h {
          assert r.registration == Some(g) && r.registration == Some(h);
        }
      }
    }
  }

  /** Clearing twice is clearing once. */
  lemma ClearIdempotent(r: Registry)
    ensures Clear(Clear(r)) == Clear(r)
  {
  }

  /** Installing over a live listener without removing it first leaves two
      listeners delivering. */
  lemma InstallWithoutRemoveDoubles(r: Registry)
    requires Valid(r) && r.live != {}
    ensures |Install(r).0.live| == 2
  {
    var h :| h in r.live;
    AtMostOneLive(r);
    assert r.live == {h};
    var h' := Install(r).1;
    assert h' != h;
    assert Install(r).0.live == {h, h'};
  }

  /** A document as a listener sees it: its key, and its decoded body,
      `None` when `toObject` fails. */
  datatype Document<T> = Document(id: string, data: Option<T>)

  /** What a snapshot listener is called with. */
  datatype ListenerEvent<T> =
    | ListenerError(message: Option<string>)
    | Snapshot(documents: seq<Document<T>>)
    | NullSnapshot

  /** A write a repository sends to its collection. */
  datatype Write<T> = SetDocument(id: string, value: T) | DeleteDocument(id: string)

  /** The collection as a map from key to document, and a write applied to it. */
  function Apply<T>(store: map<string, T>, w: Write<T>): (s': map<string, T>)
    ensures w.SetDocument? ==> s'.Keys == store.Keys + {w.id} && s'[w.id] == w.value
    ensures w.DeleteDocument? ==> s'.Keys == store.Keys - {w.id}
    ensures forall k | k in store && k != w.id :: k in s' && s'[k] == store[k]
  {
    match w
    case SetDocument(id, value) => store[id := value]
    case DeleteDocument(id) => store - {id}
  }

  function ApplyAll<T>(store: map<string, T>, ws: seq<Write<T>>): map<string, T>
    decreases |ws|
  {
    if ws == [] then store else ApplyAll(Apply(store, ws[0]), ws[1..])
  }

  /** `documents.mapNotNull { it.toObject() }`: the bodies that decode, in order. */
  function Bodies<T>(docs: seq<Document<T>>): (r: seq<T>)
    ensures |r| <= |docs|
    ensures forall x | x in r :: exists d | d in docs :: d.data == Some(x)
    ensures forall d | d in docs && d.data.Some? :: d.data.value in r
  {
    if docs == [] then []
    else
      var rest := Bodies(docs[1..]);
      assert forall d | d in docs[1..] :: d in docs;
      assert forall d | d in docs && d != docs[0] :: d in docs[1..];
      match docs[0].data
      case None => rest
      case Some(x) => [x] + rest
  }

  lemma {:induction false} BodiesAppend<T>(a: seq<Document<T>>, b: seq<Document<T>>)
    ensures Bodies(a + b) == Bodies(a) + Bodies(b)
  {
    if a != [] {
      assert (a + b)[1..] == a[1..] + b;
      BodiesAppend(a[1..], b);
    } else {
      assert a + b == b;
    }
  }
}
