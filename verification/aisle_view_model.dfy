/**
 * The aisle view-model: publishes the repository's list itself and
 * forwards intents to it. Its one rule of its own is the name of a
 * quickly added aisle.
 */
module AisleViewModel {
  import opened Wrappers
  import opened Decimal
  import opened Models
  import opened Firestore
  import Repo = AisleRepository

  /** "Aisle " followed by a count in decimal. */
  function AisleName(n: nat): (name: string)
    ensures |name| > 6 && name[..6] == "Aisle "
    ensures n <= INT_MAX ==> ParseInt(name[6..]) == Some(n as int)
  {
    var digits := NatToString(n);
    assert ("Aisle " + digits)[6..] == digits;
    CountRoundTrip(n);
    "Aisle " + digits
  }

  lemma CountRoundTrip(n: nat)
    ensures n <= INT_MAX ==> ParseInt(NatToString(n)) == Some(n as int)
  {
    if n <= INT_MAX {
      ParseIntToString(n);
    }
  }

  /** `addRandomAisle`: one aisle named after the current count plus one. */
  function AddRandomAisle(aisles: seq<Aisle>, freshId: string, now: int): (w: Write<Aisle>)
    ensures w.SetDocument? && w.id == freshId && w.value.id == freshId && w.value.timestamp == now
    ensures w.value.name == AisleName(|aisles| + 1)
  {
    Repo.AddAisle(Aisle(AisleName(|aisles| + 1), freshId, now))
  }

  /** The name depends only on the count: with aisles "Aisle 1" and
      "Aisle 2" the next one is new, but once the first is deleted the next
      aisle takes the name of the one still present. */
  lemma NameCanRepeatAfterDelete(a1: Aisle, a2: Aisle, freshId: string, now: int)
    requires a1.name == AisleName(1) && a2.name == AisleName(2)
    ensures var before := [a1, a2];
            AddRandomAisle(before, freshId, now).value.name != a2.name &&
            AddRandomAisle(before[1..], freshId, now).value.name == a2.name
  {
    NamesDifferForDifferentCounts(3, 2);
  }

  /** Distinct counts give distinct names, so without deletions the names
      never repeat. */
  lemma NamesDifferForDifferentCounts(m: nat, n: nat)
    requires m != n && m <= INT_MAX && n <= INT_MAX
    ensures AisleName(m) != AisleName(n)
  {
    assert ParseInt(AisleName(m)[6..]) != ParseInt(AisleName(n)[6..]);
  }

  /** `reloadAisles` calls `loadAisles`. */
  function ReloadAisles(repo: Repo.Repo): (r: Repo.Repo)
    ensures r == Repo.LoadAisles(repo)
  {
    Repo.LoadAisles(repo)
  }

  /** `deleteAisle` forwards the same aisle. */
  function DeleteAisle(aisle: Aisle): (w: Write<Aisle>)
    ensures w == Repo.DeleteAisle(aisle) && w.id == aisle.id
  {
    Repo.DeleteAisle(aisle)
  }

  /** `onCleared` detaches the repository's listener. */
  function OnCleared(repo: Repo.Repo): (r: Repo.Repo)
    ensures r == Repo.ClearListener(repo)
    ensures Valid(repo.listeners) ==> r.listeners.live == {}
  {
    Repo.ClearListener(repo)
  }
}
