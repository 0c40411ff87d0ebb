/** The favourite-city list kept in browser storage under `favorites`: add with eviction of the oldest, remove by filtering. */
module Favorites {

  /** At most this many favourites are kept when a new one is added. */
  const MaxFavorites: nat := 5

  predicate NoDuplicates(s: seq<string>) {
    forall i, j :: 0 <= i < j < |s| ==> s[i] != s[j]
  }

  /** The shape `addToFavorites` maintains: short and duplicate-free. */
  predicate WellFormed(s: seq<string>) {
    |s| <= MaxFavorites && NoDuplicates(s)
  }

  /** The list `addToFavorites` stores: unchanged if the city is present; otherwise the oldest entry is
      dropped when the list is full, and the city is appended. */
  function WithFavorite(faves: seq<string>, city: string): (r: seq<string>)
    ensures city in r
    ensures |r| <= |faves| + 1
    ensures city !in faves && |faves| >= MaxFavorites ==> |r| == |faves|
  {
    if city in faves then faves
    else (if |faves| >= MaxFavorites then faves[1..] else faves) + [city]
  }

  /** The list `removeFromFavorites` stores: `faves.filter(c => c !== city)`. */
  function Without(faves: seq<string>, city: string): (r: seq<string>)
    ensures city !in r
    ensures |r| <= |faves|
  {
    if faves == [] then []
    else (if faves[0] == city then [] else [faves[0]]) + Without(faves[1..], city)
  }

  /** Adding a city that is already a favourite changes nothing. */
  lemma AddPresentIsNoOp(faves: seq<string>, city: string)
    requires city in faves
    ensures WithFavorite(faves, city) == faves
  {
  }

  /** Adding a new city makes it the newest entry; everything before it is the old list, less its oldest entry when full. */
  lemma AddNew(faves: seq<string>, city: string)
    requires city !in faves
    ensures var r := WithFavorite(faves, city);
      |r| > 0 && r[|r| - 1] == city &&
      r[..|r| - 1] == (if |faves| >= MaxFavorites then faves[1..] else faves) &&
      |r| == (if |faves| >= MaxFavorites then |faves| else |faves| + 1)
  {
  }

  /** After an add the city is a favourite, and every other favourite was one before. */
  lemma AddMembership(faves: seq<string>, city: string, c: string)
    ensures city in WithFavorite(faves, city)
    ensures c in WithFavorite(faves, city) ==> c == city || c in faves
  {
  }

  /** A list of at most five entries stays at most five. */
  lemma AddKeepsBound(faves: seq<string>, city: string)
    requires |faves| <= MaxFavorites
    ensures |WithFavorite(faves, city)| <= MaxFavorites
  {
  }

  /** A duplicate-free list stays duplicate-free. */
  lemma AddKeepsNoDuplicates(faves: seq<string>, city: string)
    requires NoDuplicates(faves)
    ensures NoDuplicates(WithFavorite(faves, city))
  {
  }

  /** `addToFavorites` keeps the list well formed. */
  lemma AddKeepsWellFormed(faves: seq<string>, city: string)
    requires WellFormed(faves)
    ensures WellFormed(WithFavorite(faves, city))
  {
  }

  /** Removing keeps every other city with its multiplicity and drops every occurrence of the removed one. */
  lemma {:induction false} WithoutContents(faves: seq<string>, city: string)
    ensures multiset(Without(faves, city)) == multiset(faves)[city := 0]
  {
    if faves != [] {
      WithoutContents(faves[1..], city);
      assert faves == [faves[0]] + faves[1..];
      assert multiset(faves) == multiset([faves[0]]) + multiset(faves[1..]);
    }
  }

  /** The removed city is no longer a favourite, and every remaining entry was one before. */
  lemma WithoutMembership(faves: seq<string>, city: string, c: string)
    ensures c in Without(faves, city) <==> c in faves && c != city
  {
  }

  /** Filtering distributes over concatenation: the cities that remain keep their original order. */
  lemma {:induction false} WithoutAppend(a: seq<string>, b: seq<string>, city: string)
    ensures Without(a + b, city) == Without(a, city) + Without(b, city)
  {
    if a == [] {
      assert a + b == b;
    } else {
      var head := if a[0] == city then [] else [a[0]];
      assert (a + b)[0] == a[0] && (a + b)[1..] == a[1..] + b;
      assert Without(a + b, city) == head + Without(a[1..] + b, city);
      WithoutAppend(a[1..], b, city);
      assert Without(a, city) == head + Without(a[1..], city);
    }
  }

  /** Removing a city that is not a favourite changes nothing. */
  lemma {:induction false} WithoutAbsent(faves: seq<string>, city: string)
    requires city !in faves
    ensures Without(faves, city) == faves
  {
    if faves != [] {
      WithoutAbsent(faves[1..], city);
    }
  }

  /** Removing twice is removing once. */
  lemma WithoutIdempotent(faves: seq<string>, city: string)
    ensures Without(Without(faves, city), city) == Without(faves, city)
  {
    WithoutMembership(faves, city, city);
    WithoutAbsent(Without(faves, city), city);
  }

  /** Removing keeps a duplicate-free list duplicate-free and never lengthens it. */
  lemma {:induction false} WithoutKeepsNoDuplicates(faves: seq<string>, city: string)
    requires NoDuplicates(faves)
    ensures NoDuplicates(Without(faves, city))
    ensures |Without(faves, city)| <= |faves|
  {
    if faves != [] {
      var rest := faves[1..];
      assert NoDuplicates(rest) by {
        forall i, j | 0 <= i < j < |rest| ensures rest[i] != rest[j] {
          assert rest[i] == faves[i + 1] && rest[j] == faves[j + 1];
        }
      }
      WithoutKeepsNoDuplicates(rest, city);
      var tail := Without(rest, city);
      if faves[0] != city {
        assert faves[0] !in tail by {
          assert faves[0] !in rest by {
            forall k | 0 <= k < |rest| ensures rest[k] != faves[0] { assert rest[k] == faves[k + 1]; }
          }
          WithoutMembership(rest, city, faves[0]);
        }
        var r := [faves[0]] + tail;
        forall i, j | 0 <= i < j < |r| ensures r[i] != r[j] {
          assert r[j] == tail[j - 1];
          if i > 0 { assert r[i] == tail[i - 1]; }
        }
      }
    }
  }

  /** `removeFromFavorites` keeps the list well formed. */
  lemma WithoutKeepsWellFormed(faves: seq<string>, city: string)
    requires WellFormed(faves)
    ensures WellFormed(Without(faves, city))
  {
    WithoutKeepsNoDuplicates(faves, city);
  }

  /** Removing a city just added to a list that was not full gives the old list back. */
  lemma RemoveUndoesAdd(faves: seq<string>, city: string)
    requires city !in faves && |faves| < MaxFavorites
    ensures Without(WithFavorite(faves, city), city) == faves
  {
    assert WithFavorite(faves, city) == faves + [city];
    WithoutAppend(faves, [city], city);
    WithoutAbsent(faves, city);
    assert Without([city], city) == [] by {
      assert [city][1..] == [];
    }
  }
}
