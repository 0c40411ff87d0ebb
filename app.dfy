/** The dashboard's own state: the unit setting and the stored favourites, with the handlers that change them. */
module App {
  import opened Favorites

  /** `toggleUnits`: `metric` becomes `imperial`, every other value becomes `metric`. */
  function Toggled(unit: string): (r: string)
    ensures r == "metric" || r == "imperial"
    ensures r == "imperial" <==> unit == "metric"
  {
    if unit == "metric" then "imperial" else "metric"
  }

  /** On the two values the app uses, toggling twice restores the setting. */
  lemma ToggleTwice(unit: string)
    requires unit == "metric" || unit == "imperial"
    ensures Toggled(Toggled(unit)) == unit
  {
  }

  /** The page-wide unit setting and the `favorites` entry of browser storage (an absent entry reads as []). */
  class Dashboard {
    var currentUnit: string
    var favorites: seq<string>

    /** Page load: the unit starts as `metric`; the favourites are whatever storage holds. */
    constructor (stored: seq<string>)
      ensures currentUnit == "metric" && favorites == stored
    {
      currentUnit := "metric";
      favorites := stored;
    }

    /** `toggleUnits` (the weather refetch that follows is not modelled). */
    method ToggleUnits()
      modifies this`currentUnit
      ensures currentUnit == Toggled(old(currentUnit))
      ensures currentUnit == "metric" || currentUnit == "imperial"
    {
      currentUnit := if currentUnit == "metric" then "imperial" else "metric";
    }

    /** `addToFavorites` for the current city: read the list, `shift` when full, `push`, store. */
    method AddToFavorites(currentCity: string)
      modifies this`favorites
      ensures favorites == WithFavorite(old(favorites), currentCity)
      ensures currentCity in favorites
      ensures WellFormed(old(favorites)) ==> WellFormed(favorites)
    {
      var faves := favorites;
      if currentCity !in faves {
        if |faves| >= MaxFavorites {
          faves := faves[1..];
        }
        faves := faves + [currentCity];
        favorites := faves;
      }
      AddMembership(old(favorites), currentCity, currentCity);
      if WellFormed(old(favorites)) {
        AddKeepsWellFormed(old(favorites), currentCity);
      }
    }

    /** `removeFromFavorites`: store the list without any occurrence of the city. */
    method RemoveFromFavorites(city: string)
      modifies this`favorites
      ensures favorites == Without(old(favorites), city)
      ensures city !in favorites
      ensures WellFormed(old(favorites)) ==> WellFormed(favorites)
    {
      favorites := Without(favorites, city);
      WithoutMembership(old(favorites), city, city);
      if WellFormed(old(favorites)) {
        WithoutKeepsWellFormed(old(favorites), city);
      }
    }
  }
}
