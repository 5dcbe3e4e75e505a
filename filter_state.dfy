/**
 * The client's filter store (`useFilterStore`): the selection the product
 * list is filtered by. Categories and brands are toggled in and out of
 * lists; `clearFilters` restores the initial selection.
 */
module FilterState {
  import opened Options
  import opened Seqs

  datatype SortOption = Popular | Newest | PriceLow | PriceHigh | Rating

  /** The upper end of the initial price range. */
  const MaxPrice: int := 10000000

  /** The list after toggling `id`: removed (every copy) when present, appended when absent. */
  function Toggled(xs: seq<string>, id: string): seq<string> {
    if id in xs then Filter((x: string) => x != id, xs) else xs + [id]
  }

  class FilterStore {
    var selectedCategories: seq<string>
    var selectedBrands: seq<string>
    var priceRange: (int, int)
    var minRating: real
    var sortBy: SortOption
    var skinType: Option<string>
    var isNew: Option<bool>

    /** Every field holds its initial value. */
    predicate IsCleared()
      reads this
    {
      && selectedCategories == [] && selectedBrands == []
      && priceRange == (0, MaxPrice) && minRating == 0.0 && sortBy == Popular
      && skinType == None && isNew == None
    }

    constructor ()
      ensures IsCleared()
    {
      selectedCategories := [];
      selectedBrands := [];
      priceRange := (0, MaxPrice);
      minRating := 0.0;
      sortBy := Popular;
      skinType := None;
      isNew := None;
    }

    /** `toggleCategory(categoryId)` */
    method ToggleCategory(categoryId: string)
      modifies this
      ensures selectedCategories == Toggled(old(selectedCategories), categoryId)
      ensures selectedBrands == old(selectedBrands) && priceRange == old(priceRange)
      ensures minRating == old(minRating) && sortBy == old(sortBy)
      ensures skinType == old(skinType) && isNew == old(isNew)
    {
      if categoryId in selectedCategories {
        selectedCategories := Filter((c: string) => c != categoryId, selectedCategories);
      } else {
        selectedCategories := selectedCategories + [categoryId];
      }
    }

    /** `toggleBrand(brandId)` */
    method ToggleBrand(brandId: string)
      modifies this
      ensures selectedBrands == Toggled(old(selectedBrands), brandId)
      ensures selectedCategories == old(selectedCategories) && priceRange == old(priceRange)
      ensures minRating == old(minRating) && sortBy == old(sortBy)
      ensures skinType == old(skinType) && isNew == old(isNew)
    {
      if brandId in selectedBrands {
        selectedBrands := Filter((b: string) => b != brandId, selectedBrands);
      } else {
        selectedBrands := selectedBrands + [brandId];
      }
    }

    /** `setPriceRange(range)` */
    method SetPriceRange(range: (int, int))
      modifies this
      ensures priceRange == range
      ensures selectedCategories == old(selectedCategories) && selectedBrands == old(selectedBrands)
      ensures minRating == old(minRating) && sortBy == old(sortBy)
      ensures skinType == old(skinType) && isNew == old(isNew)
    {
      priceRange := range;
    }

    /** `setMinRating(rating)` */
    method SetMinRating(rating: real)
      modifies this
      ensures minRating == rating
      ensures selectedCategories == old(selectedCategories) && selectedBrands == old(selectedBrands)
      ensures priceRange == old(priceRange) && sortBy == old(sortBy)
      ensures skinType == old(skinType) && isNew == old(isNew)
    {
      minRating := rating;
    }

    /** `setSortBy(sortBy)` */
    method SetSortBy(sort: SortOption)
      modifies this
      ensures sortBy == sort
      ensures selectedCategories == old(selectedCategories) && selectedBrands == old(selectedBrands)
      ensures priceRange == old(priceRange) && minRating == old(minRating)
      ensures skinType == old(skinType) && isNew == old(isNew)
    {
      sortBy := sort;
    }

    /** `setSkinType(type)` */
    method SetSkinType(skin: Option<string>)
      modifies this
      ensures skinType == skin
      ensures selectedCategories == old(selectedCategories) && selectedBrands == old(selectedBrands)
      ensures priceRange == old(priceRange) && minRating == old(minRating)
      ensures sortBy == old(sortBy) && isNew == old(isNew)
    {
      skinType := skin;
    }

    /** `setIsNew(isNew)` */
    method SetIsNew(flag: Option<bool>)
      modifies this
      ensures isNew == flag
      ensures selectedCategories == old(selectedCategories) && selectedBrands == old(selectedBrands)
      ensures priceRange == old(priceRange) && minRating == old(minRating)
      ensures sortBy == old(sortBy) && skinType == old(skinType)
    {
      isNew := flag;
    }

    /** `clearFilters()`: back to the initial selection, whatever the state before (so twice is once). */
    method ClearFilters()
      modifies this
      ensures IsCleared()
    {
      selectedCategories := [];
      selectedBrands := [];
      priceRange := (0, MaxPrice);
      minRating := 0.0;
      sortBy := Popular;
      skinType := None;
      isNew := None;
    }
  }

  // -------------------------------------------------------------- lemmas

  /** Toggling `id` flips its membership and leaves every other id's as it was. */
  lemma ToggledMembership(xs: seq<string>, id: string, y: string)
    ensures y in Toggled(xs, id) <==> if y == id then id !in xs else y in xs
  {
  }

  /** Toggling an absent id twice restores the list exactly. */
  lemma ToggledTwiceAbsent(xs: seq<string>, id: string)
    requires id !in xs
    ensures Toggled(Toggled(xs, id), id) == xs
  {
    FilterConcat((x: string) => x != id, xs, [id]);
    FilterKeepsAll((x: string) => x != id, xs);
    assert [id][1..] == [];
  }

  /** Toggling a present id twice moves it to the end of the list. */
  lemma ToggledTwicePresent(xs: seq<string>, id: string)
    requires id in xs
    ensures Toggled(Toggled(xs, id), id) == Filter((x: string) => x != id, xs) + [id]
  {
    assert id !in Filter((x: string) => x != id, xs);
  }

  /** The identity, as the key of a list of ids. */
  function Itself(x: string): string { x }

  /** With no duplicates, toggling a present id twice gives back the same ids, if not in the same order. */
  lemma ToggledTwiceSameIds(xs: seq<string>, id: string)
    requires id in xs && KeysDistinct(Itself, xs)
    ensures multiset(Toggled(Toggled(xs, id), id)) == multiset(xs)
  {
    var i :| 0 <= i < |xs| && xs[i] == id;
    var same := (x: string) => Itself(x) == Itself(xs[i]);
    FilterSingleKey(Itself, same, xs, i);
    FilterSplit((x: string) => x != id, same, xs);
    ToggledTwicePresent(xs, id);
  }

  /** The list order is not restored: toggling "a" twice in ["a", "b"] gives ["b", "a"]. */
  lemma ToggledTwiceReorders()
    ensures Toggled(Toggled(["a", "b"], "a"), "a") == ["b", "a"]
  {
    ToggledTwicePresent(["a", "b"], "a");
    assert Filter((x: string) => x != "a", ["a", "b"]) == ["b"] by {
      assert ["a", "b"][1..] == ["b"];
      assert ["b"][1..] == [];
    }
  }
}
