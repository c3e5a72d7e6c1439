/**
 * What the reducer's test suite asserts, one lemma per case. The general
 * lemmas hold for every previous state and payload rather than for the one
 * example the case uses; the `*Example` lemmas repeat the two selection
 * cases with the tests' literal lists, and the initial-state lemma is about
 * an absent previous state, as its case is.
 */
module ReducerProperties {
  import opened AppState
  import opened Reducer

  /**
   * With no previous state, an action the reducer does not know yields the
   * initial state, whose fields `InitialState`'s contract spells out.
   */
  lemma UndefinedStateGivesInitialState(kind: string)
    ensures Reduce(None, Unrecognised(kind)) == InitialState()
  {
  }

  lemma SetRegionsReplacesRegions(state: State, regions: seq<Region>)
    ensures Reduce(Some(state), SetRegions(regions)).regions == regions
    ensures |Reduce(Some(state), SetRegions(regions)).regions| == |regions|
  {
  }

  lemma SetCategoriesReplacesCategories(state: State, categories: seq<Category>)
    ensures Reduce(Some(state), SetCategories(categories)).categories == categories
    ensures |Reduce(Some(state), SetCategories(categories)).categories| == |categories|
  {
  }

  lemma SetRestaurantsReplacesRestaurants(state: State, restaurants: seq<Restaurant>)
    ensures Reduce(Some(state), SetRestaurants(restaurants)).restaurants == restaurants
    ensures |Reduce(Some(state), SetRestaurants(restaurants)).restaurants| == |restaurants|
  {
  }

  lemma SetRestaurantReplacesRestaurant(state: State, restaurant: Restaurant)
    ensures Reduce(Some(state), SetRestaurant(restaurant)).restaurant == Some(restaurant)
  {
  }

  /** Selecting a region yields the first listed region carrying that id, whatever its position. */
  lemma SelectRegionPicksFirstMatch(state: State, regionId: int, k: int)
    requires FirstMatch(state.regions, regionId, k)
    ensures Reduce(Some(state), SelectRegion(regionId)).selectedRegion == Some(state.regions[k])
  {
    FindByIdFirstMatch(state.regions, regionId, k);
  }

  /** The case as the test writes it: region 1 out of a one-region list. */
  lemma SelectRegionExample(state: State)
    requires state.regions == [Item(id := 1, name := "서울")]
    ensures Reduce(Some(state), SelectRegion(1)).selectedRegion == Some(Item(id := 1, name := "서울"))
  {
    SelectRegionPicksFirstMatch(state, 1, 0);
  }

  /** Selecting a category yields the first listed category carrying that id, whatever its position. */
  lemma SelectCategoryPicksFirstMatch(state: State, categoryId: int, k: int)
    requires FirstMatch(state.categories, categoryId, k)
    ensures Reduce(Some(state), SelectCategory(categoryId)).selectedCategory == Some(state.categories[k])
  {
    FindByIdFirstMatch(state.categories, categoryId, k);
  }

  /** The case as the test writes it: category 1 out of a one-category list. */
  lemma SelectCategoryExample(state: State)
    requires state.categories == [Item(id := 1, name := "한식")]
    ensures Reduce(Some(state), SelectCategory(1)).selectedCategory == Some(Item(id := 1, name := "한식"))
  {
    SelectCategoryPicksFirstMatch(state, 1, 0);
  }

  lemma ChangeEmailSetsEmail(state: State, value: string)
    ensures Reduce(Some(state), ChangeLoginField(Email, value)).loginField.email == value
  {
  }

  lemma ChangePasswordSetsPassword(state: State, value: string)
    ensures Reduce(Some(state), ChangeLoginField(Password, value)).loginField.password == value
  {
  }

  lemma SetAccessTokenSetsToken(state: State, accessToken: string)
    ensures Reduce(Some(state), SetAccessToken(accessToken)).accessToken == accessToken
  {
  }

  /** The score is set even when the previous score is `null`. */
  lemma ChangeScoreSetsScore(state: State, value: int)
    ensures Reduce(Some(state), ChangeReviewField(Score(value))).reviewField.score == Some(value)
  {
  }

  lemma ChangeDescriptionSetsDescription(state: State, value: string)
    ensures Reduce(Some(state), ChangeReviewField(Description(value))).reviewField.description == value
  {
  }
}
