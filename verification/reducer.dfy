/**
 * The reducer: the store's pure transition from the previous state and an
 * action to the next state.
 */
module Reducer {
  import opened AppState

  /** Index `k` holds the first item of `items` whose id is `id`. */
  ghost predicate FirstMatch(items: seq<Item>, id: int, k: int)
  {
    && 0 <= k < |items|
    && items[k].id == id
    && forall j :: 0 <= j < k ==> items[j].id != id
  }

  /**
   * The lookup behind selecting a region or a category: the first item whose
   * id equals `id`, by value, or `None` when the list holds no such item.
   */
  function FindById(items: seq<Item>, id: int): (found: Option<Item>)
    ensures found.Some? ==> found.value in items && found.value.id == id
    ensures found.None? <==> forall k :: 0 <= k < |items| ==> items[k].id != id
    decreases |items|
  {
    if items == [] then None
    else if items[0].id == id then Some(items[0])
    else FindById(items[1..], id)
  }

  /** The lookup returns exactly the first match, wherever it sits in the list. */
  lemma {:induction false} FindByIdFirstMatch(items: seq<Item>, id: int, k: int)
    requires FirstMatch(items, id, k)
    ensures FindById(items, id) == Some(items[k])
    decreases k
  {
    if k > 0 {
      forall j | 0 <= j < k - 1
        ensures items[1..][j].id != id
      {
        assert items[1..][j] == items[j + 1];
      }
      FindByIdFirstMatch(items[1..], id, k - 1);
    }
  }

  /**
   * The next state. An absent previous state stands for the initial state;
   * each recognised action replaces one field (or one sub-field of a form);
   * a selection is looked up by id in the list held by the state; an
   * unrecognised action leaves the state as it is.
   */
  function Reduce(previous: Option<State>, action: Action): (next: State)
    ensures action.SelectRegion? && next.selectedRegion.Some? ==>
      next.selectedRegion.value in next.regions && next.selectedRegion.value.id == action.regionId
    ensures action.SelectCategory? && next.selectedCategory.Some? ==>
      next.selectedCategory.value in next.categories && next.selectedCategory.value.id == action.categoryId
  {
    var state := if previous.Some? then previous.value else InitialState();
    match action
    case SetRegions(regions) => state.(regions := regions)
    case SetCategories(categories) => state.(categories := categories)
    case SetRestaurants(restaurants) => state.(restaurants := restaurants)
    case SetRestaurant(restaurant) => state.(restaurant := Some(restaurant))
    case SelectRegion(regionId) => state.(selectedRegion := FindById(state.regions, regionId))
    case SelectCategory(categoryId) => state.(selectedCategory := FindById(state.categories, categoryId))
    case ChangeLoginField(name, value) =>
      (match name
       case Email => state.(loginField := state.loginField.(email := value))
       case Password => state.(loginField := state.loginField.(password := value)))
    case SetAccessToken(accessToken) => state.(accessToken := accessToken)
    case ChangeReviewField(edit) =>
      (match edit
       case Score(score) => state.(reviewField := state.reviewField.(score := Some(score)))
       case Description(description) => state.(reviewField := state.reviewField.(description := description)))
    case Unrecognised(_) => state
  }
}
