/**
 * The shape of the restaurant-review application's state and of the actions
 * dispatched to its reducer.
 */
module AppState {

  /** JavaScript's `null` / `undefined` for a single value. */
  datatype Option<+T> = None | Some(value: T)

  /**
   * A region, a category and a restaurant share one shape: a numeric id and a
   * display name.
   */
  datatype Item = Item(id: int, name: string)

  type Region = Item
  type Category = Item
  type Restaurant = Item

  /** The login form's two text inputs. */
  datatype LoginField = LoginField(email: string, password: string)

  /** The review form; a score of `None` is a score that is `null`. */
  datatype ReviewField = ReviewField(score: Option<int>, description: string)

  datatype State = State(
    regions: seq<Region>,
    categories: seq<Category>,
    restaurants: seq<Restaurant>,
    restaurant: Option<Restaurant>,
    selectedRegion: Option<Region>,
    selectedCategory: Option<Category>,
    loginField: LoginField,
    accessToken: string,
    reviewField: ReviewField)

  /** The names a `changeLoginField` payload may carry. */
  datatype LoginName = Email | Password

  /**
   * A `changeReviewField` payload: the constructor is the field's name and
   * carries the new value of that field's type.
   */
  datatype ReviewEdit = Score(score: int) | Description(description: string)

  /**
   * One action per action creator, plus any action whose type the reducer
   * does not recognise. `Unrecognised(kind)` stands for an action type the
   * reducer does not handle, whatever its text: a `kind` that spells a
   * handled type's name is still unrecognised here, because the handled
   * types are the other constructors.
   */
  datatype Action =
    | SetRegions(regions: seq<Region>)
    | SetCategories(categories: seq<Category>)
    | SetRestaurants(restaurants: seq<Restaurant>)
    | SetRestaurant(restaurant: Restaurant)
    | SelectRegion(regionId: int)
    | SelectCategory(categoryId: int)
    | ChangeLoginField(name: LoginName, value: string)
    | SetAccessToken(accessToken: string)
    | ChangeReviewField(edit: ReviewEdit)
    | Unrecognised(kind: string)

  /** The state the store starts from: nothing loaded, nothing selected, empty forms. */
  function InitialState(): (s: State)
    ensures s.regions == [] && s.categories == [] && s.restaurants == []
    ensures s.restaurant.None? && s.selectedRegion.None? && s.selectedCategory.None?
    ensures s.loginField.email == "" && s.loginField.password == ""
    ensures s.accessToken == ""
    ensures s.reviewField.score == Some(0) && s.reviewField.description == ""
  {
    State(
      regions := [],
      categories := [],
      restaurants := [],
      restaurant := None,
      selectedRegion := None,
      selectedCategory := None,
      loginField := LoginField(email := "", password := ""),
      accessToken := "",
      reviewField := ReviewField(score := Some(0), description := ""))
  }
}
