# Restaurant-review store reducer in Dafny

This project models the state reducer of a small restaurant-review web
application: the pure function `reducer(state, action)` that the application's
store calls once per dispatched action to compute the next application state.

The state (`AppState.State`) holds the lists of regions, categories and
restaurants loaded from the server, the restaurant shown in detail, the region
and category the user selected, the login form (`email`, `password`), the
access token, and the review form (`score`, `description`). Regions,
categories and restaurants share one shape, `Item(id, name)`. Each action
creator of the application becomes one constructor of `AppState.Action`, and
`Unrecognised(kind)` stands for any action whose type the reducer does not
handle.

`Reducer.Reduce(previous, action)` is the reducer. Its one rule that is more
than a field replacement is selection: `selectRegion(id)` and
`selectCategory(id)` look the id up in the list the state currently holds
(`Reducer.FindById`) and store the matching element by value.

The reducer's own source and the action creators are not part of this model;
its behaviour is taken from the assertions of its test suite,
`src/redux/reducer.test.js`. The lemmas in `ReducerProperties` restate those
assertions one `it` block at a time. The general lemmas quantify over every
previous state and payload instead of the single example value the test uses.
The tests start from partial objects such as `{ regions: [] }`; the model
represents each of them as a full `State` whose other fields take arbitrary
values. `SelectRegionExample` and `SelectCategoryExample` repeat the two selection
cases with the tests' literal lists, and `UndefinedStateGivesInitialState` is
about an absent previous state, as its case is.

Modelling decisions:

- The `{name, value}` payloads of `changeLoginField` and `changeReviewField`
  become closed enumerations. `ChangeLoginField(name, value)` takes a
  `LoginName` (`Email | Password`). `ChangeReviewField(edit)` takes a
  `ReviewEdit` (`Score(int) | Description(string)`), because the two review
  fields hold values of different types.
- The review score is an `Option<int>`. The initial state holds `Some(0)`
  (`score: 0`), and one test starts from a score of `null`, which is `None`.
- An absent previous state (`None`, JavaScript's `undefined`) stands for the
  initial state, and the action is then applied to it. This is the usual
  default-argument convention of such reducers. The only case the tests check
  is an unrecognised action, which yields the initial state.

Behaviour that no test asserts. The model makes the following choices, and no
lemma claims any of them as a property of the original:

- an action keeps every field it does not name (object-spread update);
- an unrecognised action on a defined state returns that state unchanged;
- selecting an id that no listed element carries sets the selection to `None`,
  as `Array.prototype.find` would yield `undefined`;
- when several listed elements carry the selected id, the first of them is
  selected, as `Array.prototype.find` would return it (the tests only use
  one-element lists).

## Model

| member | source | states |
|---|---|---|
| `AppState.InitialState` | src/redux/reducer.test.js:17-33 | The default state: empty region, category and restaurant lists, no restaurant, no selections, empty email and password, empty access token, score 0 and empty description. `UndefinedStateGivesInitialState` shows that the reducer returns this state when there is no previous state. |
| `Reducer.FindById` | src/redux/reducer.test.js:105-139 | The lookup returns an element of the list whose id equals the requested id. It returns `None` exactly when no element carries that id; that case is the model's documented choice, since no test reaches it. |
| `Reducer.FindByIdFirstMatch` | src/redux/reducer.test.js:105-139 | Lookup is by id, not by position: when index `k` holds the first element with that id, the lookup returns that element by value. Choosing the first of several elements with the same id is the model's documented choice. |
| `Reducer.Reduce` | src/redux/reducer.test.js:105-139 | After `selectRegion(id)` or `selectCategory(id)`, a selection that is present is an element of the state's list and carries the requested id. On an id that no listed element carries, this forces `None`, which is the model's documented choice. |
| `ReducerProperties.UndefinedStateGivesInitialState` | src/redux/reducer.test.js:16-39 | With no previous state, an unrecognised action yields `InitialState()`, whose contract spells out the default: empty lists, no restaurant, no selections, empty email and password, empty token, score 0 and empty description. |
| `ReducerProperties.SetRegionsReplacesRegions` | src/redux/reducer.test.js:42-56 | `setRegions(regions)` makes the state's regions equal to the payload, so they have the payload's length. |
| `ReducerProperties.SetCategoriesReplacesCategories` | src/redux/reducer.test.js:58-72 | `setCategories(categories)` makes the state's categories equal to the payload, so they have the payload's length. |
| `ReducerProperties.SetRestaurantsReplacesRestaurants` | src/redux/reducer.test.js:74-88 | `setRestaurants(restaurants)` makes the state's restaurants equal to the payload, so they have the payload's length. |
| `ReducerProperties.SetRestaurantReplacesRestaurant` | src/redux/reducer.test.js:90-103 | `setRestaurant(restaurant)` makes the state's restaurant the payload, with its id and name. |
| `ReducerProperties.SelectRegionPicksFirstMatch` | src/redux/reducer.test.js:105-121 | `selectRegion(id)` sets the selected region to the first region in the list whose id is `id`, equal to it by value, on any previous state. The tests use a one-element list; picking the first of several matches is the model's documented choice. |
| `ReducerProperties.SelectRegionExample` | src/redux/reducer.test.js:105-121 | With regions `[{id: 1, name: '서울'}]`, `selectRegion(1)` selects `{id: 1, name: '서울'}`. |
| `ReducerProperties.SelectCategoryPicksFirstMatch` | src/redux/reducer.test.js:123-139 | `selectCategory(id)` sets the selected category to the first category in the list whose id is `id`, equal to it by value, on any previous state. The tests use a one-element list; picking the first of several matches is the model's documented choice. |
| `ReducerProperties.SelectCategoryExample` | src/redux/reducer.test.js:123-139 | With categories `[{id: 1, name: '한식'}]`, `selectCategory(1)` selects `{id: 1, name: '한식'}`. |
| `ReducerProperties.ChangeEmailSetsEmail` | src/redux/reducer.test.js:142-157 | `changeLoginField({name: 'email', value})` sets the login email to `value`. |
| `ReducerProperties.ChangePasswordSetsPassword` | src/redux/reducer.test.js:159-174 | `changeLoginField({name: 'password', value})` sets the login password to `value`. |
| `ReducerProperties.SetAccessTokenSetsToken` | src/redux/reducer.test.js:177-187 | `setAccessToken(token)` sets the access token to `token`. |
| `ReducerProperties.ChangeScoreSetsScore` | src/redux/reducer.test.js:190-205 | `changeReviewField({name: 'score', value})` sets the review score to `value`, including when the previous score is `null`. |
| `ReducerProperties.ChangeDescriptionSetsDescription` | src/redux/reducer.test.js:207-222 | `changeReviewField({name: 'description', value})` sets the review description to `value`. |

## Left out

- The reducer's own source (`src/redux/reducer.js`) and the action creators (`src/redux/actions.js`) are not part of this model. The actions appear only as `Action` constructors, and the reducer's behaviour comes from its tests.
- The behaviours listed above as choices (untouched fields, an unrecognised action on a defined state, a selection with no match, a selection among several matches) are not asserted by any test. No lemma claims them as facts about the original; where a contract covers one of them, its row marks it as the model's choice.
- Payload validation: a field name outside the two allowed ones cannot be written in this model. In the original, the name is an arbitrary string that is assigned dynamically.
- Restaurant detail fields beyond `id` and `name` are not modelled.
- `src/LoginContainer.jsx`: UI wiring of the login form to `dispatch`. It has no state logic, and its submit handler calls an asynchronous login request, which is network I/O.
- `src/TextField.test.jsx`: rendering and DOM change events of a form component. This is UI testing with no state logic.
- Store creation, middleware and asynchronous thunks are left out. They are framework plumbing and I/O.
