# Traffic-message normaliser of the Traffico model, in Dafny

This project models the traffic-message part of the application's `Model`
class (`app_model.py`). The model asks the Digitraffic traffic-message
endpoint for the active situations of one type. It then turns every feature
of the decoded response into a table row with four fields: `countryCode`,
`municipality`, `road` and `description`. It keeps the rows in
`message_data` for the view to show.

Each field is read through its own chain of subscripts into the first
announcement of the feature. Each chain sits in its own bare `try`. Any
failure along a chain (a missing key, an empty `announcements` list, a value
of the wrong type) makes that field `None` and touches nothing else.

Two modules, one per concern:

- `JsonTree` (`json_tree.dfy`) holds the decoded JSON value as Python's
  `json.loads` produces it. It models Python's subscript operator on such
  values (`Subscript`, with the exception it raises) and the guarded chain
  `Lookup` (the value of `j[p0]...[pn]`, or `None` if any step raised). It
  proves the laws of those chains: splitting a chain, failure of a prefix,
  and that removing a key (`DeleteKey`) or assigning a value (`ReplaceAt`)
  somewhere in the tree leaves every chain that turns away from that place
  alone.
- `AppModel` (`app_model.dfy`) holds the request parameters, the four field
  paths, the row of one feature (`RowOf`), the rows of a whole response
  (`RowsOf`, `MessageRows`) and the class `Model`. `Model.GetMessageData`
  builds the request and handles a failed fetch; `Model.ReplaceMessageData`
  is the source's loop: it clears `messageData` and appends one row per
  item. Their postconditions tie the new state to `MessageRows`.

Modelling choices:

- The HTTP call and `json.loads` are not modelled. `GetMessageData` returns
  the request it would send (URL and parameter dict). It takes their outcome
  as a parameter: the decoded response, or `None` when the request or the
  decoding raised. In that case the exception escapes before `message_data`
  is cleared (app_model.py:15-18), so
  `messageData` keeps the rows of the previous call.
- Python exceptions are the values `KeyError`, `IndexError` and `TypeError`.
  An exception that escapes `get_message_data` is returned as
  `failure: Some(FetchFailed)` or `failure: Some(Raised(e))`.
- The source iterates `data['features']` with no check of its type, and the
  model does the same. A list yields its elements. A str yields one-character
  strs. A dict yields its keys. Each str item gives a row of four `None`s,
  because a str cannot be subscripted by a key. A null, bool or number is not
  iterable, so the call raises `TypeError`.
- Subscripting a str by an integer gives the one-character str, as in Python.
- A JSON `null` that is present at the end of a chain stays `Some(JNull)` in
  a row. A chain that failed gives `None`. Python shows both as `None`; the
  model keeps them apart.

## Model

| member | source | states |
|---|---|---|
| `AppModel.Model.constructor` | app_model.py:5-7 | a new model has the traffic-message URL and an empty `messageData` |
| `AppModel.MessageParams` | app_model.py:10-14 | the parameters are exactly `situationType` (the given type), `inactiveHours = 0` and `includeAreaGeometry = False` |
| `AppModel.ParamsDependOnlyOnType` | app_model.py:10-14 | every parameter except `situationType` is the same for every type, and two parameter dicts are equal exactly when their types are |
| `AppModel.Model.GetMessageData` | app_model.py:9-37 | the request is the fixed URL with `MessageParams(type)`; when the request or decoding fails, that failure escapes and `messageData` keeps its previous rows; otherwise `messageData` is exactly the rows of this response, or empty when `data['features']` raises, and that exception escapes |
| `AppModel.Model.ReplaceMessageData` | app_model.py:18-37 | `messageData` becomes exactly the rows of `data`, with nothing kept from before; when reading `data['features']` or iterating it raises, that exception escapes and `messageData` is empty |
| `JsonTree.Subscript` | app_model.py:22-34 | Python's `[]` on decoded JSON: a dict answers exactly its own keys, a list and a str exactly their in-range indices (a str with a one-character str), a scalar nothing; a wrong kind of subscript raises `TypeError` |
| `JsonTree.Lookup` | app_model.py:21-36 | the guarded chain: the empty chain is the value itself, a first subscript that raises makes the whole chain `None` (a later one: `PrefixFailurePropagates`), and a chain started on a str only ever yields a str |
| `AppModel.PathOf` | app_model.py:22-34 | the four chains (lines 22, 26, 30 and 34), from `properties/announcements/0` through `location` or `locationDetails/roadAddressLocation/primaryPoint` to each field |
| `AppModel.RowOf` | app_model.py:20-36 | every row has exactly the keys `countryCode`, `municipality`, `road` and `description` |
| `AppModel.RowShape` | app_model.py:21-36 | each row field holds the guarded lookup along that field's own path |
| `AppModel.BuildRow` | app_model.py:20-36 | the row filled by four guarded assignments equals `RowOf(feature)` |
| `AppModel.FieldDependsOnlyOnItsPath` | app_model.py:21-36 | assigning any value anywhere off a field's path leaves that field unchanged |
| `AppModel.RemovingOneFieldKeepsTheOthers` | app_model.py:21-36 | taking one field's key out of a feature makes that field `None` and leaves the other three fields unchanged |
| `AppModel.SettingOneFieldKeepsTheOthers` | app_model.py:21-36 | giving one field a new value changes no other field, and that field takes the value whenever the dict holding it exists |
| `AppModel.FieldPathsDiverge` | app_model.py:22-34 | the four field paths pairwise take different subscripts at some position |
| `AppModel.NoAnnouncementGivesEmptyRow` | app_model.py:21-37 | when `announcements[0]` cannot be reached, or is reached but is not a dict, all four fields are `None` |
| `AppModel.MissingOrEmptyAnnouncementsGiveEmptyRow` | app_model.py:21-37 | for every feature: no readable `properties`, no readable `announcements`, or an empty `announcements` list gives the all-`None` row |
| `AppModel.MissingLocationClearsCountryAndDescription` | app_model.py:21-36 | when `announcements[0]['location']` is missing, `countryCode` and `description` are both `None` |
| `AppModel.MissingLocationKeepsRoadAddress` | app_model.py:25-32 | for any two values, some feature lacks `location` yet has them as `municipality` and `road` |
| `AppModel.RemovingLocationKeepsRoadAddress` | app_model.py:21-36 | for every feature, taking `location` out of `announcements[0]` makes `countryCode` and `description` `None` and leaves `municipality` and `road` unchanged |
| `AppModel.RowsOf` | app_model.py:19-37 | one row per item, and row `i` is the row of item `i`, so order is kept |
| `AppModel.RowsOfAppend` | app_model.py:37 | visiting one more item appends exactly that item's row |
| `AppModel.Chars` | app_model.py:19 | iterating a str yields its characters, in order, as one-character strs |
| `AppModel.DictKeys` | app_model.py:19 | iterating a dict yields each of its keys once, as strs |
| `AppModel.IterItems` | app_model.py:19 | the items the `for` loop visits give exactly `FeatureRows(features)`; a list is visited as itself; nothing is visited exactly when `features` is not iterable |
| `AppModel.StrItemGivesEmptyRow` | app_model.py:20-36 | a str item gives the all-`None` row |
| `AppModel.StrItemsGiveEmptyRows` | app_model.py:19-37 | items that are all strs give only all-`None` rows, one per item |
| `AppModel.FeatureRows` | app_model.py:19-37 | a list gives one row per item, in order; a str one all-`None` row per character; a dict one all-`None` row per key; a null, bool or number raises `TypeError` |
| `AppModel.MessageRows` | app_model.py:18-37 | a response that is not a dict raises `TypeError`; a dict without `features` raises `KeyError`; a `features` that is null, bool or number raises `TypeError`; a `features` list gives one row per feature, in order; rows exist only when `features` was present |
| `AppModel.NonListFeaturesGiveEmptyRows` | app_model.py:19-37 | a `features` str or dict gives one all-`None` row per character or per key |
| `JsonTree.LookupAppend` | app_model.py:22-34 | a guarded chain `p + q` is the chain `p` followed by `q` from where `p` led |
| `JsonTree.PrefixFailurePropagates` | app_model.py:21-36 | once a prefix of a chain raises, the whole chain gives `None` |
| `JsonTree.DeleteKeyRemoves` | app_model.py:21-36 | after a key is removed from the dict a path leads to, the chain ending in that key gives `None` |
| `JsonTree.DeleteKeyElsewhere` | app_model.py:21-36 | removing a key leaves every chain that turns away from it unchanged |
| `JsonTree.ReplaceAtSets` | app_model.py:21-36 | assigning under a key of a dict that a chain reaches makes the chain to that key give the assigned value |
| `JsonTree.ReplaceAtElsewhere` | app_model.py:21-36 | assigning at a path leaves every chain that turns away from it unchanged |

## Left out

- The HTTP request (`requests.get`, app_model.py:15) and the JSON decoder (`json.loads`, app_model.py:16). They are foreign I/O. The request is returned as a value and the decoded response is a parameter.
- The way `requests` writes the parameters into the query string (for example the Python value `False` as the text `False`). This is library code; the model stops at the parameter dict.
- Row key order: a row is a map, so the insertion order of the Python row dict (`countryCode`, `municipality`, `road`, `description`) is not kept. The rows hold the same keys and values.
- JSON floating-point numbers. Numbers are modelled as integers, and no field path looks inside a number.
- `DictKeys`: the model yields a dict's keys in an unspecified order, not in Python's insertion order. This does not change `messageData`, because every key gives the same all-`None` row.
- The controller (`app_controller.py`), the views (`app.py`, `app_view.py`) and the bar-chart canvas (`canvas.py`). They are GUI wiring and plotting. The controller calls `get_messages_data`, `get_tasks_data` and `get_conditions_data`, and reads `messages_data`, `tasks_per_day` and `conditions_data`. The `Model` class defines none of these, so they are not modelled.
- The maintenance-task histogram, the road-condition selection, the weather observations and the location bounding-box table. No source for them exists in `app_model.py`.
