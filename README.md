# EQL demo tool: record sanitisation and event wrapping

This project models the part of `EQLSearch` (in `eql_demo_tool.py`) that the
repository itself implements. That part takes parsed JSON or YAML records,
turns date values into strings when the data came from YAML, wraps each
record into an `eql.Event`, and hands the result to the EQL engine. It also
checks the `data_type` argument. Query parsing and matching belong to the
external `eql` library. They enter the model only as a parameter.

Modules:

- `Wrappers` (`wrappers.dfy`): `Option` and `Result`.
- `Tree` (`tree.dfy`): the value model and the generic walk, `_traverse_dict`.
  A value is a `Node`: a dict (`Map`, a sequence of entries in insertion
  order), a `List`, or a `Leaf` holding a `Scalar` (string, int, float, bool,
  null, date/datetime). A callback is a total function `Node -> Node`, and
  "no callback" is `None`. `Traverse` and `Rebuild` mirror the function and
  its local `value`: children are walked first, then the callback is applied
  to the rebuilt node. `TraverseLogged` runs the same walk and also records
  every argument the callback receives, in the order Python calls it.
  `PostOrder` and
  `MapLeaves` are independent reference definitions the walk is proved
  against.
- `DateSerializer` (`dates.dfy`): `_serialize_date` and its `_transformer`.
  `str(date)` is the parameter `render`.
- `EqlSearch` (`search.dfy`): `_create_events`, written as a method with the
  source's append loop and proved against the function `CreatedEvents`, and
  `search`, written as a method. What `_create_events` returns is one list
  whose elements are either the records themselves or the events wrapping
  them, as in Python, where both are plain lists. `search` takes the query engine as the
  parameter `engine` and keeps the source's defaults
  (`data_type='json'`, `event_type=None`, `timestamp_key=0`).

The docstring of `_traverse_dict` (line 94) calls the callback "the
function that will be called to modify a value", and the comment at line 119
says it "gets called for every value in the dictionary". The code calls it on
every rebuilt node, dicts and lists included, after their children (lines
106-110). The model follows the code: `Tree.CallbackOncePerNodePostOrder`
states what the code does. `Tree.TraverseLeafOnly` shows that the walk
rewrites leaves only whenever the callback leaves dicts and lists alone, as
`_transformer` does. The dict comprehension at line 98 keeps insertion order,
and so does the model.

## Model

| member | source | states |
|---|---|---|
| Tree.TraverseWithoutCallback | eql_demo_tool.py:97-108 | With no callback, the walk returns a structure equal to its input, at every depth. |
| Tree.TraverseIdentityCallback | eql_demo_tool.py:97-110 | With the identity callback, the walk also returns its input unchanged. |
| Tree.TraverseKeepsShape | eql_demo_tool.py:97-110 | If the callback keeps the shape of every node it is given, the whole walk keeps the input's shape at every depth: same dict keys in the same order, same list lengths, leaves where the leaves were. |
| Tree.CallbackOncePerNodePostOrder | eql_demo_tool.py:97-110 | The walk run with a log of the callback's arguments returns what `_traverse_dict` returns. The callback is called exactly once per node of the input, dicts and lists included. The calls come in post-order, children left to right. Each call receives that node with its children already walked. |
| Tree.TraverseLeafOnly | eql_demo_tool.py:97-110 | If a callback leaves every dict and list unchanged and sends each leaf to a leaf, the walk equals rewriting every scalar leaf with that map and changing nothing else. |
| Tree.SameShapeKeepsWellFormed | eql_demo_tool.py:97-99 | Two trees of the same shape have the same dict keys, so one has no duplicate key exactly when the other has none. |
| DateSerializer.SerializeDateRewritesLeaves | eql_demo_tool.py:112-126 | Serialising equals rewriting the leaves only: a date becomes its string and every other scalar is kept. |
| DateSerializer.SerializeDateSameShape | eql_demo_tool.py:97-126 | The serialised tree has the input's shape (keys, key order, list lengths, leaf positions). It has duplicate dict keys exactly when the input does. |
| DateSerializer.SerializeDateCharacterised | eql_demo_tool.py:97-126 | A tree is the serialisation of the input if and only if every date leaf `d` is replaced by `render(d)` and every other value is equal to the original. |
| DateSerializer.SerializeDateRemovesDates | eql_demo_tool.py:120-126 | After serialising, no date or datetime value remains anywhere in the tree (dict keys are strings in this model). |
| DateSerializer.SerializeDateFixesDateFree | eql_demo_tool.py:120-126 | A tree with no dates, which includes every JSON tree, comes back unchanged. |
| DateSerializer.SerializeDateIdempotent | eql_demo_tool.py:120-126 | Serialising twice gives the same result as serialising once. |
| DateSerializer.SerializeDateOfList | eql_demo_tool.py:100-110 | Serialising a list gives a list of the same length. Its i-th element is the serialisation of the i-th record, and the list itself is passed through by the transformer. |
| EqlSearch.Sanitise | eql_demo_tool.py:21-22 | For `'yaml'`, each record is replaced by its serialisation and the count is kept. For every other data type, the records are passed on untouched. |
| EqlSearch.WrapInOrder | eql_demo_tool.py:29-30 | The append loop yields one event per record, in order. The i-th event is `(event_type, timestamp_key, items[i])`. |
| EqlSearch.CreatedEventsContents | eql_demo_tool.py:19-32 | The result is a list as long as `data`. When `event_type` is falsy its i-th element is the i-th sanitised record itself. Otherwise it is the event built from `event_type`, `timestamp_key` and the i-th sanitised record. |
| EqlSearch.CreatedEventsEmpty | eql_demo_tool.py:19-32 | Empty data gives the same empty list whether or not an event type is given. |
| EqlSearch.CreatedEventsUntouchedUnlessYaml | eql_demo_tool.py:21-26 | When the data type is not `'yaml'`, every element carries the input record untouched, and a falsy event type gives back `data` itself. |
| EqlSearch.CreatedEventsDateFreeForYaml | eql_demo_tool.py:21-32 | For YAML data, no record or event payload handed on holds a date value. |
| EqlSearch.CreateEvents | eql_demo_tool.py:10-32 | The loop that appends one event per record returns exactly `CreatedEvents` of its inputs. It returns one element per record: the records themselves when the event type is falsy, otherwise one event each. |
| EqlSearch.Search | eql_demo_tool.py:67-88 | It fails if and only if `data_type` is neither `'json'` nor `'yaml'`. The failure is a ValueError with the source's message, and it does not depend on the data or the engine. Otherwise the result is the engine's answer on the events `_create_events` builds. |

## Left out

- `_execute_eql_query` (schema learning, query parsing, the Python engine, output hooks, and the diagnostics printed on an `EqlError`) is made only of calls into the `eql` library and printing. It is the parameter `engine`, a function from the created events and the query to an optional list of matched records.
- `str()` of a `datetime.date` or `datetime.datetime` is library formatting. It is the parameter `render`.
- The internals of the `eql.Event` constructor are not modelled. An event is an opaque triple.
- The `__main__` demo (file reading, `json.load`, `yaml.safe_load`, printing) is not modelled.
- `data` is modelled as a list of records, as documented. A dict passed as `data` would have its keys iterated by the `for` loop, and the model does not cover that case.
- Dict keys are strings. YAML can produce other key types, including a `datetime.date` for a date-like key. Line 98 copies keys unchanged and `_transformer` never sees one, so in the source such a date key survives `_serialize_date` and reaches the engine. `DateFree`, `DateSerializer.SerializeDateRemovesDates` and `EqlSearch.CreatedEventsDateFreeForYaml` speak of date values only.
- Scalars cover strings, ints, floats, booleans, null, dates and datetimes. Other YAML leaf types, such as binary data or sets, would be kept as leaves by the walk and are not modelled separately. Dates inside a YAML set stay dates in the source, because the set is a leaf.
- `event_type` is modelled as an optional string. "Falsy" means absent or empty. Other falsy Python objects are not modelled.
- The callback is a total, pure function. An exception raised by a callback would propagate to the caller, and the model does not cover it.
- Recursion depth limits and cyclic inputs are not modelled. Nodes are finite trees by construction.
