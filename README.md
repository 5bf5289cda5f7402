# granoloader mapping engine, modelled in Dafny

granoloader turns the rows of a CSV file into entities and relations of a
Grano graph. A mapping document names the entities and the relations, and
lists the columns that feed each one's properties. For every row,
`MappingLoader.load` does the following:

- It runs one `EntityMapper` per entity, then one `RelationMapper` per relation.
- Each mapper asks the granoclient `Loader` to make the object, sets its
  properties, and saves it.
- A relation whose source or target object is missing is skipped.
- A required column without a value raises `RowException`, which ends the row.

This project models `granoloader/mapping.py` as written:

- `wrappers.dfy`: `Option` and `Result`.
- `pytext.dfy`: the Python text built-ins the mapper relies on.
  - `str.strip`, with the Python 2 unicode whitespace set.
  - `str.lower`.
  - `int()` on text.
- `grano.dfy`: the granoclient loader as a recorder class.
  - Its `trace` lists every `make_entity`, `make_relation`, `set` and `save`
    call, in order.
  - An object handle is the position in the trace of the call that created it.
- `mapping.dfy`: the module itself.
  - The pure helpers are functions: `is_empty`, `convert_type`, `get_value`
    and `get_source`.
  - `load_properties` is a method with a loop. It calls `set` on the loader
    and stops at the first `RowException`.
  - The two mappers are methods.
  - `MappingLoader` is a class whose `Load` runs the two loops over the
    entity and relation mappers and updates `objs`.
  - Each method is proved equal to a specification function over the trace:
    `PropertyCalls`, `EntityRun`, `RelationRun` and `RowRun`.
- `mapping_properties.dfy`: what the module promises, column by column and
  mapper by mapper.
- `row_properties.dfy`: what holds for a whole row.
  - Entities come before relations.
  - The contents of `objs`.
  - Every call in the trace refers only to objects created before it.

Some of the source's behaviour is modelled deliberately, as the code does it:

- `set` always receives the object-level `source_url`. Each column's own
  provenance (`col_source_url`) is computed and then dropped.
- Entities read their schema from the `schemata` key, relations from `schema`.
- `MappingLoader.load` returns nothing. The model's `Load` returns only the
  exception raised, if any.
- A `RowException` is returned as a `RowError` value. The calls made before it
  stay in the trace, so an object whose column raised is made but never saved.

## Model

| member | source | states |
|---|---|---|
| PyText.Strip | granoloader/mapping.py:10 | `strip()` leaves text whose ends are not whitespace; it is empty exactly when the input is all whitespace, and text already without padding is unchanged |
| PyText.Lower | granoloader/mapping.py:27 | `lower()` keeps the length and lower-cases character by character |
| PyText.LowerIdempotent | granoloader/mapping.py:29 | lower-casing twice is lower-casing once |
| PyText.LowerConcat | granoloader/mapping.py:27 | lower-casing distributes over concatenation |
| PyText.StripSlice | granoloader/mapping.py:27 | what `strip()` leaves is a contiguous slice of its input, so it adds no character |
| PyText.LowerStripped | granoloader/mapping.py:27 | `lower().strip()` leaves no surrounding whitespace and no upper-case letter |
| PyText.ParseInt | granoloader/mapping.py:32 | `int()` raises on blank text, and reads text that strips to decimal digits as their value |
| PyText.ParseIntSpaceAfterSign | granoloader/mapping.py:32 | whitespace between the sign and the digits is accepted: `int("- 5") == -5` |
| PyText.ParseShowInt | granoloader/mapping.py:30-34 | `int()` reads back every integer as `str()` writes it |
| PyText.ParseIntIgnoresPadding | granoloader/mapping.py:32 | `int()` ignores surrounding whitespace |
| PyText.StripPadded | granoloader/mapping.py:10 | `strip()` removes exactly the whitespace padding around unpadded text |
| Grano.Loader.constructor | granoloader/mapping.py:114 | a fresh loader has received no call and keeps the document's `source_url` |
| Grano.Loader.MakeEntity | granoloader/mapping.py:87-88 | `make_entity` appends one call to the trace and returns a handle to it |
| Grano.Loader.MakeRelation | granoloader/mapping.py:102-104 | `make_relation` appends one call linking the two endpoint objects and returns a handle to it |
| Grano.Loader.Set | granoloader/mapping.py:79-80 | `set` appends one call on its object |
| Grano.Loader.Save | granoloader/mapping.py:90 | `save` appends one call on its object |
| Mapping.IsEmpty | granoloader/mapping.py:9-12 | a cell is empty exactly when it is `None` or all whitespace |
| Mapping.CellGet | granoloader/mapping.py:54 | `row.get(column)`: the cell's text exactly when the column name is given and is a key of the row, `None` otherwise |
| Mapping.TypeNameAsWritten | granoloader/mapping.py:27 | the type name is `spec.get('type', 'string').lower().strip()`: a missing key reads as `string` |
| Mapping.TypeNameNormal | granoloader/mapping.py:27 | the normalised type name has no surrounding whitespace and no upper-case letter |
| Mapping.KindOfBranches | granoloader/mapping.py:28-48 | each conversion branch is taken exactly for the type names it lists, and the text branch for every other name |
| Mapping.ConvertTypeBranches | granoloader/mapping.py:25-48 | the value has the kind the type name selects; booleans never fail and are true exactly for a truish token; integers, floats and dates are `None` exactly when their parser raises; any other type keeps the raw text |
| Mapping.DefaultKind | granoloader/mapping.py:27 | without a `type` key the type name is `string`, which selects no conversion |
| Mapping.DefaultTypeKeepsText | granoloader/mapping.py:27-48 | without a `type` key `convert_type` returns the raw text |
| Mapping.GetValue | granoloader/mapping.py:50-57 | no column, a missing cell or a blank cell gives `None`; otherwise the cell's text converted by the column's type |
| Mapping.GetSource | granoloader/mapping.py:59-64 | the text of the `source_url_column` cell when it is not blank, otherwise the static `source_url` (possibly `None`) |
| Mapping.ColumnSource | granoloader/mapping.py:70-71 | a column's own provenance: its non-blank cell, else its non-empty static URL, else the object's provenance |
| Mapping.ColumnStepCases | granoloader/mapping.py:73-80 | one column raises exactly when it has no value and is required, with its name and raw cell; is skipped exactly when it has no value, is not required and `skip_empty` holds; otherwise its value is set |
| Mapping.PropertyCalls | granoloader/mapping.py:69-80 | `load_properties` makes no more calls than there are columns |
| Mapping.LoadColumn | granoloader/mapping.py:70-80 | one pass of the loop changes the trace and raises exactly as `ColumnStep` decides: a `set` of the value with the object-level provenance, nothing, or the exception |
| Mapping.NextRunShift | granoloader/mapping.py:73-80 | what one column adds does not depend on the calls made before it |
| Mapping.PropertyCallsStep | granoloader/mapping.py:73-80 | one more column either raises, is skipped, or adds exactly one `set` of its value with the object-level provenance |
| Mapping.PropertyCallsStop | granoloader/mapping.py:74-76 | after a column raises, later columns add no call |
| Mapping.LoadProperties | granoloader/mapping.py:66-80 | the loader's trace grows by exactly the calls of `PropertyCalls`, and the exception returned is the one it names |
| Mapping.EntityRun | granoloader/mapping.py:85-91 | an entity mapper's first call is `make_entity` with the `schemata` key and the object-level provenance, its object is the one that call creates, and it ends with `save` when nothing raised |
| Mapping.LookupGet | granoloader/mapping.py:98-99 | `objs.get(name)`: the stored object for a given name that is a key, `None` for a missing name or key |
| Mapping.RelationRun | granoloader/mapping.py:96-107 | a relation mapper with a missing endpoint makes no call, returns `None` and raises nothing; otherwise its first call is `make_relation` with the `schema` key and both endpoints, and it ends with `save` when nothing raised |
| Mapping.LoadEntity | granoloader/mapping.py:85-91 | the trace grows by exactly `EntityRun`'s calls; the entity is returned unless a column raised |
| Mapping.LoadRelation | granoloader/mapping.py:96-107 | the trace grows by exactly `RelationRun`'s calls; the relation, or `None` when an endpoint is missing, is returned unless a column raised |
| Mapping.RowRun | granoloader/mapping.py:127-135 | an exception in the entity loop ends the row there: no relation mapper runs |
| Mapping.EntityPhaseStop | granoloader/mapping.py:131-132 | once an entity mapper raises, the later entity mappers add nothing |
| Mapping.RelationPhaseStop | granoloader/mapping.py:134-135 | once a relation mapper raises, the later relation mappers add nothing |
| Mapping.RelationPhaseAfterError | granoloader/mapping.py:130-135 | an exception in the entity loop means no relation mapper runs |
| Mapping.MappingLoader.constructor | granoloader/mapping.py:112-115 | a fresh loader with an empty trace, whose default provenance is the document's `source_url` |
| Mapping.MappingLoader.Load | granoloader/mapping.py:117-135 | the trace grows by exactly `RowRun`'s calls (every entity mapper in order, then every relation mapper in order) and the first exception is returned |
| MappingProperties.BoolColumn | granoloader/mapping.py:27-29 | a boolean column is true exactly when the lower-cased text is in `BOOL_TRUISH`, never `None`, and ignores letter case |
| MappingProperties.BoolRoundTrip | granoloader/mapping.py:27-29 | `true` and `false` read back as the booleans they name, since `true` is in `BOOL_TRUISH` and `false` is not |
| MappingProperties.TypeNameNormalised | granoloader/mapping.py:27 | whitespace around the `type` key and upper-case letters in it do not change the type name |
| MappingProperties.IntRoundTrip | granoloader/mapping.py:30-34 | an integer column reads back every integer written in decimal |
| MappingProperties.IntColumn | granoloader/mapping.py:30-34 | an integer column is the `int()` value, or `None` where `int()` raises |
| MappingProperties.UnknownTypeKeepsText | granoloader/mapping.py:48 | a type name no branch tests for keeps the raw text |
| MappingProperties.SingleColumn | granoloader/mapping.py:73-80 | a missing required value raises even when `skip_empty` is set; a missing optional value is skipped or set to `None`; any present value, `False` and `0` included, is set once with the object-level provenance |
| MappingProperties.DefaultsSkipAbsent | granoloader/mapping.py:77-78 | with neither `required` nor `skip_empty` given, a blank cell makes no call and raises nothing |
| MappingProperties.PropertyCallsAreSets | granoloader/mapping.py:79-80 | every call `load_properties` makes is a `set` on its object with the object-level provenance, and there are no more calls than columns |
| MappingProperties.PropertyCallsFail | granoloader/mapping.py:74-76 | `load_properties` raises exactly when some required column has no value, and the exception names the first such column and its raw cell |
| MappingProperties.PropertyCallsAppend | granoloader/mapping.py:69-80 | the columns are processed in order: two column lists give the calls of the first, then those of the second unless the first raised |
| MappingProperties.ColumnSourceIgnored | granoloader/mapping.py:70-80 | a column's own `source_url` and `source_url_column` change nothing `load_properties` does |
| MappingProperties.StepWithoutSource | granoloader/mapping.py:70-78 | the per-column decision does not depend on the column's provenance keys |
| MappingProperties.SameValue | granoloader/mapping.py:50-57 | `get_value` reads only the `column`, `type` and `format` keys |
| MappingProperties.EntityCalls | granoloader/mapping.py:85-91 | `make_entity` once with the `schemata` key, then only `set` calls on the new entity, then `save` exactly when no column raised |
| MappingProperties.RelationSkipped | granoloader/mapping.py:97-101 | a relation with its source or target missing makes no call, returns `None` and raises nothing |
| MappingProperties.RelationCalls | granoloader/mapping.py:102-107 | `make_relation` once with the `schema` key and both endpoint objects, then only `set` calls on the new relation, then `save` exactly when no column raised |
| RowProperties.EntityStepSound | granoloader/mapping.py:85-91 | one entity mapper keeps the row state sound: the trace stays well formed (every call refers only to objects made earlier) and `objs` points only at created objects |
| RowProperties.RelationStepSound | granoloader/mapping.py:96-107 | one relation mapper keeps the row state sound: the trace stays well formed (every call refers only to objects made earlier) and `objs` points only at created objects |
| RowProperties.EntityPhaseSound | granoloader/mapping.py:131-132 | the entity loop keeps the trace well formed and `objs` pointing at created objects |
| RowProperties.RelationPhaseSound | granoloader/mapping.py:134-135 | the relation loop keeps the trace well formed and `objs` pointing at created objects |
| RowProperties.RowRunWellFormed | granoloader/mapping.py:127-135 | loading a row never refers to an object that was not created earlier in the trace |
| RowProperties.EntityStepShape | granoloader/mapping.py:132 | an entity mapper appends no `make_relation` and, unless it raised, records under its own name the entity made by its own `make_entity` call |
| RowProperties.EntityPhaseShape | granoloader/mapping.py:130-132 | the entity loop only appends, makes no relation, and fills `objs` with one made entity per entity name (all of them unless a mapper raised) |
| RowProperties.EntityPhaseObjs | granoloader/mapping.py:130-132 | once the entity loop has run without an exception, the name of entity mapper `j` (the last mapper with that name) holds the handle of the call at the position where the first `j` mappers left the trace, and that call is mapper `j`'s own `make_entity` with its `schemata` and source URL |
| RowProperties.EntityStepKeeps | granoloader/mapping.py:132 | an entity mapper leaves every other name's object, and the call that made it, unchanged |
| RowProperties.RowEntities | granoloader/mapping.py:127-135 | once the entity loop has raised nothing, each entity name holds the entity made at its own mapper's position, and that `make_entity` call stays in the row's trace whatever the relation loop then does |
| RowProperties.RelationStepShape | granoloader/mapping.py:96-107 | a relation mapper appends no `make_entity` and overwrites only its own name in `objs`; when it raises nothing, that name holds the relation made at the end of the old trace, or `None` when an endpoint is missing |
| RowProperties.RelationPhaseObjs | granoloader/mapping.py:134-135 | once the relation loop has run without an exception, the name of relation mapper `j` (the last mapper with that name) holds what its `load` returned: the relation made at the position where the first `j` mappers left the trace, or `None` when an endpoint was missing at its turn |
| RowProperties.RelationPhaseShape | granoloader/mapping.py:134-135 | the relation loop only appends, makes no entity, adds only relation names to `objs` and leaves every other name as the entity loop stored it |
| RowProperties.EntitiesBeforeRelations | granoloader/mapping.py:127-135 | a row's calls are an entity part without `make_relation` followed by a relation part without `make_entity`; an entity exception ends the row |
| RowProperties.RelationPhasePrefix | granoloader/mapping.py:134-135 | each relation mapper only appends to what the earlier ones produced |
| RowProperties.RelationMade | granoloader/mapping.py:96-104 | a relation whose endpoints are in `objs` when its turn comes, and no earlier relation mapper raised, is made with those objects by the call right after the earlier mappers' calls, even if its own columns or a later mapper then raise |
| RowProperties.RelationSeesEntities | granoloader/mapping.py:130-135 | when no relation reuses an entity's name, and neither the entity loop nor an earlier relation mapper raised, a relation whose endpoints name entities is made between the entities the first loop created for them; each endpoint is the entity made at the position of the entity mapper with that name, and the `make_relation` call sits right after the earlier relation mappers' calls |
| RowProperties.OneEntityRun | granoloader/mapping.py:85-91 | one entity with one required text column on a non-blank cell: make, set the raw text, save |
| RowProperties.OneEntityLoaded | granoloader/mapping.py:127-132 | the same mapping loads the row into exactly those three calls and records the entity in `objs` |
| RowProperties.OneEntityBlank | granoloader/mapping.py:74-76 | with a blank cell the entity is made, never saved, and the exception carries the column and its raw text |

## Left out

- granoloader/command.py is not part of this model. It holds the CLI: file reading, YAML and CSV parsing, the progress bar, and the loop that aborts on the first `RowException` unless `--force` is given. All of it is I/O around `MappingLoader.load`.
- setup.py is packaging metadata only.
- Float coercion is not modelled. `float(value)` is a parameter: a partial function that returns `None` where Python raises.
- Non-finite floats are not modelled. `float` succeeds on `nan`, `inf` and out-of-range numerals such as `1e400`, but the model's parameter returns a `real`, and no `real` stands for those results.
- Date coercion through `datetime.strptime` and `dateutil.parser.parse` is not modelled. Both are parameters of the same kind: a result, or `None` for any exception.
- PyText.ParseInt: reads surrounding whitespace, one optional sign, whitespace again after the sign, and ASCII decimal digits. Python 2.7's `int()` on a `unicode` value also reads decimal digits of other scripts; the model gives `None` for those. There is no fixed width, because Python integers are unbounded.
- PyText.Lower: lower-cases ASCII letters only. Python's `unicode.lower()` also maps other scripts. This affects only type names written with non-ASCII capitals.
- The granoclient `Loader` and its objects are modelled only as a recorder of the calls they receive. Their network traffic and the server's behaviour are not modelled.
- The `entities` and `relations` dictionaries are modelled as sequences of (name, model) pairs in iteration order. Python 2 dictionary order is not modelled.
- Keys and values of the mapping document are modelled as text only. YAML loads an unquoted number such as `2015` as an `int`, so `row.get(2015)` never matches a CSV header, and a numeric `type` has no `.lower()`.
- A key present with the value `None` is modelled as an absent key. In Python, `spec.get('type', 'string')` would then return `None` and `.lower()` would raise. Likewise `'format' in spec` with a `None` format would pass `None` to `strptime`, and a missing `columns` list would raise `TypeError`.
- A mapping document without an `entities` or `relations` key, or with one set to null, is modelled as having an empty list. In the source, `.items()` on `None` raises `AttributeError` (mapping.py:119 and 124). For `relations` this happens after every entity of the row has been made and saved. The CLI catches only `GranoException` and `RowException`, so the run stops at the first row.
- `required` and `skip_empty` are modelled as booleans. The source tests their truthiness (mapping.py:74 and 77), so a quoted `'false'` counts as true there.
- PyText.Strip: strips with the `unicode` whitespace set. Under Python 2, YAML returns an ASCII `type` name as a byte `str`, and a byte string's `strip()` keeps the characters U+001C to U+001F. This affects only type names padded with those control characters.
- The exception's message text is modelled by the two values it formats: the column name and the raw cell.
