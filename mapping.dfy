/**
 * The row-to-graph mapping engine (granoloader/mapping.py): one CSV row and
 * one mapping document in, a sequence of calls to the Grano loader out.
 *
 * The Python exception `RowException` is modelled as a returned `RowError`;
 * the calls made before the exception stay in the loader's trace.
 */
module Mapping {
  import opened Wrappers
  import opened PyText
  import opened Grano

  /** `BOOL_TRUISH`: the lower-cased texts a boolean column reads as true. */
  const BoolTruish: seq<string> := ["t", "true", "yes", "y", "1"]

  const BoolTypes: seq<string> := ["bool", "boolean"]
  const IntTypes: seq<string> := ["int", "integer"]
  const FloatTypes: seq<string> := ["float", "decimal", "real"]
  const DateTypes: seq<string> := ["date", "datetime", "timestamp"]

  /** One parsed CSV row: column name to raw cell text. */
  type Row = map<string, string>

  /** `row.get(column)`: `None` for a missing key and for a missing column name. */
  function Cell(row: Row, column: Option<string>): Option<string> {
    if column.Some? && column.value in row then Some(row[column.value]) else None
  }

  /** A cell is present exactly when its column is named and is a key of the row, and then it is that key's text. */
  lemma CellGet(row: Row, column: Option<string>)
    ensures var r := Cell(row, column);
      && (r.Some? <==> column.Some? && column.value in row)
      && (r.Some? ==> r.value == row[column.value])
  {
  }

  /**
   * One entry of an object's `columns` list. Every field is a key of the
   * YAML mapping that may be absent; `None` stands for an absent key.
   */
  datatype ColumnSpec = ColumnSpec(
    column: Option<string>,
    property: Option<string>,
    typeName: Option<string>,
    format: Option<string>,
    required: Option<bool>,
    skipEmpty: Option<bool>,
    sourceUrl: Option<string>,
    sourceUrlColumn: Option<string>)

  /** `column.get('required', False)`. */
  function Required(c: ColumnSpec): bool {
    c.required.GetOr(false)
  }

  /** `column.get('skip_empty', True)`. */
  function SkipEmpty(c: ColumnSpec): bool {
    c.skipEmpty.GetOr(true)
  }

  /**
   * The model of one entity or relation. Entities read their schema from
   * `schemata`, relations from `schema`; only relations use `source` and `target`.
   */
  datatype ObjectModel = ObjectModel(
    schemata: Option<string>,
    schema: Option<string>,
    source: Option<string>,
    target: Option<string>,
    sourceUrl: Option<string>,
    sourceUrlColumn: Option<string>,
    columns: seq<ColumnSpec>)

  /** The mapping document: `entities` and `relations` in declaration order. */
  datatype MappingModel = MappingModel(
    sourceUrl: Option<string>,
    entities: seq<(string, ObjectModel)>,
    relations: seq<(string, ObjectModel)>)

  /**
   * The foreign parsers `convert_type` calls: `float(value)`,
   * `datetime.strptime(value, format)` and `dateutil.parser.parse(value)`.
   * Each gives `None` where the Python call raises.
   */
  datatype Parsers = Parsers(
    toFloat: string -> Option<real>,
    strptime: (string, string) -> Option<DateTime>,
    parseDate: string -> Option<DateTime>)

  /** `RowException('<column> is not valid: <raw cell>')`. */
  datatype RowError = RowError(column: Option<string>, raw: Option<string>)

  /** `is_empty(value)`: `None`, or nothing left after `strip()`. */
  predicate IsEmpty(value: Option<string>)
    ensures IsEmpty(value) <==> value.None? || AllSpace(value.value)
  {
    value.None? || |Strip(value.value)| == 0
  }

  /**
   * `spec.get('type', 'string').lower().strip()`. The default `string` is
   * already lower case and unpadded (`DefaultTypeName`), so it is used as it is.
   */
  function TypeName(c: ColumnSpec): string {
    if c.typeName.Some? then Strip(Lower(c.typeName.value)) else "string"
  }

  /** The type name is the `type` key, `string` by default, lower-cased and stripped. */
  lemma TypeNameAsWritten(c: ColumnSpec)
    ensures TypeName(c) == Strip(Lower(c.typeName.GetOr("string")))
  {
    if c.typeName.None? {
      DefaultTypeName();
    }
  }

  /** A normalised type name has no surrounding whitespace and no upper-case letter. */
  lemma TypeNameNormal(c: ColumnSpec)
    ensures var r := TypeName(c);
      (r == [] || (!IsSpace(r[0]) && !IsSpace(r[|r| - 1]))) && NoUpper(r)
  {
    if c.typeName.Some? {
      LowerStripped(c.typeName.value);
    } else {
      DefaultTypeName();
      LowerStripped("string");
    }
  }

  /** The branch of `convert_type` a normalised type name selects. */
  datatype Kind = BoolKind | IntKind | FloatKind | DateKind | TextKind

  function KindOf(dataType: string): Kind {
    if dataType in BoolTypes then BoolKind
    else if dataType in IntTypes then IntKind
    else if dataType in FloatTypes then FloatKind
    else if dataType in DateTypes then DateKind
    else TextKind
  }

  /** An absent `type` is `string`, which no branch names: the raw text is kept. */
  lemma DefaultKind(c: ColumnSpec)
    requires c.typeName.None?
    ensures KindOf(TypeName(c)) == TextKind
  {
    StringKind();
  }

  /** The default type name is already lower case and stripped. */
  lemma DefaultTypeName()
    ensures Strip(Lower("string")) == "string"
  {
    PlainNormal("string");
  }

  /** `string` is none of the type names `convert_type` tests for. */
  lemma StringKind()
    ensures KindOf("string") == TextKind
  {
    assert forall t | t in BoolTypes + IntTypes + FloatTypes + DateTypes :: |t| != |"string"|;
  }

  /** A column spec with nothing but a `column` key: `{'column': column}`. */
  function PlainColumn(column: Option<string>): ColumnSpec {
    ColumnSpec(column, None, None, None, None, None, None, None)
  }

  /** The branch of `convert_type` that produces a value of this kind. */
  function KindOfValue(v: Value): Kind {
    match v
    case Bool(_) => BoolKind
    case Int(_) => IntKind
    case Float(_) => FloatKind
    case Date(_) => DateKind
    case Str(_) => TextKind
  }

  /**
   * `ObjectMapper.convert_type(value, spec)`: the value has the kind the type
   * name selects; only the parsing branches give `None`, exactly when their
   * parser raises; booleans never fail and text comes back unchanged.
   */
  function ConvertType(value: string, c: ColumnSpec, p: Parsers): Option<Value> {
    ConvertKind(value, KindOf(TypeName(c)), c.format, p)
  }

  /**
   * The value has the kind the type name selects; only the parsing branches
   * give `None`, exactly when their parser raises; booleans never fail and
   * text comes back unchanged.
   */
  lemma ConvertTypeBranches(value: string, c: ColumnSpec, p: Parsers)
    ensures var r := ConvertType(value, c, p);
            var k := KindOf(TypeName(c));
      && (r.Some? ==> KindOfValue(r.value) == k)
      && (k == TextKind ==> r == Some(Str(value)))
      && (k == BoolKind ==> r == Some(Bool(Lower(value) in BoolTruish)))
      && (k == IntKind ==> (r.Some? <==> ParseInt(value).Some?) && (r.Some? ==> r.value.i == ParseInt(value).value))
      && (k == FloatKind ==> (r.Some? <==> p.toFloat(value).Some?) && (r.Some? ==> r.value.x == p.toFloat(value).value))
      && (k == DateKind ==>
            var parsed := if c.format.Some? then p.strptime(value, c.format.value) else p.parseDate(value);
            (r.Some? <==> parsed.Some?) && (r.Some? ==> r.value.when == parsed.value))
  {
    ConvertKindBranches(value, KindOf(TypeName(c)), c.format, p);
  }

  lemma ConvertKindBranches(value: string, k: Kind, format: Option<string>, p: Parsers)
    ensures var r := ConvertKind(value, k, format, p);
      && (r.Some? ==> KindOfValue(r.value) == k)
      && (k == TextKind ==> r == Some(Str(value)))
      && (k == BoolKind ==> r == Some(Bool(Lower(value) in BoolTruish)))
      && (k == IntKind ==> (r.Some? <==> ParseInt(value).Some?) && (r.Some? ==> r.value.i == ParseInt(value).value))
      && (k == FloatKind ==> (r.Some? <==> p.toFloat(value).Some?) && (r.Some? ==> r.value.x == p.toFloat(value).value))
      && (k == DateKind ==>
            var parsed := if format.Some? then p.strptime(value, format.value) else p.parseDate(value);
            (r.Some? <==> parsed.Some?) && (r.Some? ==> r.value.when == parsed.value))
  {
  }

  /** Each branch is taken exactly for the type names it lists. */
  lemma KindOfBranches(dataType: string)
    ensures var k := KindOf(dataType);
      && (k == BoolKind <==> dataType in BoolTypes)
      && (k == IntKind <==> dataType in IntTypes)
      && (k == FloatKind <==> dataType in FloatTypes)
      && (k == DateKind <==> dataType in DateTypes)
      && (k == TextKind <==> dataType !in BoolTypes + IntTypes + FloatTypes + DateTypes)
  {
  }

  /** Without a `type` key the raw text is returned unchanged. */
  lemma DefaultTypeKeepsText(value: string, c: ColumnSpec, p: Parsers)
    requires c.typeName.None?
    ensures ConvertType(value, c, p) == Some(Str(value))
  {
    DefaultKind(c);
  }

  /** The branches of `convert_type`, once the type name has been normalised. */
  function ConvertKind(value: string, kind: Kind, format: Option<string>, p: Parsers): (r: Option<Value>)
  {
    match kind
    case BoolKind => Some(Bool(Lower(value) in BoolTruish))
    case IntKind =>
      (match ParseInt(value)
       case Some(n) => Some(Int(n))
       case None => None)
    case FloatKind =>
      (match p.toFloat(value)
       case Some(x) => Some(Float(x))
       case None => None)
    case DateKind =>
      var parsed := if format.Some? then p.strptime(value, format.value) else p.parseDate(value);
      (match parsed
       case Some(d) => Some(Date(d))
       case None => None)
    case TextKind => Some(Str(value))
  }

  /** `ObjectMapper.get_value(spec, row)`: blank cells never reach `ConvertType`. */
  function GetValue(c: ColumnSpec, row: Row, p: Parsers): (r: Option<Value>)
    ensures IsEmpty(Cell(row, c.column)) ==> r.None?
    ensures !IsEmpty(Cell(row, c.column)) ==> r == ConvertType(Cell(row, c.column).value, c, p)
  {
    if c.column.None? then None
    else
      var value := Cell(row, c.column);
      if IsEmpty(value) then None else ConvertType(value.value, c, p)
  }

  /**
   * `ObjectMapper.get_source(spec, row)` for a spec whose `source_url_column`
   * and `source_url` keys are given: the cell's raw text when it is not blank,
   * otherwise the static URL.
   */
  function GetSource(sourceUrlColumn: Option<string>, sourceUrl: Option<string>, row: Row, p: Parsers): (r: Option<string>)
    ensures r == if IsEmpty(Cell(row, sourceUrlColumn)) then sourceUrl else Cell(row, sourceUrlColumn)
  {
    var column := PlainColumn(sourceUrlColumn);
    var value := GetValue(column, row, p);
    assert !IsEmpty(Cell(row, sourceUrlColumn)) ==> value == Some(Str(Cell(row, sourceUrlColumn).value)) by {
      if !IsEmpty(Cell(row, sourceUrlColumn)) {
        DefaultTypeKeepsText(Cell(row, sourceUrlColumn).value, column, p);
      }
    }
    match value
    case Some(Str(s)) => Some(s)
    case _ => sourceUrl
  }

  /** The object-level provenance of an entity or relation model. */
  function SourceOf(m: ObjectModel, row: Row, p: Parsers): Option<string> {
    GetSource(m.sourceUrlColumn, m.sourceUrl, row, p)
  }

  /**
   * `get_source(column, row) or source_url`: a column's own provenance, falling
   * back to the object's when it is `None` or empty.
   */
  function ColumnSource(c: ColumnSpec, row: Row, p: Parsers, objectSource: Option<string>): (r: Option<string>)
    ensures !IsEmpty(Cell(row, c.sourceUrlColumn)) ==> r == Cell(row, c.sourceUrlColumn)
    ensures IsEmpty(Cell(row, c.sourceUrlColumn)) && c.sourceUrl.Some? && c.sourceUrl.value != "" ==> r == c.sourceUrl
    ensures IsEmpty(Cell(row, c.sourceUrlColumn)) && (c.sourceUrl.None? || c.sourceUrl.value == "") ==> r == objectSource
  {
    var own := GetSource(c.sourceUrlColumn, c.sourceUrl, row, p);
    if own.Some? && own.value != "" then own else objectSource
  }

  /** What `load_properties` does with one column. */
  datatype Step = Assign(value: Option<Value>) | Skip | Fail(error: RowError)

  /** The body of the `load_properties` loop for one column: the required check, then the skip check. */
  function ColumnStep(c: ColumnSpec, row: Row, p: Parsers): Step {
    var value := GetValue(c, row, p);
    if value.None? && Required(c) then Fail(RowError(c.column, Cell(row, c.column)))
    else if value.None? && SkipEmpty(c) then Skip
    else Assign(value)
  }

  /**
   * A column raises exactly when it has no value and is required, is skipped
   * exactly when it has no value, is not required and `skip_empty` holds,
   * and otherwise has its value set.
   */
  lemma ColumnStepCases(c: ColumnSpec, row: Row, p: Parsers)
    ensures var r := ColumnStep(c, row, p);
            var value := GetValue(c, row, p);
      && (r.Fail? <==> value.None? && Required(c))
      && (r.Fail? ==> r.error == RowError(c.column, Cell(row, c.column)))
      && (r.Skip? <==> value.None? && !Required(c) && SkipEmpty(c))
      && (r.Assign? ==> r.value == value)
  {
  }

  /** The calls a piece of work made, and the exception that ended it, if any. */
  datatype Run = Run(calls: seq<Call>, error: Option<RowError>)

  /**
   * The calls `load_properties` makes on `obj` for `columns`, in order,
   * with `sourceUrl` the object-level provenance.
   */
  function PropertyCalls(obj: Handle, columns: seq<ColumnSpec>, row: Row, p: Parsers, sourceUrl: Option<string>): (r: Run)
    ensures |r.calls| <= |columns|
  {
    if columns == [] then Run([], None)
    else
      var before := PropertyCalls(obj, columns[..|columns| - 1], row, p, sourceUrl);
      var c := columns[|columns| - 1];
      if before.error.Some? then before
      else NextRun(obj, before.calls, c, row, p, sourceUrl)
  }

  /** The calls so far, extended by what `ColumnStep` decides for column `c`. */
  function NextRun(obj: Handle, before: seq<Call>, c: ColumnSpec, row: Row, p: Parsers, sourceUrl: Option<string>): Run {
    match ColumnStep(c, row, p)
    case Assign(v) => Run(before + [Set(obj, c.property, v, sourceUrl)], None)
    case Skip => Run(before, None)
    case Fail(e) => Run(before, Some(e))
  }

  /** Once a column has raised, later columns add nothing. */
  lemma {:induction false} PropertyCallsStop(obj: Handle, columns: seq<ColumnSpec>, k: nat, row: Row, p: Parsers, sourceUrl: Option<string>)
    requires k <= |columns|
    requires PropertyCalls(obj, columns[..k], row, p, sourceUrl).error.Some?
    ensures PropertyCalls(obj, columns, row, p, sourceUrl) == PropertyCalls(obj, columns[..k], row, p, sourceUrl)
  {
    if k < |columns| {
      var shorter := columns[..|columns| - 1];
      assert shorter[..k] == columns[..k];
      PropertyCallsStop(obj, shorter, k, row, p, sourceUrl);
    } else {
      assert columns[..k] == columns;
    }
  }

  /** One more column extends the calls by what `ColumnStep` decides for it. */
  lemma PropertyCallsNext(obj: Handle, columns: seq<ColumnSpec>, i: nat, row: Row, p: Parsers, sourceUrl: Option<string>)
    requires i < |columns|
    requires PropertyCalls(obj, columns[..i], row, p, sourceUrl).error.None?
    ensures PropertyCalls(obj, columns[..i + 1], row, p, sourceUrl)
         == NextRun(obj, PropertyCalls(obj, columns[..i], row, p, sourceUrl).calls, columns[i], row, p, sourceUrl)
  {
    assert columns[..i + 1][..i] == columns[..i];
  }

  /** The three outcomes of one more column: it raises, it is skipped, or it is set. */
  lemma PropertyCallsStep(obj: Handle, columns: seq<ColumnSpec>, i: nat, row: Row, p: Parsers, sourceUrl: Option<string>)
    requires i < |columns|
    requires PropertyCalls(obj, columns[..i], row, p, sourceUrl).error.None?
    ensures var c := columns[i];
            var value := GetValue(c, row, p);
            var before := PropertyCalls(obj, columns[..i], row, p, sourceUrl).calls;
            var after := PropertyCalls(obj, columns[..i + 1], row, p, sourceUrl);
      && (value.None? && Required(c) ==> after == Run(before, Some(RowError(c.column, Cell(row, c.column)))))
      && (value.None? && !Required(c) && SkipEmpty(c) ==> after == Run(before, None))
      && (value.Some? || (!Required(c) && !SkipEmpty(c)) ==> after == Run(before + [Set(obj, c.property, value, sourceUrl)], None))
  {
    PropertyCallsNext(obj, columns, i, row, p, sourceUrl);
  }

  /** `ObjectMapper.load_properties(obj, row)` against the loader that created `obj`. */
  method LoadProperties(loader: Loader, obj: Handle, model: ObjectModel, row: Row, p: Parsers)
    returns (error: Option<RowError>)
    modifies loader
    ensures var r := PropertyCalls(obj, model.columns, row, p, SourceOf(model, row, p));
            loader.trace == old(loader.trace) + r.calls && error == r.error
  {
    var sourceUrl := GetSource(model.sourceUrlColumn, model.sourceUrl, row, p);
    var columns := model.columns;
    for i := 0 to |columns|
      invariant PropertyCalls(obj, columns[..i], row, p, sourceUrl).error.None?
      invariant loader.trace == old(loader.trace) + PropertyCalls(obj, columns[..i], row, p, sourceUrl).calls
    {
      ghost var before := PropertyCalls(obj, columns[..i], row, p, sourceUrl).calls;
      PropertyCallsNext(obj, columns, i, row, p, sourceUrl);
      NextRunShift(obj, old(loader.trace), before, columns[i], row, p, sourceUrl);
      var e := LoadColumn(loader, obj, columns[i], row, p, sourceUrl);
      if e.Some? {
        PropertyCallsStop(obj, columns, i + 1, row, p, sourceUrl);
        return e;
      }
    }
    assert columns[..|columns|] == columns;
    return None;
  }

  /**
   * One pass of the `load_properties` loop: the column's value, the required
   * check, the skip check, then `set` with the object-level provenance.
   */
  method LoadColumn(loader: Loader, obj: Handle, column: ColumnSpec, row: Row, p: Parsers, sourceUrl: Option<string>)
    returns (error: Option<RowError>)
    modifies loader
    ensures var r := NextRun(obj, old(loader.trace), column, row, p, sourceUrl);
            loader.trace == r.calls && error == r.error
  {
    // The per-column provenance is worked out and then never used.
    var colSourceUrl := ColumnSource(column, row, p, sourceUrl);

    var value := GetValue(column, row, p);
    if value.None? && Required(column) {
      return Some(RowError(column.column, Cell(row, column.column)));
    }
    if value.None? && SkipEmpty(column) {
      return None;
    }
    loader.Set(obj, column.property, value, sourceUrl);
    return None;
  }

  /** What one column adds does not depend on the calls before it. */
  lemma NextRunShift(obj: Handle, a: seq<Call>, b: seq<Call>, c: ColumnSpec, row: Row, p: Parsers, sourceUrl: Option<string>)
    ensures var r := NextRun(obj, b, c, row, p, sourceUrl);
      NextRun(obj, a + b, c, row, p, sourceUrl) == Run(a + r.calls, r.error)
  {
    match ColumnStep(c, row, p)
    case Assign(v) =>
      assert (a + b) + [Set(obj, c.property, v, sourceUrl)] == a + (b + [Set(obj, c.property, v, sourceUrl)]);
    case Skip =>
    case Fail(_) =>
  }

  /** The calls one mapper makes: the object it created (if any) and the exception it raised (if any). */
  datatype Loaded = Loaded(calls: seq<Call>, obj: Option<Handle>, error: Option<RowError>)

  /**
   * The calls `EntityMapper.load` makes when the loader has already received
   * `at` calls: the new entity is `Handle(at)`.
   */
  function EntityRun(m: ObjectModel, row: Row, p: Parsers, at: nat): (r: Loaded)
    ensures r.obj == Some(Handle(at))
    ensures r.calls != [] && r.calls[0] == MakeEntity(m.schemata, SourceOf(m, row, p))
    ensures r.error.None? ==> r.calls[|r.calls| - 1] == Save(Handle(at))
  {
    var sourceUrl := SourceOf(m, row, p);
    var entity := Handle(at);
    var props := PropertyCalls(entity, m.columns, row, p, sourceUrl);
    var saved := if props.error.None? then [Save(entity)] else [];
    Loaded([MakeEntity(m.schemata, sourceUrl)] + props.calls + saved, Some(entity), props.error)
  }

  /** `EntityMapper.load(loader, row)`. */
  method LoadEntity(loader: Loader, m: ObjectModel, row: Row, p: Parsers) returns (r: Result<Handle, RowError>)
    modifies loader
    ensures var run := EntityRun(m, row, p, |old(loader.trace)|);
            && loader.trace == old(loader.trace) + run.calls
            && r == if run.error.Some? then Failure(run.error.value) else Success(run.obj.value)
  {
    ghost var trace0 := loader.trace;
    var sourceUrl := GetSource(m.sourceUrlColumn, m.sourceUrl, row, p);
    var entity := loader.MakeEntity(m.schemata, sourceUrl);
    var error := LoadProperties(loader, entity, m, row, p);
    ghost var props := PropertyCalls(entity, m.columns, row, p, sourceUrl);
    ghost var made := [MakeEntity(m.schemata, sourceUrl)];
    assert loader.trace == trace0 + made + props.calls;
    if error.Some? {
      assert EntityRun(m, row, p, |trace0|).calls == made + props.calls + [];
      return Failure(error.value);
    }
    loader.Save(entity);
    assert EntityRun(m, row, p, |trace0|).calls == made + props.calls + [Save(entity)];
    return Success(entity);
  }

  /** `objs.get(name)`: `None` for a missing name and for an object that was not created. */
  function Lookup(objs: map<string, Option<Handle>>, name: Option<string>): Option<Handle> {
    if name.Some? && name.value in objs then objs[name.value] else None
  }

  /** A name that is a key gives its stored object; a missing name or key gives `None`. */
  lemma LookupGet(objs: map<string, Option<Handle>>, name: Option<string>)
    ensures name.Some? && name.value in objs ==> Lookup(objs, name) == objs[name.value]
    ensures name.None? || name.value !in objs ==> Lookup(objs, name).None?
  {
  }

  /**
   * The calls `RelationMapper.load` makes given the objects created so far,
   * when the loader has already received `at` calls.
   */
  function RelationRun(m: ObjectModel, row: Row, p: Parsers, objs: map<string, Option<Handle>>, at: nat): (r: Loaded)
    ensures Lookup(objs, m.source).None? || Lookup(objs, m.target).None? ==> r == Loaded([], None, None)
    ensures Lookup(objs, m.source).Some? && Lookup(objs, m.target).Some? ==>
      && r.obj == Some(Handle(at))
      && r.calls != []
      && r.calls[0] == MakeRelation(m.schema, Lookup(objs, m.source).value, Lookup(objs, m.target).value, SourceOf(m, row, p))
      && (r.error.None? ==> r.calls[|r.calls| - 1] == Save(Handle(at)))
  {
    var sourceUrl := SourceOf(m, row, p);
    var source := Lookup(objs, m.source);
    var target := Lookup(objs, m.target);
    if source.None? || target.None? then Loaded([], None, None)
    else
      var relation := Handle(at);
      var props := PropertyCalls(relation, m.columns, row, p, sourceUrl);
      var saved := if props.error.None? then [Save(relation)] else [];
      Loaded([MakeRelation(m.schema, source.value, target.value, sourceUrl)] + props.calls + saved, Some(relation), props.error)
  }

  /** `RelationMapper.load(loader, row, objs)`. */
  method LoadRelation(loader: Loader, m: ObjectModel, row: Row, p: Parsers, objs: map<string, Option<Handle>>)
    returns (r: Result<Option<Handle>, RowError>)
    modifies loader
    ensures var run := RelationRun(m, row, p, objs, |old(loader.trace)|);
            && loader.trace == old(loader.trace) + run.calls
            && r == if run.error.Some? then Failure(run.error.value) else Success(run.obj)
  {
    var sourceUrl := GetSource(m.sourceUrlColumn, m.sourceUrl, row, p);
    var source := Lookup(objs, m.source);
    var target := Lookup(objs, m.target);
    if source.None? || target.None? {
      return Success(None);
    }
    ghost var trace0 := loader.trace;
    var relation := loader.MakeRelation(m.schema, source.value, target.value, sourceUrl);
    var error := LoadProperties(loader, relation, m, row, p);
    ghost var props := PropertyCalls(relation, m.columns, row, p, sourceUrl);
    ghost var made := [MakeRelation(m.schema, source.value, target.value, sourceUrl)];
    assert loader.trace == trace0 + made + props.calls;
    if error.Some? {
      assert RelationRun(m, row, p, objs, |trace0|).calls == made + props.calls + [];
      return Failure(error.value);
    }
    loader.Save(relation);
    assert RelationRun(m, row, p, objs, |trace0|).calls == made + props.calls + [Save(relation)];
    return Success(Some(relation));
  }

  /** The state of `MappingLoader.load` between two mappers. */
  datatype RowState = RowState(trace: seq<Call>, objs: map<string, Option<Handle>>, error: Option<RowError>)

  /** Records one mapper's outcome: `objs[name] = ...` happens only when the mapper did not raise. */
  function Record(s: RowState, name: string, r: Loaded): RowState {
    if r.error.Some? then RowState(s.trace + r.calls, s.objs, r.error)
    else RowState(s.trace + r.calls, s.objs[name := r.obj], None)
  }

  /** The names a list of mappers writes into `objs`. */
  function Names(ms: seq<(string, ObjectModel)>): set<string> {
    set j | 0 <= j < |ms| :: ms[j].0
  }

  /** One pass of the first loop of `MappingLoader.load`: an entity mapper runs unless an earlier one raised. */
  function EntityStep(s: RowState, entity: (string, ObjectModel), row: Row, p: Parsers): RowState {
    if s.error.Some? then s
    else Record(s, entity.0, EntityRun(entity.1, row, p, |s.trace|))
  }

  /** One pass of the second loop: a relation mapper runs, seeing `objs` as it stands, unless a mapper raised. */
  function RelationStep(s: RowState, relation: (string, ObjectModel), row: Row, p: Parsers): RowState {
    if s.error.Some? then s
    else Record(s, relation.0, RelationRun(relation.1, row, p, s.objs, |s.trace|))
  }

  /** The first loop of `MappingLoader.load`, over `entities`, starting from the loader's `trace`. */
  function EntityPhase(es: seq<(string, ObjectModel)>, row: Row, p: Parsers, trace: seq<Call>): RowState
  {
    if es == [] then RowState(trace, map[], None)
    else EntityStep(EntityPhase(es[..|es| - 1], row, p, trace), es[|es| - 1], row, p)
  }

  /** The second loop of `MappingLoader.load`, over `relations`, starting where the first ended. */
  function RelationPhase(rs: seq<(string, ObjectModel)>, row: Row, p: Parsers, start: RowState): RowState
  {
    if rs == [] then start
    else RelationStep(RelationPhase(rs[..|rs| - 1], row, p, start), rs[|rs| - 1], row, p)
  }

  /** `MappingLoader.load(row)`: every entity first, then every relation. */
  function RowRun(model: MappingModel, row: Row, p: Parsers, trace: seq<Call>): (r: RowState)
    ensures EntityPhase(model.entities, row, p, trace).error.Some? ==> r == EntityPhase(model.entities, row, p, trace)
  {
    var e := EntityPhase(model.entities, row, p, trace);
    if e.error.Some? then
      RelationPhaseAfterError(model.relations, row, p, e);
      RelationPhase(model.relations, row, p, e)
    else
      RelationPhase(model.relations, row, p, e)
  }

  lemma EntityPhaseNext(es: seq<(string, ObjectModel)>, i: nat, row: Row, p: Parsers, trace: seq<Call>)
    requires i < |es|
    ensures EntityPhase(es[..i + 1], row, p, trace) == EntityStep(EntityPhase(es[..i], row, p, trace), es[i], row, p)
  {
    assert es[..i + 1][..i] == es[..i];
  }

  lemma RelationPhaseNext(rs: seq<(string, ObjectModel)>, i: nat, row: Row, p: Parsers, start: RowState)
    requires i < |rs|
    ensures RelationPhase(rs[..i + 1], row, p, start) == RelationStep(RelationPhase(rs[..i], row, p, start), rs[i], row, p)
  {
    assert rs[..i + 1][..i] == rs[..i];
  }

  /** Once an entity mapper has raised, later entity mappers add nothing. */
  lemma {:induction false} EntityPhaseStop(es: seq<(string, ObjectModel)>, k: nat, row: Row, p: Parsers, trace: seq<Call>)
    requires k <= |es|
    requires EntityPhase(es[..k], row, p, trace).error.Some?
    ensures EntityPhase(es, row, p, trace) == EntityPhase(es[..k], row, p, trace)
  {
    if k < |es| {
      var shorter := es[..|es| - 1];
      assert shorter[..k] == es[..k];
      EntityPhaseStop(shorter, k, row, p, trace);
    } else {
      assert es[..k] == es;
    }
  }

  /** Once a relation mapper has raised, later relation mappers add nothing. */
  lemma {:induction false} RelationPhaseStop(rs: seq<(string, ObjectModel)>, k: nat, row: Row, p: Parsers, start: RowState)
    requires k <= |rs|
    requires RelationPhase(rs[..k], row, p, start).error.Some?
    ensures RelationPhase(rs, row, p, start) == RelationPhase(rs[..k], row, p, start)
  {
    if k < |rs| {
      var shorter := rs[..|rs| - 1];
      assert shorter[..k] == rs[..k];
      RelationPhaseStop(shorter, k, row, p, start);
    } else {
      assert rs[..k] == rs;
    }
  }

  /** An exception in the first loop means the second loop never runs. */
  lemma {:induction false} RelationPhaseAfterError(rs: seq<(string, ObjectModel)>, row: Row, p: Parsers, start: RowState)
    requires start.error.Some?
    ensures RelationPhase(rs, row, p, start) == start
  {
    if rs != [] {
      RelationPhaseAfterError(rs[..|rs| - 1], row, p, start);
    }
  }

  /** `MappingLoader`: the mapping document and the loader built from it. */
  class MappingLoader {
    const loader: Loader
    const model: MappingModel

    /** `MappingLoader(grano, model)`: the loader's default provenance is the document's `source_url`. */
    constructor (model: MappingModel)
      ensures this.model == model
      ensures fresh(loader) && loader.sourceUrl == model.sourceUrl && loader.trace == []
    {
      this.model := model;
      loader := new Loader(model.sourceUrl);
    }

    /** `MappingLoader.load(data)`: returns the exception raised, if any; `objs` is dropped. */
    method Load(row: Row, p: Parsers) returns (error: Option<RowError>)
      modifies loader
      ensures var s := RowRun(model, row, p, old(loader.trace));
              loader.trace == s.trace && error == s.error
    {
      ghost var trace0 := loader.trace;
      var objs: map<string, Option<Handle>> := map[];
      var entities := model.entities;
      for i := 0 to |entities|
        invariant EntityPhase(entities[..i], row, p, trace0) == RowState(loader.trace, objs, None)
      {
        var (name, m) := entities[i];
        EntityPhaseNext(entities, i, row, p, trace0);
        var r := LoadEntity(loader, m, row, p);
        if r.Failure? {
          EntityPhaseStop(entities, i + 1, row, p, trace0);
          RelationPhaseAfterError(model.relations, row, p, EntityPhase(entities, row, p, trace0));
          return Some(r.error);
        }
        objs := objs[name := Some(r.value)];
      }
      assert entities[..|entities|] == entities;
      ghost var start := RowState(loader.trace, objs, None);
      var relations := model.relations;
      for i := 0 to |relations|
        invariant RelationPhase(relations[..i], row, p, start) == RowState(loader.trace, objs, None)
      {
        var (name, m) := relations[i];
        RelationPhaseNext(relations, i, row, p, start);
        var r := LoadRelation(loader, m, row, p, objs);
        if r.Failure? {
          RelationPhaseStop(relations, i + 1, row, p, start);
          return Some(r.error);
        }
        objs := objs[name := r.value];
      }
      assert relations[..|relations|] == relations;
      return None;
    }
  }
}
