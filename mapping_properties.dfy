/**
 * What the mapping engine promises, stated over the model in `Mapping`:
 * type coercion, the required / skip_empty policy, the order and shape of the
 * calls each mapper makes, and how a row is loaded as a whole.
 */
module MappingProperties {
  import opened Wrappers
  import opened PyText
  import opened Grano
  import opened Mapping

  // ---------------------------------------------------------------------------
  // Type coercion

  /**
   * A boolean column is true exactly for the tokens of `BOOL_TRUISH`, whatever
   * their case, and is never `None`.
   */
  lemma BoolColumn(value: string, c: ColumnSpec, p: Parsers)
    requires KindOf(TypeName(c)) == BoolKind
    ensures ConvertType(value, c, p) == Some(Bool(Lower(value) in BoolTruish))
    ensures ConvertType(Lower(value), c, p) == ConvertType(value, c, p)
  {
    LowerIdempotent(value);
  }

  /** Writing a boolean as `true` or `false` and reading it back gives the boolean. */
  lemma BoolRoundTrip(b: bool, c: ColumnSpec, p: Parsers)
    requires KindOf(TypeName(c)) == BoolKind
    ensures ConvertType(if b then "true" else "false", c, p) == Some(Bool(b))
  {
    var text := if b then "true" else "false";
    BoolColumn(text, c, p);
    if b {
      TrueIsTruish();
    } else {
      FalseIsNotTruish();
    }
  }

  lemma TrueIsTruish()
    ensures Lower("true") in BoolTruish
  {
    LowerOfLowercase("true");
    assert BoolTruish[1] == "true";
  }

  lemma FalseIsNotTruish()
    ensures Lower("false") !in BoolTruish
  {
    LowerOfLowercase("false");
    assert forall k | 0 <= k < |BoolTruish| :: |BoolTruish[k]| != |"false"|;
  }

  /**
   * The `type` key is compared after `lower()` and `strip()`: surrounding
   * whitespace and upper-case letters do not change the branch taken.
   */
  lemma TypeNameNormalised(c: ColumnSpec, pre: string, t: string, post: string)
    requires c.typeName == Some(pre + t + post)
    requires AllSpace(pre) && AllSpace(post)
    requires t != [] && !IsSpace(t[0]) && !IsSpace(t[|t| - 1])
    ensures TypeName(c) == Lower(t)
  {
    LowerConcat(pre + t, post);
    LowerConcat(pre, t);
    StripPadded(Lower(pre), Lower(t), Lower(post));
  }

  /** An integer column reads back every integer written by `str`. */
  lemma IntRoundTrip(n: int, c: ColumnSpec, p: Parsers)
    requires KindOf(TypeName(c)) == IntKind
    ensures ConvertType(ShowInt(n), c, p) == Some(Int(n))
  {
    ParseShowInt(n);
  }

  /** An integer column gives `None` exactly where `int()` raises, never an exception. */
  lemma IntColumn(value: string, c: ColumnSpec, p: Parsers)
    requires KindOf(TypeName(c)) == IntKind
    ensures ConvertType(value, c, p) == if ParseInt(value).Some? then Some(Int(ParseInt(value).value)) else None
  {
  }

  /** A type no branch names keeps the raw text. */
  lemma UnknownTypeKeepsText(value: string, c: ColumnSpec, p: Parsers)
    requires KindOf(TypeName(c)) == TextKind
    ensures ConvertType(value, c, p) == Some(Str(value))
  {
  }

  // ---------------------------------------------------------------------------
  // The per-column policy of `load_properties`

  /** The column's value is absent and the column is required: `load_properties` raises. */
  ghost predicate Missing(c: ColumnSpec, row: Row, p: Parsers) {
    GetValue(c, row, p).None? && Required(c)
  }

  /**
   * One column on its own: the required check comes before the skip check,
   * an absent value is skipped by default, and any value that is present,
   * `False` and `0` included, is set once with the object-level provenance.
   */
  lemma SingleColumn(obj: Handle, c: ColumnSpec, row: Row, p: Parsers, sourceUrl: Option<string>)
    ensures var r := PropertyCalls(obj, [c], row, p, sourceUrl);
      && (Missing(c, row, p) ==> r == Run([], Some(RowError(c.column, Cell(row, c.column)))))
      && (GetValue(c, row, p).None? && !Required(c) && SkipEmpty(c) ==> r == Run([], None))
      && (GetValue(c, row, p).None? && !Required(c) && !SkipEmpty(c) ==> r == Run([Set(obj, c.property, None, sourceUrl)], None))
      && (GetValue(c, row, p).Some? ==> r == Run([Set(obj, c.property, GetValue(c, row, p), sourceUrl)], None))
  {
    PropertyCallsNext(obj, [c], 0, row, p, sourceUrl);
    assert [c][..1] == [c] && [c][..0] == [];
  }

  /** With neither `required` nor `skip_empty` given, an absent value produces no call and no error. */
  lemma DefaultsSkipAbsent(obj: Handle, c: ColumnSpec, row: Row, p: Parsers, sourceUrl: Option<string>)
    requires c.required.None? && c.skipEmpty.None?
    requires IsEmpty(Cell(row, c.column))
    ensures PropertyCalls(obj, [c], row, p, sourceUrl) == Run([], None)
  {
    SingleColumn(obj, c, row, p, sourceUrl);
  }

  /** Every call `load_properties` makes is a `set` on its object with the object-level provenance. */
  lemma {:induction false} PropertyCallsAreSets(obj: Handle, cols: seq<ColumnSpec>, row: Row, p: Parsers, sourceUrl: Option<string>)
    ensures var r := PropertyCalls(obj, cols, row, p, sourceUrl);
      && |r.calls| <= |cols|
      && forall k | 0 <= k < |r.calls| :: r.calls[k].Set? && r.calls[k].obj == obj && r.calls[k].sourceUrl == sourceUrl
  {
    if cols != [] {
      PropertyCallsAreSets(obj, cols[..|cols| - 1], row, p, sourceUrl);
    }
  }

  /**
   * `load_properties` raises exactly when some required column has no value,
   * and the exception names the first such column and its raw cell.
   */
  lemma {:induction false} PropertyCallsFail(obj: Handle, cols: seq<ColumnSpec>, row: Row, p: Parsers, sourceUrl: Option<string>)
    ensures var r := PropertyCalls(obj, cols, row, p, sourceUrl);
      && (r.error.Some? <==> exists j | 0 <= j < |cols| :: Missing(cols[j], row, p))
      && (r.error.Some? ==> exists j | 0 <= j < |cols| ::
            && Missing(cols[j], row, p)
            && (forall k | 0 <= k < j :: !Missing(cols[k], row, p))
            && r.error.value == RowError(cols[j].column, Cell(row, cols[j].column)))
  {
    if cols != [] {
      var init := cols[..|cols| - 1];
      var last := |cols| - 1;
      PropertyCallsFail(obj, init, row, p, sourceUrl);
      var before := PropertyCalls(obj, init, row, p, sourceUrl);
      if before.error.Some? {
        var j :| 0 <= j < |init| && Missing(init[j], row, p)
                 && (forall k | 0 <= k < j :: !Missing(init[k], row, p))
                 && before.error.value == RowError(init[j].column, Cell(row, init[j].column));
        assert cols[j] == init[j];
        assert forall k | 0 <= k < j :: cols[k] == init[k];
      } else {
        assert forall k | 0 <= k < last :: cols[k] == init[k] && !Missing(init[k], row, p);
        if Missing(cols[last], row, p) {
          assert forall k | 0 <= k < last :: !Missing(cols[k], row, p);
        }
      }
    }
  }

  /** The calls and outcome of `x` followed by those of `y`, unless `x` raised. */
  function Then(x: Run, y: Run): Run {
    if x.error.Some? then x else Run(x.calls + y.calls, y.error)
  }

  /** `load_properties` works through the columns in order: two lists run as one list. */
  lemma {:induction false} PropertyCallsAppend(obj: Handle, a: seq<ColumnSpec>, b: seq<ColumnSpec>, row: Row, p: Parsers, sourceUrl: Option<string>)
    ensures PropertyCalls(obj, a + b, row, p, sourceUrl)
         == Then(PropertyCalls(obj, a, row, p, sourceUrl), PropertyCalls(obj, b, row, p, sourceUrl))
  {
    if b == [] {
      assert a + b == a;
    } else {
      var b' := b[..|b| - 1];
      assert (a + b)[..|a + b| - 1] == a + b';
      assert (a + b)[|a + b| - 1] == b[|b| - 1];
      PropertyCallsAppend(obj, a, b', row, p, sourceUrl);
    }
  }

  /** A column spec with its own provenance keys removed. */
  function WithoutSource(c: ColumnSpec): ColumnSpec {
    c.(sourceUrl := None, sourceUrlColumn := None)
  }

  /** A column's own `source_url` and `source_url_column` change nothing that `load_properties` does. */
  lemma {:induction false} ColumnSourceIgnored(obj: Handle, a: seq<ColumnSpec>, b: seq<ColumnSpec>, row: Row, p: Parsers, sourceUrl: Option<string>)
    requires |a| == |b|
    requires forall j | 0 <= j < |a| :: WithoutSource(a[j]) == WithoutSource(b[j])
    ensures PropertyCalls(obj, a, row, p, sourceUrl) == PropertyCalls(obj, b, row, p, sourceUrl)
  {
    if a != [] {
      var n := |a| - 1;
      ColumnSourceIgnored(obj, a[..n], b[..n], row, p, sourceUrl);
      StepWithoutSource(a[n], row, p);
      StepWithoutSource(b[n], row, p);
      assert a[..n + 1] == a && b[..n + 1] == b;
      if PropertyCalls(obj, a[..n], row, p, sourceUrl).error.None? {
        PropertyCallsNext(obj, a, n, row, p, sourceUrl);
        PropertyCallsNext(obj, b, n, row, p, sourceUrl);
      }
    }
  }

  lemma StepWithoutSource(c: ColumnSpec, row: Row, p: Parsers)
    ensures ColumnStep(c, row, p) == ColumnStep(WithoutSource(c), row, p)
  {
    var w := WithoutSource(c);
    assert w.column == c.column && w.typeName == c.typeName && w.format == c.format;
    assert w.required == c.required && w.skipEmpty == c.skipEmpty;
    SameValue(c, w, row, p);
  }

  /** `get_value` reads only the `column`, `type` and `format` keys. */
  lemma SameValue(c: ColumnSpec, d: ColumnSpec, row: Row, p: Parsers)
    requires c.column == d.column && c.typeName == d.typeName && c.format == d.format
    ensures GetValue(c, row, p) == GetValue(d, row, p)
  {
    assert TypeName(c) == TypeName(d);
  }

  // ---------------------------------------------------------------------------
  // The entity and relation mappers

  /**
   * `EntityMapper.load`: `make_entity` once with the `schemata` key, then the
   * `set` calls on the new entity, then `save` once unless a column raised.
   */
  lemma EntityCalls(m: ObjectModel, row: Row, p: Parsers, at: nat)
    ensures var r := EntityRun(m, row, p, at);
      && r.obj == Some(Handle(at))
      && |r.calls| >= 1
      && r.calls[0] == MakeEntity(m.schemata, SourceOf(m, row, p))
      && (forall k | 1 <= k < |r.calls| :: (r.calls[k].Set? || r.calls[k].Save?) && r.calls[k].obj == Handle(at))
      && (forall k | 1 <= k < |r.calls| - 1 :: r.calls[k].Set?)
      && (r.error.None? <==> r.calls[|r.calls| - 1] == Save(Handle(at)))
      && r.error == PropertyCalls(Handle(at), m.columns, row, p, SourceOf(m, row, p)).error
  {
    PropertyCallsAreSets(Handle(at), m.columns, row, p, SourceOf(m, row, p));
  }

  /** `RelationMapper.load` with an endpoint missing from `objs`: no call at all, no object, no error. */
  lemma RelationSkipped(m: ObjectModel, row: Row, p: Parsers, objs: map<string, Option<Handle>>, at: nat)
    requires Lookup(objs, m.source).None? || Lookup(objs, m.target).None?
    ensures RelationRun(m, row, p, objs, at) == Loaded([], None, None)
  {
  }

  /**
   * `RelationMapper.load` with both endpoints present: `make_relation` once with
   * the `schema` key and the two endpoint objects, the `set` calls, then `save`
   * once unless a column raised.
   */
  lemma RelationCalls(m: ObjectModel, row: Row, p: Parsers, objs: map<string, Option<Handle>>, at: nat)
    requires Lookup(objs, m.source).Some? && Lookup(objs, m.target).Some?
    ensures var r := RelationRun(m, row, p, objs, at);
      && r.obj == Some(Handle(at))
      && |r.calls| >= 1
      && r.calls[0] == MakeRelation(m.schema, Lookup(objs, m.source).value, Lookup(objs, m.target).value, SourceOf(m, row, p))
      && (forall k | 1 <= k < |r.calls| :: (r.calls[k].Set? || r.calls[k].Save?) && r.calls[k].obj == Handle(at))
      && (forall k | 1 <= k < |r.calls| - 1 :: r.calls[k].Set?)
      && (r.error.None? <==> r.calls[|r.calls| - 1] == Save(Handle(at)))
      && r.error == PropertyCalls(Handle(at), m.columns, row, p, SourceOf(m, row, p)).error
  {
    PropertyCallsAreSets(Handle(at), m.columns, row, p, SourceOf(m, row, p));
  }
}
