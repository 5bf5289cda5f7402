/**
 * Properties of `MappingLoader.load` over a whole row: the order of the two
 * loops, what `objs` holds between them, and the fact that every call the
 * loader receives refers only to objects created earlier in the same trace.
 */
module RowProperties {
  import opened Wrappers
  import opened PyText
  import opened Grano
  import opened Mapping
  import opened MappingProperties

  // ---------------------------------------------------------------------------
  // Well-formed traces

  /** The trace is well formed and every object recorded in `objs` was created by one of its calls. */
  ghost predicate Sound(s: RowState) {
    && WellFormed(s.trace)
    && forall n | n in s.objs && s.objs[n].Some? :: Created(s.trace, s.objs[n].value)
  }

  /** Appending calls that refer only to objects created before them keeps a trace well formed. */
  lemma ExtendWellFormed(t: seq<Call>, calls: seq<Call>)
    requires WellFormed(t)
    requires forall k, h | 0 <= k < |calls| && h in calls[k].Refs() :: h.id < |t| + k && (t + calls)[h.id].IsMake()
    ensures WellFormed(t + calls)
  {
    var u := t + calls;
    forall i, h | 0 <= i < |u| && h in u[i].Refs()
      ensures h.id < i && u[h.id].IsMake()
    {
      if i >= |t| {
        assert u[i] == calls[i - |t|];
      }
    }
  }

  /** An object created by a call of `t` is still created once more calls follow. */
  lemma CreatedExtends(t: seq<Call>, calls: seq<Call>, objs: map<string, Option<Handle>>)
    requires forall n | n in objs && objs[n].Some? :: Created(t, objs[n].value)
    ensures forall n | n in objs && objs[n].Some? :: Created(t + calls, objs[n].value)
  {
    forall n | n in objs && objs[n].Some?
      ensures Created(t + calls, objs[n].value)
    {
      assert (t + calls)[objs[n].value.id] == t[objs[n].value.id];
    }
  }

  /**
   * One entity mapper keeps the row state sound: the trace stays well formed
   * and `objs` points only at created objects.
   */
  lemma EntityStepSound(s: RowState, e: (string, ObjectModel), row: Row, p: Parsers)
    requires Sound(s)
    ensures Sound(EntityStep(s, e, row, p))
  {
    if s.error.None? {
      var at := |s.trace|;
      var r := EntityRun(e.1, row, p, at);
      EntityCalls(e.1, row, p, at);
      var t := s.trace + r.calls;
      assert t[at] == r.calls[0];
      forall k, h | 0 <= k < |r.calls| && h in r.calls[k].Refs()
        ensures h.id < at + k && t[h.id].IsMake()
      {
        assert k != 0;
        assert h == Handle(at);
      }
      ExtendWellFormed(s.trace, r.calls);
      CreatedExtends(s.trace, r.calls, s.objs);
    }
  }

  /**
   * One relation mapper keeps the row state sound: the trace stays well formed
   * and `objs` points only at created objects.
   */
  lemma RelationStepSound(s: RowState, rel: (string, ObjectModel), row: Row, p: Parsers)
    requires Sound(s)
    ensures Sound(RelationStep(s, rel, row, p))
  {
    if s.error.None? {
      var m := rel.1;
      var at := |s.trace|;
      var r := RelationRun(m, row, p, s.objs, at);
      if Lookup(s.objs, m.source).None? || Lookup(s.objs, m.target).None? {
        RelationSkipped(m, row, p, s.objs, at);
        assert s.trace + r.calls == s.trace;
      } else {
        RelationMadeSound(s, rel, row, p);
      }
    }
  }

  /** A relation mapper whose endpoints are both recorded links created objects and then refers only to its relation. */
  lemma RelationMadeSound(s: RowState, rel: (string, ObjectModel), row: Row, p: Parsers)
    requires Sound(s) && s.error.None?
    requires Lookup(s.objs, rel.1.source).Some? && Lookup(s.objs, rel.1.target).Some?
    ensures Sound(RelationStep(s, rel, row, p))
  {
    var m := rel.1;
    var at := |s.trace|;
    var r := RelationRun(m, row, p, s.objs, at);
    RelationCalls(m, row, p, s.objs, at);
    var t := s.trace + r.calls;
    assert t[at] == r.calls[0];
    var src := Lookup(s.objs, m.source).value;
    var tgt := Lookup(s.objs, m.target).value;
    assert Created(s.trace, src) && Created(s.trace, tgt);
    assert t[src.id] == s.trace[src.id] && t[tgt.id] == s.trace[tgt.id];
    forall k, h | 0 <= k < |r.calls| && h in r.calls[k].Refs()
      ensures h.id < at + k && t[h.id].IsMake()
    {
      if k != 0 {
        assert h == Handle(at);
      }
    }
    ExtendWellFormed(s.trace, r.calls);
    CreatedExtends(s.trace, r.calls, s.objs);
  }

  lemma {:induction false} EntityPhaseSound(es: seq<(string, ObjectModel)>, row: Row, p: Parsers, trace: seq<Call>)
    requires WellFormed(trace)
    ensures Sound(EntityPhase(es, row, p, trace))
  {
    if es != [] {
      var init := es[..|es| - 1];
      EntityPhaseSound(init, row, p, trace);
      EntityStepSound(EntityPhase(init, row, p, trace), es[|es| - 1], row, p);
    }
  }

  lemma {:induction false} RelationPhaseSound(rs: seq<(string, ObjectModel)>, row: Row, p: Parsers, start: RowState)
    requires Sound(start)
    ensures Sound(RelationPhase(rs, row, p, start))
  {
    if rs != [] {
      var init := rs[..|rs| - 1];
      RelationPhaseSound(init, row, p, start);
      RelationStepSound(RelationPhase(init, row, p, start), rs[|rs| - 1], row, p);
    }
  }

  /**
   * Loading a row onto a well-formed trace leaves it well formed: no `set`,
   * `save` or `make_relation` ever refers to an object that was not created
   * earlier, whatever the mapping and whichever column raises.
   */
  lemma RowRunWellFormed(model: MappingModel, row: Row, p: Parsers, trace: seq<Call>)
    requires WellFormed(trace)
    ensures WellFormed(RowRun(model, row, p, trace).trace)
  {
    EntityPhaseSound(model.entities, row, p, trace);
    RelationPhaseSound(model.relations, row, p, EntityPhase(model.entities, row, p, trace));
  }

  // ---------------------------------------------------------------------------
  // The two loops

  lemma NamesPrefix(ms: seq<(string, ObjectModel)>)
    requires ms != []
    ensures Names(ms) == Names(ms[..|ms| - 1]) + {ms[|ms| - 1].0}
  {
    var init := ms[..|ms| - 1];
    assert forall j | 0 <= j < |init| :: init[j] == ms[j];
    forall n | n in Names(ms)
      ensures n in Names(init) + {ms[|ms| - 1].0}
    {
      var j :| 0 <= j < |ms| && ms[j].0 == n;
      if j < |init| {
        assert init[j].0 == n;
      }
    }
  }

  /** One entity mapper: it appends one `make_entity` and calls on that entity, and records it under its name. */
  lemma EntityStepShape(s0: RowState, e: (string, ObjectModel), row: Row, p: Parsers)
    ensures var s := EntityStep(s0, e, row, p);
      && s0.trace <= s.trace
      && (forall k | |s0.trace| <= k < |s.trace| :: !s.trace[k].MakeRelation?)
      && (s0.error.Some? ==> s == s0)
      && (s.error.None? ==> s.objs == s0.objs[e.0 := Some(Handle(|s0.trace|))]
                            && MadeBy(s.trace, Handle(|s0.trace|), e.1, row, p))
      && (s.error.Some? ==> s.objs == s0.objs)
  {
    if s0.error.None? {
      var at := |s0.trace|;
      var r := EntityRun(e.1, row, p, at);
      EntityCalls(e.1, row, p, at);
      var t := s0.trace + r.calls;
      assert t[at] == r.calls[0];
      assert forall k | at <= k < |t| :: t[k] == r.calls[k - at];
    }
  }

  /**
   * The first loop only appends: one `make_entity` and its `set`/`save` calls
   * per entity, no `make_relation`. `objs` maps entity names to the entities
   * made for them, and holds every entity name unless a mapper raised.
   */
  lemma {:induction false} EntityPhaseShape(es: seq<(string, ObjectModel)>, row: Row, p: Parsers, trace: seq<Call>)
    ensures var s := EntityPhase(es, row, p, trace);
      && trace <= s.trace
      && (forall k | |trace| <= k < |s.trace| :: !s.trace[k].MakeRelation?)
      && s.objs.Keys <= Names(es)
      && (s.error.None? ==> s.objs.Keys == Names(es))
      && (forall n | n in s.objs :: s.objs[n].Some? && |trace| <= s.objs[n].value.id < |s.trace|
                                   && s.trace[s.objs[n].value.id].MakeEntity?)
  {
    if es != [] {
      var init := es[..|es| - 1];
      EntityPhaseShape(init, row, p, trace);
      NamesPrefix(es);
      var s0 := EntityPhase(init, row, p, trace);
      EntityStepShape(s0, es[|es| - 1], row, p);
      var s := EntityPhase(es, row, p, trace);
      assert forall k | |trace| <= k < |s0.trace| :: s.trace[k] == s0.trace[k];
    }
  }

  /** `h` was created by the `make_entity` call entity mapper `m` makes for `row`. */
  predicate MadeBy(trace: seq<Call>, h: Handle, m: ObjectModel, row: Row, p: Parsers) {
    h.id < |trace| && trace[h.id] == MakeEntity(m.schemata, SourceOf(m, row, p))
  }

  /**
   * Mapper `j` is the last one of `ms` with its name, so its object is the
   * one `objs` keeps under that name. In a YAML mapping the names are
   * distinct and every mapper is the last with its name.
   */
  predicate LastWith(ms: seq<(string, ObjectModel)>, j: int) {
    0 <= j < |ms| && forall i | j < i < |ms| :: ms[i].0 != ms[j].0
  }

  /**
   * Entity mapper `j` of `es` has stored under its name the entity made by
   * its own `make_entity` call: the call at the position where the first `j`
   * mappers left the trace, made with mapper `j`'s `schemata` and source URL.
   * Distinct mappers start at distinct positions, so this singles out the
   * mapper even when two of them make identical calls.
   */
  ghost predicate StoredOwn(es: seq<(string, ObjectModel)>, j: int, s: RowState, row: Row, p: Parsers, trace: seq<Call>)
    requires 0 <= j < |es|
  {
    var h := Handle(|EntityPhase(es[..j], row, p, trace).trace|);
    es[j].0 in s.objs && s.objs[es[j].0] == Some(h) && MadeBy(s.trace, h, es[j].1, row, p)
  }

  /** Once the first loop has run every entity mapper, `objs[name]` is the entity that the mapper called `name` made. */
  lemma {:induction false} EntityPhaseObjs(es: seq<(string, ObjectModel)>, row: Row, p: Parsers, trace: seq<Call>)
    ensures var s := EntityPhase(es, row, p, trace);
      s.error.None? ==> forall j | LastWith(es, j) :: StoredOwn(es, j, s, row, p, trace)
  {
    if es != [] {
      var init := es[..|es| - 1];
      var last := es[|es| - 1];
      var s0 := EntityPhase(init, row, p, trace);
      var s := EntityPhase(es, row, p, trace);
      if s.error.None? {
        assert s == EntityStep(s0, last, row, p) && s0.error.None?;
        EntityPhaseObjs(init, row, p, trace);
        EntityObjsStep(es, init, s0, row, p, trace);
      }
    }
  }

  /** The induction step of `EntityPhaseObjs`: one more entity mapper keeps every name's entity as its mapper made it. */
  lemma EntityObjsStep(es: seq<(string, ObjectModel)>, init: seq<(string, ObjectModel)>, s0: RowState, row: Row, p: Parsers, trace: seq<Call>)
    requires es != [] && init == es[..|es| - 1] && s0 == EntityPhase(init, row, p, trace)
    requires EntityStep(s0, es[|es| - 1], row, p).error.None?
    requires forall j | LastWith(init, j) :: StoredOwn(init, j, s0, row, p, trace)
    ensures forall j | LastWith(es, j) :: StoredOwn(es, j, EntityStep(s0, es[|es| - 1], row, p), row, p, trace)
  {
    var last := es[|es| - 1];
    var s := EntityStep(s0, last, row, p);
    forall j | LastWith(es, j)
      ensures StoredOwn(es, j, s, row, p, trace)
    {
      if j < |es| - 1 {
        LastWithPrefix(es, j);
        assert StoredOwn(init, j, s0, row, p, trace);
        EntityStepKeeps(s0, last, row, p, es[j].0, es[j].1);
      } else {
        EntityStepOwn(s0, last, row, p);
      }
    }
  }

  lemma LastWithPrefix(ms: seq<(string, ObjectModel)>, j: int)
    requires LastWith(ms, j) && j < |ms| - 1
    ensures LastWith(ms[..|ms| - 1], j) && ms[..|ms| - 1][j] == ms[j] && ms[j].0 != ms[|ms| - 1].0
    ensures ms[..|ms| - 1][..j] == ms[..j]
  {
    var init := ms[..|ms| - 1];
    forall i | j < i < |init|
      ensures init[i].0 != init[j].0
    {
      assert init[i] == ms[i] && init[j] == ms[j];
    }
  }

  /** An entity mapper that raised nothing stores, under its own name, the entity its `make_entity` call made. */
  lemma EntityStepOwn(s0: RowState, e: (string, ObjectModel), row: Row, p: Parsers)
    requires EntityStep(s0, e, row, p).error.None?
    ensures var s := EntityStep(s0, e, row, p);
      e.0 in s.objs && s.objs[e.0] == Some(Handle(|s0.trace|)) && MadeBy(s.trace, Handle(|s0.trace|), e.1, row, p)
  {
    EntityStepShape(s0, e, row, p);
  }

  /** An entity mapper leaves the objects stored under other names, and the calls that made them, as they were. */
  lemma EntityStepKeeps(s0: RowState, e: (string, ObjectModel), row: Row, p: Parsers, n: string, m: ObjectModel)
    requires n != e.0 && n in s0.objs && s0.objs[n].Some? && MadeBy(s0.trace, s0.objs[n].value, m, row, p)
    requires EntityStep(s0, e, row, p).error.None?
    ensures var s := EntityStep(s0, e, row, p);
      n in s.objs && s.objs[n] == s0.objs[n] && MadeBy(s.trace, s.objs[n].value, m, row, p)
  {
    EntityStepShape(s0, e, row, p);
  }

  /**
   * Once the entity loop has run without an exception, every entity name
   * holds the entity its own mapper made, and the relation loop that follows
   * keeps the call that made it in the row's trace.
   */
  lemma RowEntities(model: MappingModel, row: Row, p: Parsers, trace: seq<Call>)
    requires EntityPhase(model.entities, row, p, trace).error.None?
    ensures var e := EntityPhase(model.entities, row, p, trace);
            var s := RowRun(model, row, p, trace);
      forall j | LastWith(model.entities, j) ::
        && StoredOwn(model.entities, j, e, row, p, trace)
        && MadeBy(s.trace, e.objs[model.entities[j].0].value, model.entities[j].1, row, p)
  {
    var e := EntityPhase(model.entities, row, p, trace);
    EntityPhaseObjs(model.entities, row, p, trace);
    RelationPhaseShape(model.relations, row, p, e);
  }

  /**
   * One relation mapper: it appends no `make_entity` and overwrites only its
   * own name in `objs`, with the relation it made at the end of the old trace,
   * or `None` when an endpoint is missing.
   */
  lemma RelationStepShape(s0: RowState, rel: (string, ObjectModel), row: Row, p: Parsers)
    ensures var s := RelationStep(s0, rel, row, p);
      && s0.trace <= s.trace
      && (forall k | |s0.trace| <= k < |s.trace| :: !s.trace[k].MakeEntity?)
      && (s0.error.Some? ==> s == s0)
      && (s.error.None? ==> s.objs.Keys == s0.objs.Keys + {rel.0})
      && (s.error.None? ==>
            s.objs[rel.0] == if Lookup(s0.objs, rel.1.source).Some? && Lookup(s0.objs, rel.1.target).Some? then Some(Handle(|s0.trace|)) else None)
      && (s.error.Some? ==> s.objs == s0.objs)
      && (forall n | n in s0.objs && n != rel.0 :: s.objs[n] == s0.objs[n])
  {
    if s0.error.None? {
      var at := |s0.trace|;
      var r := RelationRun(rel.1, row, p, s0.objs, at);
      if Lookup(s0.objs, rel.1.source).None? || Lookup(s0.objs, rel.1.target).None? {
        RelationSkipped(rel.1, row, p, s0.objs, at);
        assert s0.trace + r.calls == s0.trace;
      } else {
        RelationCalls(rel.1, row, p, s0.objs, at);
        var t := s0.trace + r.calls;
        assert t[at] == r.calls[0];
        assert forall k | at <= k < |t| :: t[k] == r.calls[k - at];
      }
    }
  }

  /**
   * The second loop only appends, and never calls `make_entity`. A relation
   * name overwrites its entry in `objs` (`None` when the relation was
   * skipped); names no relation uses keep the object the first loop stored.
   */
  lemma {:induction false} RelationPhaseShape(rs: seq<(string, ObjectModel)>, row: Row, p: Parsers, start: RowState)
    ensures var s := RelationPhase(rs, row, p, start);
      && start.trace <= s.trace
      && (forall k | |start.trace| <= k < |s.trace| :: !s.trace[k].MakeEntity?)
      && start.objs.Keys <= s.objs.Keys <= start.objs.Keys + Names(rs)
      && (s.error.None? ==> s.objs.Keys == start.objs.Keys + Names(rs))
      && (forall n | n in start.objs && n !in Names(rs) :: s.objs[n] == start.objs[n])
      && (start.error.Some? ==> s == start)
  {
    if rs != [] {
      var init := rs[..|rs| - 1];
      RelationPhaseShape(init, row, p, start);
      NamesPrefix(rs);
      var s0 := RelationPhase(init, row, p, start);
      RelationStepShape(s0, rs[|rs| - 1], row, p);
      var s := RelationPhase(rs, row, p, start);
      assert forall k | |start.trace| <= k < |s0.trace| :: s.trace[k] == s0.trace[k];
    }
  }

  /**
   * Relation mapper `j` of `rs` has stored under its name what its own
   * `load` returned: the relation made where the first `j` mappers left the
   * trace, or `None` when an endpoint was missing from `objs` at its turn.
   */
  ghost predicate RelationStored(rs: seq<(string, ObjectModel)>, j: int, s: RowState, row: Row, p: Parsers, start: RowState)
    requires 0 <= j < |rs|
  {
    var mid := RelationPhase(rs[..j], row, p, start);
    var m := rs[j].1;
    && rs[j].0 in s.objs
    && s.objs[rs[j].0] == if Lookup(mid.objs, m.source).Some? && Lookup(mid.objs, m.target).Some? then Some(Handle(|mid.trace|)) else None
  }

  /** Once the second loop has run every relation mapper, `objs[name]` is what the relation mapper called `name` returned. */
  lemma {:induction false} RelationPhaseObjs(rs: seq<(string, ObjectModel)>, row: Row, p: Parsers, start: RowState)
    ensures var s := RelationPhase(rs, row, p, start);
      s.error.None? ==> forall j | LastWith(rs, j) :: RelationStored(rs, j, s, row, p, start)
  {
    if rs != [] {
      var init := rs[..|rs| - 1];
      var s0 := RelationPhase(init, row, p, start);
      var s := RelationPhase(rs, row, p, start);
      if s.error.None? {
        assert s == RelationStep(s0, rs[|rs| - 1], row, p);
        RelationStepShape(s0, rs[|rs| - 1], row, p);
        RelationPhaseObjs(init, row, p, start);
        RelationObjsStep(rs, init, s0, row, p, start);
      }
    }
  }

  /** The induction step of `RelationPhaseObjs`: one more relation mapper keeps every other name's value. */
  lemma RelationObjsStep(rs: seq<(string, ObjectModel)>, init: seq<(string, ObjectModel)>, s0: RowState, row: Row, p: Parsers, start: RowState)
    requires rs != [] && init == rs[..|rs| - 1] && s0 == RelationPhase(init, row, p, start)
    requires RelationStep(s0, rs[|rs| - 1], row, p).error.None?
    requires forall j | LastWith(init, j) :: RelationStored(init, j, s0, row, p, start)
    ensures forall j | LastWith(rs, j) :: RelationStored(rs, j, RelationStep(s0, rs[|rs| - 1], row, p), row, p, start)
  {
    var last := rs[|rs| - 1];
    var s := RelationStep(s0, last, row, p);
    RelationStepShape(s0, last, row, p);
    forall j | LastWith(rs, j)
      ensures RelationStored(rs, j, s, row, p, start)
    {
      if j < |rs| - 1 {
        LastWithPrefix(rs, j);
        assert RelationStored(init, j, s0, row, p, start);
      }
    }
  }

  /**
   * `MappingLoader.load` makes every entity before any relation: the row's
   * calls split into an entity part without `make_relation` followed by a
   * relation part without `make_entity`. An entity mapper that raised ends
   * the row before any relation mapper runs.
   */
  lemma EntitiesBeforeRelations(model: MappingModel, row: Row, p: Parsers, trace: seq<Call>)
    ensures var e := EntityPhase(model.entities, row, p, trace);
            var s := RowRun(model, row, p, trace);
      && trace <= e.trace <= s.trace
      && (forall k | |trace| <= k < |e.trace| :: !s.trace[k].MakeRelation?)
      && (forall k | |e.trace| <= k < |s.trace| :: !s.trace[k].MakeEntity?)
      && (e.error.Some? ==> s == e)
  {
    var e := EntityPhase(model.entities, row, p, trace);
    EntityPhaseShape(model.entities, row, p, trace);
    RelationPhaseShape(model.relations, row, p, e);
    var s := RowRun(model, row, p, trace);
    assert forall k | |trace| <= k < |e.trace| :: s.trace[k] == e.trace[k];
  }

  /** A later relation mapper only appends to what the earlier ones produced. */
  lemma {:induction false} RelationPhasePrefix(rs: seq<(string, ObjectModel)>, k: nat, row: Row, p: Parsers, start: RowState)
    requires k <= |rs|
    ensures RelationPhase(rs[..k], row, p, start).trace <= RelationPhase(rs, row, p, start).trace
    ensures RelationPhase(rs[..k], row, p, start).error.Some? ==> RelationPhase(rs, row, p, start).error.Some?
  {
    if k < |rs| {
      var init := rs[..|rs| - 1];
      assert init[..k] == rs[..k];
      RelationPhasePrefix(init, k, row, p, start);
      RelationPhaseShape([rs[|rs| - 1]], row, p, RelationPhase(init, row, p, start));
      RelationPhaseNext(rs, |rs| - 1, row, p, start);
      RelationPhaseNext([rs[|rs| - 1]], 0, row, p, RelationPhase(init, row, p, start));
      assert rs[..|rs|] == rs;
      assert [rs[|rs| - 1]][..1] == [rs[|rs| - 1]] && [rs[|rs| - 1]][..0] == [];
    } else {
      assert rs[..k] == rs;
    }
  }

  /**
   * A relation whose `source` and `target` name entities of the mapping,
   * where no relation reuses an entity's name, is created between exactly
   * the entities the first loop made for those names, whenever no entity
   * mapper and no earlier relation mapper raised: each endpoint is the
   * entity made by the `make_entity` call of the entity mapper with that name,
   * and the `make_relation` call sits where the earlier relation mappers left
   * the trace.
   */
  lemma RelationSeesEntities(model: MappingModel, row: Row, p: Parsers, trace: seq<Call>, j: nat)
    requires Names(model.entities) !! Names(model.relations)
    requires j < |model.relations|
    requires var m := model.relations[j].1;
      m.source.Some? && m.target.Some? && m.source.value in Names(model.entities) && m.target.value in Names(model.entities)
    requires EntityPhase(model.entities, row, p, trace).error.None?
    requires RelationPhase(model.relations[..j], row, p, EntityPhase(model.entities, row, p, trace)).error.None?
    ensures var m := model.relations[j].1;
            var e := EntityPhase(model.entities, row, p, trace);
            var s := RowRun(model, row, p, trace);
      && m.source.value in e.objs && e.objs[m.source.value].Some?
      && m.target.value in e.objs && e.objs[m.target.value].Some?
      && (forall i | LastWith(model.entities, i) && model.entities[i].0 == m.source.value ::
            StoredOwn(model.entities, i, e, row, p, trace))
      && (forall i | LastWith(model.entities, i) && model.entities[i].0 == m.target.value ::
            StoredOwn(model.entities, i, e, row, p, trace))
      && var at := |RelationPhase(model.relations[..j], row, p, e).trace|;
         && |e.trace| <= at < |s.trace|
         && s.trace[at] == MakeRelation(m.schema, e.objs[m.source.value].value, e.objs[m.target.value].value, SourceOf(m, row, p))
  {
    EntityPhaseObjs(model.entities, row, p, trace);
    var rs := model.relations;
    var m := rs[j].1;
    var e := EntityPhase(model.entities, row, p, trace);
    EntityPhaseShape(model.entities, row, p, trace);
    // The relations before `j` leave the two entity names alone.
    var mid := RelationPhase(rs[..j], row, p, e);
    RelationPhaseShape(rs[..j], row, p, e);
    assert Names(rs[..j]) <= Names(rs) by {
      forall n | n in Names(rs[..j])
        ensures n in Names(rs)
      {
        var i :| 0 <= i < j && rs[..j][i].0 == n;
        assert rs[i].0 == n;
      }
    }
    assert mid.objs[m.source.value] == e.objs[m.source.value];
    assert mid.objs[m.target.value] == e.objs[m.target.value];
    RelationMade(rs, j, row, p, e);
    assert RowRun(model, row, p, trace) == RelationPhase(rs, row, p, e);
  }

  /**
   * Relation `j`, once both endpoints are in `objs` when its turn comes, is
   * made with them whenever no earlier relation mapper raised, whatever its
   * own columns and the later mappers then do. Its `make_relation` call is
   * the first one after the earlier mappers' calls, so it is this mapper's own
   * even when an earlier mapper made an identical call.
   */
  lemma RelationMade(rs: seq<(string, ObjectModel)>, j: nat, row: Row, p: Parsers, start: RowState)
    requires j < |rs|
    requires RelationPhase(rs[..j], row, p, start).error.None?
    requires var mid := RelationPhase(rs[..j], row, p, start);
      Lookup(mid.objs, rs[j].1.source).Some? && Lookup(mid.objs, rs[j].1.target).Some?
    ensures var m := rs[j].1;
            var mid := RelationPhase(rs[..j], row, p, start);
            var s := RelationPhase(rs, row, p, start);
      && |start.trace| <= |mid.trace| < |s.trace|
      && s.trace[|mid.trace|] == MakeRelation(m.schema, Lookup(mid.objs, m.source).value, Lookup(mid.objs, m.target).value, SourceOf(m, row, p))
  {
    var m := rs[j].1;
    var mid := RelationPhase(rs[..j], row, p, start);
    var after := RelationPhase(rs[..j + 1], row, p, start);
    var s := RelationPhase(rs, row, p, start);
    var at := |mid.trace|;
    RelationPhasePrefix(rs[..j], 0, row, p, start);
    assert rs[..j][..0] == [];
    RelationPhaseNext(rs, j, row, p, start);
    RelationStepMakes(mid, rs[j], row, p);
    RelationPhasePrefix(rs, j + 1, row, p, start);
    assert s.trace[at] == after.trace[at];
  }

  /** A relation step whose endpoints are recorded appends, first, the `make_relation` call linking them. */
  lemma RelationStepMakes(mid: RowState, rel: (string, ObjectModel), row: Row, p: Parsers)
    requires mid.error.None?
    requires Lookup(mid.objs, rel.1.source).Some? && Lookup(mid.objs, rel.1.target).Some?
    ensures var after := RelationStep(mid, rel, row, p);
      && |mid.trace| < |after.trace|
      && after.trace[|mid.trace|]
         == MakeRelation(rel.1.schema, Lookup(mid.objs, rel.1.source).value, Lookup(mid.objs, rel.1.target).value, SourceOf(rel.1, row, p))
  {
    var r := RelationRun(rel.1, row, p, mid.objs, |mid.trace|);
    assert (mid.trace + r.calls)[|mid.trace|] == r.calls[0];
  }

  // ---------------------------------------------------------------------------
  // A one-entity mapping

  /** A mapping with a single entity `name` whose one column, required and untyped, maps `column` to `property`. */
  function OneEntity(name: string, schemata: Option<string>, column: string, property: Option<string>): MappingModel {
    MappingModel(None, [(name, ObjectModel(schemata, None, None, None, None, None, [RequiredText(column, property)]))], [])
  }

  /** The column that entity reads. */
  function RequiredText(column: string, property: Option<string>): ColumnSpec {
    ColumnSpec(Some(column), property, None, None, Some(true), None, None, None)
  }

  /** Its value on a non-blank cell is the raw text. */
  lemma RequiredTextValue(column: string, property: Option<string>, text: string, p: Parsers)
    requires !AllSpace(text)
    ensures GetValue(RequiredText(column, property), map[column := text], p) == Some(Str(text))
  {
    var c := RequiredText(column, property);
    assert Cell(map[column := text], c.column) == Some(text);
    DefaultTypeKeepsText(text, c, p);
  }

  /** On a non-blank cell the column yields a single `set` of the raw text. */
  lemma RequiredTextSet(column: string, property: Option<string>, text: string, p: Parsers)
    requires !AllSpace(text)
    ensures PropertyCalls(Handle(0), [RequiredText(column, property)], map[column := text], p, None)
         == Run([Set(Handle(0), property, Some(Str(text)), None)], None)
  {
    RequiredTextValue(column, property, text, p);
    SingleColumn(Handle(0), RequiredText(column, property), map[column := text], p, None);
  }

  /** `EntityMapper.load` once its columns are known to raise nothing: make, the `set` calls, save. */
  lemma EntityRunSaved(m: ObjectModel, row: Row, p: Parsers, at: nat, calls: seq<Call>)
    requires PropertyCalls(Handle(at), m.columns, row, p, SourceOf(m, row, p)) == Run(calls, None)
    ensures EntityRun(m, row, p, at) == Loaded([MakeEntity(m.schemata, SourceOf(m, row, p))] + calls + [Save(Handle(at))], Some(Handle(at)), None)
  {
  }

  /** `EntityMapper.load` for that entity on a non-blank cell. */
  lemma OneEntityRun(schemata: Option<string>, column: string, property: Option<string>, text: string, p: Parsers)
    requires !AllSpace(text)
    ensures EntityRun(ObjectModel(schemata, None, None, None, None, None, [RequiredText(column, property)]), map[column := text], p, 0) ==
      Loaded([MakeEntity(schemata, None), Set(Handle(0), property, Some(Str(text)), None), Save(Handle(0))], Some(Handle(0)), None)
  {
    var m := ObjectModel(schemata, None, None, None, None, None, [RequiredText(column, property)]);
    var calls := [Set(Handle(0), property, Some(Str(text)), None)];
    StaticSource(m, map[column := text], p);
    RequiredTextSet(column, property, text, p);
    EntityRunSaved(m, map[column := text], p, 0, calls);
    assert [MakeEntity(schemata, None)] + calls + [Save(Handle(0))]
        == [MakeEntity(schemata, None), Set(Handle(0), property, Some(Str(text)), None), Save(Handle(0))];
  }

  /** Without `source_url_column` the object-level provenance is the static `source_url`. */
  lemma StaticSource(m: ObjectModel, row: Row, p: Parsers)
    requires m.sourceUrlColumn.None?
    ensures SourceOf(m, row, p) == m.sourceUrl
  {
  }

  /** A non-blank cell: the entity is made, its property set to the raw text, and saved. */
  lemma OneEntityLoaded(name: string, schemata: Option<string>, column: string, property: Option<string>, text: string, p: Parsers)
    requires !AllSpace(text)
    ensures RowRun(OneEntity(name, schemata, column, property), map[column := text], p, []) ==
      RowState([MakeEntity(schemata, None), Set(Handle(0), property, Some(Str(text)), None), Save(Handle(0))],
               map[name := Some(Handle(0))], None)
  {
    var es := OneEntity(name, schemata, column, property).entities;
    OneEntityRun(schemata, column, property, text, p);
    EntityPhaseNext(es, 0, map[column := text], p, []);
    assert es[..1] == es;
  }

  /**
   * A blank cell in the required column raises: the entity has been made but
   * is never saved, and the exception carries the column and its raw text.
   */
  lemma OneEntityBlank(name: string, schemata: Option<string>, column: string, property: Option<string>, text: string, p: Parsers)
    requires AllSpace(text)
    ensures RowRun(OneEntity(name, schemata, column, property), map[column := text], p, []) ==
      RowState([MakeEntity(schemata, None)], map[], Some(RowError(Some(column), Some(text))))
  {
    var row := map[column := text];
    var es := OneEntity(name, schemata, column, property).entities;
    var m := es[0].1;
    var c := m.columns[0];
    assert Cell(row, c.column) == Some(text);
    assert SourceOf(m, row, p) == None;
    SingleColumn(Handle(0), c, row, p, None);
    EntityPhaseNext(es, 0, row, p, []);
    assert es[..1] == es;
  }
}
