/**
 * The persistence client the mapping engine drives (`granoclient.loader.Loader`
 * and the entity and relation objects it hands out). Its network behaviour is
 * not modelled: the loader only records, in order, the calls it receives.
 */
module Grano {
  import opened Wrappers

  /** A value a column can hold once converted. */
  datatype Value =
    | Bool(b: bool)
    | Int(i: int)
    | Float(x: real)
    | Date(when: DateTime)
    | Str(s: string)

  /** A `datetime.datetime` as produced by `strptime` or `dateutil`. */
  datatype DateTime = DateTime(year: int, month: int, day: int, hour: int, minute: int, second: int, microsecond: int)

  /** An entity or relation object. It is identified by the position of the call that created it in the loader's trace. */
  datatype Handle = Handle(id: nat)

  /** One call received by the loader or by an object it created. */
  datatype Call =
    | MakeEntity(schema: Option<string>, sourceUrl: Option<string>)
    | MakeRelation(schema: Option<string>, source: Handle, target: Handle, sourceUrl: Option<string>)
    | Set(obj: Handle, property: Option<string>, value: Option<Value>, sourceUrl: Option<string>)
    | Save(obj: Handle)
  {
    /** The objects this call refers to (a creation call refers to none yet). */
    function Refs(): set<Handle> {
      match this
      case MakeEntity(_, _) => {}
      case MakeRelation(_, s, t, _) => {s, t}
      case Set(h, _, _, _) => {h}
      case Save(h) => {h}
    }

    predicate IsMake() {
      MakeEntity? || MakeRelation?
    }
  }

  /** `h` names an object created by one of the calls of `trace`. */
  ghost predicate Created(trace: seq<Call>, h: Handle) {
    h.id < |trace| && trace[h.id].IsMake()
  }

  /** Every call refers only to objects created by an earlier call. */
  ghost predicate WellFormed(trace: seq<Call>) {
    forall i, h | 0 <= i < |trace| && h in trace[i].Refs() :: h.id < i && trace[h.id].IsMake()
  }

  /** The loader with the calls it has received so far. */
  class Loader {
    /** The default provenance given when the loader was built. */
    const sourceUrl: Option<string>
    var trace: seq<Call>

    constructor (sourceUrl: Option<string>)
      ensures this.sourceUrl == sourceUrl && trace == []
    {
      this.sourceUrl := sourceUrl;
      trace := [];
    }

    /** `loader.make_entity(schema, source_url=...)`. */
    method MakeEntity(schema: Option<string>, sourceUrl: Option<string>) returns (entity: Handle)
      modifies this`trace
      ensures entity == Handle(|old(trace)|) && Created(trace, entity)
      ensures trace == old(trace) + [Call.MakeEntity(schema, sourceUrl)]
    {
      entity := Handle(|trace|);
      trace := trace + [Call.MakeEntity(schema, sourceUrl)];
    }

    /** `loader.make_relation(schema, source, target, source_url=...)`. */
    method MakeRelation(schema: Option<string>, source: Handle, target: Handle, sourceUrl: Option<string>)
      returns (relation: Handle)
      modifies this`trace
      ensures relation == Handle(|old(trace)|) && Created(trace, relation)
      ensures trace == old(trace) + [Call.MakeRelation(schema, source, target, sourceUrl)]
    {
      relation := Handle(|trace|);
      trace := trace + [Call.MakeRelation(schema, source, target, sourceUrl)];
    }

    /** `obj.set(property, value, source_url=...)`. */
    method Set(obj: Handle, property: Option<string>, value: Option<Value>, sourceUrl: Option<string>)
      modifies this`trace
      ensures trace == old(trace) + [Call.Set(obj, property, value, sourceUrl)]
    {
      trace := trace + [Call.Set(obj, property, value, sourceUrl)];
    }

    /** `obj.save()`. */
    method Save(obj: Handle)
      modifies this`trace
      ensures trace == old(trace) + [Call.Save(obj)]
    {
      trace := trace + [Call.Save(obj)];
    }
  }
}
