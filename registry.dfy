/**
 * PYDANTIC_TO_DM_MAPPING as the state of an object, and the three functions of
 * the source that use it: `_get_pydantic_type` and `dataobject_to_pydantic`,
 * which fill it, and `pydantic_to_dataobject`, which reads it. Each method is
 * proved to compute what the functions in mapper.dfy and converter.dfy specify.
 */
module GlobalRegistry {
  import opened Types
  import opened Mapper
  import opened MapperProofs
  import opened Converter

  /** Once a field fails to map, the rest of the fields are never mapped. */
  lemma {:induction false} MapFieldsErrSticks(fs: seq<DmField>, k: nat, reg: Registry)
    requires k <= |fs| && MapFields(fs[..k], reg).result.Err?
    ensures MapFields(fs, reg) == MapFields(fs[..k], reg)
    decreases |fs| - k
  {
    if k < |fs| {
      assert fs[..k + 1][..k] == fs[..k];
      MapFieldsErrSticks(fs, k + 1, reg);
    } else {
      assert fs[..k] == fs;
    }
  }

  /** Once an alternative fails to map, the rest of the union is never mapped. */
  lemma {:induction false} MapAllErrSticks(ts: seq<DmTy>, k: nat, reg: Registry)
    requires k <= |ts| && MapAll(ts[..k], reg).result.Err?
    ensures MapAll(ts, reg) == MapAll(ts[..k], reg)
    decreases |ts| - k
  {
    if k < |ts| {
      assert ts[..k + 1][..k] == ts[..k];
      MapAllErrSticks(ts, k + 1, reg);
    } else {
      assert ts[..k] == ts;
    }
  }

  /** The process-wide registry: data-object class to schema, generated model to data-object class. */
  class SchemaRegistry {
    var toPm: map<DmTy, PyTy>
    var toDm: map<PyTy, DmTy>
    var nextId: nat

    function State(): Registry
      reads this
    {
      Registry(toPm, toDm, nextId)
    }

    ghost predicate Valid()
      reads this
    {
      Coherent(State())
    }

    /** The module-level dict literal: the four primitive sequences map to lists. */
    constructor ()
      ensures State() == Seeded() && Valid()
    {
      toPm := Seeded().toPm;
      toDm := Seeded().toDm;
      nextId := Seeded().nextId;
      new;
      SeededCoherent();
    }

    /** `_get_pydantic_type(field_type)`. */
    method PydanticType(t: DmTy) returns (r: Result<PyTy, Failure>)
      requires Valid()
      modifies this
      ensures Valid()
      ensures Step(r, State()) == Mapper.PydanticType(t, old(State()))
      decreases Size(t), 1
    {
      ghost var s0 := State();
      match t
      case NpInteger(_) => r := Ok(PInt);
      case NpFloating(_) => r := Ok(PFloat);
      case Bytes => r := Ok(PBytes);
      case Int => r := Ok(PInt);
      case Float => r := Ok(PFloat);
      case Bool => r := Ok(PBool);
      case Str => r := Ok(PStr);
      case Dict => r := Ok(PDict);
      case NoneType => r := Ok(PNone);
      case Enum(n) => r := Ok(PEnum(n));
      case Record(_, _) => r := DataobjectToPydantic(t);
      case Annotated(inner) => r := PydanticType(inner);
      case Union(alts) =>
        var mapped: seq<PyTy> := [];
        var i := 0;
        while i < |alts|
          invariant 0 <= i <= |alts|
          invariant Valid()
          invariant MapAll(alts[..i], s0) == Step(Ok(mapped), State())
        {
          AltSizeBound(alts, i);
          var a := PydanticType(alts[i]);
          assert alts[..i + 1][..i] == alts[..i];
          if a.Err? {
            MapAllErrSticks(alts, i + 1, s0);
            return Err(a.error);
          }
          mapped := mapped + [a.value];
          i := i + 1;
        }
        assert alts[..|alts|] == alts;
        r := Ok(PUnion(mapped));
      case List(elem) =>
        var e := PydanticType(elem);
        r := if e.Ok? then Ok(PList(e.value)) else e;
      case DictOf(k, v) =>
        var kr := PydanticType(k);
        if kr.Err? {
          return kr;
        }
        var vr := PydanticType(v);
        r := if vr.Ok? then Ok(PDictOf(kr.value, vr.value)) else vr;
      case Other(desc) => r := Err(UnsupportedType(desc));
    }

    /**
     * `dataobject_to_pydantic(dm_class)`: the registry is consulted first; a new
     * model is stored in both directions only after all its fields have been mapped.
     */
    method DataobjectToPydantic(d: DmTy) returns (r: Result<PyTy, Failure>)
      requires d.Record? && Valid()
      modifies this
      ensures Valid()
      ensures Step(r, State()) == Mapper.DataobjectToPydantic(d, old(State()))
      decreases Size(d), 0
    {
      ghost var s0 := State();
      DataobjectCoherent(d, s0);
      if d in toPm {
        return Ok(toPm[d]);
      }
      var annotations: seq<PyField> := [];
      var i := 0;
      while i < |d.fields|
        invariant 0 <= i <= |d.fields|
        invariant Valid()
        invariant MapFields(d.fields[..i], s0) == Step(Ok(annotations), State())
      {
        FieldSizeBound(d.fields, i);
        var f := PydanticType(d.fields[i].ty);
        assert d.fields[..i + 1][..i] == d.fields[..i];
        if f.Err? {
          MapFieldsErrSticks(d.fields, i + 1, s0);
          return Err(f.error);
        }
        annotations := annotations + [PyField(d.fields[i].name, f.value, VNone)];
        i := i + 1;
      }
      assert d.fields[..|d.fields|] == d.fields;
      var model := PModel(nextId, d.name, annotations);
      toPm := toPm[d := model];
      toDm := toDm[model := d];
      nextId := nextId + 1;
      r := Ok(model);
      assert State() == Mapper.DataobjectToPydantic(d, s0).reg;
    }

    /** `pydantic_to_dataobject(pydantic_model)`. */
    method PydanticToDataobject(m: PyVal) returns (r: Result<DmObj, Failure>)
      requires m.VModel?
      ensures r == Convert(toDm, m)
      decreases m
    {
      var target: Option<DmTy> := if m.cls in toDm then Some(toDm[m.cls]) else None;
      var kwargs: seq<(string, DmArg)> := [];
      var i := 0;
      while i < |m.values|
        invariant 0 <= i <= |m.values|
        invariant kwargs == Args(toDm, m, i)
      {
        var (name, value) := m.values[i];
        var arg: DmArg;
        if Registered(toDm, value) {
          var o := PydanticToDataobject(value);
          arg := Nested(o.value);
        } else if value.VList? {
          if AllRegistered(toDm, value.items) {
            var objs: seq<DmObj> := [];
            var j := 0;
            while j < |value.items|
              invariant 0 <= j <= |value.items|
              invariant objs == BuildAll(toDm, value, j)
            {
              var o := PydanticToDataobject(value.items[j]);
              objs := objs + [o.value];
              j := j + 1;
            }
            arg := NestedList(objs);
          } else {
            arg := Plain(value);
          }
        } else {
          arg := Plain(value);
        }
        kwargs := kwargs + [(name, arg)];
        i := i + 1;
      }
      if target.None? {
        return Err(TypeErrorRaised("'NoneType' object is not callable"));
      }
      r := Ok(DmObj(target.value, kwargs));
    }
  }
}
