/**
 * `pydantic_to_dataobject`: turn a validated model instance back into a data
 * object by walking its fields. The functions here specify it; the method
 * `SchemaRegistry.PydanticToDataobject` in registry.dfy runs it with loops.
 */
module Converter {
  import opened Types
  import opened Mapper
  import opened MapperProofs

  /** A data object as built by calling the data-object class with keyword arguments. */
  datatype DmObj = DmObj(cls: DmTy, kwargs: seq<(string, DmArg)>)

  /** A keyword argument: a value passed on as is, a converted object, or a list of them. */
  datatype DmArg = Plain(v: PyVal) | Nested(obj: DmObj) | NestedList(objs: seq<DmObj>)

  /** `type(v) in PYDANTIC_TO_DM_MAPPING` for a field value: an instance of a registered model. */
  predicate Registered(toDm: map<PyTy, DmTy>, v: PyVal)
  {
    v.VModel? && v.cls in toDm
  }

  /** Every element of a list value is an instance of a registered model (true of the empty list). */
  predicate AllRegistered(toDm: map<PyTy, DmTy>, items: seq<PyVal>)
  {
    forall i :: 0 <= i < |items| ==> Registered(toDm, items[i])
  }

  /** The whole conversion: the class lookup happens first, the call fails when it found nothing. */
  function Convert(toDm: map<PyTy, DmTy>, m: PyVal): (r: Result<DmObj, Failure>)
    requires m.VModel?
    ensures r.Ok? <==> m.cls in toDm
    ensures r.Ok? ==> r.value.cls == toDm[m.cls] && |r.value.kwargs| == |m.values|
    ensures r.Err? ==> r == Err(TypeErrorRaised("'NoneType' object is not callable"))
  {
    if m.cls in toDm then Ok(Build(toDm, m))
    else Err(TypeErrorRaised("'NoneType' object is not callable"))
  }

  /** The data object for an instance of a registered model. */
  function Build(toDm: map<PyTy, DmTy>, m: PyVal): (o: DmObj)
    requires Registered(toDm, m)
    ensures o.cls == toDm[m.cls] && |o.kwargs| == |m.values|
    decreases m, 1, 0
  {
    DmObj(toDm[m.cls], Args(toDm, m, |m.values|))
  }

  /** `dm_kwargs` after the loop has handled the first `n` fields of the instance `m`. */
  function Args(toDm: map<PyTy, DmTy>, m: PyVal, n: nat): (args: seq<(string, DmArg)>)
    requires m.VModel? && n <= |m.values|
    ensures |args| == n
    decreases m, 0, n
  {
    if n == 0 then []
    else
      var field := m.values[n - 1];
      Args(toDm, m, n - 1) + [(field.0, Arg(toDm, field.1))]
  }

  /** The keyword argument for one field value. */
  function Arg(toDm: map<PyTy, DmTy>, v: PyVal): (a: DmArg)
    ensures Registered(toDm, v) ==> a.Nested?
    ensures !Registered(toDm, v) && v.VList? && AllRegistered(toDm, v.items) ==>
      a.NestedList? && |a.objs| == |v.items|
    ensures !Registered(toDm, v) && !(v.VList? && AllRegistered(toDm, v.items)) ==> a == Plain(v)
    decreases v, 2, 0
  {
    if Registered(toDm, v) then Nested(Build(toDm, v))
    else if v.VList? && AllRegistered(toDm, v.items) then NestedList(BuildAll(toDm, v, |v.items|))
    else Plain(v)
  }

  /** `[pydantic_to_dataobject(val) for val in field_value]`, over the first `n` elements of the list `l`. */
  function BuildAll(toDm: map<PyTy, DmTy>, l: PyVal, n: nat): (objs: seq<DmObj>)
    requires l.VList? && n <= |l.items| && AllRegistered(toDm, l.items)
    ensures |objs| == n
    decreases l, 0, n
  {
    if n == 0 then []
    else BuildAll(toDm, l, n - 1) + [Build(toDm, l.items[n - 1])]
  }

  /** Field `i` of the instance becomes keyword argument `i`, under the same name. */
  lemma {:induction false} ArgsAt(toDm: map<PyTy, DmTy>, m: PyVal, n: nat, i: nat)
    requires m.VModel? && i < n <= |m.values|
    ensures Args(toDm, m, n)[i] == (m.values[i].0, Arg(toDm, m.values[i].1))
  {
    if i < n - 1 {
      ArgsAt(toDm, m, n - 1, i);
    }
  }

  /** Element `i` of a list of registered instances becomes converted object `i`. */
  lemma {:induction false} BuildAllAt(toDm: map<PyTy, DmTy>, l: PyVal, n: nat, i: nat)
    requires l.VList? && i < n <= |l.items| && AllRegistered(toDm, l.items)
    ensures BuildAll(toDm, l, n)[i] == Build(toDm, l.items[i])
  {
    if i < n - 1 {
      BuildAllAt(toDm, l, n - 1, i);
    }
  }

  /**
   * The conversion, field by field: the target is the registered data-object class,
   * every field keeps its name and position; an instance of a registered model is
   * converted recursively, a list whose elements all are is converted element-wise
   * (same length and order, so the empty list stays empty), and any other value is
   * passed to the constructor unchanged.
   */
  lemma ConvertFieldwise(toDm: map<PyTy, DmTy>, m: PyVal)
    requires m.VModel? && m.cls in toDm
    ensures var o := Convert(toDm, m).value;
      && o.cls == toDm[m.cls]
      && |o.kwargs| == |m.values|
      && forall i :: 0 <= i < |m.values| ==>
           var v := m.values[i].1;
           && o.kwargs[i].0 == m.values[i].0
           && (Registered(toDm, v) ==> o.kwargs[i].1 == Nested(Build(toDm, v)))
           && (!Registered(toDm, v) && v.VList? && AllRegistered(toDm, v.items) ==>
                 && o.kwargs[i].1.NestedList?
                 && |o.kwargs[i].1.objs| == |v.items|
                 && forall j :: 0 <= j < |v.items| ==> o.kwargs[i].1.objs[j] == Build(toDm, v.items[j]))
           && (!Registered(toDm, v) && !(v.VList? && AllRegistered(toDm, v.items)) ==>
                 o.kwargs[i].1 == Plain(v))
  {
    forall i | 0 <= i < |m.values| ensures Args(toDm, m, |m.values|)[i] == (m.values[i].0, Arg(toDm, m.values[i].1)) {
      ArgsAt(toDm, m, |m.values|, i);
    }
    forall i, j | 0 <= i < |m.values| && var v := m.values[i].1;
        !Registered(toDm, v) && v.VList? && AllRegistered(toDm, v.items) && 0 <= j < |v.items|
      ensures BuildAll(toDm, m.values[i].1, |m.values[i].1.items|)[j] == Build(toDm, m.values[i].1.items[j])
    {
      BuildAllAt(toDm, m.values[i].1, |m.values[i].1.items|, j);
    }
  }

  /**
   * An instance of the model generated for a data object converts back to an object
   * of that same data-object class, through the reverse entry the registry keeps.
   */
  lemma ConvertsToSourceClass(d: DmTy, reg: Registry, m: PyVal)
    requires d.Record? && !IsAlias(d) && Coherent(reg)
    requires DataobjectToPydantic(d, reg).result.Ok?
    requires m.VModel? && m.cls == DataobjectToPydantic(d, reg).result.value
    ensures var r := Convert(DataobjectToPydantic(d, reg).reg.toDm, m);
      r.Ok? && r.value.cls == d
  {
    DataobjectToPydanticEffect(d, reg);
  }
}
