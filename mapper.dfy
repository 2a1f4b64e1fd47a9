/**
 * The type mapper `_get_pydantic_type` and the registry-backed model builder
 * `dataobject_to_pydantic`, as functions that thread the registry state
 * (the process-global PYDANTIC_TO_DM_MAPPING) through the mutual recursion.
 * The class in registry.dfy runs the same algorithm imperatively on a field.
 */
module Mapper {
  import opened Types

  /** Number of type nodes in a descriptor; every recursive call goes to a smaller one. */
  function Size(t: DmTy): (n: nat)
    ensures n >= 1
  {
    match t
    case Record(_, fs) => 1 + FieldsSize(fs)
    case Annotated(inner) => 1 + Size(inner)
    case Union(alts) => 1 + AltsSize(alts)
    case List(elem) => 1 + Size(elem)
    case DictOf(k, v) => 1 + Size(k) + Size(v)
    case _ => 1
  }

  function FieldsSize(fs: seq<DmField>): nat
  {
    if fs == [] then 0 else FieldsSize(fs[..|fs| - 1]) + Size(fs[|fs| - 1].ty)
  }

  function AltsSize(ts: seq<DmTy>): nat
  {
    if ts == [] then 0 else AltsSize(ts[..|ts| - 1]) + Size(ts[|ts| - 1])
  }

  /**
   * PYDANTIC_TO_DM_MAPPING. The Python dict holds two kinds of keys that never
   * collide (data object classes and generated model classes), so it is two maps
   * here. `nextId` is the identity the next generated class object receives.
   */
  datatype Registry = Registry(toPm: map<DmTy, PyTy>, toDm: map<PyTy, DmTy>, nextId: nat)

  /** The outcome of one mapper call: its result and the registry afterwards. */
  datatype Step<T> = Step(result: Result<T, Failure>, reg: Registry)

  // The four primitive-sequence data objects, each a record with one list field.
  const StrSequence: DmTy := Record("StrSequence", [DmField("values", List(Str))])
  const IntSequence: DmTy := Record("IntSequence", [DmField("values", List(Int))])
  const FloatSequence: DmTy := Record("FloatSequence", [DmField("values", List(Float))])
  const BoolSequence: DmTy := Record("BoolSequence", [DmField("values", List(Bool))])

  predicate IsAlias(d: DmTy)
  {
    d == StrSequence || d == IntSequence || d == FloatSequence || d == BoolSequence
  }

  /** The list type a primitive sequence is collapsed to. */
  function AliasSchema(d: DmTy): PyTy
    requires IsAlias(d)
  {
    if d == StrSequence then PList(PStr)
    else if d == IntSequence then PList(PInt)
    else if d == FloatSequence then PList(PFloat)
    else PList(PBool)
  }

  /** The registry as the module is imported: only the four primitive sequences. */
  function Seeded(): (reg: Registry)
    ensures forall d :: IsAlias(d) ==> d in reg.toPm && reg.toPm[d] == AliasSchema(d)
    ensures forall d :: d in reg.toPm ==> IsAlias(d)
    ensures reg.toDm == map[]
  {
    Registry(map[StrSequence := PList(PStr), IntSequence := PList(PInt),
                 FloatSequence := PList(PFloat), BoolSequence := PList(PBool)],
             map[], 0)
  }

  /** `_get_pydantic_type`: leaves map directly, data objects go through the registry, wrappers recurse. */
  function PydanticType(t: DmTy, reg: Registry): Step<PyTy>
    decreases Size(t), 1
  {
    match t
    case NpInteger(_) => Step(Ok(PInt), reg)
    case NpFloating(_) => Step(Ok(PFloat), reg)
    case Bytes => Step(Ok(PBytes), reg)
    case Int => Step(Ok(PInt), reg)
    case Float => Step(Ok(PFloat), reg)
    case Bool => Step(Ok(PBool), reg)
    case Str => Step(Ok(PStr), reg)
    case Dict => Step(Ok(PDict), reg)
    case NoneType => Step(Ok(PNone), reg)
    case Enum(n) => Step(Ok(PEnum(n)), reg)
    case Record(_, _) => DataobjectToPydantic(t, reg)
    case Annotated(inner) => PydanticType(inner, reg)
    case Union(alts) =>
      var s := MapAll(alts, reg);
      if s.result.Ok? then Step(Ok(PUnion(s.result.value)), s.reg) else Step(Err(s.result.error), s.reg)
    case List(elem) =>
      var s := PydanticType(elem, reg);
      if s.result.Ok? then Step(Ok(PList(s.result.value)), s.reg) else s
    case DictOf(k, v) =>
      var sk := PydanticType(k, reg);
      if sk.result.Err? then sk
      else
        var sv := PydanticType(v, sk.reg);
        if sv.result.Ok? then Step(Ok(PDictOf(sk.result.value, sv.result.value)), sv.reg) else sv
    case Other(desc) => Step(Err(UnsupportedType(desc)), reg)
  }

  /**
   * `dataobject_to_pydantic`: a registered class returns its entry; otherwise every
   * field type is mapped first, then a model whose fields default to None is
   * created and stored in both directions.
   */
  function DataobjectToPydantic(d: DmTy, reg: Registry): Step<PyTy>
    requires d.Record?
    decreases Size(d), 0
  {
    if d in reg.toPm then Step(Ok(reg.toPm[d]), reg)
    else
      var s := MapFields(d.fields, reg);
      if s.result.Err? then Step(Err(s.result.error), s.reg)
      else
        var p := PModel(s.reg.nextId, d.name, s.result.value);
        Step(Ok(p), Registry(s.reg.toPm[d := p], s.reg.toDm[p := d], s.reg.nextId + 1))
  }

  /** The annotations of a new model, field by field in declaration order. */
  function MapFields(fs: seq<DmField>, reg: Registry): Step<seq<PyField>>
    decreases FieldsSize(fs), 2
  {
    if fs == [] then Step(Ok([]), reg)
    else
      var s := MapFields(fs[..|fs| - 1], reg);
      if s.result.Err? then s
      else
        var last := fs[|fs| - 1];
        var f := PydanticType(last.ty, s.reg);
        if f.result.Err? then Step(Err(f.result.error), f.reg)
        else Step(Ok(s.result.value + [PyField(last.name, f.result.value, VNone)]), f.reg)
  }

  /** The alternatives of a union, mapped in order. */
  function MapAll(ts: seq<DmTy>, reg: Registry): Step<seq<PyTy>>
    decreases AltsSize(ts), 2
  {
    if ts == [] then Step(Ok([]), reg)
    else
      var s := MapAll(ts[..|ts| - 1], reg);
      if s.result.Err? then s
      else
        var f := PydanticType(ts[|ts| - 1], s.reg);
        if f.result.Err? then Step(Err(f.result.error), f.reg)
        else Step(Ok(s.result.value + [f.result.value]), f.reg)
  }

  /**
   * `_from_base64`, the pre-validator of the bytes leaf: text is base64-decoded
   * (`decode` returns None where the decoder raises), anything else is returned as is.
   */
  function FromBase64(data: PyVal, decode: string -> Option<seq<byte>>): (r: Option<PyVal>)
    ensures data.VStr? && decode(data.s).Some? ==> r == Some(VBytes(decode(data.s).value))
    ensures data.VStr? && decode(data.s).None? ==> r == None
    ensures !data.VStr? ==> r == Some(data)
  {
    if data.VStr? then
      match decode(data.s)
      case Some(b) => Some(VBytes(b))
      case None => None
    else Some(data)
  }
}
