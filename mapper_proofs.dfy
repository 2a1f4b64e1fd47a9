/**
 * What the mapper and the registry promise: every generated type mirrors the
 * data-model type it came from, the registry only grows and stays a two-way map,
 * a second call returns the identical model, and only unknown annotations fail.
 */
module MapperProofs {
  import opened Types
  import opened Mapper

  /** `b` keeps every data-object entry of `a` and allocates no identity twice. */
  ghost predicate ExtendsPm(a: Registry, b: Registry)
  {
    && a.nextId <= b.nextId
    && forall d :: d in a.toPm ==> d in b.toPm && b.toPm[d] == a.toPm[d]
  }

  /** Every data-object class registered between `a` and `b` has at most `n` nodes. */
  ghost predicate NewKeysWithin(a: Registry, b: Registry, n: nat)
  {
    forall d :: d in b.toPm && d !in a.toPm ==> Size(d) <= n
  }

  /**
   * The independent description of the mapping: `p` is the schema type for `t`
   * when the registry `m` holds the models of the data objects inside `t`.
   */
  ghost predicate Mirrors(t: DmTy, p: PyTy, m: map<DmTy, PyTy>)
  {
    match t
    case NpInteger(_) => p == PInt
    case NpFloating(_) => p == PFloat
    case Bytes => p == PBytes
    case Int => p == PInt
    case Float => p == PFloat
    case Bool => p == PBool
    case Str => p == PStr
    case Dict => p == PDict
    case NoneType => p == PNone
    case Enum(n) => p == PEnum(n)
    case Record(_, _) => t in m && m[t] == p
    case Annotated(inner) => Mirrors(inner, p, m)
    case Union(alts) =>
      p.PUnion? && |p.alts| == |alts| && forall i :: 0 <= i < |alts| ==> Mirrors(alts[i], p.alts[i], m)
    case List(elem) => p.PList? && Mirrors(elem, p.elem, m)
    case DictOf(k, v) => p.PDictOf? && Mirrors(k, p.key, m) && Mirrors(v, p.value, m)
    case Other(_) => false
  }

  /** The generated fields have the data object's names, in order, mirrored types and None defaults. */
  ghost predicate FieldsMirror(fs: seq<DmField>, pfs: seq<PyField>, m: map<DmTy, PyTy>)
  {
    && |pfs| == |fs|
    && forall i :: 0 <= i < |fs| ==>
         pfs[i].name == fs[i].name && pfs[i].default == VNone && Mirrors(fs[i].ty, pfs[i].ty, m)
  }

  /** `p` is a generated model for the data object `d`. */
  ghost predicate ModelFor(d: DmTy, p: PyTy, m: map<DmTy, PyTy>)
  {
    d.Record? && p.PModel? && p.name == d.name && FieldsMirror(d.fields, p.fields, m)
  }

  /**
   * The registry invariant: the primitive sequences map to their lists, every other
   * registered data object maps to a model built for it whose identity was allocated,
   * and the reverse entries are exactly the inverse of those models.
   */
  ghost predicate Coherent(reg: Registry)
  {
    && (forall d :: IsAlias(d) ==> d in reg.toPm && reg.toPm[d] == AliasSchema(d))
    && (forall d :: d in reg.toPm && !IsAlias(d) ==>
          && ModelFor(d, reg.toPm[d], reg.toPm)
          && reg.toPm[d].id < reg.nextId
          && reg.toPm[d] in reg.toDm && reg.toDm[reg.toPm[d]] == d)
    && (forall p :: p in reg.toDm ==>
          reg.toDm[p] in reg.toPm && reg.toPm[reg.toDm[p]] == p && !IsAlias(reg.toDm[p]))
  }

  /** No unknown annotation occurs anywhere inside `t`. */
  ghost predicate Supported(t: DmTy)
  {
    match t
    case Record(_, fs) => forall i :: 0 <= i < |fs| ==> Supported(fs[i].ty)
    case Annotated(inner) => Supported(inner)
    case Union(alts) => forall i :: 0 <= i < |alts| ==> Supported(alts[i])
    case List(elem) => Supported(elem)
    case DictOf(k, v) => Supported(k) && Supported(v)
    case Other(_) => false
    case _ => true
  }

  // ---------------------------------------------------------------------------
  // Sizes of the last element

  lemma LastFieldSize(fs: seq<DmField>)
    requires fs != []
    ensures FieldsSize(fs[..|fs| - 1]) + Size(fs[|fs| - 1].ty) == FieldsSize(fs)
  {
  }

  lemma LastAltSize(ts: seq<DmTy>)
    requires ts != []
    ensures AltsSize(ts[..|ts| - 1]) + Size(ts[|ts| - 1]) == AltsSize(ts)
  {
  }

  // ---------------------------------------------------------------------------
  // The registry only grows, and only by data objects inside the mapped type.

  lemma {:induction false} PydanticTypeGrows(t: DmTy, reg: Registry)
    ensures ExtendsPm(reg, PydanticType(t, reg).reg)
    ensures NewKeysWithin(reg, PydanticType(t, reg).reg, Size(t))
    decreases Size(t), 1
  {
    match t
    case Record(_, _) => DataobjectGrows(t, reg);
    case Annotated(inner) => PydanticTypeGrows(inner, reg);
    case Union(alts) => MapAllGrows(alts, reg);
    case List(elem) => PydanticTypeGrows(elem, reg);
    case DictOf(k, v) =>
      PydanticTypeGrows(k, reg);
      var sk := PydanticType(k, reg);
      if sk.result.Ok? {
        PydanticTypeGrows(v, sk.reg);
      }
    case _ =>
  }

  lemma {:induction false} DataobjectGrows(d: DmTy, reg: Registry)
    requires d.Record?
    ensures ExtendsPm(reg, DataobjectToPydantic(d, reg).reg)
    ensures NewKeysWithin(reg, DataobjectToPydantic(d, reg).reg, Size(d))
    decreases Size(d), 0
  {
    if d !in reg.toPm {
      MapFieldsGrows(d.fields, reg);
    }
  }

  lemma {:induction false} MapFieldsGrows(fs: seq<DmField>, reg: Registry)
    ensures ExtendsPm(reg, MapFields(fs, reg).reg)
    ensures NewKeysWithin(reg, MapFields(fs, reg).reg, FieldsSize(fs))
    decreases FieldsSize(fs), 2
  {
    if fs != [] {
      LastFieldSize(fs);
      MapFieldsGrows(fs[..|fs| - 1], reg);
      var s := MapFields(fs[..|fs| - 1], reg);
      if s.result.Ok? {
        PydanticTypeGrows(fs[|fs| - 1].ty, s.reg);
      }
    }
  }

  lemma {:induction false} MapAllGrows(ts: seq<DmTy>, reg: Registry)
    ensures ExtendsPm(reg, MapAll(ts, reg).reg)
    ensures NewKeysWithin(reg, MapAll(ts, reg).reg, AltsSize(ts))
    decreases AltsSize(ts), 2
  {
    if ts != [] {
      LastAltSize(ts);
      MapAllGrows(ts[..|ts| - 1], reg);
      var s := MapAll(ts[..|ts| - 1], reg);
      if s.result.Ok? {
        PydanticTypeGrows(ts[|ts| - 1], s.reg);
      }
    }
  }

  // ---------------------------------------------------------------------------
  // Mirroring survives registry growth.

  lemma {:induction false} MirrorsExtend(t: DmTy, p: PyTy, m: map<DmTy, PyTy>, m': map<DmTy, PyTy>)
    requires Mirrors(t, p, m)
    requires forall d :: d in m ==> d in m' && m'[d] == m[d]
    ensures Mirrors(t, p, m')
    decreases t
  {
    match t
    case Annotated(inner) => MirrorsExtend(inner, p, m, m');
    case Union(alts) =>
      forall i | 0 <= i < |alts| ensures Mirrors(alts[i], p.alts[i], m') {
        MirrorsExtend(alts[i], p.alts[i], m, m');
      }
    case List(elem) => MirrorsExtend(elem, p.elem, m, m');
    case DictOf(k, v) =>
      MirrorsExtend(k, p.key, m, m');
      MirrorsExtend(v, p.value, m, m');
    case _ =>
  }

  lemma FieldsMirrorExtend(fs: seq<DmField>, pfs: seq<PyField>, m: map<DmTy, PyTy>, m': map<DmTy, PyTy>)
    requires FieldsMirror(fs, pfs, m)
    requires forall d :: d in m ==> d in m' && m'[d] == m[d]
    ensures FieldsMirror(fs, pfs, m')
  {
    forall i | 0 <= i < |fs| ensures Mirrors(fs[i].ty, pfs[i].ty, m') {
      MirrorsExtend(fs[i].ty, pfs[i].ty, m, m');
    }
  }

  // ---------------------------------------------------------------------------
  // Every result mirrors its input.

  lemma {:induction false} PydanticTypeMirrors(t: DmTy, reg: Registry)
    ensures var s := PydanticType(t, reg);
      s.result.Ok? ==> Mirrors(t, s.result.value, s.reg.toPm)
    decreases Size(t), 1
  {
    match t
    case Record(_, _) =>
    case Annotated(inner) => PydanticTypeMirrors(inner, reg);
    case Union(alts) => MapAllMirrors(alts, reg);
    case List(elem) => PydanticTypeMirrors(elem, reg);
    case DictOf(k, v) =>
      var sk := PydanticType(k, reg);
      if sk.result.Ok? {
        var sv := PydanticType(v, sk.reg);
        PydanticTypeMirrors(k, reg);
        PydanticTypeMirrors(v, sk.reg);
        PydanticTypeGrows(v, sk.reg);
        MirrorsExtend(k, sk.result.value, sk.reg.toPm, sv.reg.toPm);
      }
    case _ =>
  }

  lemma {:induction false} MapFieldsMirrors(fs: seq<DmField>, reg: Registry)
    ensures var s := MapFields(fs, reg);
      s.result.Ok? ==> FieldsMirror(fs, s.result.value, s.reg.toPm)
    decreases FieldsSize(fs), 2
  {
    if fs != [] {
      var init := fs[..|fs| - 1];
      LastFieldSize(fs);
      var s := MapFields(init, reg);
      MapFieldsMirrors(init, reg);
      if s.result.Ok? {
        var last := fs[|fs| - 1];
        var f := PydanticType(last.ty, s.reg);
        PydanticTypeMirrors(last.ty, s.reg);
        PydanticTypeGrows(last.ty, s.reg);
        if f.result.Ok? {
          FieldsMirrorExtend(init, s.result.value, s.reg.toPm, f.reg.toPm);
          var r := s.result.value + [PyField(last.name, f.result.value, VNone)];
          forall i | 0 <= i < |fs|
            ensures r[i].name == fs[i].name && r[i].default == VNone && Mirrors(fs[i].ty, r[i].ty, f.reg.toPm)
          {
            if i < |init| {
              assert fs[i] == init[i];
            }
          }
        }
      }
    }
  }

  lemma {:induction false} MapAllMirrors(ts: seq<DmTy>, reg: Registry)
    ensures var s := MapAll(ts, reg);
      s.result.Ok? ==>
        && |s.result.value| == |ts|
        && forall i :: 0 <= i < |ts| ==> Mirrors(ts[i], s.result.value[i], s.reg.toPm)
    decreases AltsSize(ts), 2
  {
    if ts != [] {
      var init := ts[..|ts| - 1];
      LastAltSize(ts);
      var s := MapAll(init, reg);
      MapAllMirrors(init, reg);
      if s.result.Ok? {
        var f := PydanticType(ts[|ts| - 1], s.reg);
        PydanticTypeMirrors(ts[|ts| - 1], s.reg);
        PydanticTypeGrows(ts[|ts| - 1], s.reg);
        if f.result.Ok? {
          var r := s.result.value + [f.result.value];
          forall i | 0 <= i < |ts| ensures Mirrors(ts[i], r[i], f.reg.toPm) {
            if i < |init| {
              assert ts[i] == init[i];
              MirrorsExtend(init[i], s.result.value[i], s.reg.toPm, f.reg.toPm);
            }
          }
        }
      }
    }
  }

  // ---------------------------------------------------------------------------
  // The registry stays a coherent two-way map.

  lemma SeededCoherent()
    ensures Coherent(Seeded())
  {
  }

  /** Registering a freshly built model for an unregistered data object keeps the invariant. */
  lemma RegisterKeepsCoherent(d: DmTy, pfs: seq<PyField>, reg: Registry)
    requires Coherent(reg)
    requires d.Record? && d !in reg.toPm
    requires FieldsMirror(d.fields, pfs, reg.toPm)
    ensures var p := PModel(reg.nextId, d.name, pfs);
      Coherent(Registry(reg.toPm[d := p], reg.toDm[p := d], reg.nextId + 1))
  {
    var p := PModel(reg.nextId, d.name, pfs);
    var reg' := Registry(reg.toPm[d := p], reg.toDm[p := d], reg.nextId + 1);
    FieldsMirrorExtend(d.fields, pfs, reg.toPm, reg'.toPm);
    assert !IsAlias(d);
    assert p !in reg.toDm;
    forall d' | d' in reg'.toPm && !IsAlias(d')
      ensures ModelFor(d', reg'.toPm[d'], reg'.toPm) && reg'.toPm[d'].id < reg'.nextId
      ensures reg'.toPm[d'] in reg'.toDm && reg'.toDm[reg'.toPm[d']] == d'
    {
      if d' != d {
        var q := reg.toPm[d'];
        FieldsMirrorExtend(d'.fields, q.fields, reg.toPm, reg'.toPm);
        assert q != p;
      }
    }
  }

  lemma {:induction false} PydanticTypeCoherent(t: DmTy, reg: Registry)
    requires Coherent(reg)
    ensures Coherent(PydanticType(t, reg).reg)
    decreases Size(t), 1
  {
    match t
    case Record(_, _) => DataobjectCoherent(t, reg);
    case Annotated(inner) => PydanticTypeCoherent(inner, reg);
    case Union(alts) => MapAllCoherent(alts, reg);
    case List(elem) => PydanticTypeCoherent(elem, reg);
    case DictOf(k, v) =>
      PydanticTypeCoherent(k, reg);
      var sk := PydanticType(k, reg);
      if sk.result.Ok? {
        PydanticTypeCoherent(v, sk.reg);
      }
    case _ =>
  }

  lemma {:induction false} DataobjectCoherent(d: DmTy, reg: Registry)
    requires d.Record? && Coherent(reg)
    ensures Coherent(DataobjectToPydantic(d, reg).reg)
    decreases Size(d), 0
  {
    if d !in reg.toPm {
      var s := MapFields(d.fields, reg);
      MapFieldsCoherent(d.fields, reg);
      if s.result.Ok? {
        MapFieldsGrows(d.fields, reg);
        MapFieldsMirrors(d.fields, reg);
        RegisterKeepsCoherent(d, s.result.value, s.reg);
      }
    }
  }

  lemma {:induction false} MapFieldsCoherent(fs: seq<DmField>, reg: Registry)
    requires Coherent(reg)
    ensures Coherent(MapFields(fs, reg).reg)
    decreases FieldsSize(fs), 2
  {
    if fs != [] {
      LastFieldSize(fs);
      MapFieldsCoherent(fs[..|fs| - 1], reg);
      var s := MapFields(fs[..|fs| - 1], reg);
      if s.result.Ok? {
        PydanticTypeCoherent(fs[|fs| - 1].ty, s.reg);
      }
    }
  }

  lemma {:induction false} MapAllCoherent(ts: seq<DmTy>, reg: Registry)
    requires Coherent(reg)
    ensures Coherent(MapAll(ts, reg).reg)
    decreases AltsSize(ts), 2
  {
    if ts != [] {
      LastAltSize(ts);
      MapAllCoherent(ts[..|ts| - 1], reg);
      var s := MapAll(ts[..|ts| - 1], reg);
      if s.result.Ok? {
        PydanticTypeCoherent(ts[|ts| - 1], s.reg);
      }
    }
  }

  // ---------------------------------------------------------------------------
  // What one call to `dataobject_to_pydantic` does to the registry.

  /**
   * A registered class returns its stored entry and leaves the registry as it was;
   * an unregistered one, once its fields map, gets a new model with the data object's
   * name, its field names in order, mirrored field types and None defaults, stored
   * in both directions under a fresh identity.
   */
  lemma DataobjectToPydanticEffect(d: DmTy, reg: Registry)
    requires d.Record? && Coherent(reg)
    ensures var s := DataobjectToPydantic(d, reg);
      && (d in reg.toPm ==> s == Step(Ok(reg.toPm[d]), reg))
      && (IsAlias(d) ==> s == Step(Ok(AliasSchema(d)), reg))
      && (d !in reg.toPm && s.result.Ok? ==>
            var p := s.result.value;
            && ModelFor(d, p, s.reg.toPm)
            && p.id == s.reg.nextId - 1
            && (forall q :: q in reg.toDm ==> q.id != p.id)
            && d in s.reg.toPm && s.reg.toPm[d] == p
            && p in s.reg.toDm && s.reg.toDm[p] == d)
      && Coherent(s.reg)
  {
    DataobjectCoherent(d, reg);
    if d !in reg.toPm {
      var s := MapFields(d.fields, reg);
      if s.result.Ok? {
        MapFieldsGrows(d.fields, reg);
        MapFieldsMirrors(d.fields, reg);
        var p := PModel(s.reg.nextId, d.name, s.result.value);
        FieldsMirrorExtend(d.fields, s.result.value, s.reg.toPm, s.reg.toPm[d := p]);
        forall q | q in reg.toDm ensures q.id != p.id {
          assert reg.toPm[reg.toDm[q]] == q;
        }
      }
    }
  }

  // ---------------------------------------------------------------------------
  // Mapping again against a registry that kept the first call's entries gives
  // the identical result and changes nothing.

  lemma {:induction false} PydanticTypeStable(t: DmTy, reg: Registry, later: Registry)
    requires PydanticType(t, reg).result.Ok?
    requires ExtendsPm(PydanticType(t, reg).reg, later)
    ensures PydanticType(t, later) == Step(PydanticType(t, reg).result, later)
    decreases Size(t), 1
  {
    match t
    case Record(_, _) => DataobjectStable(t, reg, later);
    case Annotated(inner) => PydanticTypeStable(inner, reg, later);
    case Union(alts) => MapAllStable(alts, reg, later);
    case List(elem) => PydanticTypeStable(elem, reg, later);
    case DictOf(k, v) =>
      var sk := PydanticType(k, reg);
      PydanticTypeGrows(v, sk.reg);
      PydanticTypeStable(k, reg, later);
      PydanticTypeStable(v, sk.reg, later);
    case _ =>
  }

  lemma {:induction false} DataobjectStable(d: DmTy, reg: Registry, later: Registry)
    requires d.Record?
    requires DataobjectToPydantic(d, reg).result.Ok?
    requires ExtendsPm(DataobjectToPydantic(d, reg).reg, later)
    ensures DataobjectToPydantic(d, later) == Step(DataobjectToPydantic(d, reg).result, later)
    decreases Size(d), 0
  {
  }

  lemma {:induction false} MapFieldsStable(fs: seq<DmField>, reg: Registry, later: Registry)
    requires MapFields(fs, reg).result.Ok?
    requires ExtendsPm(MapFields(fs, reg).reg, later)
    ensures MapFields(fs, later) == Step(MapFields(fs, reg).result, later)
    decreases FieldsSize(fs), 2
  {
    if fs != [] {
      LastFieldSize(fs);
      var s := MapFields(fs[..|fs| - 1], reg);
      PydanticTypeGrows(fs[|fs| - 1].ty, s.reg);
      MapFieldsStable(fs[..|fs| - 1], reg, later);
      PydanticTypeStable(fs[|fs| - 1].ty, s.reg, later);
    }
  }

  lemma {:induction false} MapAllStable(ts: seq<DmTy>, reg: Registry, later: Registry)
    requires MapAll(ts, reg).result.Ok?
    requires ExtendsPm(MapAll(ts, reg).reg, later)
    ensures MapAll(ts, later) == Step(MapAll(ts, reg).result, later)
    decreases AltsSize(ts), 2
  {
    if ts != [] {
      LastAltSize(ts);
      var s := MapAll(ts[..|ts| - 1], reg);
      PydanticTypeGrows(ts[|ts| - 1], s.reg);
      MapAllStable(ts[..|ts| - 1], reg, later);
      PydanticTypeStable(ts[|ts| - 1], s.reg, later);
    }
  }

  /** A second call on the same data-model type returns the identical schema and leaves the registry unchanged. */
  lemma SecondCallIdentical(t: DmTy, reg: Registry)
    requires PydanticType(t, reg).result.Ok?
    ensures var s := PydanticType(t, reg);
      PydanticType(t, s.reg) == s
  {
    PydanticTypeStable(t, reg, PydanticType(t, reg).reg);
  }

  // ---------------------------------------------------------------------------
  // Failure happens exactly at unknown annotations.

  lemma {:induction false} PydanticTypeTotal(t: DmTy, reg: Registry)
    ensures var s := PydanticType(t, reg);
      && (Supported(t) ==> s.result.Ok?)
      && (s.result.Err? ==> s.result.error.UnsupportedType?)
      && (t.Other? ==> s == Step(Err(UnsupportedType(t.desc)), reg))
    decreases Size(t), 1
  {
    match t
    case Record(_, _) => DataobjectTotal(t, reg);
    case Annotated(inner) => PydanticTypeTotal(inner, reg);
    case Union(alts) => MapAllTotal(alts, reg);
    case List(elem) => PydanticTypeTotal(elem, reg);
    case DictOf(k, v) =>
      PydanticTypeTotal(k, reg);
      var sk := PydanticType(k, reg);
      if sk.result.Ok? {
        PydanticTypeTotal(v, sk.reg);
      }
    case _ =>
  }

  lemma {:induction false} DataobjectTotal(d: DmTy, reg: Registry)
    requires d.Record?
    ensures var s := DataobjectToPydantic(d, reg);
      && (Supported(d) ==> s.result.Ok?)
      && (s.result.Err? ==> s.result.error.UnsupportedType?)
    decreases Size(d), 0
  {
    if d !in reg.toPm {
      MapFieldsTotal(d.fields, reg);
    }
  }

  lemma {:induction false} MapFieldsTotal(fs: seq<DmField>, reg: Registry)
    ensures var s := MapFields(fs, reg);
      && ((forall i :: 0 <= i < |fs| ==> Supported(fs[i].ty)) ==> s.result.Ok?)
      && (s.result.Err? ==> s.result.error.UnsupportedType?)
    decreases FieldsSize(fs), 2
  {
    if fs != [] {
      var init := fs[..|fs| - 1];
      LastFieldSize(fs);
      MapFieldsTotal(init, reg);
      var s := MapFields(init, reg);
      if s.result.Ok? {
        PydanticTypeTotal(fs[|fs| - 1].ty, s.reg);
      }
      if forall i :: 0 <= i < |fs| ==> Supported(fs[i].ty) {
        forall i | 0 <= i < |init| ensures Supported(init[i].ty) {
          assert init[i] == fs[i];
        }
      }
    }
  }

  lemma {:induction false} MapAllTotal(ts: seq<DmTy>, reg: Registry)
    ensures var s := MapAll(ts, reg);
      && ((forall i :: 0 <= i < |ts| ==> Supported(ts[i])) ==> s.result.Ok?)
      && (s.result.Err? ==> s.result.error.UnsupportedType?)
    decreases AltsSize(ts), 2
  {
    if ts != [] {
      var init := ts[..|ts| - 1];
      LastAltSize(ts);
      MapAllTotal(init, reg);
      var s := MapAll(init, reg);
      if s.result.Ok? {
        PydanticTypeTotal(ts[|ts| - 1], s.reg);
      }
      if forall i :: 0 <= i < |ts| ==> Supported(ts[i]) {
        forall i | 0 <= i < |init| ensures Supported(init[i]) {
          assert init[i] == ts[i];
        }
      }
    }
  }

  // ---------------------------------------------------------------------------
  // The bytes leaf

  /**
   * A bytes field accepts both encodings: base64 text and the raw bytes it encodes
   * both reach validation as those bytes, and a value the pre-validator has already
   * normalised passes through it again unchanged.
   */
  lemma Base64BothEncodings(s: string, b: seq<byte>, decode: string -> Option<seq<byte>>)
    requires decode(s) == Some(b)
    ensures FromBase64(VStr(s), decode) == FromBase64(VBytes(b), decode) == Some(VBytes(b))
    ensures FromBase64(FromBase64(VStr(s), decode).value, decode) == FromBase64(VStr(s), decode)
  {
  }

  // ---------------------------------------------------------------------------
  // The converse: an unknown annotation anywhere inside a type makes it fail.

  /** A field type is no larger than the fields it belongs to. */
  lemma {:induction false} FieldSizeBound(fs: seq<DmField>, i: nat)
    requires i < |fs|
    ensures Size(fs[i].ty) <= FieldsSize(fs)
  {
    if i < |fs| - 1 {
      assert fs[..|fs| - 1][i] == fs[i];
      FieldSizeBound(fs[..|fs| - 1], i);
    }
  }

  /** An alternative is no larger than the alternatives it belongs to. */
  lemma {:induction false} AltSizeBound(ts: seq<DmTy>, i: nat)
    requires i < |ts|
    ensures Size(ts[i]) <= AltsSize(ts)
  {
    if i < |ts| - 1 {
      assert ts[..|ts| - 1][i] == ts[i];
      AltSizeBound(ts[..|ts| - 1], i);
    }
  }

  /** A type mirrored under a coherent registry contains no unknown annotation. */
  lemma {:induction false} MirrorsSupported(t: DmTy, p: PyTy, reg: Registry)
    requires Coherent(reg) && Mirrors(t, p, reg.toPm)
    ensures Supported(t)
    decreases Size(t), 1
  {
    match t
    case Record(_, _) => RegisteredSupported(t, reg);
    case Annotated(inner) => MirrorsSupported(inner, p, reg);
    case Union(alts) =>
      forall i | 0 <= i < |alts| ensures Supported(alts[i]) {
        AltSizeBound(alts, i);
        MirrorsSupported(alts[i], p.alts[i], reg);
      }
    case List(elem) => MirrorsSupported(elem, p.elem, reg);
    case DictOf(k, v) =>
      MirrorsSupported(k, p.key, reg);
      MirrorsSupported(v, p.value, reg);
    case _ =>
  }

  /**
   * Every data-object class a coherent registry holds contains no unknown
   * annotation: a primitive sequence holds a list of a primitive, and any other
   * class was built from fields that all mapped.
   */
  lemma {:induction false} RegisteredSupported(d: DmTy, reg: Registry)
    requires Coherent(reg) && d in reg.toPm
    ensures Supported(d)
    decreases Size(d), 0
  {
    if IsAlias(d) {
      assert d.fields[0].ty.List?;
    } else {
      var p := reg.toPm[d];
      forall i | 0 <= i < |d.fields| ensures Supported(d.fields[i].ty) {
        FieldSizeBound(d.fields, i);
        MirrorsSupported(d.fields[i].ty, p.fields[i].ty, reg);
      }
    }
  }

  /**
   * Under a coherent registry the mapper fails exactly on types that contain an
   * unknown annotation somewhere: the TypeError of the last line is reached from
   * any depth, because no registered class can hide an unknown annotation.
   */
  lemma {:induction false} UnsupportedFails(t: DmTy, reg: Registry)
    requires Coherent(reg)
    ensures PydanticType(t, reg).result.Err? <==> !Supported(t)
    decreases Size(t), 1
  {
    PydanticTypeTotal(t, reg);
    if !Supported(t) {
      match t
      case Record(_, fs) =>
        if t in reg.toPm {
          RegisteredSupported(t, reg);
        }
        var i :| 0 <= i < |fs| && !Supported(fs[i].ty);
        MapFieldsFails(fs, reg, i);
      case Annotated(inner) => UnsupportedFails(inner, reg);
      case Union(alts) =>
        var i :| 0 <= i < |alts| && !Supported(alts[i]);
        MapAllFails(alts, reg, i);
      case List(elem) => UnsupportedFails(elem, reg);
      case DictOf(k, v) =>
        UnsupportedFails(k, reg);
        var sk := PydanticType(k, reg);
        if sk.result.Ok? {
          PydanticTypeCoherent(k, reg);
          UnsupportedFails(v, sk.reg);
        }
      case _ =>
    }
  }

  /** A field whose type contains an unknown annotation makes the whole class fail. */
  lemma {:induction false} MapFieldsFails(fs: seq<DmField>, reg: Registry, i: nat)
    requires Coherent(reg) && i < |fs| && !Supported(fs[i].ty)
    ensures MapFields(fs, reg).result.Err?
    decreases FieldsSize(fs), 2
  {
    var init := fs[..|fs| - 1];
    LastFieldSize(fs);
    var s := MapFields(init, reg);
    if i < |init| {
      assert init[i] == fs[i];
      MapFieldsFails(init, reg, i);
    } else if s.result.Ok? {
      MapFieldsCoherent(init, reg);
      UnsupportedFails(fs[i].ty, s.reg);
    }
  }

  /** An alternative that contains an unknown annotation makes the whole union fail. */
  lemma {:induction false} MapAllFails(ts: seq<DmTy>, reg: Registry, i: nat)
    requires Coherent(reg) && i < |ts| && !Supported(ts[i])
    ensures MapAll(ts, reg).result.Err?
    decreases AltsSize(ts), 2
  {
    var init := ts[..|ts| - 1];
    LastAltSize(ts);
    var s := MapAll(init, reg);
    if i < |init| {
      assert init[i] == ts[i];
      MapAllFails(init, reg, i);
    } else if s.result.Ok? {
      MapAllCoherent(init, reg);
      UnsupportedFails(ts[i], s.reg);
    }
  }
}
