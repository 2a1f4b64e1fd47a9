/**
 * `_get_pydantic_subtypes`: resolve the segments of a dotted form key against a
 * generated model, one field lookup per segment, returning the candidate types
 * for the value at that path.
 */
module KeyResolver {
  import opened Types

  /**
   * What the resolver returns. `Candidates` is the Python list or tuple it returns
   * (possibly empty), `FellOff` is the implicit `None` of a mid-path union with no
   * matching alternative, `HintsRaised` is the TypeError `get_type_hints` raises on
   * a typing construct that is not a class.
   */
  datatype Resolution = Candidates(types: seq<PyTy>) | FellOff | HintsRaised(t: PyTy)

  /** Python truthiness of the resolver's return value. */
  predicate Truthy(r: Resolution)
  {
    r.Candidates? && r.types != []
  }

  /**
   * `get_type_hints(t)`: a generated model reports its fields; any other class
   * (the primitives, `bytes` once the Annotated wrapper is stripped, NoneType,
   * dict, an enum) reports none; List, Dict and Union aliases raise.
   */
  function TypeHints(t: PyTy): (r: Option<seq<PyField>>)
    ensures t.PModel? ==> r == Some(t.fields)
    ensures r.None? <==> (t.PList? || t.PDictOf? || t.PUnion?)
  {
    match t
    case PModel(_, _, fields) => Some(fields)
    case PList(_) => None
    case PDictOf(_, _) => None
    case PUnion(_) => None
    case _ => Some([])
  }

  /** `.get(name)` on the hints dict: the type of the field with that name, if any. */
  function FieldType(fields: seq<PyField>, name: string): (r: Option<PyTy>)
    ensures r.Some? <==> exists i :: 0 <= i < |fields| && fields[i].name == name
    ensures r.Some? ==> exists i :: 0 <= i < |fields| && fields[i].name == name && fields[i].ty == r.value
  {
    if fields == [] then None
    else if fields[0].name == name then Some(fields[0].ty)
    else
      var r := FieldType(fields[1..], name);
      assert forall i :: 1 <= i < |fields| ==> fields[i] == fields[1..][i - 1];
      r
  }

  /** `_get_pydantic_subtypes(model, keys)`. */
  function Subtypes(model: PyTy, keys: seq<string>): Resolution
    decreases |keys|, 1
  {
    if |keys| == 0 then Candidates([model])
    else
      match TypeHints(model)
      case None => HintsRaised(model)
      case Some(fields) =>
        match FieldType(fields, keys[0])
        case None => Candidates([])
        case Some(current) =>
          if current.PUnion? then
            if |keys| == 1 then Candidates(current.alts)
            else FirstMatch(current.alts, keys[1..])
          else Subtypes(current, keys[1..])
  }

  /** The loop over the union's alternatives: the first truthy resolution of the rest of the path wins. */
  function FirstMatch(alts: seq<PyTy>, rest: seq<string>): Resolution
    decreases |rest| + 1, 0, |alts|
  {
    if alts == [] then FellOff
    else
      var r := Subtypes(alts[0], rest);
      if r.HintsRaised? || Truthy(r) then r
      else FirstMatch(alts[1..], rest)
  }

  /** An alternative the loop passes over: its resolution is falsy and raises nothing. */
  predicate Skipped(alt: PyTy, rest: seq<string>)
  {
    var r := Subtypes(alt, rest);
    !r.HintsRaised? && !Truthy(r)
  }

  /**
   * A mid-path union resolves to the first alternative whose own resolution is
   * truthy or raises, after alternatives that were all skipped; when every
   * alternative is skipped the loop falls off the end.
   */
  lemma {:induction false} FirstMatchSpec(alts: seq<PyTy>, rest: seq<string>)
    ensures var r := FirstMatch(alts, rest);
      && (r == FellOff <==> forall i :: 0 <= i < |alts| ==> Skipped(alts[i], rest))
      && (r != FellOff ==>
            exists j :: 0 <= j < |alts| && r == Subtypes(alts[j], rest) && !Skipped(alts[j], rest)
              && forall i :: 0 <= i < j ==> Skipped(alts[i], rest))
    decreases |alts|
  {
    if alts != [] {
      FirstMatchSpec(alts[1..], rest);
      var r := FirstMatch(alts, rest);
      if !Skipped(alts[0], rest) {
        assert r == Subtypes(alts[0], rest);
      } else {
        assert r == FirstMatch(alts[1..], rest);
        assert forall i :: 1 <= i < |alts| ==> alts[i] == alts[1..][i - 1];
        if r != FellOff {
          var j :| 0 <= j < |alts[1..]| && r == Subtypes(alts[1..][j], rest) && !Skipped(alts[1..][j], rest)
            && forall i :: 0 <= i < j ==> Skipped(alts[1..][i], rest);
          assert forall i :: 0 <= i < j + 1 ==> Skipped(alts[i], rest) by {
            forall i | 0 <= i < j + 1 ensures Skipped(alts[i], rest) {
              if i > 0 {
                assert alts[i] == alts[1..][i - 1];
              }
            }
          }
        }
      }
    }
  }

  /**
   * The cases of the resolver: an empty path gives the model itself; a segment that
   * names no field gives an empty list, and so does any path left over once a leaf
   * class (a primitive, bytes, an enum) is reached; a union at the last segment gives all its
   * alternatives in declared order, one in the middle of the path is searched by
   * FirstMatch; a non-union field continues with the rest of the path.
   */
  lemma SubtypesCases(model: PyTy, keys: seq<string>)
    ensures keys == [] ==> Subtypes(model, keys) == Candidates([model])
    ensures keys != [] && model.PModel? && (forall i :: 0 <= i < |model.fields| ==> model.fields[i].name != keys[0]) ==>
      Subtypes(model, keys) == Candidates([])
    ensures keys != [] && (model.PList? || model.PDictOf? || model.PUnion?) ==>
      Subtypes(model, keys) == HintsRaised(model)
    ensures keys != [] && !(model.PModel? || model.PList? || model.PDictOf? || model.PUnion?) ==>
      Subtypes(model, keys) == Candidates([])
    ensures |keys| == 1 && model.PModel? && FieldType(model.fields, keys[0]).Some? && FieldType(model.fields, keys[0]).value.PUnion? ==>
      Subtypes(model, keys) == Candidates(FieldType(model.fields, keys[0]).value.alts)
    ensures |keys| > 1 && model.PModel? && FieldType(model.fields, keys[0]).Some? && FieldType(model.fields, keys[0]).value.PUnion? ==>
      Subtypes(model, keys) == FirstMatch(FieldType(model.fields, keys[0]).value.alts, keys[1..])
    ensures keys != [] && model.PModel? && FieldType(model.fields, keys[0]).Some? && !FieldType(model.fields, keys[0]).value.PUnion? ==>
      Subtypes(model, keys) == Subtypes(FieldType(model.fields, keys[0]).value, keys[1..])
  {
  }
}
