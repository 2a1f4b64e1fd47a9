/**
 * `_parse_form_data_to_pydantic`: fold a flat multipart form into the nested
 * object handed to the model's validator. The functions specify one key at a
 * time; the method `ParseFormDataToPydantic` runs the source's loops and is
 * proved to compute `ParseForm`.
 */
module FormDecoder {
  import opened Types
  import opened Strings
  import opened KeyResolver

  /** A raw form value: a text field, or an uploaded file whose bytes are already read in. */
  datatype RawValue = Text(text: string) | Upload(content: seq<byte>)

  /** One key of the form with `form_data.getlist(key)`, in the form's key order. */
  datatype FormEntry = FormEntry(key: string, values: seq<RawValue>)

  /** An element of `raw_objects`: still raw, replaced by `json.loads`, or replaced by a file's bytes. */
  datatype FormItem = Raw(raw: RawValue) | Parsed(json: Json) | ReadBytes(bytes: seq<byte>)

  /** What is written at a path: the first element alone, or the whole list when the list flag is set. */
  datatype Stored = One(item: FormItem) | Many(items: seq<FormItem>)

  /** `raw_model_obj`: the value written at each dotted path. */
  type Pending = map<seq<string>, Stored>

  /** `json.loads`: None where it raises JSONDecodeError. */
  type Loads = JsonInput -> Option<Json>

  /** `model_validate` of the target model: the instance, or pydantic's error list. */
  type Validate = Pending -> Result<PyVal, seq<string>>

  /** A key is skipped when it has no values or its first value is falsy (the empty text). */
  predicate Skip(values: seq<RawValue>)
  {
    values == [] || values[0] == Text("")
  }

  function AsItems(values: seq<RawValue>): (items: seq<FormItem>)
    ensures |items| == |values|
    ensures forall i :: 0 <= i < |values| ==> items[i] == Raw(values[i])
  {
    seq(|values|, i requires 0 <= i < |values| => Raw(values[i]))
  }

  /**
   * `get_origin(model_type_hints)`: the resolver returns a Python list or tuple,
   * never a typing construct, so its origin is None and the list flag is never set.
   */
  datatype Origin = NoOrigin | ListOrigin | UnionOrigin

  function OriginOfContainer(hints: seq<PyTy>): Origin
  {
    NoOrigin
  }

  // ---------------------------------------------------------------------------
  // One candidate type

  /** `json.loads(sub_obj)`: Ok(None) on JSONDecodeError, Err where it raises TypeError (not a str or bytes). */
  function LoadsItem(item: FormItem, loads: Loads): (r: Result<Option<Json>, Failure>)
    ensures r.Err? <==> (item.Raw? && item.raw.Upload?) || (item.Parsed? && !item.json.JString?)
    ensures r.Err? ==> r.error.TypeErrorRaised?
  {
    match item
    case Raw(Text(s)) => Ok(loads(StrInput(s)))
    case Raw(Upload(_)) => Err(TypeErrorRaised("the JSON object must be str, bytes or bytearray, not UploadFile"))
    case Parsed(JString(s)) => Ok(loads(StrInput(s)))
    case Parsed(_) => Err(TypeErrorRaised("the JSON object must be str, bytes or bytearray"))
    case ReadBytes(b) => Ok(loads(BytesInput(b)))
  }

  /** The outcome of the JSON loop for a model candidate. */
  datatype JsonPass = AllParsed(items: seq<FormItem>) | ParseFailed(items: seq<FormItem>) | LoadsRaised(failure: Failure)

  /** The JSON loop from position `n` on: each value is replaced in place by its parse until one fails. */
  function JsonFrom(items: seq<FormItem>, n: nat, loads: Loads): (r: JsonPass)
    requires n <= |items|
    ensures !r.LoadsRaised? ==> |r.items| == |items|
    ensures r.LoadsRaised? ==> r.failure.TypeErrorRaised?
    decreases |items| - n
  {
    if n == |items| then AllParsed(items)
    else
      match LoadsItem(items[n], loads)
      case Err(f) => LoadsRaised(f)
      case Ok(None) => ParseFailed(items)
      case Ok(Some(j)) => JsonFrom(items[n := Parsed(j)], n + 1, loads)
  }

  /** The bytes candidate: every upload is replaced by its contents, anything else is kept. */
  function ReadUpload(item: FormItem): FormItem
  {
    if item.Raw? && item.raw.Upload? then ReadBytes(item.raw.content) else item
  }

  function ReadUploads(items: seq<FormItem>): (r: seq<FormItem>)
    ensures |r| == |items|
    ensures forall i :: 0 <= i < |items| ==> r[i] == ReadUpload(items[i])
  {
    seq(|items|, i requires 0 <= i < |items| => ReadUpload(items[i]))
  }

  /**
   * `update_dict_at_dot_path(raw_model_obj, key, value)`, abstracted: the value is
   * written at the key's dotted path unless a value is already present there.
   */
  function UpdateAtDotPath(obj: Pending, key: string, value: Stored): (r: Option<Pending>)
    ensures r.None? <==> Split(key) in obj
    ensures r.Some? ==> r.value == obj[Split(key) := value]
  {
    var path := Split(key);
    if path in obj then None else Some(obj[path := value])
  }

  /** Lines 268-275: keep the first value unless the list flag is set, then write it. */
  function Store(key: string, items: seq<FormItem>, isList: bool, obj: Pending): (r: Result<Pending, Failure>)
    requires items != []
    ensures r.Ok? <==> Split(key) !in obj
    ensures r.Err? ==> r == Err(ValueAlreadyExists(key))
    ensures r.Ok? ==> Split(key) in r.value && r.value == obj[Split(key) := r.value[Split(key)]]
    ensures r.Ok? ==> r.value[Split(key)] == (if isList then Many(items) else One(items[0]))
  {
    var value := if isList then Many(items) else One(items[0]);
    match UpdateAtDotPath(obj, key, value)
    case None => Err(ValueAlreadyExists(key))
    case Some(obj') => Ok(obj')
  }

  /** The failures a form key can cause: the three 422s of the key loop, or a TypeError. */
  predicate KeyFailure(f: Failure)
  {
    f.UnknownKey? || f.ValueAlreadyExists? || f.FailedToParseKey? || f.TypeErrorRaised?
  }

  /** The loop over the candidate types from position `j` on, with `items` as left by the earlier candidates. */
  function TryFrom(key: string, hints: seq<PyTy>, j: nat, items: seq<FormItem>, isList: bool, obj: Pending, loads: Loads)
    : (r: Result<Pending, Failure>)
    requires j <= |hints| && items != []
    ensures r.Err? ==> KeyFailure(r.error) && !r.error.UnknownKey?
    decreases |hints| - j
  {
    if j == |hints| then Err(FailedToParseKey(key, hints))
    else
      var hint := hints[j];
      if hint.PModel? then
        match JsonFrom(items, 0, loads)
        case LoadsRaised(f) => Err(f)
        case ParseFailed(items') => TryFrom(key, hints, j + 1, items', isList, obj, loads)
        case AllParsed(items') => Store(key, items', isList, obj)
      else if hint.PBytes? then Store(key, ReadUploads(items), isList, obj)
      else Store(key, items, isList, obj)
  }

  // ---------------------------------------------------------------------------
  // One key, and the whole form

  /** The body of the loop over `form_data.keys()` for one key. */
  function KeyStep(model: PyTy, entry: FormEntry, obj: Pending, loads: Loads): (r: Result<Pending, Failure>)
    ensures r.Err? ==> KeyFailure(r.error)
  {
    if Skip(entry.values) then Ok(obj)
    else
      match Subtypes(model, Split(entry.key))
      case HintsRaised(t) => Err(TypeErrorRaised("get_type_hints: not a module, class, method, or function"))
      case FellOff => Err(UnknownKey(entry.key))
      case Candidates(hints) =>
        if hints == [] then Err(UnknownKey(entry.key))
        else
          var isList := OriginOfContainer(hints) == ListOrigin;
          TryFrom(entry.key, hints, 0, AsItems(entry.values), isList, obj, loads)
  }

  /** The keys from position `i` on, starting from the object built so far. */
  function FoldFrom(model: PyTy, form: seq<FormEntry>, i: nat, obj: Pending, loads: Loads): (r: Result<Pending, Failure>)
    requires i <= |form|
    ensures r.Err? ==> KeyFailure(r.error)
    decreases |form| - i
  {
    if i == |form| then Ok(obj)
    else
      match KeyStep(model, form[i], obj, loads)
      case Err(f) => Err(f)
      case Ok(obj') => FoldFrom(model, form, i + 1, obj', loads)
  }

  /** The object assembled from the whole form, or the first failure. */
  function FoldForm(model: PyTy, form: seq<FormEntry>, loads: Loads): (r: Result<Pending, Failure>)
    ensures r.Err? ==> KeyFailure(r.error)
  {
    FoldFrom(model, form, 0, map[], loads)
  }

  /**
   * `_parse_form_data_to_pydantic`: fold, then validate; validation errors become a
   * RequestValidationError carrying pydantic's error list, as the JSON path does.
   */
  function ParseForm(model: PyTy, form: seq<FormEntry>, loads: Loads, validate: Validate): Result<PyVal, Failure>
  {
    match FoldForm(model, form, loads)
    case Err(f) => Err(f)
    case Ok(obj) =>
      match validate(obj)
      case Ok(v) => Ok(v)
      case Err(errors) => Err(RequestValidation(errors))
  }

  /**
   * Lines 289-292 as written: the form path reads `raw_errors` from pydantic's
   * ValidationError, an attribute of pydantic 1 that pydantic 2 no longer has, so a
   * form that fails validation ends in an AttributeError instead of a 422.
   */
  function ParseFormAsWritten(model: PyTy, form: seq<FormEntry>, loads: Loads, validate: Validate)
    : (r: Result<PyVal, Failure>)
    ensures !(r.Err? && r.error.RequestValidation?)
  {
    match FoldForm(model, form, loads)
    case Err(f) => Err(f)
    case Ok(obj) =>
      match validate(obj)
      case Ok(v) => Ok(v)
      case Err(_) => Err(AttributeErrorRaised("raw_errors"))
  }

  // ---------------------------------------------------------------------------
  // The loops of the source

  /** The JSON loop for a model candidate (lines 247-259): each value is replaced by its parse, in place. */
  method LoadJsonInPlace(items: seq<FormItem>, loads: Loads) returns (r: JsonPass)
    ensures r == JsonFrom(items, 0, loads)
  {
    var rawObjects := items;
    var n := 0;
    while n < |rawObjects|
      invariant 0 <= n <= |rawObjects| == |items|
      invariant JsonFrom(items, 0, loads) == JsonFrom(rawObjects, n, loads)
    {
      var loaded := LoadsItem(rawObjects[n], loads);
      if loaded.Err? {
        return LoadsRaised(loaded.error);
      }
      if loaded.value.None? {
        return ParseFailed(rawObjects);
      }
      rawObjects := rawObjects[n := Parsed(loaded.value.value)];
      n := n + 1;
    }
    r := AllParsed(rawObjects);
  }

  /** The bytes candidate (lines 262-266): every uploaded file is replaced by its contents. */
  method ReadUploadsInPlace(items: seq<FormItem>) returns (r: seq<FormItem>)
    ensures r == ReadUploads(items)
  {
    r := items;
    var n := 0;
    while n < |r|
      invariant 0 <= n <= |r| == |items|
      invariant forall k :: 0 <= k < n ==> r[k] == ReadUpload(items[k])
      invariant forall k :: n <= k < |r| ==> r[k] == items[k]
    {
      if r[n].Raw? && r[n].raw.Upload? {
        r := r[n := ReadBytes(r[n].raw.content)];
      }
      n := n + 1;
    }
    assert r == ReadUploads(items);
  }

  /** The body of the key loop (lines 218-288) for one key of the form. */
  method ParseKey(model: PyTy, entry: FormEntry, rawModelObj: Pending, loads: Loads) returns (r: Result<Pending, Failure>)
    ensures r == KeyStep(model, entry, rawModelObj, loads)
  {
    var key := entry.key;
    var values := entry.values;
    if Skip(values) {
      return Ok(rawModelObj);
    }
    var resolution := Subtypes(model, Split(key));
    if resolution.HintsRaised? {
      return Err(TypeErrorRaised("get_type_hints: not a module, class, method, or function"));
    }
    if !Truthy(resolution) {
      return Err(UnknownKey(key));
    }
    var hints := resolution.types;
    var isList := false;
    if OriginOfContainer(hints) == ListOrigin {
      isList := true;
    }
    // The union re-check tests the same container and leaves `hints` as it is.

    var rawObjects := AsItems(values);
    var j := 0;
    while j < |hints|
      invariant 0 <= j <= |hints|
      invariant |rawObjects| == |values|
      invariant KeyStep(model, entry, rawModelObj, loads) == TryFrom(key, hints, j, rawObjects, isList, rawModelObj, loads)
    {
      var hint := hints[j];
      if hint.PModel? {
        var pass := LoadJsonInPlace(rawObjects, loads);
        if pass.LoadsRaised? {
          return Err(pass.failure);
        }
        rawObjects := pass.items;
        if pass.ParseFailed? {
          j := j + 1;
          continue;
        }
      } else if hint.PBytes? {
        rawObjects := ReadUploadsInPlace(rawObjects);
      }
      var value := if isList then Many(rawObjects) else One(rawObjects[0]);
      var updated := UpdateAtDotPath(rawModelObj, key, value);
      if updated.None? {
        return Err(ValueAlreadyExists(key));
      }
      return Ok(updated.value);
    }
    r := Err(FailedToParseKey(key, hints));
  }

  /**
   * `_parse_form_data_to_pydantic(pydantic_model, form_data)`, with line 292
   * corrected: the loops compute `ParseForm`, which reports validation errors as a
   * RequestValidationError; `ParseFormAsWritten` keeps the line as written.
   */
  method ParseFormDataToPydantic(model: PyTy, form: seq<FormEntry>, loads: Loads, validate: Validate)
    returns (r: Result<PyVal, Failure>)
    ensures r == ParseForm(model, form, loads, validate)
  {
    var rawModelObj: Pending := map[];
    var i := 0;
    while i < |form|
      invariant 0 <= i <= |form|
      invariant FoldForm(model, form, loads) == FoldFrom(model, form, i, rawModelObj, loads)
    {
      var step := ParseKey(model, form[i], rawModelObj, loads);
      if step.Err? {
        return Err(step.error);
      }
      rawModelObj := step.value;
      i := i + 1;
    }
    var validated := validate(rawModelObj);
    if validated.Err? {
      return Err(RequestValidation(validated.error));
    }
    r := Ok(validated.value);
  }
}
