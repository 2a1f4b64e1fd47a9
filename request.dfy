/**
 * `pydantic_from_request`: choose how to read a request body from its
 * Content-Type header, then validate a JSON body or fold a multipart form.
 */
module RequestDispatch {
  import opened Types
  import opened Strings
  import opened FormDecoder

  const JsonType: string := "application/json"
  const FormType: string := "multipart/form-data"

  /** What the handler sees of a request: the header (absent or not), the raw body and the parsed form. */
  datatype Request = Request(contentType: Option<string>, body: seq<byte>, form: seq<FormEntry>)

  /** The branch the handler takes. */
  datatype Route = JsonBody | FormBody | Unsupported(contentType: string) | HeaderMissing

  /**
   * The header test: exact equality with the JSON type first, then a substring
   * test for the form type; a missing header makes the `in` test raise.
   */
  function RouteOf(contentType: Option<string>): Route
  {
    if contentType == Some(JsonType) then JsonBody
    else if contentType.None? then HeaderMissing
    else if Contains(contentType.value, FormType) then FormBody
    else Unsupported(contentType.value)
  }

  /** `model_validate_json` of the target model on a raw body: the instance, or pydantic's error list. */
  type ValidateJson = seq<byte> -> Result<PyVal, seq<string>>

  /** `pydantic_from_request(pydantic_model, request)`. */
  function FromRequest(model: PyTy, req: Request, validateJson: ValidateJson, loads: Loads, validate: Validate)
    : (r: Result<PyVal, Failure>)
    ensures RouteOf(req.contentType).Unsupported? ==> r == Err(UnsupportedMediaType(req.contentType.value))
    ensures RouteOf(req.contentType) == HeaderMissing ==> r.Err? && r.error.TypeErrorRaised?
    ensures RouteOf(req.contentType) == FormBody ==> r == ParseForm(model, req.form, loads, validate)
    ensures RouteOf(req.contentType) == JsonBody ==>
      && (r.Ok? <==> validateJson(req.body).Ok?)
      && (r.Ok? ==> r.value == validateJson(req.body).value)
      && (r.Err? ==> r.error == RequestValidation(validateJson(req.body).error))
  {
    match RouteOf(req.contentType)
    case JsonBody =>
      (match validateJson(req.body)
       case Ok(v) => Ok(v)
       case Err(errors) => Err(RequestValidation(errors)))
    case HeaderMissing => Err(TypeErrorRaised("argument of type 'NoneType' is not iterable"))
    case FormBody => ParseForm(model, req.form, loads, validate)
    case Unsupported(ct) => Err(UnsupportedMediaType(ct))
  }

  /**
   * The branches, stated on the header text: JSON exactly when the header is the
   * JSON type and nothing else; the form branch when the form type occurs anywhere
   * in any other header; a missing header raises; every other header is refused
   * with 415 and named in the error.
   */
  lemma RouteCases(contentType: Option<string>)
    ensures RouteOf(contentType) == JsonBody <==> contentType == Some(JsonType)
    ensures RouteOf(contentType) == HeaderMissing <==> contentType.None?
    ensures RouteOf(contentType) == FormBody <==>
      contentType.Some? && contentType.value != JsonType && exists i :: OccursAt(contentType.value, FormType, i)
    ensures RouteOf(contentType).Unsupported? <==>
      contentType.Some? && contentType.value != JsonType && forall i :: !OccursAt(contentType.value, FormType, i)
    ensures RouteOf(contentType).Unsupported? ==> RouteOf(contentType).contentType == contentType.value
  {
    if contentType.Some? {
      ContainsOccurs(contentType.value, FormType);
    }
  }

  /**
   * The JSON test is exact: a JSON header carrying a parameter is not treated as
   * JSON, and with no form type in it the request is refused.
   */
  lemma JsonWithParameterRefused()
    ensures RouteOf(Some("application/json; charset=utf-8")) == Unsupported("application/json; charset=utf-8")
  {
    var ct := "application/json; charset=utf-8";
    // The form type has its hyphen at offset 14; the header has none within reach of that offset.
    assert FormType[14] == '-';
    assert forall k :: 14 <= k <= |ct| - |FormType| + 14 ==> ct[k] != '-';
    forall i ensures !OccursAt(ct, FormType, i) {
      if 0 <= i <= |ct| - |FormType| {
        assert ct[i..i + |FormType|][14] == ct[i + 14];
      }
    }
    ContainsOccurs(ct, FormType);
  }

  /** A form header carrying its boundary parameter still takes the form branch. */
  lemma FormWithBoundaryAccepted(boundary: string)
    ensures RouteOf(Some(FormType + "; boundary=" + boundary)) == FormBody
  {
    var ct := FormType + "; boundary=" + boundary;
    assert ct[0..|FormType|] == FormType;
    assert OccursAt(ct, FormType, 0);
    RouteCases(Some(ct));
  }
}
