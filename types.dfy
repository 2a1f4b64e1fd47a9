/**
 * The entities shared by every part of the model: the data-model type
 * descriptors that the schema is generated from, the validation-schema
 * (pydantic) type descriptors generated from them, the runtime values that
 * flow through a request, and the errors the HTTP layer can raise.
 */
module Types {

  datatype Option<+T> = None | Some(value: T)

  datatype Result<+T, +E> = Ok(value: T) | Err(error: E)

  type byte = bv8

  /** A data-model type as the reflection over a data object class reports it. */
  datatype DmTy =
    | NpInteger(npName: string)        // any numpy integer class (int8 ... uint64)
    | NpFloating(npName: string)       // any numpy floating class (float16 ... float64)
    | Int | Float | Bool | Str | Bytes | NoneType
    | Dict                              // the bare `dict` (JsonDict)
    | Enum(enumName: string)
    | Record(name: string, fields: seq<DmField>)   // a data object class and its type hints, in order
    | Annotated(inner: DmTy)            // Annotated[inner, ...]
    | Union(alts: seq<DmTy>)            // Union[alts...], Optional[x] == Union[x, None]
    | List(elem: DmTy)                  // List[elem]
    | DictOf(key: DmTy, value: DmTy)    // Dict[key, value]
    | Other(desc: string)               // any annotation the mapper does not know

  datatype DmField = DmField(name: string, ty: DmTy)

  /**
   * A validation-schema type. `PBytes` is `Annotated[bytes, BeforeValidator(_from_base64)]`:
   * values of a bytes field pass through `Mapper.FromBase64` before validation, and
   * `MapperProofs.Base64BothEncodings` shows that text and raw bytes then agree;
   * `PModel` is a generated model class: `id` stands for the identity of the class object
   * (each build creates a new class), `name` for the proto message name it is given.
   */
  datatype PyTy =
    | PInt | PFloat | PBool | PStr | PNone | PDict
    | PBytes
    | PEnum(enumName: string)
    | PModel(id: nat, name: string, fields: seq<PyField>)
    | PUnion(alts: seq<PyTy>)
    | PList(elem: PyTy)
    | PDictOf(key: PyTy, value: PyTy)

  /** A field of a generated model: its annotation and its class-level default. */
  datatype PyField = PyField(name: string, ty: PyTy, default: PyVal)

  /** A runtime Python value as it appears in a validated model instance. */
  datatype PyVal =
    | VNone
    | VBool(b: bool)
    | VInt(i: int)
    | VFloat(f: real)
    | VStr(s: string)
    | VBytes(bytes: seq<byte>)
    | VList(items: seq<PyVal>)
    | VModel(cls: PyTy, values: seq<(string, PyVal)>)   // an instance of model class `cls`

  /** A value produced by `json.loads`; its grammar is not part of this model. */
  datatype Json =
    | JNull
    | JBool(b: bool)
    | JNumber(n: real)
    | JString(s: string)
    | JArray(items: seq<Json>)
    | JObject(members: seq<(string, Json)>)

  /** What `json.loads` is handed: a `str` or a `bytes` object. */
  datatype JsonInput = StrInput(s: string) | BytesInput(b: seq<byte>)

  /** The failures the core raises, in the order of the source's `raise` statements. */
  datatype Failure =
    | UnsupportedType(desc: string)                  // TypeError from _get_pydantic_type
    | UnsupportedMediaType(contentType: string)      // HTTPException 415
    | UnknownKey(key: string)                        // HTTPException 422
    | ValueAlreadyExists(key: string)                // HTTPException 422
    | FailedToParseKey(key: string, types: seq<PyTy>)  // HTTPException 422
    | RequestValidation(errors: seq<string>)         // RequestValidationError (422)
    | TypeErrorRaised(reason: string)                // an uncaught Python TypeError (500)
    | AttributeErrorRaised(name: string)             // an uncaught Python AttributeError (500)
}
