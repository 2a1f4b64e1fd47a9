# caikit HTTP schema bridge, modelled in Dafny

This project models the core of caikit's HTTP server schema bridge
(`caikit/runtime/http_server/pydantic_wrapper.py`). The bridge has two halves:

* **The type mapper and its registry.** `_get_pydantic_type` maps a data-model
  type annotation to a pydantic type. `dataobject_to_pydantic` builds one
  pydantic model per data-object class and records it in the process-wide
  dictionary `PYDANTIC_TO_DM_MAPPING`, in both directions. That dictionary is
  seeded with four primitive-sequence classes that collapse to plain lists.
  `pydantic_to_dataobject` walks a validated model instance back into data
  objects through the reverse entries.
* **The request decoder.** `pydantic_from_request` dispatches on the
  Content-Type header. `_parse_form_data_to_pydantic` folds a flat
  multipart form, whose keys are dotted paths, into the nested object handed
  to pydantic. It resolves each key with `_get_pydantic_subtypes`, tries the
  candidate types in order (JSON for models, file contents for bytes, the raw
  value otherwise) and writes each path at most once.

Files:

* `types.dfy`: the shared datatypes, the data-model and pydantic type descriptors, and the failures.
* `strings.dfy`: `key.split(".")` and its inverse, plus the `in` substring test.
* `mapper.dfy`: the mapper as functions that thread the registry state through the mutual recursion, plus `_from_base64`.
* `mapper_proofs.dfy`: the mapper's properties, stated against an independent relation `Mirrors` and the registry invariant `Coherent`.
* `registry.dfy`: the class `SchemaRegistry`, whose fields are the global dictionary. Its methods run the source's loops and are proved to compute the functions.
* `converter.dfy`: `pydantic_to_dataobject` as functions, with its field-by-field specification.
* `resolver.dfy`: `_get_pydantic_subtypes`.
* `form.dfy`: the form fold, as functions, and the imperative `ParseFormDataToPydantic` that computes them.
* `form_proofs.dfy`: the form fold's properties.
* `request.dfy`: the Content-Type dispatch.

### Where the model follows the code rather than the intended design

* **Only the first value of a key is stored.** The list test at lines 233-235
  and the union re-check at lines 238-239 apply `get_origin` to the Python list
  or tuple the resolver returns. `get_origin` is never `list` or `Union` for
  such a value, so both tests never fire. Repeated values of one key are
  therefore not folded into a list: only the first is kept. See
  `FormProofs.FirstCandidateStoresFirstValue` and `FormProofs.KeyStepWritesOnce`.
* **Union disambiguation depends on order.** A model alternative is tried by
  parsing JSON. The `str` alternative catches what does not parse only when
  the model comes first (`FormProofs.ModelBeforeStr`). A `str` listed first
  takes every value.
* **The JSON rewrite persists.** `json.loads` rewrites `raw_objects[n]` in
  place, and a later candidate sees the rewritten values. If that rewrite
  produced a value that is not a JSON string, the next `json.loads` raises
  TypeError (`FormProofs.RewritePersists`).
* **A missing Content-Type header** makes the substring test at line 196 raise
  TypeError. It is not refused with 415.
* **`application/json` must match exactly.** A header with a parameter, such as
  `application/json; charset=utf-8`, is refused
  (`RequestDispatch.JsonWithParameterRefused`).
* **There is no re-entrancy guard.** The registry is consulted before a class's
  fields are mapped (line 104), but the class is registered only after them
  (line 125). A self-referential data model would recurse without end.
  Descriptors here are finite trees, so such a model cannot be written.

## Model

| member | source | states |
|---|---|---|
| `Strings.Split` | caikit/runtime/http_server/pydantic_wrapper.py:223 | the segments of a dotted key: at least one, none containing a dot; `Strings.JoinSplit` joins them back to the key |
| `Strings.JoinSplit` | caikit/runtime/http_server/pydantic_wrapper.py:223 | joining the segments of `key.split(".")` with dots gives back the key |
| `Strings.SplitJoin` | caikit/runtime/http_server/pydantic_wrapper.py:223 | splitting dot-joined, dot-free segments gives back those segments |
| `Strings.SplitInjective` | caikit/runtime/http_server/pydantic_wrapper.py:223 | two different form keys never resolve to the same dotted path |
| `Strings.ContainsOccurs` | caikit/runtime/http_server/pydantic_wrapper.py:196 | the substring test holds exactly when the substring occurs at some position |
| `Strings.Contains` | caikit/runtime/http_server/pydantic_wrapper.py:196 | the `in` test on the header: it holds only when the substring is no longer than the header; `Strings.ContainsOccurs` ties it in both directions to an occurrence at some position |
| `Mapper.Seeded` | caikit/runtime/http_server/pydantic_wrapper.py:54-60 | the dictionary as imported maps exactly the four primitive sequences to lists of their element type, with no reverse entries |
| `Mapper.FromBase64` | caikit/runtime/http_server/pydantic_wrapper.py:177-180 | text is base64-decoded, or rejected when decoding fails; any other value passes through unchanged |
| `Mapper.PydanticType` | caikit/runtime/http_server/pydantic_wrapper.py:133-174 | no ensures of its own: the mapper; specified by `MapperProofs.PydanticTypeMirrors`, `PydanticTypeTotal`, `UnsupportedFails`, `PydanticTypeCoherent`, `PydanticTypeGrows` and `PydanticTypeStable` |
| `Mapper.DataobjectToPydantic` | caikit/runtime/http_server/pydantic_wrapper.py:95-129 | no ensures of its own: the registry lookup, then the build and the two-way store; specified by `MapperProofs.DataobjectToPydanticEffect`, `DataobjectTotal`, `DataobjectCoherent` and `DataobjectStable` |
| `Mapper.MapFields` | caikit/runtime/http_server/pydantic_wrapper.py:107-110 | no ensures of its own: the annotations comprehension; specified by `MapperProofs.MapFieldsMirrors`, `MapFieldsTotal`, `MapFieldsFails` and `MapFieldsCoherent` |
| `Mapper.MapAll` | caikit/runtime/http_server/pydantic_wrapper.py:161-164 | no ensures of its own: the union's alternatives; specified by `MapperProofs.MapAllMirrors`, `MapAllTotal`, `MapAllFails` and `MapAllCoherent` |
| `MapperProofs.Base64BothEncodings` | caikit/runtime/http_server/pydantic_wrapper.py:177-180 | base64 text and the raw bytes it encodes both reach validation as those bytes, and normalising twice changes nothing |
| `MapperProofs.SeededCoherent` | caikit/runtime/http_server/pydantic_wrapper.py:54-60 | the seeded dictionary satisfies the registry invariant `Coherent` |
| `MapperProofs.PydanticTypeMirrors` | caikit/runtime/http_server/pydantic_wrapper.py:133-172 | a successful mapping mirrors its input: leaves go to their pydantic leaf, Annotated is unwrapped, unions, lists and dicts keep their shape and arity, and data objects go to their registered model |
| `MapperProofs.MapFieldsMirrors` | caikit/runtime/http_server/pydantic_wrapper.py:107-110 | a new model's annotations have the data object's field names in order, mirrored types and None defaults |
| `MapperProofs.MapAllMirrors` | caikit/runtime/http_server/pydantic_wrapper.py:161-164 | a union maps to a union of the same length whose alternatives mirror the originals in order |
| `MapperProofs.PydanticTypeGrows` | caikit/runtime/http_server/pydantic_wrapper.py:125-128 | mapping only adds registry entries, never changes one, and every class it registers is no larger than the mapped type |
| `MapperProofs.DataobjectGrows` | caikit/runtime/http_server/pydantic_wrapper.py:104-128 | building a model only adds registry entries |
| `MapperProofs.MapFieldsGrows` | caikit/runtime/http_server/pydantic_wrapper.py:107-110 | mapping a class's fields only adds registry entries |
| `MapperProofs.MapAllGrows` | caikit/runtime/http_server/pydantic_wrapper.py:161-164 | mapping a union's alternatives only adds registry entries |
| `MapperProofs.RegisterKeepsCoherent` | caikit/runtime/http_server/pydantic_wrapper.py:125-128 | storing a freshly built model in both directions under a fresh identity keeps the registry invariant |
| `MapperProofs.PydanticTypeCoherent` | caikit/runtime/http_server/pydantic_wrapper.py:133-174 | the mapper preserves the registry invariant |
| `MapperProofs.DataobjectCoherent` | caikit/runtime/http_server/pydantic_wrapper.py:95-129 | building a model preserves the registry invariant |
| `MapperProofs.MapFieldsCoherent` | caikit/runtime/http_server/pydantic_wrapper.py:107-110 | mapping a class's fields preserves the registry invariant |
| `MapperProofs.MapAllCoherent` | caikit/runtime/http_server/pydantic_wrapper.py:161-164 | mapping a union's alternatives preserves the registry invariant |
| `MapperProofs.DataobjectToPydanticEffect` | caikit/runtime/http_server/pydantic_wrapper.py:104-129 | a registered class returns its entry and changes nothing, and a primitive sequence returns its list; otherwise a new model for the class is built with a fresh identity, stored in both directions, and the invariant holds |
| `MapperProofs.PydanticTypeStable` | caikit/runtime/http_server/pydantic_wrapper.py:104-105 | once a type has mapped, mapping it again under any larger registry returns the same type and adds nothing |
| `MapperProofs.DataobjectStable` | caikit/runtime/http_server/pydantic_wrapper.py:104-105 | once a class has a model, any later call returns that model and adds nothing |
| `MapperProofs.MapFieldsStable` | caikit/runtime/http_server/pydantic_wrapper.py:107-110 | re-mapping fields that have mapped returns the same annotations and adds nothing |
| `MapperProofs.MapAllStable` | caikit/runtime/http_server/pydantic_wrapper.py:161-164 | re-mapping alternatives that have mapped returns the same types and adds nothing |
| `MapperProofs.SecondCallIdentical` | caikit/runtime/http_server/pydantic_wrapper.py:104-105 | a second call on the registry left by the first returns the identical model and leaves the registry unchanged |
| `MapperProofs.PydanticTypeTotal` | caikit/runtime/http_server/pydantic_wrapper.py:133-174 | a type with no unknown annotation always maps; the only failure is the TypeError for an unknown annotation; a bare unknown annotation fails without touching the registry, while classes that earlier fields registered stay registered |
| `MapperProofs.DataobjectTotal` | caikit/runtime/http_server/pydantic_wrapper.py:107-110 | a class with only supported field types always gets a model; failures are only unsupported types |
| `MapperProofs.MapFieldsTotal` | caikit/runtime/http_server/pydantic_wrapper.py:107-110 | supported field types always map; failures are only unsupported types |
| `MapperProofs.MapAllTotal` | caikit/runtime/http_server/pydantic_wrapper.py:161-164 | supported alternatives always map; failures are only unsupported types |
| `MapperProofs.UnsupportedFails` | caikit/runtime/http_server/pydantic_wrapper.py:133-174 | under a coherent registry the mapper fails exactly when an unknown annotation occurs somewhere inside the type, so the TypeError at line 174 is reached from any depth |
| `MapperProofs.MapFieldsFails` | caikit/runtime/http_server/pydantic_wrapper.py:107-110 | one field with an unknown annotation makes the class fail |
| `MapperProofs.MapAllFails` | caikit/runtime/http_server/pydantic_wrapper.py:161-164 | one alternative with an unknown annotation makes the union fail |
| `MapperProofs.MirrorsSupported` | caikit/runtime/http_server/pydantic_wrapper.py:133-172 | a type mirrored under a coherent registry contains no unknown annotation |
| `MapperProofs.RegisteredSupported` | caikit/runtime/http_server/pydantic_wrapper.py:104-105 | no class a coherent registry holds hides an unknown annotation, so a registry hit never masks one |
| `Converter.Convert` | caikit/runtime/http_server/pydantic_wrapper.py:74-92 | conversion succeeds exactly when the instance's class has a reverse entry, targets that data-object class and passes one argument per field; otherwise calling `None` raises TypeError |
| `Converter.Registered` | caikit/runtime/http_server/pydantic_wrapper.py:80 | no ensures of its own: the test `type(v) in PYDANTIC_TO_DM_MAPPING`; used by `Converter.Arg` and `Converter.ConvertFieldwise` |
| `Converter.AllRegistered` | caikit/runtime/http_server/pydantic_wrapper.py:83 | no ensures of its own: the `all(...)` test over a list; used by `Converter.Arg` and `Converter.ConvertFieldwise` |
| `Converter.Build` | caikit/runtime/http_server/pydantic_wrapper.py:92 | a registered instance becomes an object of its registered class with one argument per field |
| `Converter.Args` | caikit/runtime/http_server/pydantic_wrapper.py:77-91 | after `n` fields, exactly `n` keyword arguments have been collected |
| `Converter.Arg` | caikit/runtime/http_server/pydantic_wrapper.py:80-90 | a registered instance is converted, a list whose elements are all registered is converted element-wise to the same length, and any other value is passed unchanged |
| `Converter.BuildAll` | caikit/runtime/http_server/pydantic_wrapper.py:84-86 | the element-wise conversion of a list has the list's length |
| `Converter.ConvertFieldwise` | caikit/runtime/http_server/pydantic_wrapper.py:72-92 | field `i` becomes keyword argument `i` under the same name; nested instances and all-registered lists convert recursively in order; everything else passes through unchanged |
| `Converter.ConvertsToSourceClass` | caikit/runtime/http_server/pydantic_wrapper.py:125-128 | an instance of the model built for a data-object class converts back to an object of that class |
| `GlobalRegistry.SchemaRegistry.constructor` | caikit/runtime/http_server/pydantic_wrapper.py:54-60 | the new registry holds exactly the seeded dictionary and satisfies the invariant |
| `GlobalRegistry.SchemaRegistry.PydanticType` | caikit/runtime/http_server/pydantic_wrapper.py:133-174 | the method's result and its new registry state are those of `Mapper.PydanticType` on the old state, and the invariant is kept |
| `GlobalRegistry.SchemaRegistry.DataobjectToPydantic` | caikit/runtime/http_server/pydantic_wrapper.py:95-129 | the method's result and its new registry state are those of `Mapper.DataobjectToPydantic` on the old state, and the invariant is kept |
| `GlobalRegistry.SchemaRegistry.PydanticToDataobject` | caikit/runtime/http_server/pydantic_wrapper.py:72-92 | the object built by the loop is the one `Converter.Convert` specifies |
| `KeyResolver.TypeHints` | caikit/runtime/http_server/pydantic_wrapper.py:304 | a model reports its fields; List, Dict and Union aliases make `get_type_hints` raise |
| `KeyResolver.FieldType` | caikit/runtime/http_server/pydantic_wrapper.py:304 | a field type is found exactly when some field has that name, and it is that field's type |
| `KeyResolver.Subtypes` | caikit/runtime/http_server/pydantic_wrapper.py:295-318 | no ensures of its own: the resolver; specified by `KeyResolver.SubtypesCases` and `KeyResolver.FirstMatchSpec` |
| `KeyResolver.FirstMatch` | caikit/runtime/http_server/pydantic_wrapper.py:313-316 | no ensures of its own: the loop over a mid-path union; specified by `KeyResolver.FirstMatchSpec` |
| `KeyResolver.Truthy` | caikit/runtime/http_server/pydantic_wrapper.py:315 | no ensures of its own: Python truthiness of a resolution, a non-empty list; used by `KeyResolver.FirstMatchSpec` |
| `KeyResolver.FirstMatchSpec` | caikit/runtime/http_server/pydantic_wrapper.py:313-316 | a mid-path union resolves to the first alternative whose resolution is non-empty or raises; it falls off, returning None, exactly when every alternative resolves to nothing |
| `KeyResolver.SubtypesCases` | caikit/runtime/http_server/pydantic_wrapper.py:295-318 | an empty path gives the model itself; an unknown segment gives `[]`, and so does a path that goes on past a leaf class; a typing alias raises; a union as the last segment gives all its alternatives, and in mid-path it is searched; any other field continues with the rest of the path |
| `FormDecoder.AsItems` | caikit/runtime/http_server/pydantic_wrapper.py:216 | `raw_objects` starts as the key's values, one for one |
| `FormDecoder.Skip` | caikit/runtime/http_server/pydantic_wrapper.py:219-220 | no ensures of its own: a key with no values or a falsy first value is skipped; `FormProofs.KeyStepWritesOnce` proves that a skipped key changes nothing |
| `FormDecoder.OriginOfContainer` | caikit/runtime/http_server/pydantic_wrapper.py:231-239 | no ensures of its own: `get_origin` of the list the resolver returns is None, so the list flag stays false; `FormProofs.KeyStepWritesOnce` proves that only single values are written |
| `FormDecoder.LoadsItem` | caikit/runtime/http_server/pydantic_wrapper.py:251 | `json.loads` on one value raises exactly on an uploaded file or on an earlier parse that is not a JSON string, and then only with TypeError |
| `FormDecoder.JsonFrom` | caikit/runtime/http_server/pydantic_wrapper.py:249-254 | the JSON pass keeps the number of values, and it only raises a TypeError |
| `FormDecoder.ReadUploads` | caikit/runtime/http_server/pydantic_wrapper.py:263-265 | every uploaded file is replaced by its contents and every other value is kept, position by position |
| `FormDecoder.ReadUpload` | caikit/runtime/http_server/pydantic_wrapper.py:263-265 | no ensures of its own: an upload becomes its bytes and anything else is kept; `FormDecoder.ReadUploads` applies it to every value |
| `FormDecoder.UpdateAtDotPath` | caikit/runtime/http_server/pydantic_wrapper.py:271-275 | a value is written at the key's dotted path exactly when nothing is there yet, and nothing else changes |
| `FormDecoder.Store` | caikit/runtime/http_server/pydantic_wrapper.py:268-275 | the write succeeds exactly when the path is empty, writes the first value (or the whole list when the list flag is set) and nothing else, and otherwise fails with "value already exists" for the key |
| `FormDecoder.TryFrom` | caikit/runtime/http_server/pydantic_wrapper.py:245-286 | the candidate loop fails only with a key error or a TypeError, and never with the unknown-key error; which candidate takes the values and what it writes is stated by `FormProofs.TryFromSelects`, `FormProofs.FailedPassesReach` and `FormProofs.AcceptedCandidateStores` |
| `FormDecoder.KeyStep` | caikit/runtime/http_server/pydantic_wrapper.py:213-286 | one key fails only with a key error or a TypeError |
| `FormDecoder.KeyFailure` | caikit/runtime/http_server/pydantic_wrapper.py:224-286 | no ensures of its own: the three 422s of the key loop or a TypeError; `FormDecoder.FoldForm` fails only with one of these |
| `FormDecoder.FoldFrom` | caikit/runtime/http_server/pydantic_wrapper.py:212-287 | the remaining keys fail only with a key error or a TypeError |
| `FormDecoder.FoldForm` | caikit/runtime/http_server/pydantic_wrapper.py:212-287 | the whole fold fails only with a key error or a TypeError, never with a validation error |
| `FormDecoder.ParseForm` | caikit/runtime/http_server/pydantic_wrapper.py:207-292 | no ensures of its own: the form path with line 292 corrected; specified by `FormProofs.ParseFormOutcome` |
| `FormDecoder.ParseFormAsWritten` | caikit/runtime/http_server/pydantic_wrapper.py:288-292 | as written, a form that fails validation never produces a RequestValidationError (see Findings) |
| `FormDecoder.LoadJsonInPlace` | caikit/runtime/http_server/pydantic_wrapper.py:249-258 | the in-place JSON loop computes `JsonFrom` |
| `FormDecoder.ReadUploadsInPlace` | caikit/runtime/http_server/pydantic_wrapper.py:263-265 | the in-place file-reading loop computes `ReadUploads` |
| `FormDecoder.ParseKey` | caikit/runtime/http_server/pydantic_wrapper.py:216-286 | the body of the key loop computes `KeyStep` |
| `FormDecoder.ParseFormDataToPydantic` | caikit/runtime/http_server/pydantic_wrapper.py:207-292 | the loops compute `ParseForm`: the fold over the keys in form order, then validation, with validation errors reported as a RequestValidationError |
| `FormProofs.JsonFromShape` | caikit/runtime/http_server/pydantic_wrapper.py:249-258 | a pass that gets through replaces every value by its parse; one that stops at the first unparsable value has replaced exactly the values before it and kept the rest; one that raises does so at a value `json.loads` refuses |
| `FormProofs.TryFromWritesOnce` | caikit/runtime/http_server/pydantic_wrapper.py:245-286 | a success writes the key's path, which was empty, and nothing else; a path already written is an error; running out of candidates means every candidate was a model |
| `FormProofs.KeyStepWritesOnce` | caikit/runtime/http_server/pydantic_wrapper.py:218-279 | an empty key changes nothing; any other key either fails or writes a single value at its previously empty path and changes nothing else |
| `FormProofs.FailedKeyHadOnlyModels` | caikit/runtime/http_server/pydantic_wrapper.py:281-286 | a key that fails to parse had only model candidates, and each one's JSON pass failed on the values as the one before it left them (`FormProofs.FailedPasses` over all candidates) |
| `FormProofs.GaveUpAfterFailedPasses` | caikit/runtime/http_server/pydantic_wrapper.py:244-286 | the candidate loop raises "failed to parse" only after every remaining candidate was a model whose JSON pass failed on the values as the previous one left them |
| `FormProofs.FirstCandidateStoresFirstValue` | caikit/runtime/http_server/pydantic_wrapper.py:260-269 | with a scalar first candidate the first raw value is stored, and with bytes the first value is stored with an upload replaced by its contents; later values are dropped |
| `FormProofs.ModelBeforeStr` | caikit/runtime/http_server/pydantic_wrapper.py:245-279 | for a model-or-str union, a single text value is stored as its JSON parse if it parses and as the raw text otherwise |
| `FormProofs.RewritePersists` | caikit/runtime/http_server/pydantic_wrapper.py:249-258 | a failed JSON pass leaves its rewrites for the next model candidate, which raises TypeError if a rewritten value is not a JSON string |
| `FormProofs.FoldOnlyAdds` | caikit/runtime/http_server/pydantic_wrapper.py:212-287 | the fold keeps every path already written, and each new path is the dotted path of a later key |
| `FormProofs.SamePathTwiceFails` | caikit/runtime/http_server/pydantic_wrapper.py:271-275 | two non-empty keys with the same dotted path make the request fail |
| `FormProofs.PathWrittenFails` | caikit/runtime/http_server/pydantic_wrapper.py:271-275 | a non-empty key whose path was already written makes the request fail |
| `FormProofs.DistinctKeysNeverCollide` | caikit/runtime/http_server/pydantic_wrapper.py:271-275 | a form with distinct keys, as every `FormData` has, never fails with "value already exists": under this model that 422 is unreachable |
| `FormProofs.UnknownFieldRejected` | caikit/runtime/http_server/pydantic_wrapper.py:224-229 | a non-empty key whose first segment names no field of the model is rejected as an unknown key |
| `FormProofs.UnknownKeyExactly` | caikit/runtime/http_server/pydantic_wrapper.py:224-229 | a non-empty key is rejected as unknown exactly when the resolver gives `[]` or falls off a mid-path union; the candidate loop never raises that error |
| `FormProofs.UnknownKeyRoutes` | caikit/runtime/http_server/pydantic_wrapper.py:224-229 | the routes to the unknown-key error below the first segment: a second segment that names no field of the nested model, a path that goes on past a leaf class, and a mid-path union none of whose alternatives resolves the rest |
| `FormProofs.FailedPassesReach` | caikit/runtime/http_server/pydantic_wrapper.py:245-260 | after model candidates whose JSON passes failed, the loop goes on from the next candidate with the values as rewritten, which keep their number |
| `FormProofs.AcceptedCandidateStores` | caikit/runtime/http_server/pydantic_wrapper.py:245-275 | an accepting candidate on a free path writes: for a model, every value replaced by its JSON parse, and without the list flag the parse of the first value; for bytes, uploads replaced by their contents; for any other type, the values unchanged |
| `FormProofs.TryFromSelects` | caikit/runtime/http_server/pydantic_wrapper.py:245-286 | the candidate loop succeeds exactly when the path is free and some candidate takes the values after every earlier candidate was a model whose pass failed on the values as the previous one left them |
| `FormProofs.ModelFirstStoresParse` | caikit/runtime/http_server/pydantic_wrapper.py:245-269 | when the first candidate is a model and every value parses, the first value is text and its JSON parse is written at the key's path |
| `FormProofs.ParseFormOutcome` | caikit/runtime/http_server/pydantic_wrapper.py:288-292 | the form path succeeds exactly when the fold succeeds and validation accepts, and then returns the validated instance; validation errors are surfaced as a RequestValidationError, and fold errors unchanged |
| `FormProofs.TextForIntFieldLost` | caikit/runtime/http_server/pydantic_wrapper.py:288-292 | the text `abc` for the int field of a generated model folds to one entry; when validation rejects it, the as-written code raises AttributeError, while the corrected path reports the validation errors |
| `RequestDispatch.FromRequest` | caikit/runtime/http_server/pydantic_wrapper.py:183-204 | a JSON body is validated, with validation errors becoming a RequestValidationError; a form body is decoded by `ParseForm`; a missing header raises TypeError; any other header is refused with 415 naming it |
| `RequestDispatch.RouteOf` | caikit/runtime/http_server/pydantic_wrapper.py:186-204 | no ensures of its own: the header test; specified by `RequestDispatch.RouteCases` |
| `RequestDispatch.RouteCases` | caikit/runtime/http_server/pydantic_wrapper.py:186-204 | the JSON branch is taken exactly when the header equals `application/json`; the form branch exactly when `multipart/form-data` occurs in any other header; otherwise the header is refused, or raises when absent |
| `RequestDispatch.JsonWithParameterRefused` | caikit/runtime/http_server/pydantic_wrapper.py:187-202 | `application/json; charset=utf-8` is refused with 415 |
| `RequestDispatch.FormWithBoundaryAccepted` | caikit/runtime/http_server/pydantic_wrapper.py:196 | a multipart header carrying a boundary parameter takes the form branch |

## Left out

* Pydantic itself. `model_validate`, `model_validate_json` and the validators
  they run are function parameters (`Validate`, `ValidateJson`). The model
  covers what the decoder hands to validation, not what validation decides.
* `json.loads` and `base64.b64decode`. They are function parameters
  (`Loads`, and `decode` in `FromBase64`) that report their errors as `None`.
  The one case modelled concretely is `json.loads` raising TypeError on a
  value that is neither text nor bytes.
* Asynchronous I/O. `request.body()`, `request.form()` and
  `UploadFile.file.read()` are not modelled. A request is given with its body
  and its form already read, and an upload with its contents.
* Reflection. `get_type_hints` on a data-object class, the proto descriptor's
  full name used as the class name, `localns`, and numpy's `issubclass_` are
  not modelled. A data-object class is given as a record of named field types.
  The numpy scalar classes, enums and the typing constructs are variants of the
  descriptor.
* Python class identity. A generated class is identified by an identity number
  that the registry allocates. `ParentPydanticBaseModel`'s configuration
  (`extra="forbid"`) matters only to validation and is not modelled.
* A data-object class that is also a pydantic model. Line 153 sends it to the
  typing checks, where it ends in TypeError. Descriptors cannot express such a
  class.
* Members of `BaseModel` itself. `get_type_hints` on a generated model also
  reports the base class's annotations, so a form key naming one of them would
  resolve. Only the generated fields are modelled.
* Simplifications `typing.Union` performs. It flattens nested unions, drops
  duplicate alternatives, and collapses a one-alternative union. These are not
  modelled; a union keeps its alternatives as listed.
* `update_dict_at_dot_path` (`caikit/runtime/http_server/utils.py`) is not part
  of this model.
  * `FormDecoder.UpdateAtDotPath` stands for it: it writes at the key's dotted
    path and refuses a path already written.
  * Conflicts between a path and its prefixes, such as `a` followed by `a.b`,
    are not modelled.
* Form data is a sequence of keys, each with its list of values, standing for
  `form_data.keys()` and `getlist`.
  * A real `FormData` lists each key once. Under this model's flat paths,
    `FormProofs.DistinctKeysNeverCollide` shows that distinct keys never collide,
    so only a sequence that repeats a key reaches the "value already exists" 422
    at lines 272-275. In the program, the prefix conflicts above remain a route to
    that 422 for distinct keys.
    A repeated value such as `a.b=1&a.b=2` is one key with two values, and it
    keeps the first.
  * Truthiness of a value: only the empty text is falsy, and an uploaded file
    is always truthy.
* The text of HTTP errors and their status codes. Each failure is a variant of
  `Failure`.
  * `UnknownKey`, `ValueAlreadyExists`, `FailedToParseKey` and
    `RequestValidation` are the 422s.
  * `UnsupportedMediaType` is the 415.
  * `TypeErrorRaised` and `AttributeErrorRaised` stand for uncaught exceptions.
* Errors raised by a data-object constructor. `dm_class_to_build(**dm_kwargs)`
  is modelled as building the object description. A constructor that rejects
  its arguments is not modelled.
* Concurrency. Two requests that race to build the same model in the global
  dictionary are not modelled.

## Findings

| source | as written | input that shows it | evidently intended | confidence | as-written member | corrected member |
|---|---|---|---|---|---|---|
| caikit/runtime/http_server/pydantic_wrapper.py:292 | the form path reads `err.raw_errors`, a pydantic 1 attribute that pydantic 2's ValidationError lacks, so the handler raises AttributeError (a 500) | the text `abc` posted for an int field of a generated model: validation rejects it and reading the attribute raises | raise RequestValidationError with `err.errors()`, as the JSON path does at line 194 | high: the file relies on the pydantic 2 API (`model_validate`, `ConfigDict`); not executed | `FormDecoder.ParseFormAsWritten`, shown by `FormProofs.TextForIntFieldLost` | `FormDecoder.ParseForm`, proved in `FormProofs.ParseFormOutcome`; used by `ParseFormDataToPydantic` and `FromRequest` |
