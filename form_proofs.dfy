/**
 * What the form decoder promises: each key writes its dotted path at most once
 * and only the first of its values; a model candidate rewrites the values in
 * place, and a failed parse leaves that rewrite for the next candidate; a
 * key the model does not know is rejected; the whole fold only adds paths.
 */
module FormProofs {
  import opened Types
  import opened Strings
  import opened KeyResolver
  import opened FormDecoder

  /** Position `i` of `after` holds the parse of position `i` of `before`. */
  predicate ParsedAt(before: seq<FormItem>, after: seq<FormItem>, i: nat, loads: Loads)
    requires i < |before| && i < |after|
  {
    after[i].Parsed? && LoadsItem(before[i], loads) == Ok(Some(after[i].json))
  }

  /** `after` is `before` with positions `n` to `k` replaced by their parses. */
  predicate ParsedBetween(before: seq<FormItem>, after: seq<FormItem>, n: nat, k: nat, loads: Loads)
  {
    && n <= k <= |before| == |after|
    && (forall i :: 0 <= i < n ==> after[i] == before[i])
    && (forall i :: n <= i < k ==> ParsedAt(before, after, i, loads))
    && (forall i :: k <= i < |before| ==> after[i] == before[i])
  }

  /**
   * The JSON pass from position `n`: a value that parses is replaced by its parse,
   * so a pass that gets through replaces every value from `n` on; one that stops
   * at the first value `k` that does not parse has replaced the values before `k`
   * and keeps `k` and everything after it as it was; one that `json.loads` refuses
   * outright stops at a value it refuses with that error.
   */
  lemma {:induction false} JsonFromShape(items: seq<FormItem>, n: nat, loads: Loads)
    requires n <= |items|
    ensures var r := JsonFrom(items, n, loads);
      && (r.AllParsed? ==> ParsedBetween(items, r.items, n, |items|, loads))
      && (r.ParseFailed? ==>
            exists k :: n <= k < |items| && ParsedBetween(items, r.items, n, k, loads) && LoadsItem(items[k], loads) == Ok(None))
      && (r.LoadsRaised? ==>
            exists k :: n <= k < |items| && LoadsItem(items[k], loads) == Err(r.failure))
    decreases |items| - n
  {
    if n < |items| {
      match LoadsItem(items[n], loads)
      case Err(f) =>
      case Ok(None) =>
        assert ParsedBetween(items, items, n, n, loads);
      case Ok(Some(j)) =>
        var items' := items[n := Parsed(j)];
        JsonFromShape(items', n + 1, loads);
        var r := JsonFrom(items', n + 1, loads);
        assert r == JsonFrom(items, n, loads);
        assert forall i :: 0 <= i < |items| && i != n ==> items'[i] == items[i];
        if r.AllParsed? {
          forall i | n <= i < |items| ensures ParsedAt(items, r.items, i, loads) {
            if i > n {
              assert ParsedAt(items', r.items, i, loads);
            }
          }
        }
        if r.ParseFailed? {
          var k :| n + 1 <= k < |items'| && ParsedBetween(items', r.items, n + 1, k, loads) && LoadsItem(items'[k], loads) == Ok(None);
          forall i | n <= i < k ensures ParsedAt(items, r.items, i, loads) {
            if i > n {
              assert ParsedAt(items', r.items, i, loads);
            }
          }
          assert ParsedBetween(items, r.items, n, k, loads);
        }
        if r.LoadsRaised? {
          var k :| n + 1 <= k < |items'| && LoadsItem(items'[k], loads) == Err(r.failure);
        }
    }
  }

  /**
   * The candidate loop writes the key's path at most once: a success writes a value
   * at a path that was empty and changes nothing else, a path already written is an
   * error, and the loop only runs out of candidates after every remaining candidate
   * was a model whose JSON pass failed.
   */
  lemma {:induction false} TryFromWritesOnce(key: string, hints: seq<PyTy>, j: nat, items: seq<FormItem>, isList: bool,
                                             obj: Pending, loads: Loads)
    requires j <= |hints| && items != []
    ensures var r := TryFrom(key, hints, j, items, isList, obj, loads);
      && (r.Ok? ==>
            && Split(key) !in obj
            && Split(key) in r.value
            && r.value == obj[Split(key) := r.value[Split(key)]]
            && (r.value[Split(key)].One? <==> !isList))
      && (Split(key) in obj ==> r.Err?)
      && (r.Err? && r.error.ValueAlreadyExists? ==> Split(key) in obj)
      && (r == Err(FailedToParseKey(key, hints)) ==> forall k :: j <= k < |hints| ==> hints[k].PModel?)
    decreases |hints| - j
  {
    if j < |hints| && hints[j].PModel? {
      match JsonFrom(items, 0, loads)
      case LoadsRaised(f) =>
        JsonFromShape(items, 0, loads);
        var k :| 0 <= k < |items| && LoadsItem(items[k], loads) == Err(f);
        assert f.TypeErrorRaised?;
      case ParseFailed(items') =>
        TryFromWritesOnce(key, hints, j + 1, items', isList, obj, loads);
      case AllParsed(items') =>
    }
  }

  /**
   * One key of the form: a key with no value or an empty first value changes
   * nothing; any other key either fails or writes exactly one value, the single
   * first element, at its dotted path, which must not have been written before.
   */
  lemma KeyStepWritesOnce(model: PyTy, entry: FormEntry, obj: Pending, loads: Loads)
    ensures Skip(entry.values) ==> KeyStep(model, entry, obj, loads) == Ok(obj)
    ensures var r := KeyStep(model, entry, obj, loads);
      !Skip(entry.values) && r.Ok? ==>
        && Split(entry.key) !in obj
        && Split(entry.key) in r.value
        && r.value == obj[Split(entry.key) := r.value[Split(entry.key)]]
        && r.value[Split(entry.key)].One?
    ensures !Skip(entry.values) && Split(entry.key) in obj ==> KeyStep(model, entry, obj, loads).Err?
    ensures var r := KeyStep(model, entry, obj, loads);
      r.Err? && r.error.ValueAlreadyExists? ==> Split(entry.key) in obj
  {
    if !Skip(entry.values) {
      var res := Subtypes(model, Split(entry.key));
      if res.Candidates? && res.types != [] {
        TryFromWritesOnce(entry.key, res.types, 0, AsItems(entry.values), false, obj, loads);
      }
    }
  }

  /**
   * When the candidate loop gives up, every candidate type was a model and the
   * key's values failed to parse as JSON for each of them in turn.
   */
  lemma FailedKeyHadOnlyModels(model: PyTy, entry: FormEntry, obj: Pending, loads: Loads, hints: seq<PyTy>)
    requires !Skip(entry.values) && Subtypes(model, Split(entry.key)) == Candidates(hints)
    requires KeyStep(model, entry, obj, loads) == Err(FailedToParseKey(entry.key, hints))
    ensures hints != [] && forall k :: 0 <= k < |hints| ==> hints[k].PModel?
    ensures exists itemsK :: FailedPasses(hints, 0, |hints|, AsItems(entry.values), itemsK, loads)
  {
    if hints != [] {
      TryFromWritesOnce(entry.key, hints, 0, AsItems(entry.values), false, obj, loads);
      GaveUpAfterFailedPasses(entry.key, hints, 0, AsItems(entry.values), false, obj, loads);
    }
  }

  /** The candidate loop gives up only after every remaining candidate's JSON pass failed in turn. */
  lemma {:induction false} GaveUpAfterFailedPasses(key: string, hints: seq<PyTy>, j: nat, items: seq<FormItem>,
                                                   isList: bool, obj: Pending, loads: Loads)
    requires j <= |hints| && items != []
    requires TryFrom(key, hints, j, items, isList, obj, loads) == Err(FailedToParseKey(key, hints))
    ensures exists itemsK :: FailedPasses(hints, j, |hints|, items, itemsK, loads)
    decreases |hints| - j
  {
    if j == |hints| {
      assert FailedPasses(hints, j, j, items, items, loads);
    } else {
      assert hints[j].PModel? && JsonFrom(items, 0, loads).ParseFailed?;
      var mid := JsonFrom(items, 0, loads).items;
      GaveUpAfterFailedPasses(key, hints, j + 1, mid, isList, obj, loads);
      var itemsK :| FailedPasses(hints, j + 1, |hints|, mid, itemsK, loads);
      assert FailedPasses(hints, j, |hints|, items, itemsK, loads);
    }
  }

  /**
   * Only the first value of a key is kept: when its first candidate is neither a
   * model nor bytes the first raw value is written unchanged, and when it is bytes
   * the first value is written with an uploaded file replaced by its contents;
   * the values after the first are dropped either way.
   */
  lemma FirstCandidateStoresFirstValue(model: PyTy, entry: FormEntry, obj: Pending, loads: Loads, hints: seq<PyTy>)
    requires !Skip(entry.values) && Split(entry.key) !in obj
    requires Subtypes(model, Split(entry.key)) == Candidates(hints) && hints != []
    ensures !hints[0].PModel? && !hints[0].PBytes? ==>
      KeyStep(model, entry, obj, loads) == Ok(obj[Split(entry.key) := One(Raw(entry.values[0]))])
    ensures hints[0].PBytes? ==>
      KeyStep(model, entry, obj, loads) == Ok(obj[Split(entry.key) := One(ReadUpload(Raw(entry.values[0])))])
  {
    var items := AsItems(entry.values);
    assert items[0] == Raw(entry.values[0]);
    if hints[0].PBytes? {
      assert ReadUploads(items)[0] == ReadUpload(Raw(entry.values[0]));
    }
  }

  /**
   * A single text value for a key typed as a union of a model and `str`, model
   * first: the text is kept as its JSON parse when it parses, and as the raw text
   * when `json.loads` rejects it, so the `str` alternative catches it.
   */
  lemma ModelBeforeStr(model: PyTy, key: string, s: string, obj: Pending, loads: Loads, m: PyTy)
    requires m.PModel? && s != "" && Split(key) !in obj
    requires Subtypes(model, Split(key)) == Candidates([m, PStr])
    ensures loads(StrInput(s)).Some? ==>
      KeyStep(model, FormEntry(key, [Text(s)]), obj, loads) == Ok(obj[Split(key) := One(Parsed(loads(StrInput(s)).value))])
    ensures loads(StrInput(s)).None? ==>
      KeyStep(model, FormEntry(key, [Text(s)]), obj, loads) == Ok(obj[Split(key) := One(Raw(Text(s)))])
  {
    var items := AsItems([Text(s)]);
    assert items == [Raw(Text(s))];
    assert LoadsItem(items[0], loads) == Ok(loads(StrInput(s)));
    match loads(StrInput(s))
    case None =>
      assert JsonFrom(items, 0, loads) == ParseFailed(items);
      assert TryFrom(key, [m, PStr], 0, items, false, obj, loads) == TryFrom(key, [m, PStr], 1, items, false, obj, loads);
    case Some(j) =>
      assert JsonFrom(items, 0, loads) == JsonFrom(items[0 := Parsed(j)], 1, loads) == AllParsed([Parsed(j)]);
  }

  /**
   * The fold over the keys only adds: every path written before keeps its value,
   * and every new path is the dotted path of one of the keys still to come.
   */
  lemma {:induction false} FoldOnlyAdds(model: PyTy, form: seq<FormEntry>, i: nat, obj: Pending, loads: Loads)
    requires i <= |form|
    ensures var r := FoldFrom(model, form, i, obj, loads);
      r.Ok? ==>
        && (forall path :: path in obj ==> path in r.value && r.value[path] == obj[path])
        && (forall path :: path in r.value && path !in obj ==> exists k :: i <= k < |form| && path == Split(form[k].key))
    decreases |form| - i
  {
    if i < |form| {
      KeyStepWritesOnce(model, form[i], obj, loads);
      match KeyStep(model, form[i], obj, loads)
      case Err(f) =>
      case Ok(obj') =>
        FoldOnlyAdds(model, form, i + 1, obj', loads);
    }
  }

  /**
   * Two non-empty keys of the form whose dotted paths coincide make the whole
   * fold fail: the second one finds its path already written.
   */
  lemma {:induction false} SamePathTwiceFails(model: PyTy, form: seq<FormEntry>, i: nat, obj: Pending, loads: Loads,
                                              k1: nat, k2: nat)
    requires i <= k1 < k2 < |form|
    requires !Skip(form[k1].values) && !Skip(form[k2].values) && Split(form[k1].key) == Split(form[k2].key)
    ensures FoldFrom(model, form, i, obj, loads).Err?
    decreases |form| - i
  {
    KeyStepWritesOnce(model, form[i], obj, loads);
    match KeyStep(model, form[i], obj, loads)
    case Err(f) =>
    case Ok(obj') =>
      if i < k1 {
        SamePathTwiceFails(model, form, i + 1, obj', loads, k1, k2);
      } else {
        PathWrittenFails(model, form, i + 1, obj', loads, k2);
      }
  }

  /** A later non-empty key whose path is already written makes the fold fail. */
  lemma {:induction false} PathWrittenFails(model: PyTy, form: seq<FormEntry>, i: nat, obj: Pending, loads: Loads, k: nat)
    requires i <= k < |form| && !Skip(form[k].values) && Split(form[k].key) in obj
    ensures FoldFrom(model, form, i, obj, loads).Err?
    decreases |form| - i
  {
    KeyStepWritesOnce(model, form[i], obj, loads);
    match KeyStep(model, form[i], obj, loads)
    case Err(f) =>
    case Ok(obj') =>
      FoldOnlyAdds(model, form, i, obj, loads);
      assert Split(form[k].key) in obj';
      if i < k {
        PathWrittenFails(model, form, i + 1, obj', loads, k);
      }
  }

  /**
   * A form whose keys are distinct, as `FormData.keys()` always are, never fails
   * with "value already exists": distinct keys have distinct dotted paths, so the
   * 422 of that check is unreachable and a repeated key such as `a.b=1&a.b=2`
   * keeps its first value instead of failing.
   */
  lemma DistinctKeysNeverCollide(model: PyTy, form: seq<FormEntry>, loads: Loads)
    requires forall k1, k2 :: 0 <= k1 < k2 < |form| ==> form[k1].key != form[k2].key
    ensures var r := FoldForm(model, form, loads);
      !(r.Err? && r.error.ValueAlreadyExists?)
  {
    NoCollisionFrom(model, form, 0, map[], loads);
  }

  lemma {:induction false} NoCollisionFrom(model: PyTy, form: seq<FormEntry>, i: nat, obj: Pending, loads: Loads)
    requires i <= |form|
    requires forall k1, k2 :: 0 <= k1 < k2 < |form| ==> form[k1].key != form[k2].key
    requires forall k :: i <= k < |form| ==> Split(form[k].key) !in obj
    ensures var r := FoldFrom(model, form, i, obj, loads);
      !(r.Err? && r.error.ValueAlreadyExists?)
    decreases |form| - i
  {
    if i < |form| {
      KeyStepWritesOnce(model, form[i], obj, loads);
      match KeyStep(model, form[i], obj, loads)
      case Err(f) =>
      case Ok(obj') =>
        forall k | i + 1 <= k < |form| ensures Split(form[k].key) !in obj' {
          SplitInjective(form[i].key, form[k].key);
        }
        NoCollisionFrom(model, form, i + 1, obj', loads);
    }
  }

  /**
   * A key whose first segment names no field of the model is rejected as unknown,
   * whatever its values, unless the key is skipped for being empty.
   */
  lemma UnknownFieldRejected(model: PyTy, entry: FormEntry, obj: Pending, loads: Loads)
    requires model.PModel? && !Skip(entry.values)
    requires forall i :: 0 <= i < |model.fields| ==> model.fields[i].name != Split(entry.key)[0]
    ensures KeyStep(model, entry, obj, loads) == Err(UnknownKey(entry.key))
  {
    SubtypesCases(model, Split(entry.key));
    UnknownKeyExactly(model, entry, obj, loads);
  }

  /**
   * A key that is not skipped is rejected as unknown exactly when the resolver
   * returns an empty list or falls off a mid-path union; the candidate loop
   * never raises that error itself.
   */
  lemma UnknownKeyExactly(model: PyTy, entry: FormEntry, obj: Pending, loads: Loads)
    requires !Skip(entry.values)
    ensures var res := Subtypes(model, Split(entry.key));
      KeyStep(model, entry, obj, loads) == Err(UnknownKey(entry.key)) <==> res == FellOff || res == Candidates([])
  {
  }

  /**
   * The routes to "unknown key" below the first segment: the second segment names
   * no field of the nested model; the first segment is a leaf class and the path
   * goes on; the first segment is a union none of whose alternatives resolves the
   * rest of the path.
   */
  lemma UnknownKeyRoutes(model: PyTy, entry: FormEntry, obj: Pending, loads: Loads, field: PyTy)
    requires !Skip(entry.values) && model.PModel?
    requires |Split(entry.key)| > 1 && FieldType(model.fields, Split(entry.key)[0]) == Some(field)
    ensures field.PModel? && (forall i :: 0 <= i < |field.fields| ==> field.fields[i].name != Split(entry.key)[1]) ==>
      KeyStep(model, entry, obj, loads) == Err(UnknownKey(entry.key))
    ensures !(field.PModel? || field.PList? || field.PDictOf? || field.PUnion?) ==>
      KeyStep(model, entry, obj, loads) == Err(UnknownKey(entry.key))
    ensures field.PUnion? && (forall i :: 0 <= i < |field.alts| ==> Skipped(field.alts[i], Split(entry.key)[1..])) ==>
      KeyStep(model, entry, obj, loads) == Err(UnknownKey(entry.key))
  {
    var keys := Split(entry.key);
    SubtypesCases(model, keys);
    if field.PUnion? {
      FirstMatchSpec(field.alts, keys[1..]);
    } else {
      SubtypesCases(field, keys[1..]);
    }
    UnknownKeyExactly(model, entry, obj, loads);
  }

  /**
   * The candidates from `j` to `k` were all models whose JSON pass failed, each on
   * the values as the one before left them, and `itemsK` is what the last left.
   */
  predicate FailedPasses(hints: seq<PyTy>, j: nat, k: nat, items: seq<FormItem>, itemsK: seq<FormItem>, loads: Loads)
    requires j <= k <= |hints|
    decreases k - j
  {
    if j == k then itemsK == items
    else
      && hints[j].PModel?
      && JsonFrom(items, 0, loads).ParseFailed?
      && FailedPasses(hints, j + 1, k, JsonFrom(items, 0, loads).items, itemsK, loads)
  }

  /** A candidate that takes the values: a model whose JSON pass gets through, or any other type. */
  predicate Accepts(hint: PyTy, items: seq<FormItem>, loads: Loads)
  {
    !hint.PModel? || JsonFrom(items, 0, loads).AllParsed?
  }

  /**
   * After failed passes the loop goes on from the later candidate with the
   * rewritten values, which keep their number; every candidate passed over was a
   * model and none of them took the values.
   */
  lemma {:induction false} FailedPassesReach(key: string, hints: seq<PyTy>, j: nat, k: nat, items: seq<FormItem>,
                                             itemsK: seq<FormItem>, isList: bool, obj: Pending, loads: Loads)
    requires j <= k <= |hints| && items != []
    requires FailedPasses(hints, j, k, items, itemsK, loads)
    ensures |itemsK| == |items|
    ensures forall i :: j <= i < k ==> hints[i].PModel?
    ensures TryFrom(key, hints, j, items, isList, obj, loads) == TryFrom(key, hints, k, itemsK, isList, obj, loads)
    decreases k - j
  {
    if j < k {
      var mid := JsonFrom(items, 0, loads).items;
      FailedPassesReach(key, hints, j + 1, k, mid, itemsK, isList, obj, loads);
    }
  }

  /**
   * What the accepting candidate writes, when the path is free: for a model every
   * value is replaced by its JSON parse, for bytes every upload by its contents,
   * and any other type keeps the values; without the list flag only the first of
   * them is written.
   */
  lemma AcceptedCandidateStores(key: string, hints: seq<PyTy>, k: nat, items: seq<FormItem>, isList: bool,
                                obj: Pending, loads: Loads)
    requires k < |hints| && items != [] && Split(key) !in obj && Accepts(hints[k], items, loads)
    ensures hints[k].PModel? ==>
      && JsonFrom(items, 0, loads).AllParsed?
      && (forall i :: 0 <= i < |items| ==> ParsedAt(items, JsonFrom(items, 0, loads).items, i, loads))
      && TryFrom(key, hints, k, items, isList, obj, loads)
           == Ok(obj[Split(key) := if isList then Many(JsonFrom(items, 0, loads).items) else One(JsonFrom(items, 0, loads).items[0])])
    ensures !isList && hints[k].PModel? ==>
      && LoadsItem(items[0], loads).Ok? && LoadsItem(items[0], loads).value.Some?
      && TryFrom(key, hints, k, items, isList, obj, loads)
           == Ok(obj[Split(key) := One(Parsed(LoadsItem(items[0], loads).value.value))])
    ensures hints[k].PBytes? ==>
      TryFrom(key, hints, k, items, isList, obj, loads)
        == Ok(obj[Split(key) := if isList then Many(ReadUploads(items)) else One(ReadUpload(items[0]))])
    ensures !hints[k].PModel? && !hints[k].PBytes? ==>
      TryFrom(key, hints, k, items, isList, obj, loads)
        == Ok(obj[Split(key) := if isList then Many(items) else One(items[0])])
  {
    if hints[k].PModel? {
      JsonFromShape(items, 0, loads);
      assert ParsedAt(items, JsonFrom(items, 0, loads).items, 0, loads);
    }
  }

  /**
   * The candidate loop succeeds exactly when the path is free and some candidate
   * takes the values after all earlier candidates were models whose passes failed;
   * that candidate is the first to take them, and `AcceptedCandidateStores` says
   * what it writes.
   */
  lemma {:induction false} TryFromSelects(key: string, hints: seq<PyTy>, j: nat, items: seq<FormItem>, isList: bool,
                                          obj: Pending, loads: Loads)
    requires j <= |hints| && items != []
    ensures TryFrom(key, hints, j, items, isList, obj, loads).Ok? <==>
      Split(key) !in obj &&
      exists k, itemsK :: j <= k < |hints| && FailedPasses(hints, j, k, items, itemsK, loads) && Accepts(hints[k], itemsK, loads)
    decreases |hints| - j
  {
    var r := TryFrom(key, hints, j, items, isList, obj, loads);
    TryFromWritesOnce(key, hints, j, items, isList, obj, loads);
    if j < |hints| {
      if Accepts(hints[j], items, loads) {
        assert FailedPasses(hints, j, j, items, items, loads);
        if Split(key) !in obj {
          AcceptedCandidateStores(key, hints, j, items, isList, obj, loads);
        }
      } else if JsonFrom(items, 0, loads).ParseFailed? {
        var mid := JsonFrom(items, 0, loads).items;
        TryFromSelects(key, hints, j + 1, mid, isList, obj, loads);
        if r.Ok? {
          var k, itemsK :| j + 1 <= k < |hints| && FailedPasses(hints, j + 1, k, mid, itemsK, loads)
                           && Accepts(hints[k], itemsK, loads);
          assert FailedPasses(hints, j, k, items, itemsK, loads);
        }
        if Split(key) !in obj && exists k, itemsK :: j <= k < |hints| && FailedPasses(hints, j, k, items, itemsK, loads)
                                                   && Accepts(hints[k], itemsK, loads) {
          var k, itemsK :| j <= k < |hints| && FailedPasses(hints, j, k, items, itemsK, loads) && Accepts(hints[k], itemsK, loads);
          assert k != j;
          assert FailedPasses(hints, j + 1, k, mid, itemsK, loads);
        }
      } else {
        forall k, itemsK | j <= k < |hints| && FailedPasses(hints, j, k, items, itemsK, loads)
          ensures !Accepts(hints[k], itemsK, loads)
        {
          assert k == j;
        }
      }
    }
  }

  /**
   * The usual case of a nested model field: when the first candidate is a model
   * and every value parses as JSON, the first value is text and its parse is
   * what is written.
   */
  lemma ModelFirstStoresParse(model: PyTy, entry: FormEntry, obj: Pending, loads: Loads, hints: seq<PyTy>)
    requires !Skip(entry.values) && Split(entry.key) !in obj
    requires Subtypes(model, Split(entry.key)) == Candidates(hints) && hints != [] && hints[0].PModel?
    requires JsonFrom(AsItems(entry.values), 0, loads).AllParsed?
    ensures entry.values[0].Text? && loads(StrInput(entry.values[0].text)).Some?
    ensures KeyStep(model, entry, obj, loads)
      == Ok(obj[Split(entry.key) := One(Parsed(loads(StrInput(entry.values[0].text)).value))])
  {
    var items := AsItems(entry.values);
    AcceptedCandidateStores(entry.key, hints, 0, items, false, obj, loads);
    assert items[0] == Raw(entry.values[0]);
  }

  /**
   * The rewrite of a failed JSON pass is what the next candidate sees. With two
   * model candidates and two values where only the first parses, the second pass
   * starts from the first value's parse; when that parse is not a JSON string,
   * `json.loads` is handed a non-string and the key fails with a TypeError.
   */
  lemma RewritePersists(model: PyTy, key: string, a: string, b: string, obj: Pending, loads: Loads, m1: PyTy, m2: PyTy)
    requires m1.PModel? && m2.PModel? && a != ""
    requires Subtypes(model, Split(key)) == Candidates([m1, m2])
    requires loads(StrInput(a)).Some? && loads(StrInput(b)).None?
    ensures var ja := loads(StrInput(a)).value;
      KeyStep(model, FormEntry(key, [Text(a), Text(b)]), obj, loads)
        == TryFrom(key, [m1, m2], 1, [Parsed(ja), Raw(Text(b))], false, obj, loads)
    ensures !loads(StrInput(a)).value.JString? ==>
      KeyStep(model, FormEntry(key, [Text(a), Text(b)]), obj, loads).Err?
      && KeyStep(model, FormEntry(key, [Text(a), Text(b)]), obj, loads).error.TypeErrorRaised?
  {
    var ja := loads(StrInput(a)).value;
    var items := AsItems([Text(a), Text(b)]);
    assert items == [Raw(Text(a)), Raw(Text(b))];
    var items' := items[0 := Parsed(ja)];
    assert items' == [Parsed(ja), Raw(Text(b))];
    assert JsonFrom(items, 0, loads) == JsonFrom(items', 1, loads) == ParseFailed(items');
    if !ja.JString? {
      assert JsonFrom(items', 0, loads).LoadsRaised?;
    }
  }

  /**
   * The outcome of the form path: it succeeds exactly when every key folds and the
   * assembled object validates, and then returns the validated instance; a
   * validation failure surfaces pydantic's own error list; every other failure is
   * the fold's.
   */
  lemma ParseFormOutcome(model: PyTy, form: seq<FormEntry>, loads: Loads, validate: Validate)
    ensures var r := ParseForm(model, form, loads, validate);
      && (r.Ok? <==> FoldForm(model, form, loads).Ok? && validate(FoldForm(model, form, loads).value).Ok?)
      && (r.Ok? ==> r.value == validate(FoldForm(model, form, loads).value).value)
      && (FoldForm(model, form, loads).Ok? && validate(FoldForm(model, form, loads).value).Err? ==>
            r == Err(RequestValidation(validate(FoldForm(model, form, loads).value).error)))
      && (FoldForm(model, form, loads).Err? ==> r == Err(FoldForm(model, form, loads).error))
  {
  }

  /**
   * The text `abc` posted for the int field of a generated model: the key folds
   * to `{"count": "abc"}`, which pydantic rejects. The code as written then raises
   * an AttributeError, where the corrected path reports the validation errors.
   */
  lemma TextForIntFieldLost(loads: Loads, validate: Validate)
    requires validate(map[["count"] := One(Raw(Text("abc")))]).Err?
    ensures var model := PModel(0, "Request", [PyField("count", PInt, VNone)]);
      var form := [FormEntry("count", [Text("abc")])];
      && ParseFormAsWritten(model, form, loads, validate) == Err(AttributeErrorRaised("raw_errors"))
      && ParseForm(model, form, loads, validate)
           == Err(RequestValidation(validate(map[["count"] := One(Raw(Text("abc")))]).error))
  {
    var model := PModel(0, "Request", [PyField("count", PInt, VNone)]);
    var form := [FormEntry("count", [Text("abc")])];
    assert '.' !in "count";
    assert Split("count") == ["count"];
    assert Subtypes(model, ["count"]) == Subtypes(PInt, []) == Candidates([PInt]);
    FirstCandidateStoresFirstValue(model, form[0], map[], loads, [PInt]);
    assert FoldForm(model, form, loads) == FoldFrom(model, form, 1, map[["count"] := One(Raw(Text("abc")))], loads);
  }
}
