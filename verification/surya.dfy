/** The adapter that turns a Surya OCR result into the flat field map the
    rest of the pipeline reads: ten vehicle fields copied with a default,
    four metadata entries, and every entry left at '' or 0 deleted. */
module Surya {
  import opened Js

  /** The vehicle fields copied with the default ''. */
  const CopiedText: set<string> := {
    "license_plate", "vehicle_model", "chassis_number", "owner_name", "registered_address",
    "manufacturing_date", "initial_registration_date", "fuel_type"}

  /** The vehicle fields copied with the default 0. */
  const CopiedNumber: set<string> := {"gross_weight", "engine_displacement"}

  /** The keys of the object literal, in the order it writes them (the
      order in which `Object.keys` visits them). */
  const SuryaKeys: seq<string> := [
    "license_plate", "vehicle_model", "chassis_number", "owner_name", "registered_address",
    "manufacturing_date", "initial_registration_date", "gross_weight", "fuel_type",
    "engine_displacement", "ocr_confidence", "raw_text", "processing_method", "total_lines_detected"]

  /** `suryaResult.structured_fields || {}`, as far as property reads go. */
  function StructuredFields(result: Object): Object {
    Spread(Or(Get(result, "structured_fields"), Obj(map[])))
  }

  /** The value the object literal writes under key `k`. */
  function Entry(result: Object, k: string): JsValue {
    var f := StructuredFields(result);
    if k in CopiedText then Or(Get(f, k), Str(""))
    else if k in CopiedNumber then Or(Get(f, k), IntNum(0))
    else if k == "ocr_confidence" then Or(Get(result, "confidence"), Str("high"))
    else if k == "raw_text" then Or(Get(result, "raw_text"), Str(""))
    else if k == "processing_method" then Str("surya-ocr")
    else Or(Get(result, "total_lines"), IntNum(0))
  }

  /** `v === '' || v === 0` */
  predicate Blank(v: JsValue) {
    v == Str("") || v == IntNum(0)
  }

  /** The object `mapSuryaResultToFields` returns: the literal's entries
      that are neither '' nor 0. Every key is one of the literal's, and no
      value is '' or 0. */
  function SuryaFields(result: Object): (r: Object)
    ensures forall k :: k in r ==> k in SuryaKeys && r[k] != Str("") && r[k] != IntNum(0)
  {
    map k | k in SuryaKeys && !Blank(Entry(result, k)) :: Entry(result, k)
  }

  /** The literal over `keys` after the delete loop has visited the first
      `i` of them. */
  function Visited(result: Object, keys: seq<string>, i: nat): Object
    requires i <= |keys|
  {
    map k | k in keys && (k in keys[..i] ==> !Blank(Entry(result, k))) :: Entry(result, k)
  }

  /** One turn of the delete loop. */
  lemma VisitedStep(result: Object, keys: seq<string>, i: nat)
    requires i < |keys|
    ensures Visited(result, keys, i + 1)
      == if Blank(Get(Visited(result, keys, i), keys[i])) then Visited(result, keys, i) - {keys[i]} else Visited(result, keys, i)
  {
    assert keys[..i + 1] == keys[..i] + [keys[i]];
  }

  /** `mapSuryaResultToFields`: builds the literal, then deletes, key by
      key, every entry that is '' or 0. */
  method MapSuryaResultToFields(result: Object) returns (mapped: Object)
    ensures mapped == SuryaFields(result)
  {
    var keys := SuryaKeys;
    mapped := map k | k in keys :: Entry(result, k);
    assert mapped == Visited(result, keys, 0);
    for i := 0 to |keys|
      invariant mapped == Visited(result, keys, i)
    {
      var key := keys[i];
      VisitedStep(result, keys, i);
      if Get(mapped, key) == Str("") || Get(mapped, key) == IntNum(0) {
        mapped := mapped - {key};
      }
    }
    assert keys[..|keys|] == keys;
  }

  /** A vehicle field is in the output exactly when the structured field is
      truthy, and then with that very value. */
  lemma SuryaCopies(result: Object, k: string)
    requires k in CopiedText || k in CopiedNumber
    ensures k in SuryaFields(result) <==> Truthy(Get(StructuredFields(result), k))
    ensures k in SuryaFields(result) ==> SuryaFields(result)[k] == Get(StructuredFields(result), k)
  {
    assert k in SuryaKeys;
  }

  /** The metadata keys are not vehicle fields. */
  lemma MetadataKeysApart()
    ensures "processing_method" !in CopiedText && "processing_method" !in CopiedNumber
    ensures "ocr_confidence" !in CopiedText && "ocr_confidence" !in CopiedNumber
    ensures "processing_method" != "ocr_confidence" && "processing_method" != "raw_text"
  {
  }

  /** The processing method is always 'surya-ocr' and the confidence
      defaults to 'high'. */
  lemma SuryaMetadata(result: Object)
    ensures "processing_method" in SuryaFields(result) && SuryaFields(result)["processing_method"] == Str("surya-ocr")
    ensures "ocr_confidence" in SuryaFields(result)
    ensures SuryaFields(result)["ocr_confidence"] == Or(Get(result, "confidence"), Str("high"))
  {
    MetadataKeysApart();
    assert SuryaKeys[12] == "processing_method" && SuryaKeys[10] == "ocr_confidence";
  }

  /** Without structured fields no vehicle field appears. */
  lemma SuryaNoStructured(result: Object)
    requires !Truthy(Get(result, "structured_fields"))
    ensures forall k :: k in SuryaFields(result) ==> k !in CopiedText && k !in CopiedNumber
  {
  }
}
