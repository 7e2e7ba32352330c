/** The record builder (`construct_object`): sorts a flat snapshot of UPS
    variables into dropped keys, string tags and coerced fields, adds the
    derived `watts` field, and wraps the result as a one-record batch for the
    metrics store.

    The module globals the source reads (`HOSTNAME`, `NUT_WATTS`) are the
    parameters `host` and `wattsOverride`. */
module Exporter {
  import opened Wrappers
  import opened Coercion

  const MEASUREMENT: string := "ups_status"
  const HOST_TAG: string := "host"
  const NOMINAL_KEY: string := "ups.realpower.nominal"
  const LOAD_KEY: string := "ups.load"
  const WATTS_KEY: string := "watts"

  /** Variables that are dropped as superfluous. */
  const REMOVE_KEYS: set<string> :=
    {"driver.version.internal", "driver.version.usb", "ups.beeper.status",
     "driver.name", "battery.mfr.date"}

  /** Variables that are categorical metadata and become tags. */
  const TAG_KEYS: set<string> :=
    {"battery.type", "device.model", "device.serial", "driver.version",
     "driver.version.data", "device.mfr", "device.type", "ups.mfr", "ups.model",
     "ups.productid", "ups.serial", "ups.vendorid"}

  /** The exceptions the source lets escape while building a record. */
  datatype BuildError =
    | KeyError(key: string)     // a dictionary lookup of a missing key
    | ValueError(text: string)  // `float()` of a string that is not a number
    | TypeError(key: string)    // a float multiplied by a field that is a string

  /** One point for the metrics store. */
  datatype Record = Record(measurement: string, fields: map<string, FieldValue>, tags: map<string, string>)

  // ---------------------------------------------------------------------------
  // Specification of `construct_object`.

  /** The override counts as set only when it is present and non-empty (Python truthiness). */
  predicate OverrideSet(wattsOverride: Option<string>)
  {
    wattsOverride.Some? && wattsOverride.value != ""
  }

  /** Keys of the snapshot that survive as fields. */
  predicate IsField(data: map<string, string>, removeKeys: set<string>, tagKeys: set<string>, k: string)
  {
    k in data && k !in removeKeys && k !in tagKeys
  }

  /** The tags after the loop: `host`, then every kept snapshot key that is a tag key. */
  function TagsOf(data: map<string, string>, removeKeys: set<string>, tagKeys: set<string>, host: string): map<string, string>
  {
    map[HOST_TAG := host] + map k | k in data && k !in removeKeys && k in tagKeys :: data[k]
  }

  /** The fields after the loop: every other kept snapshot key, coerced. */
  function FieldsOf(data: map<string, string>, removeKeys: set<string>, tagKeys: set<string>): map<string, FieldValue>
  {
    map k | k in data && IsField(data, removeKeys, tagKeys, k) :: ConvertToType(data[k])
  }

  /** The nominal wattage: the override read as a float when it is set, otherwise the
      `ups.realpower.nominal` field read as a float. */
  function NominalWatts(fields: map<string, FieldValue>, wattsOverride: Option<string>): Result<real, BuildError>
  {
    if OverrideSet(wattsOverride) then
      match ParseFloat(wattsOverride.value)
      case None => Failure(ValueError(wattsOverride.value))
      case Some(w) => Success(w)
    else if NOMINAL_KEY !in fields then
      Failure(KeyError(NOMINAL_KEY))
    else
      match FloatOf(fields[NOMINAL_KEY])
      case None => Failure(ValueError(fields[NOMINAL_KEY].s))
      case Some(w) => Success(w)
  }

  /** Instantaneous power from the nominal wattage and the load percentage. */
  function Watts(nominal: real, loadPercent: real): real
  {
    nominal * 0.01 * loadPercent
  }

  /** The power draw: nominal wattage times 0.01 times the `ups.load` field; a float
      times a string field is a type error. */
  function PowerDraw(fields: map<string, FieldValue>, wattsOverride: Option<string>): Result<real, BuildError>
  {
    match NominalWatts(fields, wattsOverride)
    case Failure(e) => Failure(e)
    case Success(nominal) =>
      if LOAD_KEY !in fields then
        Failure(KeyError(LOAD_KEY))
      else
        match fields[LOAD_KEY]
        case Int(n) => Success(Watts(nominal, n as real))
        case Flt(x) => Success(Watts(nominal, x))
        case Str(_) => Failure(TypeError(LOAD_KEY))
  }

  /** What `construct_object` returns, or the exception it raises. */
  function Build(data: map<string, string>, removeKeys: set<string>, tagKeys: set<string>,
                 host: string, wattsOverride: Option<string>): Result<seq<Record>, BuildError>
  {
    var fields := FieldsOf(data, removeKeys, tagKeys);
    match PowerDraw(fields, wattsOverride)
    case Failure(e) => Failure(e)
    case Success(w) =>
      Success([Record(MEASUREMENT, fields[WATTS_KEY := Flt(w)], TagsOf(data, removeKeys, tagKeys, host))])
  }

  /** Adding one snapshot entry adds at most one field: the coerced value, when the key is a field key. */
  lemma FieldsOfInsert(data: map<string, string>, removeKeys: set<string>, tagKeys: set<string>, k: string, v: string)
    ensures FieldsOf(data[k := v], removeKeys, tagKeys) ==
            if k !in removeKeys && k !in tagKeys then FieldsOf(data, removeKeys, tagKeys)[k := ConvertToType(v)]
            else FieldsOf(data, removeKeys, tagKeys)
  {
  }

  /** Adding one snapshot entry adds at most one tag: the raw value, when the key is a tag key. */
  lemma TagsOfInsert(data: map<string, string>, removeKeys: set<string>, tagKeys: set<string>, host: string, k: string, v: string)
    ensures TagsOf(data[k := v], removeKeys, tagKeys, host) ==
            if k !in removeKeys && k in tagKeys then TagsOf(data, removeKeys, tagKeys, host)[k := v]
            else TagsOf(data, removeKeys, tagKeys, host)
  {
  }

  // ---------------------------------------------------------------------------
  // `construct_object` itself.

  /** Builds the record in place: one pass over the snapshot fills `tags` and
      `fields`, then `watts` is computed and stored. */
  method ConstructObject(data: map<string, string>, removeKeys: set<string>, tagKeys: set<string>,
                         host: string, wattsOverride: Option<string>)
    returns (result: Result<seq<Record>, BuildError>)
    ensures result == Build(data, removeKeys, tagKeys, host, wattsOverride)
  {
    var fields: map<string, FieldValue> := map[];
    var tags: map<string, string> := map[HOST_TAG := host];
    var todo := data.Keys;
    assert data - todo == map[];
    while todo != {}
      invariant todo <= data.Keys
      invariant fields == FieldsOf(data - todo, removeKeys, tagKeys)
      invariant tags == TagsOf(data - todo, removeKeys, tagKeys, host)
    {
      var k :| k in todo;
      var v := data[k];
      assert data - (todo - {k}) == (data - todo)[k := v];
      FieldsOfInsert(data - todo, removeKeys, tagKeys, k, v);
      TagsOfInsert(data - todo, removeKeys, tagKeys, host, k, v);
      if k !in removeKeys {
        if k in tagKeys {
          tags := tags[k := v];
        } else {
          fields := fields[k := ConvertToType(v)];
        }
      }
      todo := todo - {k};
    }
    assert data - todo == data;

    var watts := PowerDraw(fields, wattsOverride);
    if watts.Failure? {
      return Failure(watts.error);
    }
    fields := fields[WATTS_KEY := Flt(watts.value)];
    result := Success([Record(MEASUREMENT, fields, tags)]);
  }

  // ---------------------------------------------------------------------------
  // What the built record promises.

  /** The nominal wattage can be resolved: from the override when it is set,
      otherwise from a numeric `ups.realpower.nominal` field. */
  predicate NominalResolves(data: map<string, string>, removeKeys: set<string>, tagKeys: set<string>,
                            wattsOverride: Option<string>)
  {
    if OverrideSet(wattsOverride) then ParseFloat(wattsOverride.value).Some?
    else IsField(data, removeKeys, tagKeys, NOMINAL_KEY) && ParseFloat(data[NOMINAL_KEY]).Some?
  }

  /** The load percentage can be resolved: `ups.load` is a numeric field. */
  predicate LoadResolves(data: map<string, string>, removeKeys: set<string>, tagKeys: set<string>)
  {
    IsField(data, removeKeys, tagKeys, LOAD_KEY) && ParseFloat(data[LOAD_KEY]).Some?
  }

  /** On success the result is a batch of one `ups_status` record whose tags are
      `host` plus the kept tag keys and whose fields are the other kept keys plus `watts`. */
  lemma BuildKeySets(data: map<string, string>, removeKeys: set<string>, tagKeys: set<string>,
                     host: string, wattsOverride: Option<string>)
    ensures Build(data, removeKeys, tagKeys, host, wattsOverride).Success? ==>
      (var batch := Build(data, removeKeys, tagKeys, host, wattsOverride).value;
      && |batch| == 1
      && batch[0].measurement == MEASUREMENT
      && batch[0].tags.Keys == {HOST_TAG} + (data.Keys - removeKeys) * tagKeys
      && batch[0].fields.Keys == (data.Keys - removeKeys - tagKeys) + {WATTS_KEY})
  {
  }

  /** Every snapshot key other than `host` and `watts` lands in exactly one place:
      dropped, a tag, or a field. */
  lemma BuildSortsEveryKey(data: map<string, string>, removeKeys: set<string>, tagKeys: set<string>,
                           host: string, wattsOverride: Option<string>, k: string)
    requires k in data && k != HOST_TAG && k != WATTS_KEY
    ensures Build(data, removeKeys, tagKeys, host, wattsOverride).Success? ==>
      (var rec := Build(data, removeKeys, tagKeys, host, wattsOverride).value[0];
      && (k in removeKeys ==> k !in rec.tags && k !in rec.fields)
      && (k !in removeKeys && k in tagKeys ==> k in rec.tags && k !in rec.fields)
      && (k !in removeKeys && k !in tagKeys ==> k !in rec.tags && k in rec.fields))
  {
  }

  /** Tags hold the snapshot's strings as they were: never coerced. */
  lemma BuildTagsAreRaw(data: map<string, string>, removeKeys: set<string>, tagKeys: set<string>,
                        host: string, wattsOverride: Option<string>)
    ensures Build(data, removeKeys, tagKeys, host, wattsOverride).Success? ==>
      (var tags := Build(data, removeKeys, tagKeys, host, wattsOverride).value[0].tags;
      && (forall k :: k in data && k !in removeKeys && k in tagKeys ==> k in tags && tags[k] == data[k])
      && (forall k :: k in tags && k != HOST_TAG ==> k in data && tags[k] == data[k]))
  {
  }

  /** The `host` tag is the supplied host, unless the snapshot itself carries a
      kept `host` variable that the tag keys name, which then overwrites it. */
  lemma BuildHostTag(data: map<string, string>, removeKeys: set<string>, tagKeys: set<string>,
                     host: string, wattsOverride: Option<string>)
    ensures Build(data, removeKeys, tagKeys, host, wattsOverride).Success? ==>
      (var tags := Build(data, removeKeys, tagKeys, host, wattsOverride).value[0].tags;
      && HOST_TAG in tags
      && tags[HOST_TAG] == if HOST_TAG in data && HOST_TAG !in removeKeys && HOST_TAG in tagKeys
                           then data[HOST_TAG] else host)
  {
  }

  /** The shipped classification: no key is both dropped and tagged, and none of
      `host`, `ups.realpower.nominal`, `ups.load` and `watts` is dropped or tagged. */
  lemma ShippedClassification()
    ensures REMOVE_KEYS !! TAG_KEYS
    ensures HOST_TAG !in REMOVE_KEYS + TAG_KEYS
    ensures NOMINAL_KEY !in REMOVE_KEYS + TAG_KEYS
    ensures LOAD_KEY !in REMOVE_KEYS + TAG_KEYS
    ensures WATTS_KEY !in REMOVE_KEYS + TAG_KEYS
  {
  }

  /** With the shipped tag keys no snapshot can overwrite the `host` tag. */
  lemma ShippedHostTag(data: map<string, string>, host: string, wattsOverride: Option<string>)
    ensures Build(data, REMOVE_KEYS, TAG_KEYS, host, wattsOverride).Success? ==>
      Build(data, REMOVE_KEYS, TAG_KEYS, host, wattsOverride).value[0].tags[HOST_TAG] == host
  {
    BuildHostTag(data, REMOVE_KEYS, TAG_KEYS, host, wattsOverride);
    ShippedClassification();
  }

  /** Every field except `watts` is the coerced snapshot value; a snapshot
      variable named `watts` is replaced by the computed power. */
  lemma BuildFieldValues(data: map<string, string>, removeKeys: set<string>, tagKeys: set<string>,
                         host: string, wattsOverride: Option<string>)
    ensures Build(data, removeKeys, tagKeys, host, wattsOverride).Success? ==>
      (var fields := Build(data, removeKeys, tagKeys, host, wattsOverride).value[0].fields;
      && (forall k :: k in fields && k != WATTS_KEY ==> k in data && fields[k] == ConvertToType(data[k]))
      && fields[WATTS_KEY].Flt?)
  {
  }

  /** The build fails exactly when the nominal wattage or the load cannot be resolved. */
  lemma BuildSucceedsIff(data: map<string, string>, removeKeys: set<string>, tagKeys: set<string>,
                         host: string, wattsOverride: Option<string>)
    ensures Build(data, removeKeys, tagKeys, host, wattsOverride).Success? <==>
            NominalResolves(data, removeKeys, tagKeys, wattsOverride) && LoadResolves(data, removeKeys, tagKeys)
  {
    var fields := FieldsOf(data, removeKeys, tagKeys);
    if IsField(data, removeKeys, tagKeys, NOMINAL_KEY) {
      assert fields[NOMINAL_KEY] == ConvertToType(data[NOMINAL_KEY]);
      FloatOfConvert(data[NOMINAL_KEY]);
    }
    if IsField(data, removeKeys, tagKeys, LOAD_KEY) {
      assert fields[LOAD_KEY] == ConvertToType(data[LOAD_KEY]);
      ConvertFallsBackToString(data[LOAD_KEY]);
    }
  }

  /** Which exception escapes: the nominal wattage is resolved before the load is read. */
  lemma BuildErrors(data: map<string, string>, removeKeys: set<string>, tagKeys: set<string>,
                    host: string, wattsOverride: Option<string>)
    ensures var r := Build(data, removeKeys, tagKeys, host, wattsOverride);
      && (OverrideSet(wattsOverride) && ParseFloat(wattsOverride.value).None? ==>
            r == Failure(ValueError(wattsOverride.value)))
      && (!OverrideSet(wattsOverride) && !IsField(data, removeKeys, tagKeys, NOMINAL_KEY) ==>
            r == Failure(KeyError(NOMINAL_KEY)))
      && (!OverrideSet(wattsOverride) && IsField(data, removeKeys, tagKeys, NOMINAL_KEY)
          && ParseFloat(data[NOMINAL_KEY]).None? ==>
            r == Failure(ValueError(data[NOMINAL_KEY])))
      && (NominalResolves(data, removeKeys, tagKeys, wattsOverride)
          && !IsField(data, removeKeys, tagKeys, LOAD_KEY) ==>
            r == Failure(KeyError(LOAD_KEY)))
      && (NominalResolves(data, removeKeys, tagKeys, wattsOverride)
          && IsField(data, removeKeys, tagKeys, LOAD_KEY) && ParseFloat(data[LOAD_KEY]).None? ==>
            r == Failure(TypeError(LOAD_KEY)))
  {
    var fields := FieldsOf(data, removeKeys, tagKeys);
    if IsField(data, removeKeys, tagKeys, NOMINAL_KEY) {
      assert fields[NOMINAL_KEY] == ConvertToType(data[NOMINAL_KEY]);
      FloatOfConvert(data[NOMINAL_KEY]);
      ConvertFallsBackToString(data[NOMINAL_KEY]);
    }
    if IsField(data, removeKeys, tagKeys, LOAD_KEY) {
      assert fields[LOAD_KEY] == ConvertToType(data[LOAD_KEY]);
      ConvertFallsBackToString(data[LOAD_KEY]);
    }
  }

  /** The derived power: nominal wattage (the override when set, else the
      snapshot's `ups.realpower.nominal`) times 0.01 times the load percentage. */
  lemma BuildWatts(data: map<string, string>, removeKeys: set<string>, tagKeys: set<string>,
                   host: string, wattsOverride: Option<string>)
    ensures Build(data, removeKeys, tagKeys, host, wattsOverride).Success? ==>
      && NominalResolves(data, removeKeys, tagKeys, wattsOverride)
      && LoadResolves(data, removeKeys, tagKeys)
      && var nominal := if OverrideSet(wattsOverride) then ParseFloat(wattsOverride.value).value
                        else ParseFloat(data[NOMINAL_KEY]).value;
         Build(data, removeKeys, tagKeys, host, wattsOverride).value[0].fields[WATTS_KEY]
           == Flt(Watts(nominal, ParseFloat(data[LOAD_KEY]).value))
  {
    BuildSucceedsIff(data, removeKeys, tagKeys, host, wattsOverride);
    if Build(data, removeKeys, tagKeys, host, wattsOverride).Failure? {
      return;
    }
    var fields := FieldsOf(data, removeKeys, tagKeys);
    PowerDrawValue(fields, wattsOverride);
    var w := PowerDraw(fields, wattsOverride).value;
    assert Build(data, removeKeys, tagKeys, host, wattsOverride).value[0].fields[WATTS_KEY] == Flt(w);
    var nominal := if OverrideSet(wattsOverride) then ParseFloat(wattsOverride.value).value
                   else ParseFloat(data[NOMINAL_KEY]).value;
    assert NominalWatts(fields, wattsOverride).value == nominal by {
      if !OverrideSet(wattsOverride) {
        assert fields[NOMINAL_KEY] == ConvertToType(data[NOMINAL_KEY]);
        FloatOfConvert(data[NOMINAL_KEY]);
      }
    }
    assert FloatOf(fields[LOAD_KEY]) == ParseFloat(data[LOAD_KEY]) by {
      assert fields[LOAD_KEY] == ConvertToType(data[LOAD_KEY]);
      FloatOfConvert(data[LOAD_KEY]);
    }
  }

  /** A computed power is the nominal wattage times 0.01 times the load read as a float. */
  lemma PowerDrawValue(fields: map<string, FieldValue>, wattsOverride: Option<string>)
    requires PowerDraw(fields, wattsOverride).Success?
    ensures NominalWatts(fields, wattsOverride).Success?
    ensures LOAD_KEY in fields && FloatOf(fields[LOAD_KEY]).Some?
    ensures PowerDraw(fields, wattsOverride).value
            == Watts(NominalWatts(fields, wattsOverride).value, FloatOf(fields[LOAD_KEY]).value)
  {
  }

  /** When the override is set, the snapshot's own nominal wattage plays no part
      in the power computation, whatever its value and whether it is present. */
  lemma OverrideIgnoresNominal(data: map<string, string>, removeKeys: set<string>, tagKeys: set<string>,
                               wattsOverride: Option<string>, nominal: string)
    requires OverrideSet(wattsOverride)
    ensures PowerDraw(FieldsOf(data[NOMINAL_KEY := nominal], removeKeys, tagKeys), wattsOverride)
         == PowerDraw(FieldsOf(data - {NOMINAL_KEY}, removeKeys, tagKeys), wattsOverride)
  {
    var with := FieldsOf(data[NOMINAL_KEY := nominal], removeKeys, tagKeys);
    var without := FieldsOf(data - {NOMINAL_KEY}, removeKeys, tagKeys);
    assert LOAD_KEY in with <==> LOAD_KEY in without;
    if LOAD_KEY in with {
      assert with[LOAD_KEY] == without[LOAD_KEY];
    }
  }

  /** The snapshot of the worked example below. */
  function ExampleSnapshot(): map<string, string>
  {
    map["driver.version.internal" := "1.2", NOMINAL_KEY := "900", LOAD_KEY := "50",
        "device.model" := "X1", "battery.mfr.date" := "2020"]
  }

  lemma ExampleFields()
    ensures FieldsOf(ExampleSnapshot(), REMOVE_KEYS, TAG_KEYS) == map[NOMINAL_KEY := Int(900), LOAD_KEY := Int(50)]
  {
    assert ConvertToType("900") == Int(900) by {
      assert DigitsValue("900") == 900 by { assert "900"[..2] == "90" && "90"[..1] == "9"; }
    }
    assert ConvertToType("50") == Int(50) by {
      assert DigitsValue("50") == 50 by { assert "50"[..1] == "5"; }
    }
  }

  lemma ExampleTags()
    ensures TagsOf(ExampleSnapshot(), REMOVE_KEYS, TAG_KEYS, "srv1") == map[HOST_TAG := "srv1", "device.model" := "X1"]
  {
  }

  /** A full snapshot run through the shipped classification: two variables are
      dropped, one is a tag, and the power is 900 * 0.01 * 50 = 450 watts. */
  lemma BuildExample()
    ensures Build(ExampleSnapshot(), REMOVE_KEYS, TAG_KEYS, "srv1", None)
         == Success([Record(MEASUREMENT,
                            map[NOMINAL_KEY := Int(900), LOAD_KEY := Int(50), WATTS_KEY := Flt(450.0)],
                            map[HOST_TAG := "srv1", "device.model" := "X1"])])
  {
    ExampleFields();
    ExampleTags();
  }

  /** The override wins over the snapshot's nominal wattage: 500 * 0.01 * 50 = 250 watts. */
  lemma BuildExampleWithOverride()
    ensures Build(ExampleSnapshot(), REMOVE_KEYS, TAG_KEYS, "srv1", Some("500"))
         == Success([Record(MEASUREMENT,
                            map[NOMINAL_KEY := Int(900), LOAD_KEY := Int(50), WATTS_KEY := Flt(250.0)],
                            map[HOST_TAG := "srv1", "device.model" := "X1"])])
  {
    ExampleFields();
    ExampleTags();
    assert ParseFloat("500") == Some(500.0) by {
      assert DigitsValue("500") == 500 by { assert "500"[..2] == "50" && "50"[..1] == "5"; }
      IntLiteralIsFloatLiteral("500");
    }
  }
}
