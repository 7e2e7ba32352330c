# NUT to InfluxDB exporter: the record builder

The exporter polls a Network UPS Tools (NUT) server for a UPS's variables and
writes them to InfluxDB as one point per cycle. This project models the part
that turns the snapshot into that point, in `docker/nut-influxdb-exporter.py`:

- `convert_to_type` is modelled by the function `Coercion.ConvertToType`. It reads a
  string as an int if it can, else as a float if it can, else keeps the
  string. Python's `int()` and `float()` are modelled by the functions
  `Coercion.ParseInt` and `Coercion.ParseFloat` over decimal grammars.
  Field values are the sum type `Coercion.FieldValue = Int | Flt | Str`.
- `construct_object` is modelled by the method `Exporter.ConstructObject`. It
  makes one pass over the snapshot (`map<string, string>`) and drops the remove
  keys. It copies the tag keys, uncoerced, into `tags`, which starts as
  `{host: HOSTNAME}`, and coerces every other key into `fields`. It then stores
  `watts = nominal * 0.01 * ups.load` and returns a batch of one `ups_status`
  record.
- The method is proved equal to the specification function `Exporter.Build`.
  The lemmas state what the built record promises: how keys are sorted,
  raw tags, the host tag, field values, the power value, and exactly when and
  how the build fails.
- The module globals `HOSTNAME` and `NUT_WATTS` become the parameters `host` and
  `wattsOverride: Option<string>`. As in the source's truthiness test, an empty
  string counts as unset.
- Python's `KeyError`, `ValueError` and `TypeError` become the `Failure` arm
  of a `Result` that carries `Exporter.BuildError`.
- `REMOVE_KEYS` and `TAG_KEYS` are Python lists used only for membership, so
  they are modelled as sets.

Files: `wrappers.dfy` (Option, Result), `coercion.dfy` (parsing and
`convert_to_type`), `exporter.dfy` (`construct_object`).

Behaviour of the code worth knowing:

- The build fails whenever the power computation cannot be done. A missing
  `ups.realpower.nominal` (with no override) or `ups.load` raises `KeyError`.
  An override that is not a number raises `ValueError` when it is read as a
  float. A non-numeric `ups.realpower.nominal` raises `ValueError`. A
  non-numeric `ups.load` raises `TypeError` (float times str). Each error is
  modelled with its own kind (`Exporter.BuildErrors`).
- The `tags` dictionary is seeded with `host` before the loop stores the tag
  values. So a snapshot key `host` that is listed in the tag keys overwrites
  the `host` tag. With the shipped `TAG_KEYS` this cannot happen
  (`Exporter.ShippedHostTag`).
- A snapshot key named `host` that is not a tag key becomes a field, and the
  `host` tag is still set. A snapshot key named `watts` that is a field key is
  overwritten by the computed power. A `watts` key that is a tag key stays in
  `tags`, and the computed `watts` also appears in `fields`. So the "exactly
  one of dropped, tag, field" partition holds for every snapshot key other
  than these two (`Exporter.BuildSortsEveryKey`).

## Model

| member | source | states |
|---|---|---|
| `Coercion.ParseIntOfShowInt` | docker/nut-influxdb-exporter.py:35-37 | `int()` reads back every printed integer: `ParseInt(str(n)) == n` for all n, negatives included |
| `Coercion.ConvertShowInt` | docker/nut-influxdb-exporter.py:35-37 | integer parsing is tried first: a printed integer is coerced to that same `Int`, never to a float |
| `Coercion.IntLiteralIsFloatLiteral` | docker/nut-influxdb-exporter.py:35-41 | every string `int()` accepts is also accepted by `float()`, with the same value |
| `Coercion.PlainFloatLiteralIsIntLiteral` | docker/nut-influxdb-exporter.py:35-41 | a string `float()` accepts that has no '.', 'e' or 'E' is also accepted by `int()` |
| `Coercion.ConvertPrefersInt` | docker/nut-influxdb-exporter.py:35-41 | a number written without '.', 'e' or 'E' is coerced to `Int`, never to `Flt` |
| `Coercion.FloatOfConvert` | docker/nut-influxdb-exporter.py:33-43 | coercion keeps the number: `float(convert_to_type(s)) == float(s)` for every string, including the failing case |
| `Coercion.ConvertFallsBackToString` | docker/nut-influxdb-exporter.py:42-43 | coercion never fails: the result is a string exactly when `float()` rejects the input, and then it is the input unchanged |
| `Coercion.IntExamples` | docker/nut-influxdb-exporter.py:35-37 | "42" becomes the int 42 and "-7" the int -7 |
| `Coercion.DecimalExample` | docker/nut-influxdb-exporter.py:39-41 | "3.14" is not an int and becomes the float 3.14 |
| `Coercion.ExponentExample` | docker/nut-influxdb-exporter.py:39-41 | "1e3" is not an int and becomes the float 1000.0 |
| `Coercion.WordExample` | docker/nut-influxdb-exporter.py:42-43 | "on" is neither and stays the string "on" |
| `Exporter.ConstructObject` | docker/nut-influxdb-exporter.py:46-76 | the in-place loop over the snapshot, the `watts` update and the batch it returns give exactly `Build`'s record, or `Build`'s error |
| `Exporter.FieldsOfInsert` | docker/nut-influxdb-exporter.py:58-63 | one more snapshot entry adds its coerced value to `fields` exactly when the key is neither removed nor a tag key, and changes nothing else |
| `Exporter.TagsOfInsert` | docker/nut-influxdb-exporter.py:58-61 | one more snapshot entry adds its raw value to `tags` exactly when the key is a tag key and not removed, and changes nothing else |
| `Exporter.BuildKeySets` | docker/nut-influxdb-exporter.py:55-76 | on success: one record named `ups_status`, tag keys = {host} ∪ (snapshot − remove) ∩ tag keys, field keys = (snapshot − remove − tag keys) ∪ {watts} |
| `Exporter.BuildSortsEveryKey` | docker/nut-influxdb-exporter.py:58-63 | each snapshot key (other than `host`, `watts`) is dropped if a remove key, else a tag if a tag key, else a field, and lands in no other place |
| `Exporter.BuildTagsAreRaw` | docker/nut-influxdb-exporter.py:60-61 | every kept tag key maps to the snapshot's original string, and every tag except `host` comes from the snapshot unchanged |
| `Exporter.BuildHostTag` | docker/nut-influxdb-exporter.py:56-61 | `tags['host']` is always present: it is the supplied host unless a kept snapshot key `host` is a tag key |
| `Exporter.ShippedClassification` | docker/nut-influxdb-exporter.py:27-30 | the shipped remove and tag lists are disjoint and contain none of `host`, `ups.realpower.nominal`, `ups.load`, `watts` |
| `Exporter.ShippedHostTag` | docker/nut-influxdb-exporter.py:29-30 | with the shipped tag keys, `tags['host']` equals the supplied host for every snapshot |
| `Exporter.BuildFieldValues` | docker/nut-influxdb-exporter.py:62-67 | every field other than `watts` is the coerced snapshot value; `watts` is a float, overwriting a snapshot `watts` field |
| `Exporter.BuildSucceedsIff` | docker/nut-influxdb-exporter.py:65-67 | the build succeeds iff `ups.load` is a kept, numeric field and the nominal wattage resolves (a numeric override if set, else a kept numeric `ups.realpower.nominal`) |
| `Exporter.BuildErrors` | docker/nut-influxdb-exporter.py:65-67 | which exception escapes, in evaluation order: ValueError for a bad override, KeyError/ValueError for a missing/non-numeric nominal, KeyError/TypeError for a missing/non-numeric load |
| `Exporter.BuildWatts` | docker/nut-influxdb-exporter.py:65-67 | on success `fields['watts']` is the float nominal × 0.01 × load, with the nominal from the override when set, else from the snapshot, both read as by `float()` of the raw strings |
| `Exporter.OverrideIgnoresNominal` | docker/nut-influxdb-exporter.py:65-66 | with the override set, the power (or its error) is the same whatever the snapshot's `ups.realpower.nominal` is, and whether it is present at all |
| `Exporter.ExampleFields` | docker/nut-influxdb-exporter.py:58-63 | a sample snapshot with the shipped lists keeps exactly nominal 900 and load 50 as int fields |
| `Exporter.ExampleTags` | docker/nut-influxdb-exporter.py:56-61 | the same snapshot's tags are exactly `host` and `device.model` |
| `Exporter.BuildExample` | docker/nut-influxdb-exporter.py:46-76 | the whole record for the sample snapshot, with `watts` = 900 × 0.01 × 50 = 450.0 |
| `Exporter.BuildExampleWithOverride` | docker/nut-influxdb-exporter.py:65-67 | with override "500" the same snapshot gives `watts` = 250.0: the snapshot's 900 is ignored |

## Left out

- `main_loop` (the InfluxDB client, the NUT network fetch, the synchronous write, the sleep, and the catch-all that prints a traceback and exits) is I/O around foreign libraries. The snapshot is a parameter, and the build's error is returned rather than ending the process.
- Reading the environment and the verbose printing at start-up: process configuration only. `HOSTNAME` and `WATTS` arrive as parameters.
- Python's full `int()`/`float()` grammars are not modelled: surrounding whitespace, `_` digit separators, non-ASCII digits, and `inf`/`nan`/`infinity`. Such strings are treated as non-numeric here, so they stay strings. Python 3.11 and later also limit `int()` of a string to 4300 digits: a longer digit string makes `int()` raise `ValueError`, and `float()` then returns `inf`. The model has no such limit and coerces the string to an `Int`.
- IEEE-754 doubles: a float is the exact rational its literal denotes, and `watts` is computed over exact reals. So rounding, overflow to infinity and `OverflowError` are not modelled.
- Dictionary insertion order: `fields` and `tags` are maps, and the loop visits the snapshot's keys in an arbitrary order. Keys are distinct, so the final maps do not depend on the order.
- The text of Python's exception messages: an error carries only its kind and the offending key or string.
