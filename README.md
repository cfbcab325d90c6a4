# predim set families: the decoding layer, in Dafny

This project models how predim builds a tree of set families from a parsed
JSON value. A set family is one of three kinds of node:

- a **Dag** node: an identity record, an ordered list of value records and a
  list of containment pairs of value names;
- a **Bool** node: an identity record only;
- a **Prod** node: an identity record and an ordered list of nested nodes.

`SetFamily.fromJson` reads the node's `type` string and dispatches to the
decoder of that kind; the Prod decoder decodes its `parts` recursively. The
shape checks the decoders rely on (`assertType`, `assertOptionalType`,
`assertSeq`, `assertSeqOfPairs`) and the identity record `IdInfo` with its
decoder come from `predim/common.py`.

Files and modules:

- `json.dfy` (`Json`): the parsed JSON tree `JsonVal` (null, bool, number,
  string, list, dict), the Python type of a value (`Kind`), and what Python's
  `isinstance(_, Sequence)`, `isinstance(_, Mapping)`, iteration and
  `dict.get` do on it. A string is a sequence whose items are its
  one-character strings, as in Python.
- `results.dfy` (`Results`): the `Error` datatype into which the Python
  exceptions are collapsed, `Result`, and `Collect`, which is a list
  comprehension whose element expression may raise.
- `common.dfy` (`Common`): the guards and `IdInfo`. `assertSeq` and
  `assertSeqOfPairs` are loops in the source. They are methods here
  (`AssertSeq`, `AssertSeqOfPairs`), each proved equal to a specification
  function (`CheckSeq`, `SeqOfPairs`). The pure decoders call those functions.
- `set_family.dfy` (`SetFamilies`): the `SetFamily` sum type, the decoders
  `FromJson`, `DagFromJson`, `BoolFromJson` and `ProdFromJson`, and lemmas
  about them.
- `set_family_encoding.dfy` (`SetFamilyEncoding`): an encoder `ToJson`. It is
  not in the source. It is the decoders' partner: decoding an encoded tree
  gives the tree back, and every decoded tree can be encoded.

The recursion `FromJson` → `ProdFromJson` → `FromJson` terminates. Each
recursive call is on an element of the node's `parts` list, which is
structurally smaller. When `parts` is a string, the call is on a
one-character string, which is not a mapping. The decreases measure is
(is-a-mapping, value).

The model follows the code. The code reads no `default` key on a Dag node
and does not reject duplicate value names, so the model does neither. An
unknown `type` string is a type error that carries the string.

## Model

| member | source | states |
|---|---|---|
| Common.AssertType | predim/common.py:10-14 | Succeeds exactly when the value has the expected type and then returns the value unchanged; otherwise fails with a type error naming the expected and the actual type |
| Common.AssertOptionalType | predim/common.py:17-21 | Succeeds exactly on None or a value of the expected type and returns it unchanged; every other value fails with an error naming both types |
| Common.FirstMismatch | predim/common.py:27-29 | The index the scan stops at: every earlier item has the expected type, and, unless it is the length, the item there does not |
| Common.CheckSeq | predim/common.py:24-30 | A non-sequence fails with "expected a Sequence". Otherwise the result is the input unchanged iff every item has the expected type. If not, the error carries the index and type of the first offending item |
| Common.AssertSeq | predim/common.py:24-30 | The early-exit scanning loop returns exactly what `CheckSeq` specifies |
| Common.PairOf | predim/common.py:37-39 | One element `x` of `assertSeqOfPairs`. Succeeds iff `assertSeq(x, t)` succeeds and `x` has exactly two items, and the pair is (first item, second item), both of type `t`. An `assertSeq` failure propagates. Fewer than two items gives "not enough values" with the count; more than two gives "too many values" |
| Common.SeqOfPairs | predim/common.py:33-40 | A non-sequence is rejected. Otherwise it succeeds iff every element unpacks to a pair. The output has the input's length, and pair i is (first, second) item of element i, both of type `t`. A failure carries the error of the first failing element |
| Common.AssertSeqOfPairs | predim/common.py:33-40 | The loop that appends one pair per element returns exactly what `SeqOfPairs` specifies |
| Common.IdInfoFromJson | predim/common.py:49-56 | A non-mapping fails the assertion, and a missing `name` is a KeyError. Then `name`, `label`, `text` and `link` are checked in that order, and the first that has the wrong type gives a type error naming its type ("Optional" for `text` and `link`). Success iff `name` is a string, `label` is absent or a string (so an explicit null is rejected), and `text` and `link` are absent, null or strings. `name` is copied. `label` defaults to `name`. `text` and `link` are None when absent or null and keep the string otherwise |
| Results.Collect | predim/setFamily.py:37 | A list comprehension that may raise: succeeds iff every element does, with the same length and element i the value of element i; otherwise fails with the error of the first failing element |
| SetFamilies.FromJson | predim/setFamily.py:12-22 | A non-mapping fails the assertion, a missing `type` is a KeyError, and a non-string `type` is a type error. A string other than "dag", "bool" or "prod" is an error carrying that string. For "dag", "bool" and "prod" the result is exactly that of the Dag, Bool or Prod decoder on the same object. On success the variant matches `type`, and the node's info is `IdInfo.fromJson` of the same object |
| SetFamilies.ValuesFromJson | predim/setFamily.py:35-37 | `values` must be a sequence that is not a string. It succeeds iff every element decodes as an `IdInfo`. The result has the same length and order, and element i is `IdInfo.fromJson` of element i. A failure is the error of the first failing element |
| SetFamilies.ContainmentsFromJson | predim/setFamily.py:38 | Succeeds iff `assertSeqOfPairs(obj, str)` does, with the same length and order, and pair i holds the strings of that call's pair i; a failure is that call's error |
| SetFamilies.DagFromJson | predim/setFamily.py:31-39 | Checks run in order: mapping, info, `values` key, values, `containments` key, containments. The first failing check gives the error. Success iff all of them pass, and the node is then exactly (info, decoded values, decoded containment pairs) |
| SetFamilies.BoolFromJson | predim/setFamily.py:42-49 | Succeeds iff the info decodes, and the node then carries that info and nothing else; otherwise it fails with the info's error |
| SetFamilies.ProdFromJson | predim/setFamily.py:57-64 | Checks run in order: mapping, info, `parts` key, `parts` is a sequence (strings included). The first failing check gives the error. On success the node is a Prod with the object's info and one part per item of `parts`. The recursion terminates |
| SetFamilies.ProdDecodesPartwise | predim/setFamily.py:61-64 | Given a well-formed info and a sequence `parts`, the Prod node decodes iff every item decodes. Part i is then the decode of item i. Otherwise the node fails with the error of the first failing item |
| SetFamilies.ExtraKeysIgnored | predim/setFamily.py:12-64 | Two mappings that agree on the keys the decoders read (`type`, `name`, `label`, `text`, `link`, `values`, `containments`, `parts`) decode to the same node and the same info |
| SetFamilies.StringContainmentEntry | predim/common.py:37-38 | A string is accepted as a containment entry iff it has exactly two characters, and it then gives the pair of its two characters (so "ab" gives ("a", "b")). Shorter or longer strings fail the unpacking |
| SetFamilies.StringContainments | predim/common.py:33-40 | A string as the whole `containments` value is a sequence. The empty string gives no pairs. Any other string fails with "not enough values (got 1)" on its first character |
| SetFamilies.StringParts | predim/setFamily.py:61-63 | A string as `parts` is a sequence. The empty string gives a Prod with no parts. Any other string fails, because its first character is not a mapping |
| SetFamilyEncoding.IdInfoRoundTrip | predim/common.py:49-56 | An identity record whose label is set decodes back from its encoded entries, whatever other keys sit beside them |
| SetFamilyEncoding.ValuesRoundTrip | predim/setFamily.py:35-37 | A list of value records decodes back from its encoding as a list of mappings |
| SetFamilyEncoding.ContainmentsRoundTrip | predim/setFamily.py:38 | A list of name pairs decodes back from its encoding as two-element lists of strings |
| SetFamilyEncoding.DagRoundTrip | predim/setFamily.py:31-39 | A Dag node decodes back from its encoding |
| SetFamilyEncoding.RoundTrip | predim/setFamily.py:12-64 | Any tree whose labels are all set decodes back from its encoding, by induction through the Prod parts |
| SetFamilyEncoding.DecodedIsEncodable | predim/common.py:53-56 | Every tree the decoder produces has every label set, in its own info, in its Dag values and in all nested parts |
| SetFamilyEncoding.DecodeEncodeDecode | predim/setFamily.py:12-64 | Encoding any decoded tree and decoding it again gives the same tree |

## Left out

- `loadSetFamilyFromFile` (predim/setFamily.py:67-70) is not modelled. It opens a file and parses JSON text, so it is I/O plus parsing. The model starts from an already-parsed `JsonVal`.
- Python's exception classes and message texts are collapsed into one `Error` datatype. It keeps the index, the types, the missing key or the unknown type string where the message carries them. A bare `assert` becomes `AssertionFailed`.
- Numbers carry no value. `int` and `float` are one kind, because the decoders never look inside a number.
- AssertType: `isinstance` is modelled as "has exactly this kind", so Python's `bool` being a subclass of `int` is not reflected. The decoders only ever pass `str`.
- A JSON object is a Dafny `map`, so key order is not modelled. The decoders never depend on key order.
- Sequences are only lists and strings, which are the sequences a JSON parser produces. Tuples and other Python `Sequence` types never occur in a parsed JSON value.
- Building an `IdInfo` directly with a null label (predim/common.py:43-47) is representable, since `labelStr` is an `Option`. Only the decoder builds records in this model, and it always sets the label. `label` is a Dafny keyword, so the field is called `labelStr`.
- The constructors of the three node classes (predim/setFamily.py:7-9, 26-29, 43-44, 53-55) only assign fields once. They are the constructors of the `SetFamily` datatype.
- `validateInput`, `intersect`, `contains`, Dag default values and duplicate-name checks are not modelled. The two source files (predim/setFamily.py, predim/common.py) define none of them.
- FromJson: Python stops with a RecursionError when `parts` nest deeper than the interpreter's recursion limit (1000 frames by default, and each level takes several). The model decodes trees of any depth, and so does `RoundTrip`. A stack limit belongs to the runtime, not to the decoding rules.
- Strings are Dafny `string`s, whose characters are Unicode scalar values. A parsed JSON string holding a lone surrogate (such as `"\ud800"`) is a valid Python `str` but cannot be represented, so such inputs are outside the model. Everything the decoders do with strings (type checks, one-character items, comparison with "dag", "bool" and "prod") is the same for every other string.
