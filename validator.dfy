/**
 * The validation boundary of POST /score: `validate_input` checks the decoded
 * request body field by field, and the checked body is then read into a typed
 * product description.
 */
module Validator {
  import opened Wrappers
  import opened Json

  /** The Python types a required field is checked against with `isinstance`. */
  datatype Kind = Text | List | Numeric

  /** `isinstance(v, expected_type)`; Python's `bool` is a subclass of `int`. */
  predicate HasKind(v: Value, k: Kind)
  {
    match k
    case Text => v.Str?
    case List => v.Arr?
    case Numeric => v.Num? || v.Bool?
  }

  /** How Python prints the expected type inside the error message. */
  function TypeName(k: Kind): string
  {
    match k
    case Text => "<class 'str'>"
    case List => "<class 'list'>"
    case Numeric => "(<class 'int'>, <class 'float'>)"
  }

  /** The required fields, in the order the checks visit them. */
  const Fields: seq<(string, Kind)> := [
    ("product_name", Text),
    ("materials", List),
    ("weight_grams", Numeric),
    ("transport", Text),
    ("packaging", Text)
  ]

  const AllowedTransports: seq<string> := ["air", "rail", "sea", "road"]
  const AllowedPackaging: seq<string> := ["recyclable", "biodegradable", "non-recyclable"]

  function RequiredMessage(field: string): string
  {
    "'" + field + "' is required"
  }

  function TypeMessage(field: string, k: Kind): string
  {
    "'" + field + "' must be of type " + TypeName(k)
  }

  function ChoiceMessage(field: string, allowed: string): string
  {
    "'" + field + "' must be one of " + allowed
  }

  /** Python's rendering of the two allowed lists inside the messages. */
  const TransportMessage: string := ChoiceMessage("transport", "['air', 'rail', 'sea', 'road']")
  const PackagingMessage: string := ChoiceMessage("packaging", "['recyclable', 'biodegradable', 'non-recyclable']")

  /** The field is present and of its declared type. */
  predicate FieldOk(raw: map<string, Value>, f: (string, Kind))
  {
    f.0 in raw && HasKind(raw[f.0], f.1)
  }

  /** `msg` is the message for field `f` being absent or of the wrong type, and it is. */
  predicate FieldError(raw: map<string, Value>, f: (string, Kind), msg: string)
  {
    || (f.0 !in raw && msg == RequiredMessage(f.0))
    || (f.0 in raw && !HasKind(raw[f.0], f.1) && msg == TypeMessage(f.0, f.1))
  }

  /** The presence/type loop: the first field that is missing or mistyped decides the message. */
  function CheckFields(raw: map<string, Value>, fs: seq<(string, Kind)>): (r: Option<string>)
    ensures r.None? <==> forall i :: 0 <= i < |fs| ==> FieldOk(raw, fs[i])
    ensures r.Some? ==> exists i :: 0 <= i < |fs| && FieldError(raw, fs[i], r.value)
  {
    if fs == [] then None
    else if fs[0].0 !in raw then Some(RequiredMessage(fs[0].0))
    else if !HasKind(raw[fs[0].0], fs[0].1) then Some(TypeMessage(fs[0].0, fs[0].1))
    else
      var r := CheckFields(raw, fs[1..]);
      assert forall i :: 1 <= i < |fs| ==> fs[i] == fs[1..][i - 1];
      r
  }

  /** `validate_input`: `None` when the body is acceptable, otherwise the first error message. */
  function ValidateInput(raw: map<string, Value>): (r: Option<string>)
    ensures r.Some? ==>
      || (exists i :: 0 <= i < |Fields| && FieldError(raw, Fields[i], r.value))
      || (r.value == TransportMessage && "transport" in raw && raw["transport"].Str? && raw["transport"].s !in AllowedTransports)
      || (r.value == PackagingMessage && "packaging" in raw && raw["packaging"].Str? && raw["packaging"].s !in AllowedPackaging)
  {
    match CheckFields(raw, Fields)
    case Some(e) => Some(e)
    case None =>
      assert FieldOk(raw, Fields[3]) && FieldOk(raw, Fields[4]);
      if raw["transport"].s !in AllowedTransports then Some(TransportMessage)
      else if raw["packaging"].s !in AllowedPackaging then Some(PackagingMessage)
      else None
  }

  /** The body the service accepts, stated field by field. */
  predicate Acceptable(raw: map<string, Value>)
  {
    && "product_name" in raw && raw["product_name"].Str?
    && "materials" in raw && raw["materials"].Arr?
    && "weight_grams" in raw && (raw["weight_grams"].Num? || raw["weight_grams"].Bool?)
    && "transport" in raw && raw["transport"].Str?
    && raw["transport"].s in {"air", "rail", "sea", "road"}
    && "packaging" in raw && raw["packaging"].Str?
    && raw["packaging"].s in {"recyclable", "biodegradable", "non-recyclable"}
  }

  /** `field` occurs somewhere in the message text. */
  ghost predicate Mentions(msg: string, field: string)
  {
    exists k :: 0 <= k <= |msg| && field <= msg[k..]
  }

  lemma QuotedFieldMentioned(field: string, tail: string)
    ensures Mentions("'" + field + tail, field)
  {
    var msg := "'" + field + tail;
    assert msg[1..] == field + tail;
    assert field <= msg[1..];
  }

  lemma ChoiceMessageMentions(field: string, allowed: string)
    ensures Mentions(ChoiceMessage(field, allowed), field)
  {
    QuotedFieldMentioned(field, "' must be one of " + allowed);
    assert ChoiceMessage(field, allowed) == "'" + field + ("' must be one of " + allowed);
  }

  /** Validation succeeds exactly on the acceptable bodies. */
  lemma ValidateAcceptsExactly(raw: map<string, Value>)
    ensures ValidateInput(raw) == None <==> Acceptable(raw)
  {
    if CheckFields(raw, Fields).None? {
      assert FieldOk(raw, Fields[0]) && FieldOk(raw, Fields[1]) && FieldOk(raw, Fields[2]);
      assert FieldOk(raw, Fields[3]) && FieldOk(raw, Fields[4]);
    } else if Acceptable(raw) {
      forall i | 0 <= i < |Fields| ensures FieldOk(raw, Fields[i]) {
        assert i == 0 || i == 1 || i == 2 || i == 3 || i == 4;
      }
    }
  }

  lemma {:induction false} CheckFieldsFirstFailure(raw: map<string, Value>, fs: seq<(string, Kind)>, i: nat)
    requires i < |fs|
    requires forall j :: 0 <= j < i ==> FieldOk(raw, fs[j])
    requires !FieldOk(raw, fs[i])
    ensures CheckFields(raw, fs) ==
      Some(if fs[i].0 in raw then TypeMessage(fs[i].0, fs[i].1) else RequiredMessage(fs[i].0))
  {
    if i > 0 {
      assert FieldOk(raw, fs[0]);
      CheckFieldsFirstFailure(raw, fs[1..], i - 1);
    }
  }

  /**
   * A missing or mistyped field is reported, naming it, as soon as every
   * field before it in the fixed order has passed.
   */
  lemma ValidateReportsFirstBadField(raw: map<string, Value>, i: nat)
    requires i < |Fields|
    requires forall j :: 0 <= j < i ==> FieldOk(raw, Fields[j])
    requires !FieldOk(raw, Fields[i])
    ensures ValidateInput(raw) ==
      Some(if Fields[i].0 in raw then TypeMessage(Fields[i].0, Fields[i].1) else RequiredMessage(Fields[i].0))
    ensures ValidateInput(raw).Some? && Mentions(ValidateInput(raw).value, Fields[i].0)
  {
    CheckFieldsFirstFailure(raw, Fields, i);
    if Fields[i].0 in raw {
      QuotedFieldMentioned(Fields[i].0, "' must be of type " + TypeName(Fields[i].1));
      assert TypeMessage(Fields[i].0, Fields[i].1) == "'" + Fields[i].0 + ("' must be of type " + TypeName(Fields[i].1));
    } else {
      QuotedFieldMentioned(Fields[i].0, "' is required");
    }
  }

  /**
   * The enumeration checks run only once every field passed its presence and
   * type check, transport before packaging.
   */
  lemma ValidateChecksChoicesLast(raw: map<string, Value>)
    requires FieldOk(raw, Fields[0]) && FieldOk(raw, Fields[1]) && FieldOk(raw, Fields[2])
    requires FieldOk(raw, Fields[3]) && FieldOk(raw, Fields[4])
    ensures raw["transport"].s !in AllowedTransports ==> ValidateInput(raw) == Some(TransportMessage)
    ensures raw["transport"].s in AllowedTransports && raw["packaging"].s !in AllowedPackaging ==>
      ValidateInput(raw) == Some(PackagingMessage)
    ensures Mentions(TransportMessage, "transport") && Mentions(PackagingMessage, "packaging")
  {
    assert CheckFields(raw, Fields) == None by {
      forall j | 0 <= j < |Fields| ensures FieldOk(raw, Fields[j]) {
        assert j == 0 || j == 1 || j == 2 || j == 3 || j == 4;
      }
    }
    ChoiceMessageMentions("transport", "['air', 'rail', 'sea', 'road']");
    ChoiceMessageMentions("packaging", "['recyclable', 'biodegradable', 'non-recyclable']");
  }

  /** The typed product description the scorer works on. */
  datatype ProductInput = ProductInput(
    productName: string,
    materials: seq<string>,
    weightGrams: real,
    transport: string,
    packaging: string)

  /** The string elements of a JSON list, in order. */
  function StringItems(items: seq<Value>): (r: seq<string>)
    ensures forall s :: s in r <==> Str(s) in items
  {
    if items == [] then []
    else
      var rest := StringItems(items[1..]);
      assert forall v :: v in items <==> v == items[0] || v in items[1..];
      if items[0].Str? then [items[0].s] + rest else rest
  }

  /** A JSON number as Python compares it: `True` is 1 and `False` is 0. */
  function NumericValue(v: Value): real
  {
    match v
    case Num(n) => n
    case Bool(b) => if b then 1.0 else 0.0
    case _ => 0.0
  }

  /** Reads the fields of a validated body (app.py's `data[...]` lookups after validation). */
  function ReadInput(raw: map<string, Value>): (p: ProductInput)
    requires Acceptable(raw)
    ensures p.productName == raw["product_name"].s
    ensures forall m :: m in p.materials <==> Str(m) in raw["materials"].items
    ensures p.weightGrams == NumericValue(raw["weight_grams"])
    ensures p.transport == raw["transport"].s && p.transport in AllowedTransports
    ensures p.packaging == raw["packaging"].s && p.packaging in AllowedPackaging
  {
    ProductInput(
      raw["product_name"].s,
      StringItems(raw["materials"].items),
      NumericValue(raw["weight_grams"]),
      raw["transport"].s,
      raw["packaging"].s)
  }

  /** The request bodies of the repository's rejection tests. */
  lemma MissingTransportRejected()
    ensures var raw := map["product_name" := Str("Missing Transport"), "materials" := Arr([Str("plastic")]),
                           "weight_grams" := Num(100.0), "packaging" := Str("recyclable")];
      ValidateInput(raw) == Some(RequiredMessage("transport"))
  {
    var raw := map["product_name" := Str("Missing Transport"), "materials" := Arr([Str("plastic")]),
                   "weight_grams" := Num(100.0), "packaging" := Str("recyclable")];
    assert FieldOk(raw, Fields[0]) && FieldOk(raw, Fields[1]) && FieldOk(raw, Fields[2]);
    assert "transport" !in raw;
    forall j | 0 <= j < 3 ensures FieldOk(raw, Fields[j]) {
      assert j == 0 || j == 1 || j == 2;
    }
    ValidateReportsFirstBadField(raw, 3);
  }

  lemma BareStringMaterialsRejected()
    ensures var raw := map["product_name" := Str("Invalid Materials"), "materials" := Str("plastic"),
                           "weight_grams" := Num(300.0), "transport" := Str("road"), "packaging" := Str("recyclable")];
      ValidateInput(raw) == Some(TypeMessage("materials", List))
  {
    var raw := map["product_name" := Str("Invalid Materials"), "materials" := Str("plastic"),
                   "weight_grams" := Num(300.0), "transport" := Str("road"), "packaging" := Str("recyclable")];
    assert FieldOk(raw, Fields[0]) && !FieldOk(raw, Fields[1]);
    ValidateReportsFirstBadField(raw, 1);
  }

  lemma UnknownChoicesRejected()
    ensures var raw := map["product_name" := Str("Invalid Transport"), "materials" := Arr([Str("plastic")]),
                           "weight_grams" := Num(300.0), "transport" := Str("spaceship"), "packaging" := Str("recyclable")];
      ValidateInput(raw) == Some(TransportMessage)
    ensures var raw := map["product_name" := Str("Invalid Packaging"), "materials" := Arr([Str("plastic")]),
                           "weight_grams" := Num(300.0), "transport" := Str("road"), "packaging" := Str("unwrapped")];
      ValidateInput(raw) == Some(PackagingMessage)
  {
    var r1 := map["product_name" := Str("Invalid Transport"), "materials" := Arr([Str("plastic")]),
                  "weight_grams" := Num(300.0), "transport" := Str("spaceship"), "packaging" := Str("recyclable")];
    ValidateChecksChoicesLast(r1);
    var r2 := map["product_name" := Str("Invalid Packaging"), "materials" := Arr([Str("plastic")]),
                  "weight_grams" := Num(300.0), "transport" := Str("road"), "packaging" := Str("unwrapped")];
    ValidateChecksChoicesLast(r2);
  }
}
