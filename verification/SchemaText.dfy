/**
 The canonical JSON text of a flat elicitation schema (`elicitation/reflection.go`).
 Fingerprints are hashes of this text, so it has to determine the schema: a reader is
 given that recovers the whole property list, in order, from the text alone.

 Floating-point numbers are values of an arbitrary type F with a printer `fmt` and a reader
 `parse`; all that is used of them is that reading undoes printing.
 */
module SchemaText {
  import opened Wrappers
  import opened JsonText
  import opened RequiredLists
  import Decimal

  datatype Default<F> = NoDefault | BoolDefault(b: bool) | StringDefault(s: string) | NumberDefault(x: F)

  datatype Property<F> = Property(
    name: string,
    ptype: string,
    title: string,
    description: string,
    format: string,
    enumValues: seq<string>,
    enumNames: seq<string>,
    default: Default<F>,
    minLength: Option<int>,
    maxLength: Option<int>,
    minimum: Option<F>,
    maximum: Option<F>,
    required: bool)

  /** The number of bytes of a string in UTF-8, which is what Go's len counts. */
  function Utf8Len(s: string): nat {
    if s == "" then 0
    else
      var c := s[0] as int;
      (if c < 0x80 then 1 else if c < 0x800 then 2 else if c < 0x10000 then 3 else 4) + Utf8Len(s[1..])
  }

  /** The byte count goes by character, over the four ranges of UTF-8. */
  lemma {:induction false} Utf8LenAdds(c: char, s: string)
    ensures Utf8Len("") == 0
    ensures Utf8Len([c] + s) == Utf8Len(s) +
      if c <= '\U{7F}' then 1 else if c <= '\U{7FF}' then 2 else if c <= '\U{FFFF}' then 3 else 4
  {
    assert ([c] + s)[1..] == s;
  }

  /** The keys of a property object, in the fixed order they are written. */
  const KEYS: seq<string> := ["type", "title", "description", "format", "enum", "enumNames",
                              "default", "minLength", "maxLength", "minimum", "maximum"]

  // ----- the schema as a JSON value -----

  function Strs(ss: seq<string>): (r: seq<Json>)
    ensures |r| == |ss| && forall i | 0 <= i < |ss| :: r[i] == Str(ss[i])
  {
    seq(|ss|, i requires 0 <= i < |ss| => Str(ss[i]))
  }

  function StrSlot(s: string): Option<Json> {
    if s != "" then Some(Str(s)) else None
  }

  function IntSlot(n: Option<int>): Option<Json> {
    if n.Some? then Some(Num(Decimal.Itoa(n.value))) else None
  }

  function FloatSlot<F>(x: Option<F>, fmt: F -> string): Option<Json> {
    if x.Some? then Some(Num(fmt(x.value))) else None
  }

  function DefaultSlot<F>(d: Default<F>, fmt: F -> string): Option<Json> {
    match d
    case NoDefault => None
    case BoolDefault(b) => Some(Bool(b))
    case StringDefault(s) => Some(Str(s))
    case NumberDefault(x) => Some(Num(fmt(x)))
  }

  /** The value under each key, where present; a name list only accompanies a value list. */
  function Slots<F>(p: Property<F>, fmt: F -> string): (r: seq<Option<Json>>)
    ensures |r| == |KEYS|
  {
    [Some(Str(p.ptype)),
     StrSlot(p.title),
     StrSlot(p.description),
     StrSlot(p.format),
     if p.enumValues != [] then Some(Arr(Strs(p.enumValues))) else None,
     if p.enumValues != [] && p.enumNames != [] then Some(Arr(Strs(p.enumNames))) else None,
     DefaultSlot(p.default, fmt),
     IntSlot(p.minLength),
     IntSlot(p.maxLength),
     FloatSlot(p.minimum, fmt),
     FloatSlot(p.maximum, fmt)]
  }

  /** The members for the first n keys. */
  function FieldsTo(slots: seq<Option<Json>>, n: nat): seq<Member>
    requires n <= |slots| == |KEYS|
  {
    if n == 0 then []
    else FieldsTo(slots, n - 1) + if slots[n - 1].Some? then [Member(KEYS[n - 1], slots[n - 1].value)] else []
  }

  function PropertyMember<F>(p: Property<F>, fmt: F -> string): Member {
    Member(p.name, Obj(FieldsTo(Slots(p, fmt), |KEYS|)))
  }

  function PropertyMembers<F>(props: seq<Property<F>>, fmt: F -> string): (r: seq<Member>)
    ensures |r| == |props| && forall i | 0 <= i < |props| :: r[i] == PropertyMember(props[i], fmt)
  {
    seq(|props|, i requires 0 <= i < |props| => PropertyMember(props[i], fmt))
  }

  function RequiredNames<F>(props: seq<Property<F>>): (r: seq<string>)
    ensures forall n :: n in r <==> exists i :: 0 <= i < |props| && props[i].name == n && props[i].required
  {
    if props == [] then []
    else
      var last := props[|props| - 1];
      var r := RequiredNames(props[..|props| - 1]) + if last.required then [last.name] else [];
      assert forall n | n in r :: exists i :: 0 <= i < |props| && props[i].name == n && props[i].required by {
        forall n | n in r ensures exists i :: 0 <= i < |props| && props[i].name == n && props[i].required {
          if n in RequiredNames(props[..|props| - 1]) {
            var i :| 0 <= i < |props| - 1 && props[..|props| - 1][i].name == n && props[..|props| - 1][i].required;
            assert props[i].name == n && props[i].required;
          } else {
            assert props[|props| - 1].name == n;
          }
        }
      }
      assert forall i | 0 <= i < |props| && props[i].required :: props[i].name in r by {
        forall i | 0 <= i < |props| && props[i].required ensures props[i].name in r {
          if i < |props| - 1 {
            assert props[..|props| - 1][i] == props[i];
          }
        }
      }
      r
  }

  function SchemaJson<F>(props: seq<Property<F>>, fmt: F -> string): Json {
    var required := RequiredNames(props);
    Obj([Member("type", Str("object")), Member("properties", Obj(PropertyMembers(props, fmt)))]
        + if required != [] then [Member("required", Arr(Strs(required)))] else [])
  }

  function CanonicalText<F>(props: seq<Property<F>>, fmt: F -> string): string {
    Print(SchemaJson(props, fmt))
  }

  // ----- what is published under which key -----

  function Opt(key: string, value: Option<Json>): seq<Member> {
    if value.Some? then [Member(key, value.value)] else []
  }

  lemma {:induction false} FieldsStep(slots: seq<Option<Json>>, n: nat)
    requires n < |slots| == |KEYS|
    ensures FieldsTo(slots, n + 1) == FieldsTo(slots, n) + Opt(KEYS[n], slots[n])
  {
  }

  lemma {:induction false} FirstFields(slots: seq<Option<Json>>)
    requires |slots| == |KEYS| == 11
    ensures FieldsTo(slots, 6) ==
      Opt(KEYS[0], slots[0]) + Opt(KEYS[1], slots[1]) + Opt(KEYS[2], slots[2]) + Opt(KEYS[3], slots[3])
      + Opt(KEYS[4], slots[4]) + Opt(KEYS[5], slots[5])
  {
    assert FieldsTo(slots, 0) + Opt(KEYS[0], slots[0]) == Opt(KEYS[0], slots[0]);
    FieldsStep(slots, 0);
    FieldsStep(slots, 1);
    FieldsStep(slots, 2);
    FieldsStep(slots, 3);
    FieldsStep(slots, 4);
    FieldsStep(slots, 5);
  }

  lemma {:induction false} LastFields(slots: seq<Option<Json>>)
    requires |slots| == |KEYS| == 11
    ensures FieldsTo(slots, 11) ==
      FieldsTo(slots, 6) + Opt(KEYS[6], slots[6]) + Opt(KEYS[7], slots[7]) + Opt(KEYS[8], slots[8])
      + Opt(KEYS[9], slots[9]) + Opt(KEYS[10], slots[10])
  {
    FieldsStep(slots, 6);
    FieldsStep(slots, 7);
    FieldsStep(slots, 8);
    FieldsStep(slots, 9);
    FieldsStep(slots, 10);
  }

  lemma {:induction false} KeyNames()
    ensures |KEYS| == 11
    ensures KEYS[0] == "type" && KEYS[1] == "title" && KEYS[2] == "description" && KEYS[3] == "format"
    ensures KEYS[4] == "enum" && KEYS[5] == "enumNames" && KEYS[6] == "default"
    ensures KEYS[7] == "minLength" && KEYS[8] == "maxLength" && KEYS[9] == "minimum" && KEYS[10] == "maximum"
  {
  }

  lemma {:induction false} FieldsByKey(slots: seq<Option<Json>>)
    requires |slots| == |KEYS| == 11
    ensures FieldsTo(slots, 11) ==
      Opt("type", slots[0]) + Opt("title", slots[1]) + Opt("description", slots[2]) + Opt("format", slots[3])
      + Opt("enum", slots[4]) + Opt("enumNames", slots[5]) + Opt("default", slots[6])
      + Opt("minLength", slots[7]) + Opt("maxLength", slots[8]) + Opt("minimum", slots[9]) + Opt("maximum", slots[10])
  {
    KeyNames();
    FirstFields(slots);
    LastFields(slots);
  }

  /** The object published for a property: which attribute under which key, in which order, and when. */
  lemma {:induction false} PropertyIsPublishedAs<F>(p: Property<F>, fmt: F -> string)
    ensures PropertyMember(p, fmt) == Member(p.name, Obj(
        Opt("type", Some(Str(p.ptype)))
        + Opt("title", if p.title != "" then Some(Str(p.title)) else None)
        + Opt("description", if p.description != "" then Some(Str(p.description)) else None)
        + Opt("format", if p.format != "" then Some(Str(p.format)) else None)
        + Opt("enum", if p.enumValues != [] then Some(Arr(Strs(p.enumValues))) else None)
        + Opt("enumNames", if p.enumValues != [] && p.enumNames != [] then Some(Arr(Strs(p.enumNames))) else None)
        + Opt("default", match p.default
                         case NoDefault => None
                         case BoolDefault(b) => Some(Bool(b))
                         case StringDefault(t) => Some(Str(t))
                         case NumberDefault(x) => Some(Num(fmt(x))))
        + Opt("minLength", if p.minLength.Some? then Some(Num(Decimal.Itoa(p.minLength.value))) else None)
        + Opt("maxLength", if p.maxLength.Some? then Some(Num(Decimal.Itoa(p.maxLength.value))) else None)
        + Opt("minimum", if p.minimum.Some? then Some(Num(fmt(p.minimum.value))) else None)
        + Opt("maximum", if p.maximum.Some? then Some(Num(fmt(p.maximum.value))) else None)))
  {
    FieldsByKey(Slots(p, fmt));
  }

  /** The whole text: an object type, the properties in order, and the required names unless there are none. */
  lemma {:induction false} SchemaIsPublishedAs<F>(props: seq<Property<F>>, fmt: F -> string)
    ensures CanonicalText(props, fmt) == Print(Obj(
        Opt("type", Some(Str("object")))
        + Opt("properties", Some(Obj(PropertyMembers(props, fmt))))
        + Opt("required", if RequiredNames(props) != [] then Some(Arr(Strs(RequiredNames(props)))) else None)))
  {
    assert Opt("type", Some(Str("object"))) + Opt("properties", Some(Obj(PropertyMembers(props, fmt))))
        == [Member("type", Str("object")), Member("properties", Obj(PropertyMembers(props, fmt)))];
  }

  // ----- reading a schema back -----

  function Unstrs(js: seq<Json>): seq<string> {
    seq(|js|, i requires 0 <= i < |js| => if js[i].Str? then js[i].s else "")
  }

  /** The inverse of FieldsTo: which of the first n keys the members supply. */
  function Collect(ms: seq<Member>, n: nat): (r: seq<Option<Json>>)
    requires n <= |KEYS|
    ensures |r| == n
  {
    if n == 0 then []
    else if ms != [] && ms[|ms| - 1].key == KEYS[n - 1]
    then Collect(ms[..|ms| - 1], n - 1) + [Some(ms[|ms| - 1].value)]
    else Collect(ms, n - 1) + [None]
  }

  function ReadStr(slot: Option<Json>): string {
    if slot.Some? && slot.value.Str? then slot.value.s else ""
  }

  function ReadStrs(slot: Option<Json>): seq<string> {
    if slot.Some? && slot.value.Arr? then Unstrs(slot.value.items) else []
  }

  function ReadInt(slot: Option<Json>): Option<int> {
    if slot.Some? && slot.value.Num? then Decimal.ParseInt(slot.value.token) else None
  }

  function ReadFloat<F>(slot: Option<Json>, parse: string -> Option<F>): Option<F> {
    if slot.Some? && slot.value.Num? then parse(slot.value.token) else None
  }

  function ReadDefault<F>(slot: Option<Json>, parse: string -> Option<F>): Default<F> {
    match slot
    case Some(Bool(b)) => BoolDefault(b)
    case Some(Str(s)) => StringDefault(s)
    case Some(Num(t)) => if parse(t).Some? then NumberDefault(parse(t).value) else NoDefault
    case _ => NoDefault
  }

  function PropertyOf<F>(name: string, s: seq<Option<Json>>, required: bool, parse: string -> Option<F>): Property<F>
    requires |s| == |KEYS|
  {
    Property(name, ReadStr(s[0]), ReadStr(s[1]), ReadStr(s[2]), ReadStr(s[3]), ReadStrs(s[4]), ReadStrs(s[5]),
             ReadDefault(s[6], parse), ReadInt(s[7]), ReadInt(s[8]), ReadFloat(s[9], parse), ReadFloat(s[10], parse),
             required)
  }

  function ReadProperty<F>(m: Member, required: set<string>, parse: string -> Option<F>): Property<F> {
    var fields := if m.value.Obj? then m.value.members else [];
    PropertyOf(m.key, Collect(fields, |KEYS|), m.key in required, parse)
  }

  function ReadMembers<F>(ms: seq<Member>, required: set<string>, parse: string -> Option<F>): (r: seq<Property<F>>)
    ensures |r| == |ms| && forall i | 0 <= i < |ms| :: r[i] == ReadProperty(ms[i], required, parse)
  {
    seq(|ms|, i requires 0 <= i < |ms| => ReadProperty(ms[i], required, parse))
  }

  /** The names listed in an optional third member. */
  function ReadRequired(ms: seq<Member>): set<string> {
    if |ms| > 2 && ms[2].value.Arr? then (set n | n in Unstrs(ms[2].value.items)) else {}
  }

  function ReadJson<F>(j: Json, parse: string -> Option<F>): Option<seq<Property<F>>> {
    if j.Obj? && |j.members| >= 2 && j.members[1].value.Obj?
    then Some(ReadMembers(j.members[1].value.members, ReadRequired(j.members), parse))
    else None
  }

  function ReadSchema<F>(text: string, parse: string -> Option<F>): Option<seq<Property<F>>> {
    match ParseValue(text)
    case Some((j, "")) => ReadJson(j, parse)
    case _ => None
  }

  // ----- the text determines the schema -----

  /** Display names only ever accompany enum values; both schema builders guarantee it. */
  predicate WellFormed<F>(p: Property<F>) {
    p.enumNames != [] ==> p.enumValues != []
  }

  /** The float prints as a number token that reads back to the same float. */
  ghost predicate FloatReads<F>(x: F, fmt: F -> string, parse: string -> Option<F>) {
    IsNumber(fmt(x)) && parse(fmt(x)) == Some(x)
  }

  ghost predicate Readable<F>(p: Property<F>, fmt: F -> string, parse: string -> Option<F>) {
    && WellFormed(p)
    && (p.default.NumberDefault? ==> FloatReads(p.default.x, fmt, parse))
    && (p.minimum.Some? ==> FloatReads(p.minimum.value, fmt, parse))
    && (p.maximum.Some? ==> FloatReads(p.maximum.value, fmt, parse))
  }

  ghost predicate AllReadable<F>(props: seq<Property<F>>, fmt: F -> string, parse: string -> Option<F>) {
    forall i | 0 <= i < |props| :: Readable(props[i], fmt, parse)
  }

  predicate DistinctNames<F>(props: seq<Property<F>>) {
    forall i, j | 0 <= i < j < |props| :: props[i].name != props[j].name
  }

  lemma {:induction false} KeysDistinct(i: nat, j: nat)
    requires i < j < |KEYS|
    ensures KEYS[i] != KEYS[j]
  {
    var k, l := KEYS[i], KEYS[j];
    if |k| == |l| {
      assert k[0] != l[0] || k[1] != l[1] || k[2] != l[2];
    }
  }

  lemma {:induction false} FieldKeys(slots: seq<Option<Json>>, n: nat)
    requires n <= |slots| == |KEYS|
    ensures var ms := FieldsTo(slots, n); ms != [] ==> exists i: nat :: i < n && ms[|ms| - 1].key == KEYS[i]
  {
    if n > 0 {
      FieldKeys(slots, n - 1);
      if slots[n - 1].Some? {
        var ms := FieldsTo(slots, n);
        assert ms[|ms| - 1].key == KEYS[n - 1];
      } else {
        assert FieldsTo(slots, n) == FieldsTo(slots, n - 1);
      }
    }
  }

  lemma {:induction false} CollectFields(slots: seq<Option<Json>>, n: nat)
    requires n <= |slots| == |KEYS|
    ensures Collect(FieldsTo(slots, n), n) == slots[..n]
  {
    if n > 0 {
      var ms, before := FieldsTo(slots, n), FieldsTo(slots, n - 1);
      CollectFields(slots, n - 1);
      assert slots[..n] == slots[..n - 1] + [slots[n - 1]];
      if slots[n - 1].Some? {
        assert ms[..|ms| - 1] == before;
      } else {
        assert ms == before;
        FieldKeys(slots, n - 1);
        if ms != [] {
          var i: nat :| i < n - 1 && ms[|ms| - 1].key == KEYS[i];
          KeysDistinct(i, n - 1);
        }
      }
    }
  }

  lemma {:induction false} UnstrsStrs(ss: seq<string>)
    ensures Unstrs(Strs(ss)) == ss
  {
  }

  lemma {:induction false} ReadIntSlot(n: Option<int>)
    ensures ReadInt(IntSlot(n)) == n
  {
    if n.Some? { Decimal.ParseIntItoa(n.value); }
  }

  lemma {:induction false} ReadFloatSlot<F(!new)>(x: Option<F>, fmt: F -> string, parse: string -> Option<F>)
    requires x.Some? ==> FloatReads(x.value, fmt, parse)
    ensures ReadFloat(FloatSlot(x, fmt), parse) == x
  {
  }

  lemma {:induction false} ReadDefaultSlot<F(!new)>(d: Default<F>, fmt: F -> string, parse: string -> Option<F>)
    requires d.NumberDefault? ==> FloatReads(d.x, fmt, parse)
    ensures ReadDefault(DefaultSlot(d, fmt), parse) == d
  {
  }

  lemma {:induction false} ReadEnumSlots<F(!new)>(p: Property<F>, fmt: F -> string)
    requires WellFormed(p)
    ensures ReadStrs(Slots(p, fmt)[4]) == p.enumValues && ReadStrs(Slots(p, fmt)[5]) == p.enumNames
  {
    UnstrsStrs(p.enumValues);
    UnstrsStrs(p.enumNames);
  }

  lemma {:induction false} PropertyOfSlots<F(!new)>(p: Property<F>, fmt: F -> string, parse: string -> Option<F>)
    requires Readable(p, fmt, parse)
    ensures PropertyOf(p.name, Slots(p, fmt), p.required, parse) == p
  {
    ReadEnumSlots(p, fmt);
    ReadDefaultSlot(p.default, fmt, parse);
    ReadIntSlot(p.minLength);
    ReadIntSlot(p.maxLength);
    ReadFloatSlot(p.minimum, fmt, parse);
    ReadFloatSlot(p.maximum, fmt, parse);
  }

  lemma {:induction false} ReadPropertyMember<F(!new)>(p: Property<F>, required: set<string>, fmt: F -> string, parse: string -> Option<F>)
    requires Readable(p, fmt, parse) && (p.name in required <==> p.required)
    ensures ReadProperty(PropertyMember(p, fmt), required, parse) == p
  {
    var slots := Slots(p, fmt);
    CollectFields(slots, |KEYS|);
    assert slots[..|KEYS|] == slots;
    PropertyOfSlots(p, fmt, parse);
  }

  lemma {:induction false} ItoaIsNumber(n: int)
    ensures IsNumber(Decimal.Itoa(n))
  {
    var d := Decimal.Digits(if n < 0 then -n else n);
    assert Decimal.AllDigits(d);
    assert n < 0 ==> Decimal.Itoa(n) == ['-'] + d;
  }

  lemma {:induction false} FieldsPrintable(slots: seq<Option<Json>>, n: nat)
    requires n <= |slots| == |KEYS| && forall i | 0 <= i < |slots| && slots[i].Some? :: Printable(slots[i].value)
    ensures forall i | 0 <= i < |FieldsTo(slots, n)| :: Printable(FieldsTo(slots, n)[i].value)
  {
    if n > 0 {
      FieldsPrintable(slots, n - 1);
    }
  }

  lemma {:induction false} PropertyPrintable<F(!new)>(p: Property<F>, fmt: F -> string, parse: string -> Option<F>)
    requires Readable(p, fmt, parse)
    ensures Printable(PropertyMember(p, fmt).value)
  {
    var slots := Slots(p, fmt);
    SlotsPrintable(p, fmt, parse);
    FieldsPrintable(slots, |KEYS|);
  }

  lemma {:induction false} SlotsPrintable<F(!new)>(p: Property<F>, fmt: F -> string, parse: string -> Option<F>)
    requires Readable(p, fmt, parse)
    ensures forall i | 0 <= i < |KEYS| && Slots(p, fmt)[i].Some? :: Printable(Slots(p, fmt)[i].value)
  {
    if p.minLength.Some? { ItoaIsNumber(p.minLength.value); }
    if p.maxLength.Some? { ItoaIsNumber(p.maxLength.value); }
  }

  lemma {:induction false} SchemaPrintable<F(!new)>(props: seq<Property<F>>, fmt: F -> string, parse: string -> Option<F>)
    requires AllReadable(props, fmt, parse)
    ensures Printable(SchemaJson(props, fmt))
  {
    var ms := PropertyMembers(props, fmt);
    forall i | 0 <= i < |ms| ensures Printable(ms[i].value) {
      PropertyPrintable(props[i], fmt, parse);
    }
    assert Printable(Obj(ms));
    assert Printable(Arr(Strs(RequiredNames(props))));
  }

  /** Properties of one name are all required or all optional; distinct names are a special case. */
  predicate FlaggedByName<F>(props: seq<Property<F>>) {
    forall i, j | 0 <= i < |props| && 0 <= j < |props| && props[i].name == props[j].name ::
      props[i].required == props[j].required
  }

  /** A property is read back up to its flag, which is read off the names. */
  lemma {:induction false} ReadBackMember<F(!new)>(p: Property<F>, required: set<string>, fmt: F -> string, parse: string -> Option<F>)
    requires Readable(p, fmt, parse)
    ensures ReadProperty(PropertyMember(p, fmt), required, parse) == p.(required := p.name in required)
  {
    var q := p.(required := p.name in required);
    assert Slots(q, fmt) == Slots(p, fmt);
    ReadPropertyMember(q, required, fmt, parse);
  }

  lemma {:induction false} ReadBackMembers<F(!new)>(props: seq<Property<F>>, fmt: F -> string, parse: string -> Option<F>)
    requires AllReadable(props, fmt, parse)
    ensures ReadMembers(PropertyMembers(props, fmt), (set n | n in RequiredNames(props)), parse) == props <==> FlaggedByName(props)
  {
    var required := set n | n in RequiredNames(props);
    var ms := PropertyMembers(props, fmt);
    var read := ReadMembers(ms, required, parse);
    forall i | 0 <= i < |props| ensures read[i] == props[i].(required := props[i].name in required) {
      ReadBackMember(props[i], required, fmt, parse);
    }
    FlagsReadOffNames(props);
    assert (forall i | 0 <= i < |props| :: read[i] == props[i]) <==> read == props;
  }

  lemma {:induction false} FlagsReadOffNames<F(!new)>(props: seq<Property<F>>)
    ensures FlaggedByName(props) <==>
      forall i | 0 <= i < |props| :: props[i].required == (props[i].name in RequiredNames(props))
  {
    if FlaggedByName(props) {
      forall i | 0 <= i < |props| ensures props[i].required == (props[i].name in RequiredNames(props)) {
        if props[i].name in RequiredNames(props) {
          var j :| 0 <= j < |props| && props[j].name == props[i].name && props[j].required;
        }
      }
    }
  }

  lemma {:induction false} ReadBackRequired<F(!new)>(props: seq<Property<F>>, fmt: F -> string)
    ensures ReadRequired(SchemaJson(props, fmt).members) == set n | n in RequiredNames(props)
  {
    UnstrsStrs(RequiredNames(props));
  }

  lemma {:induction false} ReadJsonSchemaJson<F(!new)>(props: seq<Property<F>>, fmt: F -> string, parse: string -> Option<F>)
    requires AllReadable(props, fmt, parse)
    ensures ReadJson(SchemaJson(props, fmt), parse) == Some(props) <==> FlaggedByName(props)
  {
    ReadBackMembers(props, fmt, parse);
    ReadBackRequired(props, fmt);
  }

  lemma {:induction false} TextParses<F(!new)>(props: seq<Property<F>>, fmt: F -> string, parse: string -> Option<F>)
    requires AllReadable(props, fmt, parse)
    ensures ParseValue(CanonicalText(props, fmt)) == Some((SchemaJson(props, fmt), ""))
  {
    var j := SchemaJson(props, fmt);
    SchemaPrintable(props, fmt, parse);
    ParsePrint(j, "");
    assert Print(j) + "" == Print(j);
  }

  /**
   The text can be read back, every property with its order and every attribute of it, if and
   only if properties of one name agree on being required; distinct names always do.
   */
  lemma {:induction false} TextReadsBack<F(!new)>(props: seq<Property<F>>, fmt: F -> string, parse: string -> Option<F>)
    requires AllReadable(props, fmt, parse)
    ensures ReadSchema(CanonicalText(props, fmt), parse) == Some(props) <==> FlaggedByName(props)
  {
    TextParses(props, fmt, parse);
    ReadJsonSchemaJson(props, fmt, parse);
  }

  // ----- how far the text determines the schema -----

  function Names<F>(props: seq<Property<F>>): (r: seq<string>)
    ensures |r| == |props| && forall i | 0 <= i < |props| :: r[i] == props[i].name
  {
    seq(|props|, i requires 0 <= i < |props| => props[i].name)
  }

  function Flags<F>(props: seq<Property<F>>): (r: seq<bool>)
    ensures |r| == |props| && forall i | 0 <= i < |props| :: r[i] == props[i].required
  {
    seq(|props|, i requires 0 <= i < |props| => props[i].required)
  }

  lemma {:induction false} RequiredArePickedTo<F(!new)>(props: seq<Property<F>>, n: nat)
    requires n <= |props|
    ensures RequiredNames(props[..n]) == PickedTo(Names(props), Flags(props), n)
  {
    if n > 0 {
      RequiredArePickedTo(props, n - 1);
      assert props[..n][..n - 1] == props[..n - 1];
    }
  }

  lemma {:induction false} RequiredArePicked<F(!new)>(props: seq<Property<F>>)
    ensures RequiredNames(props) == Picked(Names(props), Flags(props))
  {
    RequiredArePickedTo(props, |props|);
    assert props[..|props|] == props;
  }

  /** Two properties of one name, one required and one not, with no required one between them. */
  predicate Ambiguous<F>(props: seq<Property<F>>) {
    exists i, j :: 0 <= i < j < |props| && Movable(Names(props), Flags(props), i, j)
  }

  lemma {:induction false} DistinctIsUnambiguous<F(!new)>(props: seq<Property<F>>)
    requires DistinctNames(props)
    ensures !Ambiguous(props) && FlaggedByName(props)
  {
  }

  lemma {:induction false} SameJsonSameParts<F(!new)>(ps: seq<Property<F>>, qs: seq<Property<F>>, fmt: F -> string)
    requires SchemaJson(ps, fmt) == SchemaJson(qs, fmt)
    ensures PropertyMembers(ps, fmt) == PropertyMembers(qs, fmt) && RequiredNames(ps) == RequiredNames(qs)
  {
    var a, b := SchemaJson(ps, fmt).members, SchemaJson(qs, fmt).members;
    assert a[1].value == b[1].value;
    UnstrsStrs(RequiredNames(ps));
    UnstrsStrs(RequiredNames(qs));
    assert |a| == |b| && (|a| > 2 ==> a[2].value == b[2].value);
  }

  /** Equal texts agree on everything but which of the properties of a name are required. */
  lemma {:induction false} SameTextSameParts<F(!new)>(ps: seq<Property<F>>, qs: seq<Property<F>>, fmt: F -> string, parse: string -> Option<F>)
    requires AllReadable(ps, fmt, parse) && AllReadable(qs, fmt, parse) && CanonicalText(ps, fmt) == CanonicalText(qs, fmt)
    ensures |ps| == |qs| && (forall i | 0 <= i < |ps| :: qs[i] == ps[i].(required := qs[i].required))
    ensures RequiredNames(ps) == RequiredNames(qs)
  {
    TextParses(ps, fmt, parse);
    TextParses(qs, fmt, parse);
    SameJsonSameParts(ps, qs, fmt);
    forall i | 0 <= i < |ps| ensures qs[i] == ps[i].(required := qs[i].required) {
      assert PropertyMembers(ps, fmt)[i] == PropertyMembers(qs, fmt)[i];
      ReadBackMember(ps[i], {}, fmt, parse);
      ReadBackMember(qs[i], {}, fmt, parse);
    }
  }

  /** The text determines a schema that is not ambiguous. */
  lemma {:induction false} TextDeterminesSchema<F(!new)>(ps: seq<Property<F>>, qs: seq<Property<F>>, fmt: F -> string, parse: string -> Option<F>)
    requires AllReadable(ps, fmt, parse) && AllReadable(qs, fmt, parse)
    requires !Ambiguous(ps) && CanonicalText(ps, fmt) == CanonicalText(qs, fmt)
    ensures ps == qs
  {
    SameTextSameParts(ps, qs, fmt, parse);
    RequiredArePicked(ps);
    RequiredArePicked(qs);
    assert Names(ps) == Names(qs);
    if Flags(ps) != Flags(qs) {
      var i, j := DifferenceIsMovable(Names(ps), Flags(ps), Flags(qs));
    }
    forall i | 0 <= i < |ps| ensures ps[i] == qs[i] {
      assert Flags(ps)[i] == Flags(qs)[i];
    }
  }

  function Reflagged<F>(props: seq<Property<F>>, flags: seq<bool>): (r: seq<Property<F>>)
    requires |flags| == |props|
    ensures |r| == |props| && forall i | 0 <= i < |props| :: r[i] == props[i].(required := flags[i])
  {
    seq(|props|, i requires 0 <= i < |props| => props[i].(required := flags[i]))
  }

  lemma {:induction false} ReflaggedReadable<F(!new)>(props: seq<Property<F>>, flags: seq<bool>, fmt: F -> string, parse: string -> Option<F>)
    requires |flags| == |props| && AllReadable(props, fmt, parse)
    ensures AllReadable(Reflagged(props, flags), fmt, parse)
  {
    var qs := Reflagged(props, flags);
    forall i | 0 <= i < |qs| ensures Readable(qs[i], fmt, parse) {
      assert Readable(props[i], fmt, parse);
    }
  }

  lemma {:induction false} ReflaggedMembers<F(!new)>(props: seq<Property<F>>, flags: seq<bool>, fmt: F -> string)
    requires |flags| == |props|
    ensures PropertyMembers(Reflagged(props, flags), fmt) == PropertyMembers(props, fmt)
  {
    var qs := Reflagged(props, flags);
    forall i | 0 <= i < |props| ensures PropertyMember(qs[i], fmt) == PropertyMember(props[i], fmt) {
      assert Slots(qs[i], fmt) == Slots(props[i], fmt);
    }
  }

  lemma {:induction false} ReflaggedRequired<F(!new)>(props: seq<Property<F>>, flags: seq<bool>)
    requires |flags| == |props| && Picked(Names(props), flags) == Picked(Names(props), Flags(props))
    ensures RequiredNames(Reflagged(props, flags)) == RequiredNames(props)
  {
    var qs := Reflagged(props, flags);
    assert Names(qs) == Names(props) && Flags(qs) == flags;
    RequiredArePicked(props);
    RequiredArePicked(qs);
  }

  lemma {:induction false} ReflaggedText<F(!new)>(props: seq<Property<F>>, flags: seq<bool>, fmt: F -> string)
    requires |flags| == |props| && Picked(Names(props), flags) == Picked(Names(props), Flags(props))
    ensures CanonicalText(Reflagged(props, flags), fmt) == CanonicalText(props, fmt)
  {
    ReflaggedRequired(props, flags);
    ReflaggedMembers(props, flags, fmt);
  }
}
