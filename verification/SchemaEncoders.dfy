/**
 The two canonical encoders: the one for schemas reflected from structs
 (`elicitation/reflection.go`), which walks a property list, and the one of the schema
 builder (`elicitation/builder.go`), which goes through an intermediate map per property.
 Both write a buffer piece by piece; both are proved to produce `CanonicalText`.
 */
module SchemaEncoders {
  import opened Wrappers
  import opened JsonText
  import opened SchemaText
  import Decimal

  // ----- the canonical text, piece by piece -----

  function KeyText(key: string): string {
    ",\"" + key + "\":"
  }

  function SlotText(slots: seq<Option<Json>>, n: nat): string
    requires n < |slots| == |KEYS|
  {
    if slots[n].Some? then KeyText(KEYS[n]) + Print(slots[n].value) else ""
  }

  /** What is written for keys 1 up to n, after the type. */
  function TailText(slots: seq<Option<Json>>, n: nat): string
    requires 1 <= n <= |slots| == |KEYS|
  {
    if n == 1 then "" else TailText(slots, n - 1) + SlotText(slots, n - 1)
  }

  // Regrouping of concatenations.

  lemma {:induction false} Assoc(a: string, b: string, c: string)
    ensures (a + b) + c == a + (b + c)
  {
  }

  lemma {:induction false} CommaKey(x: string, key: string, v: string)
    ensures x + "," + ("\"" + key + "\"" + ":" + v) == x + (KeyText(key) + v)
  {
  }

  lemma {:induction false} KeyIsLetters(n: nat)
    requires n < |KEYS|
    ensures Quote(KEYS[n]) == "\"" + KEYS[n] + "\""
  {
    EscapeLetters(KEYS[n]);
  }

  lemma {:induction false} FieldsPresent(slots: seq<Option<Json>>, n: nat)
    requires 1 <= n <= |slots| == |KEYS| && slots[0].Some?
    ensures FieldsTo(slots, n) != []
  {
    if n > 1 { FieldsPresent(slots, n - 1); }
  }

  const TYPE_KEY: string := "\"" + "type" + "\"" + ":"

  lemma {:induction false} FirstField(slots: seq<Option<Json>>)
    requires |slots| == |KEYS| && slots[0].Some?
    ensures PrintMembers(FieldsTo(slots, 1)) == TYPE_KEY + Print(slots[0].value)
  {
    KeyIsLetters(0);
    assert FieldsTo(slots, 0) == [];
    assert FieldsTo(slots, 1) == [Member(KEYS[0], slots[0].value)];
  }

  lemma {:induction false} OneMoreField(slots: seq<Option<Json>>, n: nat)
    requires 1 <= n < |slots| == |KEYS| && slots[0].Some?
    ensures PrintMembers(FieldsTo(slots, n + 1)) == PrintMembers(FieldsTo(slots, n)) + SlotText(slots, n)
  {
    FieldsPresent(slots, n);
    if slots[n].Some? {
      PrintMembersAppend(FieldsTo(slots, n), Member(KEYS[n], slots[n].value));
      KeyIsLetters(n);
      CommaKey(PrintMembers(FieldsTo(slots, n)), KEYS[n], Print(slots[n].value));
    } else {
      assert FieldsTo(slots, n + 1) == FieldsTo(slots, n);
    }
  }

  lemma {:induction false} FieldsText(slots: seq<Option<Json>>, n: nat)
    requires 1 <= n <= |slots| == |KEYS| && slots[0].Some?
    ensures PrintMembers(FieldsTo(slots, n)) == TYPE_KEY + Print(slots[0].value) + TailText(slots, n)
  {
    if n == 1 {
      FirstField(slots);
    } else {
      FieldsText(slots, n - 1);
      OneMoreField(slots, n - 1);
      Assoc(TYPE_KEY + Print(slots[0].value), TailText(slots, n - 1), SlotText(slots, n - 1));
    }
  }

  function PropertyHead(name: string, ptype: string): string {
    Quote(name) + ":" + "{" + TYPE_KEY + Quote(ptype)
  }

  lemma {:induction false} RegroupProperty(q: string, t: string, tail: string)
    ensures q + ":" + ("{" + (TYPE_KEY + t + tail) + "}") == q + ":" + "{" + TYPE_KEY + t + tail + "}"
  {
  }

  lemma {:induction false} PropertyTextIsMember<F>(p: Property<F>, fmt: F -> string)
    ensures PropertyHead(p.name, p.ptype) + TailText(Slots(p, fmt), |KEYS|) + "}" == PrintMember(PropertyMember(p, fmt))
  {
    FieldsText(Slots(p, fmt), |KEYS|);
    RegroupProperty(Quote(p.name), Quote(p.ptype), TailText(Slots(p, fmt), |KEYS|));
  }

  /** `{"type":"object","properties":{` */
  const HEADER: string := "{" + (TYPE_TEXT + "," + (PROPERTIES_KEY + "{"))

  const TYPE_TEXT: string := TYPE_KEY + ("\"" + "object" + "\"")
  const PROPERTIES_KEY: string := "\"" + "properties" + "\"" + ":"

  lemma {:induction false} RegroupSchema(t: string, key: string, body: string, required: string)
    ensures "{" + (t + "," + (key + ("{" + body + "}")) + required) + "}"
         == "{" + (t + "," + (key + "{")) + body + "}" + required + "}"
  {
    assert key + ("{" + body + "}") == key + "{" + body + "}";
  }

  lemma {:induction false} TypeMember()
    ensures PrintMember(Member("type", Str("object"))) == TYPE_TEXT
  {
    PlainMember("type", Str("object"));
    PlainString("object");
  }

  lemma {:induction false} PlainString(s: string)
    requires IsLetters(s)
    ensures Print(Str(s)) == "\"" + s + "\""
  {
    EscapeLetters(s);
  }

  predicate IsLetters(key: string) {
    forall i | 0 <= i < |key| :: 'a' <= key[i] <= 'z' || 'A' <= key[i] <= 'Z'
  }

  lemma {:induction false} PlainMember(key: string, v: Json)
    requires IsLetters(key)
    ensures PrintMember(Member(key, v)) == "\"" + key + "\"" + ":" + Print(v)
  {
    EscapeLetters(key);
  }

  lemma {:induction false} ObjectMember(key: string, ms: seq<Member>)
    requires IsLetters(key)
    ensures PrintMember(Member(key, Obj(ms))) == "\"" + key + "\"" + ":" + ("{" + PrintMembers(ms) + "}")
  {
    PlainMember(key, Obj(ms));
  }

  lemma {:induction false} PropertiesIsLetters()
    ensures IsLetters("properties")
  {
  }

  lemma {:induction false} PropertiesMember(ms: seq<Member>)
    ensures PrintMember(Member("properties", Obj(ms))) == PROPERTIES_KEY + ("{" + PrintMembers(ms) + "}")
  {
    PropertiesIsLetters();
    ObjectMember("properties", ms);
  }

  lemma {:induction false} TwoMembers(m1: Member, m2: Member)
    ensures PrintMembers([m1, m2]) == PrintMember(m1) + "," + PrintMember(m2)
  {
    assert [m1, m2][1..] == [m2];
  }

  lemma {:induction false} RequiredMember(ms: seq<Member>, names: Json)
    requires ms != []
    ensures PrintMembers(ms + [Member("required", names)]) == PrintMembers(ms) + (KeyText("required") + Print(names))
  {
    EscapeLetters("required");
    PrintMembersAppend(ms, Member("required", names));
    CommaKey(PrintMembers(ms), "required", Print(names));
  }

  function RequiredText(required: seq<string>): string {
    if required != [] then KeyText("required") + Print(Arr(Strs(required))) else ""
  }

  function TypeAndProperties(props: seq<Member>): seq<Member> {
    [Member("type", Str("object")), Member("properties", Obj(props))]
  }

  function TypeAndPropertiesText(body: string): string {
    TYPE_TEXT + "," + (PROPERTIES_KEY + ("{" + body + "}"))
  }

  lemma {:induction false} TypeAndPropertiesPrinted(props: seq<Member>)
    ensures PrintMembers(TypeAndProperties(props)) == TypeAndPropertiesText(PrintMembers(props))
  {
    TypeMember();
    PropertiesMember(props);
    TwoMembers(Member("type", Str("object")), Member("properties", Obj(props)));
  }

  /** The text of a schema object from the text of its parts. */
  lemma {:induction false} ObjectText(props: seq<Member>, required: seq<string>)
    ensures Print(Obj(TypeAndProperties(props) + if required != [] then [Member("required", Arr(Strs(required)))] else []))
         == HEADER + PrintMembers(props) + "}" + RequiredText(required) + "}"
  {
    TypeAndPropertiesPrinted(props);
    if required != [] {
      RequiredMember(TypeAndProperties(props), Arr(Strs(required)));
    } else {
      assert TypeAndProperties(props) + [] == TypeAndProperties(props);
      assert TypeAndPropertiesText(PrintMembers(props)) + "" == TypeAndPropertiesText(PrintMembers(props));
    }
    RegroupSchema(TYPE_TEXT, PROPERTIES_KEY, PrintMembers(props), RequiredText(required));
  }

  /** The whole text: header, property members, and a required list unless it is empty. */
  lemma {:induction false} CanonicalTextShape<F>(props: seq<Property<F>>, fmt: F -> string)
    ensures CanonicalText(props, fmt) ==
        HEADER + PrintMembers(PropertyMembers(props, fmt)) + "}" + RequiredText(RequiredNames(props)) + "}"
  {
    ObjectText(PropertyMembers(props, fmt), RequiredNames(props));
  }

  lemma {:induction false} RequiredAppend<F>(props: seq<Property<F>>, p: Property<F>)
    ensures RequiredNames(props + [p]) == RequiredNames(props) + if p.required then [p.name] else []
  {
    assert (props + [p])[..|props|] == props;
  }

  lemma {:induction false} MembersAppend<F>(props: seq<Property<F>>, p: Property<F>, fmt: F -> string)
    ensures PropertyMembers(props + [p], fmt) == PropertyMembers(props, fmt) + [PropertyMember(p, fmt)]
  {
  }

  // ----- shared pieces -----

  lemma {:induction false} OneMoreItem(start: string, arr: seq<string>, i: nat)
    requires i < |arr|
    ensures var before := start + PrintItems(Strs(arr[..i]));
      start + PrintItems(Strs(arr[..i + 1])) == (if i > 0 then before + "," else before) + Quote(arr[i])
  {
    var items := Strs(arr[..i]);
    assert Strs(arr[..i + 1]) == items + [Str(arr[i])];
    PrintItemsAppend(items, Str(arr[i]));
    Assoc(start, PrintItems(items), ",");
    Assoc(start, PrintItems(items) + ",", Quote(arr[i]));
  }

  method WriteStringArray(buf: string, arr: seq<string>) returns (out: string)
    ensures out == buf + Print(Arr(Strs(arr)))
  {
    out := buf + "[";
    ghost var start := out;
    for i := 0 to |arr|
      invariant out == start + PrintItems(Strs(arr[..i]))
    {
      OneMoreItem(start, arr, i);
      if i > 0 {
        out := out + ",";
      }
      out := out + Quote(arr[i]);
    }
    assert arr[..|arr|] == arr;
    out := out + "]";
    RegroupArray(buf, PrintItems(Strs(arr)));
  }

  lemma {:induction false} RegroupArray(buf: string, items: string)
    ensures buf + "[" + items + "]" == buf + ("[" + items + "]")
  {
  }

  /** The closing part both encoders share: the required list and the final brace. */
  method WriteRequired(buf: string, required: seq<string>) returns (out: string)
    ensures out == buf + "}" + RequiredText(required) + "}"
  {
    out := buf + "}";
    if |required| > 0 {
      var start := out + KeyText("required");
      Assoc(out, KeyText("required"), Print(Arr(Strs(required))));
      out := WriteStringArray(start, required);
    }
    out := out + "}";
  }

  /** One `,"key":value` pair. */
  method WriteField(buf: string, key: string, value: string) returns (out: string)
    ensures out == buf + (KeyText(key) + value)
  {
    out := buf + KeyText(key);
    Assoc(buf, KeyText(key), value);
    out := out + value;
  }

  method WriteArrayField(buf: string, key: string, values: seq<string>) returns (out: string)
    ensures out == buf + (KeyText(key) + Print(Arr(Strs(values))))
  {
    var start := buf + KeyText(key);
    Assoc(buf, KeyText(key), Print(Arr(Strs(values))));
    out := WriteStringArray(start, values);
  }

  // ----- the encoder of reflected schemas -----

  lemma {:induction false} JoinTail(base: string, slots: seq<Option<Json>>, n: nat)
    requires 1 <= n < |slots| == |KEYS|
    ensures base + TailText(slots, n) + SlotText(slots, n) == base + TailText(slots, n + 1)
    ensures slots[n].None? ==> base + TailText(slots, n + 1) == base + TailText(slots, n)
  {
    Assoc(base, TailText(slots, n), SlotText(slots, n));
  }

  /** One optional text: nothing is written for an empty one. */
  method WriteText(buf: string, key: string, value: string, ghost base: string, ghost slots: seq<Option<Json>>, ghost n: nat)
    returns (out: string)
    requires 1 <= n < |slots| == |KEYS| && key == KEYS[n] && slots[n] == StrSlot(value)
    requires buf == base + TailText(slots, n)
    ensures out == base + TailText(slots, n + 1)
  {
    JoinTail(base, slots, n);
    out := buf;
    if value != "" {
      out := WriteField(out, key, Quote(value));
    }
  }

  method WriteTexts<F>(buf: string, p: Property<F>, fmt: F -> string) returns (out: string)
    ensures out == buf + TailText(Slots(p, fmt), 4)
  {
    ghost var s := Slots(p, fmt);
    assert buf == buf + TailText(s, 1);
    out := WriteText(buf, "title", p.title, buf, s, 1);
    out := WriteText(out, "description", p.description, buf, s, 2);
    out := WriteText(out, "format", p.format, buf, s, 3);
  }

  method WriteEnum<F>(buf: string, p: Property<F>, fmt: F -> string, ghost base: string) returns (out: string)
    requires buf == base + TailText(Slots(p, fmt), 4)
    ensures out == base + TailText(Slots(p, fmt), 6)
  {
    ghost var s := Slots(p, fmt);
    out := buf;
    JoinTail(base, s, 4);
    JoinTail(base, s, 5);
    if |p.enumValues| > 0 {
      out := WriteArrayField(out, "enum", p.enumValues);
      assert out == base + TailText(s, 5);
      if |p.enumNames| > 0 {
        out := WriteArrayField(out, "enumNames", p.enumNames);
      }
    }
  }

  method WriteDefault<F>(buf: string, p: Property<F>, fmt: F -> string, ghost base: string) returns (out: string)
    requires buf == base + TailText(Slots(p, fmt), 6)
    ensures out == base + TailText(Slots(p, fmt), 7)
  {
    JoinTail(base, Slots(p, fmt), 6);
    out := buf;
    if p.default.BoolDefault? {
      out := WriteField(buf, "default", if p.default.b then "true" else "false");
    } else if p.default.StringDefault? {
      out := WriteField(buf, "default", Quote(p.default.s));
    } else if p.default.NumberDefault? {
      out := WriteField(buf, "default", fmt(p.default.x));
    }
  }

  method WriteBounds<F>(buf: string, p: Property<F>, fmt: F -> string, ghost base: string) returns (out: string)
    requires buf == base + TailText(Slots(p, fmt), 7)
    ensures out == base + TailText(Slots(p, fmt), |KEYS|)
  {
    ghost var s := Slots(p, fmt);
    out := buf;
    JoinTail(base, s, 7);
    if p.minLength.Some? {
      out := WriteField(out, "minLength", Decimal.Itoa(p.minLength.value));
    }
    assert out == base + TailText(s, 8);
    JoinTail(base, s, 8);
    if p.maxLength.Some? {
      out := WriteField(out, "maxLength", Decimal.Itoa(p.maxLength.value));
    }
    assert out == base + TailText(s, 9);
    JoinTail(base, s, 9);
    if p.minimum.Some? {
      out := WriteField(out, "minimum", fmt(p.minimum.value));
    }
    assert out == base + TailText(s, 10);
    JoinTail(base, s, 10);
    if p.maximum.Some? {
      out := WriteField(out, "maximum", fmt(p.maximum.value));
    }
  }

  lemma {:induction false} RegroupHead(buf: string, head: string, tail: string)
    ensures (buf + head) + tail + "}" == buf + (head + tail + "}")
  {
  }

  method WriteProperty<F>(buf: string, p: Property<F>, fmt: F -> string) returns (out: string)
    ensures out == buf + PrintMember(PropertyMember(p, fmt))
  {
    out := buf + PropertyHead(p.name, p.ptype);
    ghost var base := out;
    out := WriteTexts(out, p, fmt);
    out := WriteEnum(out, p, fmt, base);
    out := WriteDefault(out, p, fmt, base);
    out := WriteBounds(out, p, fmt, base);
    out := out + "}";
    PropertyTextIsMember(p, fmt);
    RegroupHead(buf, PropertyHead(p.name, p.ptype), TailText(Slots(p, fmt), |KEYS|));
  }

  /** The text of one more property, with its separating comma. */
  lemma {:induction false} OneMoreProperty<F>(props: seq<Property<F>>, i: nat, fmt: F -> string)
    requires i < |props|
    ensures var before := HEADER + PrintMembers(PropertyMembers(props[..i], fmt));
      HEADER + PrintMembers(PropertyMembers(props[..i + 1], fmt))
      == (if i > 0 then before + "," else before) + PrintMember(PropertyMember(props[i], fmt))
  {
    var ms := PropertyMembers(props[..i], fmt);
    var m := PropertyMember(props[i], fmt);
    assert props[..i + 1] == props[..i] + [props[i]];
    MembersAppend(props[..i], props[i], fmt);
    PrintMembersAppend(ms, m);
    Assoc(HEADER, PrintMembers(ms), ",");
    Assoc(HEADER, PrintMembers(ms) + ",", PrintMember(m));
  }

  /** `marshalSchemaJSON`, with the required list that `buildReflectedSchema` collects. */
  method MarshalSchema<F>(props: seq<Property<F>>, fmt: F -> string) returns (buf: string)
    ensures buf == CanonicalText(props, fmt)
  {
    var required := [];
    for i := 0 to |props|
      invariant required == RequiredNames(props[..i])
    {
      RequiredAppend(props[..i], props[i]);
      assert props[..i + 1] == props[..i] + [props[i]];
      if props[i].required {
        required := required + [props[i].name];
      }
    }
    assert props[..|props|] == props;
    buf := HEADER;
    for i := 0 to |props|
      invariant buf == HEADER + PrintMembers(PropertyMembers(props[..i], fmt))
    {
      OneMoreProperty(props, i, fmt);
      if i > 0 {
        buf := buf + ",";
      }
      buf := WriteProperty(buf, props[i], fmt);
    }
    CanonicalTextShape(props, fmt);
    buf := WriteRequired(buf, required);
  }
}
