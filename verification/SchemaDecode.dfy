/**
 Binding a schema to a Go struct and decoding a client's answer into it
 (`elicitation/reflection.go`). A struct is a sequence of fields; floats are reals; parsed
 `jsonschema` tags and numeric readings of default literals are inputs.
 */
module SchemaDecode {
  import opened Wrappers
  import opened SchemaText
  import opened RequiredLists

  // ----- struct fields and what they may hold -----

  datatype Kind = KString | KInt | KUint | KFloat | KBool

  datatype Field = Unset | HoldString(s: string) | HoldBool(b: bool) | HoldInt(n: int) | HoldFloat(x: real)

  /** A decoded JSON value. */
  datatype Any = Null | AString(s: string) | ANumber(x: real) | ABool(b: bool) | AOther

  function TypeOfKind(k: Kind): string {
    match k
    case KString => "string"
    case KInt => "integer"
    case KUint => "integer"
    case KFloat => "number"
    case KBool => "boolean"
  }

  /** A property and the struct field it fills; optional properties have pointer fields. */
  datatype Bound = Bound(prop: Property<real>, field: nat, kind: Kind)

  predicate TypeMatchesKind(b: Bound) {
    b.prop.ptype == TypeOfKind(b.kind)
  }

  // ----- building the property list from a struct type -----

  datatype Literal = Literal(text: string, number: Option<real>)

  datatype Tag = Tag(
    title: string,
    description: string,
    format: string,
    enumValues: seq<string>,
    enumNames: seq<string>,
    default: Option<Literal>,
    minLength: Option<int>,
    maxLength: Option<int>,
    minimum: Option<real>,
    maximum: Option<real>)

  datatype StructField = StructField(exported: bool, hidden: bool, name: string, kind: Option<Kind>, isPointer: bool, tag: Tag)

  datatype FieldOutcome = Skipped | Panics | Yields(b: Bound)

  predicate Integral(x: real) {
    x == x.Floor as real
  }

  /** The default the tag asks for, or nothing where the original panics. */
  function DefaultFor(kind: Kind, isPointer: bool, tag: Tag): Option<Default<real>> {
    if tag.default.None? then Some(NoDefault)
    else
      var lit := tag.default.value;
      if !isPointer && kind != KBool then None
      else match kind
        case KBool =>
          if lit.text == "true" || lit.text == "false" then Some(BoolDefault(lit.text == "true")) else None
        case KString =>
          if tag.enumValues != [] && lit.text !in tag.enumValues then None
          else if tag.minLength.Some? && Utf8Len(lit.text) < tag.minLength.value then None
          else if tag.maxLength.Some? && Utf8Len(lit.text) > tag.maxLength.value then None
          else Some(StringDefault(lit.text))
        case _ =>
          if lit.number.None? then None
          else
            var x := lit.number.value;
            if (kind == KInt || kind == KUint) && !Integral(x) then None
            else if tag.minimum.Some? && x < tag.minimum.value then None
            else if tag.maximum.Some? && x > tag.maximum.value then None
            else Some(NumberDefault(x))
  }

  function OutcomeOf(f: StructField, i: nat): FieldOutcome {
    if !f.exported || f.hidden || f.kind.None? then Skipped
    else
      var t := f.tag;
      match DefaultFor(f.kind.value, f.isPointer, t)
      case None => Panics
      case Some(d) =>
        Yields(Bound(Property(f.name, TypeOfKind(f.kind.value), t.title, t.description,
                              if f.kind.value == KString then t.format else "",
                              t.enumValues,
                              if |t.enumNames| == |t.enumValues| then t.enumNames else [],
                              d, t.minLength, t.maxLength, t.minimum, t.maximum, !f.isPointer),
                     i, f.kind.value))
  }

  /** Which fields are skipped, and which property a field's declaration and tag turn into. */
  lemma {:induction false} FieldBecomesProperty(f: StructField, i: nat)
    ensures OutcomeOf(f, i).Skipped? <==> !f.exported || f.hidden || f.kind.None?
    ensures OutcomeOf(f, i).Yields? ==>
      && var b, p, t := OutcomeOf(f, i).b, OutcomeOf(f, i).b.prop, f.tag;
      && b.field == i && f.kind == Some(b.kind)
      && p.name == f.name && p.required == !f.isPointer
      && p.ptype == (match b.kind case KString => "string" case KBool => "boolean" case KFloat => "number" case _ => "integer")
      && p.title == t.title && p.description == t.description
      && p.format == (if b.kind == KString then t.format else "")
      && p.enumValues == t.enumValues && p.enumNames == (if |t.enumNames| == |t.enumValues| then t.enumNames else [])
      && p.minLength == t.minLength && p.maxLength == t.maxLength && p.minimum == t.minimum && p.maximum == t.maximum
      && (t.default.None? <==> p.default.NoDefault?)
      && (t.default.Some? && b.kind == KBool ==> p.default == BoolDefault(t.default.value.text == "true"))
      && (t.default.Some? && b.kind == KString ==> p.default == StringDefault(t.default.value.text))
      && (t.default.Some? && b.kind != KBool && b.kind != KString ==>
            t.default.value.number.Some? && p.default == NumberDefault(t.default.value.number.value))
  {
  }

  predicate BreaksText(t: Tag, text: string) {
    || (t.enumValues != [] && text !in t.enumValues)
    || (t.minLength.Some? && Utf8Len(text) < t.minLength.value)
    || (t.maxLength.Some? && Utf8Len(text) > t.maxLength.value)
  }

  predicate BreaksRange(t: Tag, number: Option<real>, whole: bool) {
    || number.None?
    || (whole && !Integral(number.value))
    || (t.minimum.Some? && number.value < t.minimum.value)
    || (t.maximum.Some? && number.value > t.maximum.value)
  }

  /** When building panics: on a default that a required field may not have or that breaks the field's own constraints. */
  lemma {:induction false} FieldPanicsIff(f: StructField, i: nat)
    requires f.exported && !f.hidden && f.kind.Some?
    ensures OutcomeOf(f, i).Panics? <==>
      && f.tag.default.Some?
      && (f.kind == Some(KBool) ==> f.tag.default.value.text != "true" && f.tag.default.value.text != "false")
      && (f.kind == Some(KString) && f.isPointer ==> BreaksText(f.tag, f.tag.default.value.text))
      && (f.kind != Some(KBool) && f.kind != Some(KString) && f.isPointer ==>
            BreaksRange(f.tag, f.tag.default.value.number, f.kind != Some(KFloat)))
  {
  }

  /** Each property has its own field, in declaration order. */
  predicate FieldsInOrder(props: seq<Bound>, n: nat) {
    && (forall i | 0 <= i < |props| :: props[i].field < n)
    && (forall i, j | 0 <= i < j < |props| :: props[i].field < props[j].field)
  }

  /** The properties come from the first n fields, in order. */
  ghost predicate BuiltFrom(props: seq<Bound>, fields: seq<StructField>, n: nat) {
    && n <= |fields|
    && FieldsInOrder(props, n)
    && forall k | 0 <= k < |props| :: OutcomeOf(fields[props[k].field], props[k].field) == Yields(props[k])
  }

  predicate HasField(props: seq<Bound>, i: nat) {
    exists k :: 0 <= k < |props| && props[k].field == i
  }

  /** No field panics, and the properties are exactly those of the usable fields, in order. */
  ghost predicate IsBuild(fields: seq<StructField>, props: seq<Bound>) {
    && BuiltFrom(props, fields, |fields|)
    && (forall i: nat | i < |fields| :: !OutcomeOf(fields[i], i).Panics?)
    && (forall i: nat | i < |fields| && OutcomeOf(fields[i], i).Yields? :: HasField(props, i))
  }

  method BuildProperties(fields: seq<StructField>) returns (r: Option<seq<Bound>>)
    ensures r.None? <==> exists i: nat :: i < |fields| && OutcomeOf(fields[i], i).Panics?
    ensures r.Some? ==> IsBuild(fields, r.value)
  {
    var props: seq<Bound> := [];
    for i := 0 to |fields|
      invariant forall k: nat | k < i :: !OutcomeOf(fields[k], k).Panics?
      invariant BuiltFrom(props, fields, i)
      invariant forall k: nat | k < i && OutcomeOf(fields[k], k).Yields? :: HasField(props, k)
    {
      match OutcomeOf(fields[i], i)
      case Skipped =>
      case Panics => return None;
      case Yields(b) =>
        ghost var before := props;
        props := props + [b];
        assert props[|props| - 1] == b;
        forall k: nat | HasField(before, k) ensures HasField(props, k) {
          var j :| 0 <= j < |before| && before[j].field == k;
          assert props[j].field == k;
        }
    }
    r := Some(props);
  }

  // ----- constraints -----

  /** What the decoder demands of a value: everything the schema says but that integers are whole. */
  predicate Conforms(p: Property<real>, v: Any) {
    && (p.enumValues != [] ==> v.AString? && v.s in p.enumValues)
    && (p.ptype == "string" ==>
          && v.AString?
          && (p.minLength.Some? ==> p.minLength.value <= Utf8Len(v.s))
          && (p.maxLength.Some? ==> Utf8Len(v.s) <= p.maxLength.value))
    && (p.ptype == "number" || p.ptype == "integer" ==>
          && v.ANumber?
          && (p.minimum.Some? ==> p.minimum.value <= v.x)
          && (p.maximum.Some? ==> v.x <= p.maximum.value))
    && (p.ptype == "boolean" ==> v.ABool?)
  }

  /** What the published schema demands of a value. */
  predicate Meets(p: Property<real>, v: Any) {
    Conforms(p, v) && (p.ptype == "integer" && v.ANumber? ==> Integral(v.x))
  }

  function Truncate(x: real): int {
    if x < 0.0 then -((-x).Floor) else x.Floor
  }

  function ConvertNumber(kind: Kind, x: real): Field {
    match kind
    case KInt => HoldInt(Truncate(x))
    case KUint => HoldInt(if x < 0.0 then 0 else Truncate(x))
    case _ => HoldFloat(x)
  }

  /** `assignPrimitive`: validate, then store. */
  method AssignPrimitive(b: Bound, v: Any) returns (r: Option<Field>)
    requires TypeMatchesKind(b)
    ensures r.Some? <==> Conforms(b.prop, v)
    ensures r.Some? ==> r.value == Stored(b, v)
    ensures r.Some? ==> b.prop.enumValues == [] || (v.AString? && v.s in b.prop.enumValues)
    ensures b.kind == KBool && b.prop.enumValues == [] ==> (r.Some? <==> v.ABool?)
    ensures b.kind == KString && (b.prop.enumValues == [] || (v.AString? && v.s in b.prop.enumValues)) ==>
      (r.Some? <==>
        && v.AString?
        && (b.prop.minLength.None? || b.prop.minLength.value <= Utf8Len(v.s))
        && (b.prop.maxLength.None? || Utf8Len(v.s) <= b.prop.maxLength.value))
    ensures b.kind != KBool && b.kind != KString && b.prop.enumValues == [] ==>
      (r.Some? <==>
        && v.ANumber?
        && (b.prop.minimum.None? || b.prop.minimum.value <= v.x)
        && (b.prop.maximum.None? || v.x <= b.prop.maximum.value))
  {
    if v.Null? {
      return None;
    }
    if |b.prop.enumValues| > 0 {
      if !v.AString? {
        return None;
      }
      if v.s !in b.prop.enumValues {
        return None;
      }
    }
    match b.kind
    case KString =>
      if !v.AString? {
        return None;
      }
      if b.prop.minLength.Some? && Utf8Len(v.s) < b.prop.minLength.value {
        return None;
      }
      if b.prop.maxLength.Some? && Utf8Len(v.s) > b.prop.maxLength.value {
        return None;
      }
      r := Some(HoldString(v.s));
    case KBool =>
      if !v.ABool? {
        return None;
      }
      r := Some(HoldBool(v.b));
    case _ =>
      if !v.ANumber? {
        return None;
      }
      if b.prop.minimum.Some? && v.x < b.prop.minimum.value {
        return None;
      }
      if b.prop.maximum.Some? && v.x > b.prop.maximum.value {
        return None;
      }
      r := Some(ConvertNumber(b.kind, v.x));
  }

  /** What a field holds after a value was accepted for it. */
  function Stored(b: Bound, v: Any): Field {
    match v
    case AString(s) => HoldString(s)
    case ABool(x) => HoldBool(x)
    case ANumber(x) => ConvertNumber(b.kind, x)
    case _ => Unset
  }

  /** The field holds the very value that was supplied. */
  predicate Holds(f: Field, v: Any) {
    match f
    case Unset => false
    case HoldString(s) => v == AString(s)
    case HoldBool(b) => v == ABool(b)
    case HoldInt(n) => v == ANumber(n as real)
    case HoldFloat(x) => v == ANumber(x)
  }

  lemma {:induction false} NegatedWhole(n: int)
    ensures (-(n as real)).Floor == -n
  {
    assert -(n as real) == (-n) as real;
  }

  lemma {:induction false} TruncateExact(x: real)
    ensures Truncate(x) as real == x <==> Integral(x)
  {
    if x < 0.0 {
      NegatedWhole(x.Floor);
      NegatedWhole((-x).Floor);
      var n := (-x).Floor;
      assert (-n) as real == -(n as real);
    }
  }

  lemma {:induction false} CutTowardZero(x: real)
    ensures x >= 0.0 ==> Truncate(x) as real <= x < Truncate(x) as real + 1.0
    ensures x < 0.0 ==> Truncate(x) as real - 1.0 < x <= Truncate(x) as real
  {
    var n := (-x).Floor;
    assert (-n) as real == -(n as real);
  }

  /**
   Acceptance against the published schema. A value accepted for a field is stored as it was
   sent if and only if it is no number for an integer field, or a whole one that is not
   negative when the field is unsigned; otherwise it is cut to a neighbouring integer.
   */
  lemma {:induction false} StoredUnchangedIff(b: Bound, v: Any)
    requires TypeMatchesKind(b) && Conforms(b.prop, v)
    ensures Holds(Stored(b, v), v) <==>
      !(b.kind == KInt || b.kind == KUint) || (Integral(v.x) && (b.kind == KUint ==> v.x >= 0.0))
    ensures Meets(b.prop, v) <==> !(b.kind == KInt || b.kind == KUint) || Integral(v.x)
    ensures b.kind == KInt || b.kind == KUint ==> exists n: int ::
      && Stored(b, v) == HoldInt(n)
      && (v.x >= 0.0 ==> n as real <= v.x < n as real + 1.0)
      && (v.x < 0.0 && b.kind == KInt ==> n as real - 1.0 < v.x <= n as real)
      && (v.x < 0.0 && b.kind == KUint ==> n == 0)
  {
    if b.kind == KInt || b.kind == KUint {
      CutTowardZero(v.x);
      assert Stored(b, v) == HoldInt(if b.kind == KUint && v.x < 0.0 then 0 else Truncate(v.x));
    }
    if b.kind == KInt || b.kind == KUint {
      TruncateExact(v.x);
    }
  }

  /** The accepted values the schema rejects, and the valid ones that are changed. */
  lemma {:induction false} LossyIntegersAreAccepted(b: Bound)
    requires b.prop.ptype == "integer" && b.prop.enumValues == [] && b.prop.minimum.None? && b.prop.maximum.None?
    ensures Conforms(b.prop, ANumber(1.5)) && !Meets(b.prop, ANumber(1.5))
    ensures b.kind == KInt ==> Stored(b, ANumber(1.5)) == HoldInt(1)
    ensures b.kind == KUint ==> Meets(b.prop, ANumber(-3.0)) && Stored(b, ANumber(-3.0)) == HoldInt(0)
  {
    assert 1.5.Floor == 1 && (-3.0).Floor == -3;
  }

  function DefaultValue(d: Default<real>): Any {
    match d
    case NoDefault => Null
    case BoolDefault(b) => ABool(b)
    case StringDefault(s) => AString(s)
    case NumberDefault(x) => ANumber(x)
  }

  /**
   A default that passed the build is a value the client could have sent, exactly when the
   field is a string or carries no enum: an enum on a number or boolean is not consulted
   for its default, while every supplied value is then rejected.
   */
  lemma {:induction false} DefaultsMeetConstraints(f: StructField, i: nat)
    requires OutcomeOf(f, i).Yields? && !OutcomeOf(f, i).b.prop.default.NoDefault?
    ensures var p := OutcomeOf(f, i).b.prop;
      Meets(p, DefaultValue(p.default)) <==> p.ptype == "string" || p.enumValues == []
  {
  }

  /** An integer with an enum and a default: the schema is built, its own default would be rejected. */
  lemma {:induction false} UnmeetableDefaultIsBuilt()
    ensures exists f: StructField ::
      && OutcomeOf(f, 0).Yields?
      && !OutcomeOf(f, 0).b.prop.default.NoDefault?
      && !Meets(OutcomeOf(f, 0).b.prop, DefaultValue(OutcomeOf(f, 0).b.prop.default))
  {
    var tag := Tag("", "", "", ["1"], [], Some(Literal("1", Some(1.0))), None, None, None, None);
    var f := StructField(true, false, "n", Some(KInt), true, tag);
    assert Integral(1.0);
    assert OutcomeOf(f, 0).Yields? && OutcomeOf(f, 0).b.prop.default == NumberDefault(1.0);
  }

  // ----- decoding -----

  /** `propIndex`: the last property of a name wins. */
  function Index(props: seq<Bound>): map<string, Bound> {
    if props == [] then map[]
    else Index(props[..|props| - 1])[props[|props| - 1].prop.name := props[|props| - 1]]
  }

  /** An indexed name leads to a property of that name, the last of its kind. */
  lemma {:induction false} IndexLast(props: seq<Bound>, k: string) returns (j: nat)
    requires k in Index(props)
    ensures j < |props| && props[j] == Index(props)[k] && props[j].prop.name == k
    ensures forall i | j < i < |props| :: props[i].prop.name != k
    decreases |props|
  {
    var last := |props| - 1;
    if props[last].prop.name == k {
      j := last;
    } else {
      j := IndexLast(props[..last], k);
      forall i | j < i < |props| ensures props[i].prop.name != k {
        if i < last {
          assert props[..last][i] == props[i];
        }
      }
    }
  }

  lemma {:induction false} IndexComplete(props: seq<Bound>, i: nat)
    requires i < |props|
    ensures props[i].prop.name in Index(props)
    decreases |props|
  {
    if i < |props| - 1 {
      IndexComplete(props[..|props| - 1], i);
    }
  }

  predicate RequiredPresent(props: seq<Bound>, raw: map<string, Any>) {
    forall i | 0 <= i < |props| && props[i].prop.required :: props[i].prop.name in raw
  }

  predicate SuppliedValid(props: seq<Bound>, raw: map<string, Any>) {
    forall k | k in raw && k in Index(props) :: Conforms(Index(props)[k].prop, raw[k])
  }

  predicate Accepts(props: seq<Bound>, raw: map<string, Any>) {
    RequiredPresent(props, raw) && SuppliedValid(props, raw)
  }

  predicate IsDefaulted(b: Bound, raw: map<string, Any>) {
    b.prop.name !in raw && !b.prop.required && !b.prop.default.NoDefault?
  }

  /** What one property's field holds once the names in `seen` were assigned. */
  function Assigned(props: seq<Bound>, raw: map<string, Any>, seen: set<string>, b: Bound): Field {
    var index := Index(props);
    if b.prop.name in seen && b.prop.name in raw && b.prop.name in index && index[b.prop.name] == b then Stored(b, raw[b.prop.name]) else Unset
  }

  function FinalValue(props: seq<Bound>, raw: map<string, Any>, b: Bound): Field {
    if IsDefaulted(b, raw) then Stored(b, DefaultValue(b.prop.default)) else Assigned(props, raw, raw.Keys, b)
  }

  /** The struct a successful decode produces; fields outside the schema stay zero. */
  ghost predicate IsDecoded(props: seq<Bound>, raw: map<string, Any>, n: nat, s: seq<Field>) {
    && |s| == n
    && (forall i | 0 <= i < |props| && props[i].field < n :: s[props[i].field] == FinalValue(props, raw, props[i]))
    && (forall f: nat | f < n && (forall i | 0 <= i < |props| :: props[i].field != f) :: s[f] == Unset)
  }

  /** The result is fully determined: at most one struct satisfies the description. */
  lemma {:induction false} DecodedIsUnique(props: seq<Bound>, raw: map<string, Any>, n: nat, s: seq<Field>, t: seq<Field>)
    requires IsDecoded(props, raw, n, s) && IsDecoded(props, raw, n, t)
    ensures s == t
  {
    forall f: nat | f < n ensures s[f] == t[f] {
      if i :| 0 <= i < |props| && props[i].field == f {
        assert s[props[i].field] == t[props[i].field];
      }
    }
  }

  /** The struct after the keys in `seen` were processed. */
  ghost predicate Partial(props: seq<Bound>, raw: map<string, Any>, seen: set<string>, n: nat, s: seq<Field>) {
    && |s| == n
    && (forall i | 0 <= i < |props| && props[i].field < n :: s[props[i].field] == Assigned(props, raw, seen, props[i]))
    && (forall f: nat | f < n && (forall i | 0 <= i < |props| :: props[i].field != f) :: s[f] == Unset)
  }

  /** A key touches no property but the one it is indexed under. */
  lemma {:induction false} AssignedFrame(props: seq<Bound>, raw: map<string, Any>, seen: set<string>, k: string, b: Bound)
    requires k in raw
    ensures Assigned(props, raw, seen + {k}, b) ==
      if k == b.prop.name && k in Index(props) && Index(props)[k] == b then Stored(b, raw[k]) else Assigned(props, raw, seen, b)
  {
  }

  lemma {:induction false} UnknownKey(props: seq<Bound>, raw: map<string, Any>, seen: set<string>, n: nat, s: seq<Field>, k: string)
    requires Partial(props, raw, seen, n, s) && k in raw && k !in Index(props)
    ensures Partial(props, raw, seen + {k}, n, s)
  {
    forall i | 0 <= i < |props| && props[i].field < n
      ensures s[props[i].field] == Assigned(props, raw, seen + {k}, props[i])
    {
      AssignedFrame(props, raw, seen, k, props[i]);
    }
  }

  lemma {:induction false} KnownKey(props: seq<Bound>, raw: map<string, Any>, seen: set<string>, n: nat, s: seq<Field>, k: string, j: nat)
    requires FieldsInOrder(props, n) && Partial(props, raw, seen, n, s)
    requires k in raw && k in Index(props) && j < |props| && props[j] == Index(props)[k] && props[j].prop.name == k
    ensures Partial(props, raw, seen + {k}, n, s[props[j].field := Stored(props[j], raw[k])])
  {
    var s' := s[props[j].field := Stored(props[j], raw[k])];
    forall i | 0 <= i < |props| && props[i].field < n
      ensures s'[props[i].field] == Assigned(props, raw, seen + {k}, props[i])
    {
      AssignedFrame(props, raw, seen, k, props[i]);
      assert s[props[i].field] == Assigned(props, raw, seen, props[i]);
      if i != j {
        assert props[i].field != props[j].field;
      }
    }
  }

  lemma {:induction false} PartialStep(props: seq<Bound>, raw: map<string, Any>, seen: set<string>, n: nat, s: seq<Field>, k: string)
    requires FieldsInOrder(props, n) && Partial(props, raw, seen, n, s) && k in raw
    ensures k !in Index(props) ==> Partial(props, raw, seen + {k}, n, s)
    ensures k in Index(props) ==>
      var b := Index(props)[k];
      b.field < n && Partial(props, raw, seen + {k}, n, s[b.field := Stored(b, raw[k])])
  {
    if k in Index(props) {
      var j := IndexLast(props, k);
      KnownKey(props, raw, seen, n, s, k, j);
    } else {
      UnknownKey(props, raw, seen, n, s, k);
    }
  }

  /** The keys of an object, each once, in whatever order the runtime ranges over them. */
  ghost predicate Enumerates(order: seq<string>, raw: map<string, Any>) {
    && (forall k :: k in order <==> k in raw)
    && (forall i, j | 0 <= i < j < |order| :: order[i] != order[j])
  }

  class Decoder {
    const props: seq<Bound>
    var target: seq<Field>

    ghost predicate Valid()
      reads this
    {
      FieldsInOrder(props, |target|) && forall b | b in props :: TypeMatchesKind(b)
    }

    constructor (props: seq<Bound>, target: seq<Field>)
      requires FieldsInOrder(props, |target|) && forall b | b in props :: TypeMatchesKind(b)
      ensures Valid() && this.props == props && this.target == target
    {
      this.props := props;
      this.target := target;
    }

    /** First loop: assign what the client supplied, into a fresh struct. */
    method AssignSupplied(raw: map<string, Any>, order: seq<string>) returns (filled: Option<seq<Field>>)
      requires Valid() && Enumerates(order, raw)
      ensures filled.Some? <==> SuppliedValid(props, raw)
      ensures filled.Some? ==> Partial(props, raw, raw.Keys, |target|, filled.value)
    {
      var index := Index(props);
      var s: seq<Field> := seq(|target|, _ => Unset);
      ghost var seen: set<string> := {};
      for i := 0 to |order|
        invariant seen == set j | 0 <= j < i :: order[j]
        invariant Partial(props, raw, seen, |target|, s)
        invariant forall k | k in seen && k in index :: Conforms(index[k].prop, raw[k])
      {
        var k := order[i];
        PartialStep(props, raw, seen, |target|, s, k);
        if k in index {
          ghost var _ := IndexLast(props, k);
          var v := AssignPrimitive(index[k], raw[k]);
          if v.None? {
            return None;
          }
          s := s[index[k].field := v.value];
        }
        seen := seen + {k};
      }
      assert seen == raw.Keys;
      filled := Some(s);
    }

    /** Last loop: defaults for optional fields the client left out. */
    method ApplyDefaults(raw: map<string, Any>, s0: seq<Field>) returns (s: seq<Field>)
      requires Valid() && Partial(props, raw, raw.Keys, |target|, s0)
      ensures IsDecoded(props, raw, |target|, s)
    {
      s := s0;
      for j := 0 to |props|
        invariant |s| == |target|
        invariant forall i | 0 <= i < j :: s[props[i].field] == FinalValue(props, raw, props[i])
        invariant forall i | j <= i < |props| :: s[props[i].field] == Assigned(props, raw, raw.Keys, props[i])
        invariant forall f: nat | f < |s| && (forall i | 0 <= i < |props| :: props[i].field != f) :: s[f] == Unset
      {
        var b := props[j];
        if b.prop.name !in raw && !b.prop.required && !b.prop.default.NoDefault? {
          s := s[b.field := Stored(b, DefaultValue(b.prop.default))];
        }
      }
    }

    /**
     All or nothing, and independent of iteration order: acceptance and the resulting
     struct are determined by the schema and the values alone.
     */
    method Decode(raw: map<string, Any>, order: seq<string>) returns (ok: bool)
      requires Valid() && Enumerates(order, raw)
      modifies this
      ensures Valid()
      ensures ok <==> Accepts(props, raw)
      ensures ok ==> IsDecoded(props, raw, |old(target)|, target)
      ensures !ok ==> target == old(target)
    {
      var missing: set<string> := set i | 0 <= i < |props| && props[i].prop.required :: props[i].prop.name;
      var filled := AssignSupplied(raw, order);
      if filled.None? {
        return false;
      }
      if exists k :: k in missing && k !in raw {
        return false;
      }
      assert forall i | 0 <= i < |props| && props[i].prop.required :: props[i].prop.name in missing;
      target := ApplyDefaults(raw, filled.value);
      ok := true;
    }
  }

  /** Whether a later property has the same name. */
  predicate Shadowed(props: seq<Bound>, i: nat)
    requires i < |props|
  {
    exists j :: i < j < |props| && props[j].prop.name == props[i].prop.name
  }

  /**
   What success means for the caller: each supplied known value met the constraints of the
   last property of its name and sits in that one's field; a shadowed field stays unset; an
   absent field is optional and holds its default, or nothing when it has none.
   */
  lemma {:induction false} DecodeMeaning(props: seq<Bound>, raw: map<string, Any>, n: nat, s: seq<Field>, i: nat)
    requires FieldsInOrder(props, n) && Accepts(props, raw) && IsDecoded(props, raw, n, s) && i < |props|
    ensures var b := props[i];
      if b.prop.name !in raw then
        !b.prop.required && s[b.field] == if b.prop.default.NoDefault? then Unset else Stored(b, DefaultValue(b.prop.default))
      else if Shadowed(props, i) then s[b.field] == Unset
      else Conforms(b.prop, raw[b.prop.name]) && s[b.field] == Stored(b, raw[b.prop.name])
  {
    IndexComplete(props, i);
    var j := IndexLast(props, props[i].prop.name);
    if Shadowed(props, i) {
      var k :| i < k < |props| && props[k].prop.name == props[i].prop.name;
      assert i < k <= j && props[i].field < props[j].field;
    } else {
      assert j == i;
    }
  }

  /**
   From struct type to decoded struct: a list built from any struct binds to it, its
   properties are printable by the encoder, and after a successful decode an absent field is
   optional and holds its default, a value the client could have sent unless it is a number
   or boolean with an enum.
   */
  lemma {:induction false} BuiltSchemaDecodes(fields: seq<StructField>, props: seq<Bound>, raw: map<string, Any>, s: seq<Field>, i: nat)
    requires IsBuild(fields, props) && Accepts(props, raw) && IsDecoded(props, raw, |fields|, s) && i < |props|
    ensures TypeMatchesKind(props[i]) && WellFormed(props[i].prop)
    ensures var b := props[i];
      b.prop.name !in raw ==>
        && fields[b.field].isPointer
        && if b.prop.default.NoDefault? then s[b.field] == Unset
           else
             && s[b.field] == Stored(b, DefaultValue(b.prop.default))
             && (Meets(b.prop, DefaultValue(b.prop.default)) <==> b.kind == KString || b.prop.enumValues == [])
  {
    var b := props[i];
    assert OutcomeOf(fields[b.field], b.field) == Yields(b);
    DecodeMeaning(props, raw, |fields|, s, i);
    if !b.prop.default.NoDefault? {
      DefaultsMeetConstraints(fields[b.field], b.field);
    }
  }

  // ----- which struct schemas their text identifies -----

  function Props(bs: seq<Bound>): (r: seq<Property<real>>)
    ensures |r| == |bs| && forall i | 0 <= i < |bs| :: r[i] == bs[i].prop
  {
    seq(|bs|, i requires 0 <= i < |bs| => bs[i].prop)
  }

  /** Whether the field could be made required: a required field has no default unless boolean. */
  predicate MayRequire(p: Property<real>) {
    p.default.NoDefault? || p.ptype == "boolean"
  }

  /**
   Two properties of one name, one required and one not, with no required one between them,
   the other of which could be required instead.
   */
  predicate Interchangeable(ps: seq<Property<real>>, i: nat, j: nat) {
    && Movable(Names(ps), Flags(ps), i, j)
    && MayRequire(ps[if ps[i].required then j else i])
  }

  lemma {:induction false} BuiltMayRequire(fields: seq<StructField>, bs: seq<Bound>, k: nat)
    requires IsBuild(fields, bs) && k < |bs| && bs[k].prop.required
    ensures MayRequire(bs[k].prop)
  {
    assert OutcomeOf(fields[bs[k].field], bs[k].field) == Yields(bs[k]);
  }

  /** Another struct with the same text has a required field where this one could have it too. */
  lemma {:induction false} SharedTextIsInterchangeable(fields: seq<StructField>, bs: seq<Bound>, fs: seq<StructField>, cs: seq<Bound>,
                                                       fmt: real -> string, parse: string -> Option<real>) returns (i: nat, j: nat)
    requires IsBuild(fields, bs) && IsBuild(fs, cs)
    requires AllReadable(Props(bs), fmt, parse) && AllReadable(Props(cs), fmt, parse)
    requires CanonicalText(Props(bs), fmt) == CanonicalText(Props(cs), fmt) && Props(bs) != Props(cs)
    ensures Interchangeable(Props(bs), i, j)
  {
    var ps, qs := Props(bs), Props(cs);
    SameTextSameParts(ps, qs, fmt, parse);
    i, j := MovedFlag(ps, qs);
    BuiltMayRequire(fs, cs, if ps[i].required then j else i);
  }

  lemma {:induction false} MovedFlag(ps: seq<Property<real>>, qs: seq<Property<real>>) returns (i: nat, j: nat)
    requires |ps| == |qs| && ps != qs && (forall i | 0 <= i < |ps| :: qs[i] == ps[i].(required := qs[i].required))
    requires RequiredNames(ps) == RequiredNames(qs)
    ensures Movable(Names(ps), Flags(ps), i, j) && i < j < |ps| && qs[if ps[i].required then j else i].required
  {
    RequiredArePicked(ps);
    RequiredArePicked(qs);
    assert Names(ps) == Names(qs);
    DifferentFlags(ps, qs);
    i, j := DifferenceIsMovable(Names(ps), Flags(ps), Flags(qs));
  }

  lemma {:induction false} DifferentFlags(ps: seq<Property<real>>, qs: seq<Property<real>>)
    requires |ps| == |qs| && ps != qs && forall i | 0 <= i < |ps| :: qs[i] == ps[i].(required := qs[i].required)
    ensures Flags(ps) != Flags(qs)
  {
    var i :| 0 <= i < |ps| && ps[i] != qs[i];
    assert Flags(ps)[i] != Flags(qs)[i];
  }

  /** Turning a field into a pointer, or back where its default allows, flips the required flag only. */
  lemma {:induction false} FlipOutcome(f: StructField, i: nat)
    requires OutcomeOf(f, i).Yields?
    requires var p := OutcomeOf(f, i).b.prop; p.required || MayRequire(p)
    ensures var b := OutcomeOf(f, i).b;
      OutcomeOf(f.(isPointer := !f.isPointer), i) == Yields(b.(prop := b.prop.(required := !b.prop.required)))
  {
  }

  function Flip(b: Bound): Bound {
    b.(prop := b.prop.(required := !b.prop.required))
  }

  function Swap(bs: seq<Bound>, i: nat, j: nat): (r: seq<Bound>)
    requires i < j < |bs|
    ensures |r| == |bs|
  {
    bs[i := Flip(bs[i])][j := Flip(bs[j])]
  }

  function FlipField(f: StructField): StructField {
    f.(isPointer := !f.isPointer)
  }

  function SwapFields(fields: seq<StructField>, bs: seq<Bound>, i: nat, j: nat): (r: seq<StructField>)
    requires i < j < |bs| && bs[i].field < |fields| && bs[j].field < |fields|
    ensures |r| == |fields|
  {
    var a, b := bs[i].field, bs[j].field;
    fields[a := FlipField(fields[a])][b := FlipField(fields[b])]
  }

  lemma {:induction false} SwapOutcomes(fields: seq<StructField>, bs: seq<Bound>, i: nat, j: nat, k: nat)
    requires IsBuild(fields, bs) && i < j < |bs| && k < |bs| && Interchangeable(Props(bs), i, j)
    ensures bs[i].field < bs[j].field
    ensures var fs := SwapFields(fields, bs, i, j);
      var cs := Swap(bs, i, j);
      cs[k].field == bs[k].field && OutcomeOf(fs[cs[k].field], cs[k].field) == Yields(cs[k])
  {
    assert OutcomeOf(fields[bs[k].field], bs[k].field) == Yields(bs[k]);
    if k == i || k == j {
      FlipOutcome(fields[bs[k].field], bs[k].field);
    } else {
      assert bs[k].field != bs[i].field && bs[k].field != bs[j].field;
    }
  }

  lemma {:induction false} SwapCovers(fields: seq<StructField>, bs: seq<Bound>, i: nat, j: nat, x: nat)
    requires IsBuild(fields, bs) && i < j < |bs| && x < |fields| && Interchangeable(Props(bs), i, j)
    ensures var o := OutcomeOf(SwapFields(fields, bs, i, j)[x], x);
      !o.Panics? && (o.Yields? ==> HasField(Swap(bs, i, j), x))
  {
    var cs := Swap(bs, i, j);
    if HasField(bs, x) {
      var k :| 0 <= k < |bs| && bs[k].field == x;
      SwapOutcomes(fields, bs, i, j, k);
      assert cs[k].field == x;
    } else {
      assert bs[i].field != x && bs[j].field != x;
    }
  }

  lemma {:induction false} SwapIsBuilt(fields: seq<StructField>, bs: seq<Bound>, i: nat, j: nat)
    requires IsBuild(fields, bs) && i < j < |bs| && Interchangeable(Props(bs), i, j)
    ensures IsBuild(SwapFields(fields, bs, i, j), Swap(bs, i, j))
  {
    var fs, cs := SwapFields(fields, bs, i, j), Swap(bs, i, j);
    forall k | 0 <= k < |cs|
      ensures cs[k].field == bs[k].field && OutcomeOf(fs[cs[k].field], cs[k].field) == Yields(cs[k])
    {
      SwapOutcomes(fields, bs, i, j, k);
    }
    forall x: nat | x < |fs|
      ensures !OutcomeOf(fs[x], x).Panics? && (OutcomeOf(fs[x], x).Yields? ==> HasField(cs, x))
    {
      SwapCovers(fields, bs, i, j, x);
    }
  }

  /** Interchangeable fields: the struct with the two flags swapped prints the same text. */
  lemma {:induction false} InterchangeableTextIsShared(bs: seq<Bound>, i: nat, j: nat, fmt: real -> string)
    requires i < j < |bs| && Interchangeable(Props(bs), i, j)
    ensures CanonicalText(Props(Swap(bs, i, j)), fmt) == CanonicalText(Props(bs), fmt)
    ensures Props(Swap(bs, i, j)) != Props(bs)
  {
    var ps := Props(bs);
    SwappedProps(bs, i, j);
    MovingKeepsPicked(Names(ps), Flags(ps), i, j);
    ReflaggedText(ps, Moved(Flags(ps), i, j), fmt);
    assert Props(Swap(bs, i, j))[i] != ps[i];
  }

  lemma {:induction false} SwappedProps(bs: seq<Bound>, i: nat, j: nat)
    requires i < j < |bs| && Interchangeable(Props(bs), i, j)
    ensures Props(Swap(bs, i, j)) == Reflagged(Props(bs), Moved(Flags(Props(bs)), i, j))
  {
    var ps := Props(bs);
    assert Flags(ps)[i] != Flags(ps)[j];
    var l, r := Props(Swap(bs, i, j)), Reflagged(ps, Moved(Flags(ps), i, j));
    forall k | 0 <= k < |bs| ensures l[k] == r[k] {
    }
  }

  /** A different struct schema with the same text. */
  ghost predicate TextShared(ps: seq<Property<real>>, fs: seq<StructField>, cs: seq<Bound>, fmt: real -> string, parse: string -> Option<real>) {
    IsBuild(fs, cs) && AllReadable(Props(cs), fmt, parse) && CanonicalText(Props(cs), fmt) == CanonicalText(ps, fmt) && Props(cs) != ps
  }

  lemma {:induction false} InterchangeableIsShared(fields: seq<StructField>, bs: seq<Bound>, i: nat, j: nat,
                                                   fmt: real -> string, parse: string -> Option<real>)
    requires IsBuild(fields, bs) && AllReadable(Props(bs), fmt, parse) && i < j < |bs| && Interchangeable(Props(bs), i, j)
    ensures TextShared(Props(bs), SwapFields(fields, bs, i, j), Swap(bs, i, j), fmt, parse)
  {
    SwapIsBuilt(fields, bs, i, j);
    InterchangeableTextIsShared(bs, i, j, fmt);
    SwappedProps(bs, i, j);
    ReflaggedReadable(Props(bs), Moved(Flags(Props(bs)), i, j), fmt, parse);
  }

  ghost predicate HasInterchangeable(ps: seq<Property<real>>) {
    exists i: nat, j: nat :: i < j < |ps| && Interchangeable(ps, i, j)
  }

  ghost predicate SomeTextShared(ps: seq<Property<real>>, fmt: real -> string, parse: string -> Option<real>) {
    exists fs, cs :: TextShared(ps, fs, cs, fmt, parse)
  }

  /**
   Exactly when the text, and so the fingerprint, identifies a struct's schema: some other
   struct schema has it, if and only if the struct has an interchangeable pair of fields.
   */
  lemma {:induction false} StructTextIdentifiesIff(fields: seq<StructField>, bs: seq<Bound>, fmt: real -> string, parse: string -> Option<real>)
    requires IsBuild(fields, bs) && AllReadable(Props(bs), fmt, parse)
    ensures SomeTextShared(Props(bs), fmt, parse) <==> HasInterchangeable(Props(bs))
  {
    if SomeTextShared(Props(bs), fmt, parse) {
      var fs, cs :| TextShared(Props(bs), fs, cs, fmt, parse);
      var i, j := SharedTextIsInterchangeable(fields, bs, fs, cs, fmt, parse);
    }
    if HasInterchangeable(Props(bs)) {
      var i: nat, j: nat :| i < j < |Props(bs)| && Interchangeable(Props(bs), i, j);
      InterchangeableIsShared(fields, bs, i, j, fmt, parse);
    }
  }

  const PLAIN_TAG := Tag("", "", "", [], [], None, None, None, None, None)

  function TextField(name: string, isPointer: bool): StructField {
    StructField(true, false, name, Some(KString), isPointer, PLAIN_TAG)
  }

  lemma {:induction false} BuildOfTwo(f: StructField, g: StructField)
    requires OutcomeOf(f, 0).Yields? && OutcomeOf(g, 1).Yields?
    ensures IsBuild([f, g], [OutcomeOf(f, 0).b, OutcomeOf(g, 1).b])
  {
    var bs := [OutcomeOf(f, 0).b, OutcomeOf(g, 1).b];
    assert bs[0].field == 0 && bs[1].field == 1;
    assert HasField(bs, 0) && HasField(bs, 1);
  }

  /** Two fields of one name, the first a pointer or the second: two schemas, one text. */
  lemma {:induction false} SwappedStructsPrintAlike(name: string, fmt: real -> string)
    ensures exists bs: seq<Bound>, cs: seq<Bound> ::
      && IsBuild([TextField(name, true), TextField(name, false)], bs)
      && IsBuild([TextField(name, false), TextField(name, true)], cs)
      && CanonicalText(Props(bs), fmt) == CanonicalText(Props(cs), fmt) && Props(bs) != Props(cs)
  {
    var opt, req := TextField(name, true), TextField(name, false);
    BuildOfTwo(opt, req);
    BuildOfTwo(req, opt);
    var bs := [OutcomeOf(opt, 0).b, OutcomeOf(req, 1).b];
    var cs := [OutcomeOf(req, 0).b, OutcomeOf(opt, 1).b];
    assert Interchangeable(Props(bs), 0, 1);
    assert Swap(bs, 0, 1) == cs;
    InterchangeableTextIsShared(bs, 0, 1, fmt);
  }
}
