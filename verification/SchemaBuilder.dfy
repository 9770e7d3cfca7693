/**
 The programmatic schema builder (`elicitation/builder.go`): property options, the
 insertion-ordered property table, and the encoder that renders each property from an
 intermediate attribute map.
 */
module SchemaBuilder {
  import opened Wrappers
  import opened JsonText
  import opened SchemaText
  import opened SchemaEncoders
  import Decimal

  datatype BProperty<F> = BProperty(
    name: string,
    ptype: string,
    required: bool,
    description: string,
    enumVals: seq<string>,
    enumNames: seq<string>,
    title: string,
    format: string,
    boolDefault: Option<bool>,
    strDefault: Option<string>,
    numDefault: Option<F>,
    minLength: Option<int>,
    maxLength: Option<int>,
    minimum: Option<F>,
    maximum: Option<F>)

  function Blank<F>(name: string): BProperty<F> {
    BProperty(name, "", false, "", [], [], "", "", None, None, None, None, None, None, None)
  }

  // ----- property options -----

  datatype PropOption<F> =
    | MarkRequired
    | MarkOptional
    | SetDescription(text: string)
    | SetTitle(text: string)
    | SetFormat(text: string)
    | SetEnumNames(names: seq<string>)
    | DefaultBool(b: bool)
    | DefaultString(s: string)
    | DefaultNumber(x: F)
    | SetMinLength(n: int)
    | SetMaxLength(n: int)
    | SetMinimum(x: F)
    | SetMaximum(x: F)

  /** What the builder needs to know about floats: order, integrality and text. */
  datatype Floats<!F> = Floats(less: (F, F) -> bool, integral: F -> bool, fmt: F -> string)

  predicate HasDefault<F>(p: BProperty<F>) {
    p.boolDefault.Some? || p.strDefault.Some? || p.numDefault.Some?
  }

  predicate StringFits<F>(p: BProperty<F>, s: string) {
    && (p.enumVals != [] ==> s in p.enumVals)
    && (p.minLength.Some? ==> p.minLength.value <= Utf8Len(s))
    && (p.maxLength.Some? ==> Utf8Len(s) <= p.maxLength.value)
  }

  predicate NumberFits<F>(p: BProperty<F>, x: F, fl: Floats<F>) {
    && (p.ptype == "integer" ==> fl.integral(x))
    && (p.minimum.Some? ==> !fl.less(x, p.minimum.value))
    && (p.maximum.Some? ==> !fl.less(p.maximum.value, x))
  }

  /** One option; an error is the panic the original raises. */
  function ApplyOption<F>(o: PropOption<F>, p: BProperty<F>, fl: Floats<F>): Result<BProperty<F>, string> {
    match o
    case MarkRequired => Ok(p.(required := true))
    case MarkOptional => Ok(p.(required := false))
    case SetDescription(t) => Ok(p.(description := t))
    case SetTitle(t) => Ok(p.(title := t))
    case SetFormat(t) => Ok(if t == "email" || t == "uri" || t == "date" || t == "date-time" then p.(format := t) else p)
    case SetEnumNames(ns) => Ok(if p.enumVals == [] || |ns| != |p.enumVals| then p else p.(enumNames := ns))
    case DefaultBool(b) =>
      if p.ptype != "boolean" then Ok(p)
      else if p.required then Err("default specified on required boolean property")
      else if HasDefault(p) then Err("multiple defaults on property")
      else Ok(p.(boolDefault := Some(b)))
    case DefaultString(s) =>
      if p.ptype != "string" then Ok(p)
      else if p.required then Err("default specified on required string property")
      else if HasDefault(p) then Err("multiple defaults on property")
      else if !StringFits(p, s) then Err("default violates enum or length")
      else Ok(p.(strDefault := Some(s)))
    case DefaultNumber(x) =>
      if p.ptype != "number" && p.ptype != "integer" then Ok(p)
      else if p.required then Err("default specified on required number property")
      else if HasDefault(p) then Err("multiple defaults on property")
      else if !NumberFits(p, x, fl) then Err("default violates type or range")
      else Ok(p.(numDefault := Some(x)))
    case SetMinLength(n) => Ok(p.(minLength := Some(n)))
    case SetMaxLength(n) => Ok(p.(maxLength := Some(n)))
    case SetMinimum(x) => Ok(p.(minimum := Some(x)))
    case SetMaximum(x) => Ok(p.(maximum := Some(x)))
  }

  /**
   What an option does, field by field: which option a field's new value comes from, and that
   everything else is kept.
   */
  lemma {:induction false} OptionEffect<F>(o: PropOption<F>, p: BProperty<F>, fl: Floats<F>)
    requires ApplyOption(o, p, fl).Ok?
    ensures var q := ApplyOption(o, p, fl).value;
      && q.name == p.name && q.ptype == p.ptype && q.enumVals == p.enumVals
      && q.required == (if o.MarkRequired? then true else if o.MarkOptional? then false else p.required)
      && q.title == (if o.SetTitle? then o.text else p.title)
      && q.description == (if o.SetDescription? then o.text else p.description)
      && q.format == (if o.SetFormat? && o.text in ["email", "uri", "date", "date-time"] then o.text else p.format)
      && q.enumNames == (if o.SetEnumNames? && p.enumVals != [] && |o.names| == |p.enumVals| then o.names else p.enumNames)
      && q.minLength == (if o.SetMinLength? then Some(o.n) else p.minLength)
      && q.maxLength == (if o.SetMaxLength? then Some(o.n) else p.maxLength)
      && q.minimum == (if o.SetMinimum? then Some(o.x) else p.minimum)
      && q.maximum == (if o.SetMaximum? then Some(o.x) else p.maximum)
      && q.boolDefault == (if o.DefaultBool? && p.ptype == "boolean" then Some(o.b) else p.boolDefault)
      && q.strDefault == (if o.DefaultString? && p.ptype == "string" then Some(o.s) else p.strDefault)
      && q.numDefault == (if o.DefaultNumber? && p.ptype in ["number", "integer"] then Some(o.x) else p.numDefault)
  {
  }

  /**
   When an option panics: only a default of the property's own type does, on a required
   property, on one that has a default, or when the value breaks a constraint set before it.
   */
  lemma {:induction false} OptionPanicsIff<F>(o: PropOption<F>, p: BProperty<F>, fl: Floats<F>)
    ensures ApplyOption(o, p, fl).Err? <==>
      var taken := p.required || p.boolDefault.Some? || p.strDefault.Some? || p.numDefault.Some?;
      || (o.DefaultBool? && p.ptype == "boolean" && taken)
      || (o.DefaultString? && p.ptype == "string" &&
          (taken || (p.enumVals != [] && o.s !in p.enumVals)
           || (p.minLength.Some? && Utf8Len(o.s) < p.minLength.value) || (p.maxLength.Some? && Utf8Len(o.s) > p.maxLength.value)))
      || (o.DefaultNumber? && (p.ptype == "number" || p.ptype == "integer") &&
          (taken || (p.ptype == "integer" && !fl.integral(o.x))
           || (p.minimum.Some? && fl.less(o.x, p.minimum.value)) || (p.maximum.Some? && fl.less(p.maximum.value, o.x))))
  {
  }

  /** Options in order; a panic leaves the property as the earlier options made it. */
  function ApplyOptions<F>(opts: seq<PropOption<F>>, p: BProperty<F>, fl: Floats<F>): (BProperty<F>, bool)
    decreases |opts|
  {
    if opts == [] then (p, true)
    else match ApplyOption(opts[0], p, fl)
      case Err(_) => (p, false)
      case Ok(p') => ApplyOptions(opts[1..], p', fl)
  }

  /** At most one of the three default fields is ever set. */
  predicate OneDefault<F>(p: BProperty<F>) {
    && !(p.boolDefault.Some? && p.strDefault.Some?)
    && !(p.boolDefault.Some? && p.numDefault.Some?)
    && !(p.strDefault.Some? && p.numDefault.Some?)
  }

  lemma {:induction false} OptionKeepsOneDefault<F>(o: PropOption<F>, p: BProperty<F>, fl: Floats<F>)
    requires OneDefault(p) && ApplyOption(o, p, fl).Ok?
    ensures var q := ApplyOption(o, p, fl).value; OneDefault(q) && q.name == p.name && q.ptype == p.ptype
  {
  }

  lemma {:induction false} OptionsKeepOneDefault<F>(opts: seq<PropOption<F>>, p: BProperty<F>, fl: Floats<F>)
    requires OneDefault(p)
    ensures var (q, _) := ApplyOptions(opts, p, fl); OneDefault(q) && q.name == p.name && q.ptype == p.ptype
    decreases |opts|
  {
    if opts != [] && ApplyOption(opts[0], p, fl).Ok? {
      OptionKeepsOneDefault(opts[0], p, fl);
      OptionsKeepOneDefault(opts[1..], ApplyOption(opts[0], p, fl).value, fl);
    }
  }

  // ----- the property a builder entry stands for -----

  /** Display names are used only when they match the values one to one. */
  function ToProperty<F>(p: BProperty<F>): (r: Property<F>)
    ensures WellFormed(r)
  {
    Property(p.name, p.ptype, p.title, p.description, p.format, p.enumVals,
             if |p.enumNames| == |p.enumVals| then p.enumNames else [],
             if p.boolDefault.Some? then BoolDefault(p.boolDefault.value)
             else if p.strDefault.Some? then StringDefault(p.strDefault.value)
             else if p.numDefault.Some? then NumberDefault(p.numDefault.value)
             else NoDefault,
             p.minLength, p.maxLength, p.minimum, p.maximum, p.required)
  }

  /** A builder entry stands for the property with its own attributes; of the defaults at most one is set. */
  lemma {:induction false} EntryAsProperty<F>(p: BProperty<F>)
    requires OneDefault(p)
    ensures var q := ToProperty(p);
      && q.name == p.name && q.ptype == p.ptype && q.title == p.title && q.description == p.description && q.format == p.format
      && q.enumValues == p.enumVals && q.enumNames == (if |p.enumNames| == |p.enumVals| then p.enumNames else [])
      && q.minLength == p.minLength && q.maxLength == p.maxLength && q.minimum == p.minimum && q.maximum == p.maximum
      && q.required == p.required
      && (p.boolDefault.Some? ==> q.default == BoolDefault(p.boolDefault.value))
      && (p.strDefault.Some? ==> q.default == StringDefault(p.strDefault.value))
      && (p.numDefault.Some? ==> q.default == NumberDefault(p.numDefault.value))
      && (p.boolDefault.None? && p.strDefault.None? && p.numDefault.None? ==> q.default == NoDefault)
  {
  }

  // ----- the intermediate attribute map -----

  datatype Attr = AType | ATitle | ADescription | AFormat | AEnum | AEnumNames | ADefault
                | AMinLength | AMaxLength | AMinimum | AMaximum

  datatype Val<F> = VStr(s: string) | VStrs(ss: seq<string>) | VBool(b: bool) | VInt(n: int) | VFloat(x: F)

  type PropMap<F> = map<Attr, Val<F>>

  function StrAttr<F>(m: PropMap<F>, a: Attr): Option<Json> {
    if a in m && m[a].VStr? then Some(Str(m[a].s)) else None
  }

  function IntAttr<F>(m: PropMap<F>, a: Attr): Option<Json> {
    if a in m && m[a].VInt? then Some(Num(Decimal.Itoa(m[a].n))) else None
  }

  function FloatAttr<F>(m: PropMap<F>, a: Attr, fmt: F -> string): Option<Json> {
    if a in m && m[a].VFloat? then Some(Num(fmt(m[a].x))) else None
  }

  function DefaultAttr<F>(m: PropMap<F>, fmt: F -> string): Option<Json> {
    if ADefault !in m then None
    else match m[ADefault]
      case VBool(b) => Some(Bool(b))
      case VStr(s) => Some(Str(s))
      case VFloat(x) => Some(Num(fmt(x)))
      case _ => None
  }

  /** What the builder's encoder finds under each key, by dynamic type. */
  function MapSlots<F>(m: PropMap<F>, fmt: F -> string): (r: seq<Option<Json>>)
    ensures |r| == |KEYS|
  {
    var hasEnum := AEnum in m && m[AEnum].VStrs?;
    [StrAttr(m, AType), StrAttr(m, ATitle), StrAttr(m, ADescription), StrAttr(m, AFormat),
     if hasEnum then Some(Arr(Strs(m[AEnum].ss))) else None,
     if hasEnum && AEnumNames in m && m[AEnumNames].VStrs? && m[AEnumNames].ss != [] then Some(Arr(Strs(m[AEnumNames].ss))) else None,
     DefaultAttr(m, fmt), IntAttr(m, AMinLength), IntAttr(m, AMaxLength),
     FloatAttr(m, AMinimum, fmt), FloatAttr(m, AMaximum, fmt)]
  }

  predicate NoBounds<F>(m: PropMap<F>) {
    AMinLength !in m && AMaxLength !in m && AMinimum !in m && AMaximum !in m
  }

  /** The first half of the map Build makes for a property. */
  method DescribeTexts<F>(p: BProperty<F>) returns (m: PropMap<F>)
    ensures ADefault !in m && NoBounds(m)
    ensures StrAttr(m, AType) == Some(Str(p.ptype))
    ensures StrAttr(m, ATitle) == StrSlot(p.title)
    ensures StrAttr(m, ADescription) == StrSlot(p.description)
    ensures StrAttr(m, AFormat) == StrSlot(p.format)
    ensures if p.enumVals != [] then AEnum in m && m[AEnum] == VStrs(p.enumVals) else AEnum !in m && AEnumNames !in m
    ensures p.enumVals != [] ==>
      if |p.enumNames| == |p.enumVals| then AEnumNames in m && m[AEnumNames] == VStrs(p.enumNames) else AEnumNames !in m
  {
    m := map[AType := VStr(p.ptype)];
    if |p.enumVals| > 0 {
      m := m[AEnum := VStrs(p.enumVals)];
      if |p.enumNames| == |p.enumVals| && |p.enumNames| > 0 {
        m := m[AEnumNames := VStrs(p.enumNames)];
      }
    }
    if p.title != "" {
      m := m[ATitle := VStr(p.title)];
    }
    if p.description != "" {
      m := m[ADescription := VStr(p.description)];
    }
    if p.format != "" {
      m := m[AFormat := VStr(p.format)];
    }
  }

  ghost predicate SameAttr<F>(m: PropMap<F>, m': PropMap<F>, a: Attr) {
    (a in m <==> a in m') && (a in m ==> m[a] == m'[a])
  }

  ghost predicate SameTexts<F>(m: PropMap<F>, m': PropMap<F>) {
    && SameAttr(m, m', AType) && SameAttr(m, m', ATitle) && SameAttr(m, m', ADescription)
    && SameAttr(m, m', AFormat) && SameAttr(m, m', AEnum) && SameAttr(m, m', AEnumNames)
  }

  method DescribeDefault<F>(m0: PropMap<F>, p: BProperty<F>, fmt: F -> string) returns (m: PropMap<F>)
    requires OneDefault(p) && ADefault !in m0
    ensures SameTexts(m, m0) && (NoBounds(m0) ==> NoBounds(m))
    ensures DefaultAttr(m, fmt) == DefaultSlot(ToProperty(p).default, fmt)
  {
    m := m0;
    if p.strDefault.Some? {
      m := m[ADefault := VStr(p.strDefault.value)];
    }
    if p.numDefault.Some? {
      m := m[ADefault := VFloat(p.numDefault.value)];
    }
    if p.boolDefault.Some? {
      m := m[ADefault := VBool(p.boolDefault.value)];
    }
  }

  method DescribeLengths<F>(m0: PropMap<F>, p: BProperty<F>) returns (m: PropMap<F>)
    requires NoBounds(m0)
    ensures SameTexts(m, m0) && SameAttr(m, m0, ADefault) && AMinimum !in m && AMaximum !in m
    ensures IntAttr(m, AMinLength) == IntSlot(p.minLength) && IntAttr(m, AMaxLength) == IntSlot(p.maxLength)
  {
    m := m0;
    if p.minLength.Some? {
      m := m[AMinLength := VInt(p.minLength.value)];
    }
    if p.maxLength.Some? {
      m := m[AMaxLength := VInt(p.maxLength.value)];
    }
  }

  method DescribeRange<F>(m0: PropMap<F>, p: BProperty<F>, fmt: F -> string) returns (m: PropMap<F>)
    requires AMinimum !in m0 && AMaximum !in m0
    ensures SameTexts(m, m0) && SameAttr(m, m0, ADefault) && SameAttr(m, m0, AMinLength) && SameAttr(m, m0, AMaxLength)
    ensures FloatAttr(m, AMinimum, fmt) == FloatSlot(p.minimum, fmt) && FloatAttr(m, AMaximum, fmt) == FloatSlot(p.maximum, fmt)
  {
    m := m0;
    if p.minimum.Some? {
      m := m[AMinimum := VFloat(p.minimum.value)];
    }
    if p.maximum.Some? {
      m := m[AMaximum := VFloat(p.maximum.value)];
    }
  }

  method DescribeBounds<F>(m0: PropMap<F>, p: BProperty<F>, fmt: F -> string) returns (m: PropMap<F>)
    requires NoBounds(m0)
    ensures SameTexts(m, m0) && SameAttr(m, m0, ADefault)
    ensures IntAttr(m, AMinLength) == IntSlot(p.minLength) && IntAttr(m, AMaxLength) == IntSlot(p.maxLength)
    ensures FloatAttr(m, AMinimum, fmt) == FloatSlot(p.minimum, fmt) && FloatAttr(m, AMaximum, fmt) == FloatSlot(p.maximum, fmt)
  {
    m := DescribeLengths(m0, p);
    m := DescribeRange(m, p, fmt);
  }

  /** Slot by slot, the map shows the property. */
  lemma {:induction false} MapShowsProperty<F>(m: PropMap<F>, texts: PropMap<F>, p: BProperty<F>, fmt: F -> string)
    requires SameTexts(m, texts)
    requires StrAttr(texts, AType) == Some(Str(p.ptype))
    requires StrAttr(texts, ATitle) == StrSlot(p.title)
    requires StrAttr(texts, ADescription) == StrSlot(p.description)
    requires StrAttr(texts, AFormat) == StrSlot(p.format)
    requires if p.enumVals != [] then AEnum in texts && texts[AEnum] == VStrs(p.enumVals) else AEnum !in texts && AEnumNames !in texts
    requires p.enumVals != [] ==>
      if |p.enumNames| == |p.enumVals| then AEnumNames in texts && texts[AEnumNames] == VStrs(p.enumNames) else AEnumNames !in texts
    requires DefaultAttr(m, fmt) == DefaultSlot(ToProperty(p).default, fmt)
    requires IntAttr(m, AMinLength) == IntSlot(p.minLength) && IntAttr(m, AMaxLength) == IntSlot(p.maxLength)
    requires FloatAttr(m, AMinimum, fmt) == FloatSlot(p.minimum, fmt) && FloatAttr(m, AMaximum, fmt) == FloatSlot(p.maximum, fmt)
    ensures MapSlots(m, fmt) == Slots(ToProperty(p), fmt)
  {
    var s, t := MapSlots(m, fmt), Slots(ToProperty(p), fmt);
    assert s[0] == t[0] && s[1] == t[1] && s[2] == t[2] && s[3] == t[3];
    assert s[4] == t[4] && s[5] == t[5];
    assert s[6] == t[6] && s[7] == t[7] && s[8] == t[8] && s[9] == t[9] && s[10] == t[10];
  }

  /** The map describes exactly the property: nothing is lost on the detour. */
  method Describe<F>(p: BProperty<F>, fmt: F -> string) returns (m: PropMap<F>)
    requires OneDefault(p)
    ensures MapSlots(m, fmt) == Slots(ToProperty(p), fmt)
  {
    var texts := DescribeTexts(p);
    var m1 := DescribeDefault(texts, p, fmt);
    m := DescribeBounds(m1, p, fmt);
    MapShowsProperty(m, texts, p, fmt);
  }

  // ----- the builder's encoder -----

  method WriteMapTexts<F>(buf: string, m: PropMap<F>, fmt: F -> string) returns (out: string)
    ensures out == buf + TailText(MapSlots(m, fmt), 6)
  {
    ghost var s := MapSlots(m, fmt);
    out := buf;
    assert out == buf + TailText(s, 1);
    JoinTail(buf, s, 1);
    if ATitle in m && m[ATitle].VStr? {
      out := WriteField(out, "title", Quote(m[ATitle].s));
    }
    assert out == buf + TailText(s, 2);
    JoinTail(buf, s, 2);
    if ADescription in m && m[ADescription].VStr? {
      out := WriteField(out, "description", Quote(m[ADescription].s));
    }
    assert out == buf + TailText(s, 3);
    JoinTail(buf, s, 3);
    if AFormat in m && m[AFormat].VStr? {
      out := WriteField(out, "format", Quote(m[AFormat].s));
    }
    assert out == buf + TailText(s, 4);
    JoinTail(buf, s, 4);
    JoinTail(buf, s, 5);
    if AEnum in m && m[AEnum].VStrs? {
      out := WriteArrayField(out, "enum", m[AEnum].ss);
      assert out == buf + TailText(s, 5);
      if AEnumNames in m && m[AEnumNames].VStrs? && |m[AEnumNames].ss| > 0 {
        out := WriteArrayField(out, "enumNames", m[AEnumNames].ss);
      }
    }
  }

  method WriteMapDefault<F>(buf: string, m: PropMap<F>, fmt: F -> string, ghost base: string) returns (out: string)
    requires buf == base + TailText(MapSlots(m, fmt), 6)
    ensures out == base + TailText(MapSlots(m, fmt), 7)
  {
    ghost var s := MapSlots(m, fmt);
    out := buf;
    JoinTail(base, s, 6);
    if ADefault in m {
      match m[ADefault]
      case VBool(b) => out := WriteField(out, "default", if b then "true" else "false");
      case VStr(t) => out := WriteField(out, "default", Quote(t));
      case VFloat(x) => out := WriteField(out, "default", fmt(x));
      case _ =>
    }
  }

  method WriteMapBounds<F>(buf: string, m: PropMap<F>, fmt: F -> string, ghost base: string) returns (out: string)
    requires buf == base + TailText(MapSlots(m, fmt), 7)
    ensures out == base + TailText(MapSlots(m, fmt), |KEYS|)
  {
    ghost var s := MapSlots(m, fmt);
    out := buf;
    JoinTail(base, s, 7);
    if AMinLength in m && m[AMinLength].VInt? {
      out := WriteField(out, "minLength", Decimal.Itoa(m[AMinLength].n));
    }
    assert out == base + TailText(s, 8);
    JoinTail(base, s, 8);
    if AMaxLength in m && m[AMaxLength].VInt? {
      out := WriteField(out, "maxLength", Decimal.Itoa(m[AMaxLength].n));
    }
    assert out == base + TailText(s, 9);
    JoinTail(base, s, 9);
    if AMinimum in m && m[AMinimum].VFloat? {
      out := WriteField(out, "minimum", fmt(m[AMinimum].x));
    }
    assert out == base + TailText(s, 10);
    JoinTail(base, s, 10);
    if AMaximum in m && m[AMaximum].VFloat? {
      out := WriteField(out, "maximum", fmt(m[AMaximum].x));
    }
  }

  method WriteMapProperty<F>(buf: string, name: string, m: PropMap<F>, fmt: F -> string, ghost p: Property<F>) returns (out: string)
    requires name == p.name && MapSlots(m, fmt) == Slots(p, fmt)
    ensures out == buf + PrintMember(PropertyMember(p, fmt))
  {
    assert MapSlots(m, fmt)[0] == Slots(p, fmt)[0];
    out := buf + PropertyHead(name, m[AType].s);
    ghost var base := out;
    out := WriteMapTexts(out, m, fmt);
    out := WriteMapDefault(out, m, fmt, base);
    out := WriteMapBounds(out, m, fmt, base);
    out := out + "}";
    PropertyTextIsMember(p, fmt);
    RegroupHead(buf, PropertyHead(p.name, p.ptype), TailText(Slots(p, fmt), |KEYS|));
  }

  /** The attribute map stored under a name shows that property, slot by slot. */
  ghost predicate Shows<F>(maps: map<string, PropMap<F>>, name: string, p: Property<F>, fmt: F -> string) {
    name == p.name && name in maps && MapSlots(maps[name], fmt) == Slots(p, fmt)
  }

  /** `marshalBuilderCanonical`: the maps are looked up by name, in insertion order. */
  method MarshalMaps<F>(order: seq<string>, maps: map<string, PropMap<F>>, required: seq<string>, fmt: F -> string,
                        ghost props: seq<Property<F>>)
    returns (buf: string)
    requires |order| == |props| && required == RequiredNames(props)
    requires forall i | 0 <= i < |props| :: Shows(maps, order[i], props[i], fmt)
    ensures buf == CanonicalText(props, fmt)
  {
    buf := HEADER;
    for i := 0 to |order|
      invariant buf == HEADER + PrintMembers(PropertyMembers(props[..i], fmt))
    {
      assert Shows(maps, order[i], props[i], fmt);
      OneMoreProperty(props, i, fmt);
      if i > 0 {
        buf := buf + ",";
      }
      buf := WriteMapProperty(buf, order[i], maps[order[i]], fmt, props[i]);
    }
    assert props[..|props|] == props;
    CanonicalTextShape(props, fmt);
    buf := WriteRequired(buf, required);
  }

  // ----- the builder -----

  /** `unicode.IsSpace`, which decides what a blank property name is. */
  predicate IsSpace(c: char) {
    var n := c as int;
    9 <= n <= 13 || n in {0x20, 0x85, 0xA0, 0x1680, 0x2028, 0x2029, 0x202F, 0x205F, 0x3000} || 0x2000 <= n <= 0x200A
  }

  /** The white space of Unicode. */
  lemma {:induction false} SpacesAre(c: char)
    ensures IsSpace(c) <==>
      || '\U{0009}' <= c <= '\U{000D}' || c == '\U{0020}' || c == '\U{0085}' || c == '\U{00A0}' || c == '\U{1680}'
      || '\U{2000}' <= c <= '\U{200A}' || c == '\U{2028}' || c == '\U{2029}' || c == '\U{202F}' || c == '\U{205F}'
      || c == '\U{3000}'
  {
  }

  predicate IsBlank(name: string) {
    forall i | 0 <= i < |name| :: IsSpace(name[i])
  }

  datatype PType = PString | PNumber | PInteger | PBoolean

  function TypeName(t: PType): string {
    match t
    case PString => "string"
    case PNumber => "number"
    case PInteger => "integer"
    case PBoolean => "boolean"
  }

  function PropertyList<F>(order: seq<string>, props: map<string, BProperty<F>>): (r: seq<Property<F>>)
    requires forall n | n in order :: n in props
    ensures |r| == |order| && forall i | 0 <= i < |order| :: r[i] == ToProperty(props[order[i]])
  {
    seq(|order|, i requires 0 <= i < |order| => ToProperty(props[order[i]]))
  }

  /** The order lists property names, each once, and no property has two defaults. */
  ghost predicate Filled<F(!new)>(order: seq<string>, props: map<string, BProperty<F>>) {
    && (forall n | n in order :: n in props && props[n].name == n && OneDefault(props[n]))
    && (forall i, j | 0 <= i < j < |order| :: order[i] != order[j])
  }

  lemma {:induction false} FilledStays<F(!new)>(order: seq<string>, props: map<string, BProperty<F>>, q: BProperty<F>)
    requires Filled(order, props) && OneDefault(q) && (q.name in props ==> q.name in order)
    ensures Filled(if q.name in props then order else order + [q.name], props[q.name := q])
  {
    var order' := if q.name in props then order else order + [q.name];
    assert forall n | n in order' :: n in order || n == q.name;
    assert q.name !in props ==> q.name !in order;
  }

  lemma {:induction false} StillShows<F>(maps: map<string, PropMap<F>>, name: string, p: Property<F>, fmt: F -> string,
                                         other: string, m: PropMap<F>)
    requires Shows(maps, name, p, fmt) && other != name
    ensures Shows(maps[other := m], name, p, fmt)
  {
  }

  lemma {:induction false} OneMoreMap<F(!new)>(order: seq<string>, list: seq<Property<F>>, maps: map<string, PropMap<F>>, i: nat,
                                               m: PropMap<F>, fmt: F -> string)
    requires i < |order| == |list| && order[i] == list[i].name && MapSlots(m, fmt) == Slots(list[i], fmt)
    requires forall k | 0 <= k < i :: order[k] != order[i]
    requires forall k | 0 <= k < i :: Shows(maps, order[k], list[k], fmt)
    ensures forall k | 0 <= k < i + 1 :: Shows(maps[order[i] := m], order[k], list[k], fmt)
  {
    forall k | 0 <= k < i ensures Shows(maps[order[i] := m], order[k], list[k], fmt) {
      StillShows(maps, order[k], list[k], fmt, order[i], m);
    }
  }

  lemma {:induction false} OneMoreRequired<F>(list: seq<Property<F>>, i: nat)
    requires i < |list|
    ensures RequiredNames(list[..i + 1]) == RequiredNames(list[..i]) + if list[i].required then [list[i].name] else []
  {
    assert list[..i + 1] == list[..i] + [list[i]];
    RequiredAppend(list[..i], list[i]);
  }

  /** Build's loop: one attribute map per name, and the required names in order. */
  method DescribeAll<F(!new)>(order: seq<string>, props: map<string, BProperty<F>>, fmt: F -> string, ghost list: seq<Property<F>>)
    returns (maps: map<string, PropMap<F>>, required: seq<string>)
    requires Filled(order, props) && list == PropertyList(order, props)
    ensures required == RequiredNames(list)
    ensures forall i | 0 <= i < |order| :: Shows(maps, order[i], list[i], fmt)
  {
    required := [];
    maps := map[];
    for i := 0 to |order|
      invariant required == RequiredNames(list[..i])
      invariant forall k | 0 <= k < i :: Shows(maps, order[k], list[k], fmt)
    {
      var p := props[order[i]];
      assert list[i] == ToProperty(p);
      var m := Describe(p, fmt);
      OneMoreMap(order, list, maps, i, m, fmt);
      OneMoreRequired(list, i);
      maps := maps[order[i] := m];
      if p.required {
        required := required + [order[i]];
      }
    }
    assert list[..|order|] == list;
  }

  class Builder<F(!new)> {
    const floats: Floats<F>
    var props: map<string, BProperty<F>>
    var order: seq<string>
    var built: bool

    /** The order lists exactly the property names. */
    ghost predicate Valid()
      reads this
    {
      Filled(order, props) && forall n | n in props :: n in order
    }

    ghost function Schema(): seq<Property<F>>
      requires Valid()
      reads this
    {
      PropertyList(order, props)
    }

    constructor (floats: Floats<F>)
      ensures Valid() && order == [] && !built && this.floats == floats
    {
      this.floats := floats;
      props, order, built := map[], [], false;
    }

    /** A new name gets a blank property at the end of the order; a known one is kept. */
    method Ensure(name: string) returns (p: BProperty<F>)
      modifies this`props, this`order
      ensures p == if name in old(props) then old(props)[name] else Blank(name)
      ensures props == old(props)[name := p]
      ensures order == if name in old(props) then old(order) else old(order) + [name]
    {
      if name !in props {
        props := props[name := Blank(name)];
        order := order + [name];
      }
      p := props[name];
    }

    /** Common part of the typed entry points; `ok` is false where the original panics. */
    method AddProperty(name: string, ptype: PType, enumVals: Option<seq<string>>, opts: seq<PropOption<F>>) returns (ok: bool)
      requires Valid()
      modifies this`props, this`order
      ensures Valid()
      ensures IsBlank(name) ==> !ok && props == old(props) && order == old(order)
      ensures !IsBlank(name) ==>
        var before := if name in old(props) then old(props)[name] else Blank(name);
        var typed := before.(ptype := TypeName(ptype), enumVals := if enumVals.Some? then enumVals.value else before.enumVals);
        && name in props
        && (props[name], ok) == ApplyOptions(opts, typed, floats)
        && props == old(props)[name := props[name]]
        && order == if name in old(props) then old(order) else old(order) + [name]
      ensures !IsBlank(name) ==>
        && name in props
        && props[name].name == name
        && (ptype == PString ==> props[name].ptype == "string") && (ptype == PBoolean ==> props[name].ptype == "boolean")
        && (ptype == PNumber ==> props[name].ptype == "number") && (ptype == PInteger ==> props[name].ptype == "integer")
    {
      if IsBlank(name) {
        return false;
      }
      ghost var order0, props0 := order, props;
      var p := Ensure(name);
      assert OneDefault(p) && p.name == name;
      p := p.(ptype := TypeName(ptype));
      if enumVals.Some? {
        p := p.(enumVals := enumVals.value);
      }
      OptionsKeepOneDefault(opts, p, floats);
      var (q, applied) := ApplyOptions(opts, p, floats);
      props := props[name := q];
      FilledStays(order0, props0, q);
      assert props == props0[name := q];
      ok := applied;
    }

    /**
     For every way of having filled the builder, the text is the canonical text of its
     property list in insertion order, the same the reflected encoder writes.
     */
    method Build() returns (r: Result<string, string>)
      requires Valid()
      modifies this`built
      ensures Valid() && built
      ensures r.Err? <==> old(built)
      ensures r.Ok? ==> r.value == CanonicalText(Schema(), floats.fmt)
    {
      if built {
        return Err("builder reused after Build");
      }
      ghost var list := Schema();
      var maps, required := DescribeAll(order, props, floats.fmt, list);
      var text := MarshalMaps(order, maps, required, floats.fmt, list);
      built := true;
      r := Ok(text);
    }
  }

  /** Both encoders write the same bytes for the same schema, whatever way it was built. */
  method RenderBothWays<F(!new)>(b: Builder<F>, list: seq<Property<F>>) returns (viaBuilder: string, viaReflection: string)
    requires b.Valid() && !b.built && list == b.Schema()
    modifies b`built
    ensures viaBuilder == viaReflection == CanonicalText(list, b.floats.fmt)
  {
    var r := b.Build();
    viaBuilder := r.value;
    viaReflection := MarshalSchema(list, b.floats.fmt);
  }

  lemma {:induction false} ListNames<F(!new)>(order: seq<string>, props: map<string, BProperty<F>>)
    requires Filled(order, props)
    ensures var list := PropertyList(order, props);
      DistinctNames(list) && forall i | 0 <= i < |order| :: list[i].name == order[i] && WellFormed(list[i])
  {
  }

  /** The builder's text, like the reflected one, determines the property list it came from. */
  lemma {:induction false} BuilderTextDeterminesSchema<F(!new)>(o1: seq<string>, p1: map<string, BProperty<F>>,
                                             o2: seq<string>, p2: map<string, BProperty<F>>,
                                             fmt: F -> string, parse: string -> Option<F>)
    requires Filled(o1, p1) && Filled(o2, p2)
    requires AllReadable(PropertyList(o1, p1), fmt, parse) && AllReadable(PropertyList(o2, p2), fmt, parse)
    requires CanonicalText(PropertyList(o1, p1), fmt) == CanonicalText(PropertyList(o2, p2), fmt)
    ensures o1 == o2 && forall n | n in o1 :: ToProperty(p1[n]) == ToProperty(p2[n])
  {
    var l1, l2 := PropertyList(o1, p1), PropertyList(o2, p2);
    ListNames(o1, p1);
    ListNames(o2, p2);
    DistinctIsUnambiguous(l1);
    TextDeterminesSchema(l1, l2, fmt, parse);
    assert |o1| == |o2| && forall i | 0 <= i < |o1| :: o1[i] == l1[i].name == o2[i];
    forall n | n in o1 ensures ToProperty(p1[n]) == ToProperty(p2[n]) {
      var i :| 0 <= i < |o1| && o1[i] == n;
      assert l1[i] == l2[i];
    }
  }
}
