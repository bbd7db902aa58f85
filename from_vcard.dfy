/**
 * Conversion of a jCard (the JSON form of a vCard, RFC 7095) into a
 * contact. A jCard is the array ["vcard", [property, ...]]; each property is
 * an array [name, parameters, value type, value, ...]. Lookups compare
 * property names without regard to ASCII case; list getters give None rather
 * than an empty list.
 */
module Jcard {
  import opened Wrappers
  import opened Text

  // ---------------------------------------------------------------------
  // JSON values and properties
  // ---------------------------------------------------------------------

  datatype JsonValue =
    | JNull
    | JBool(b: bool)
    | JNumber(n: int)
    | JString(str: string)
    | JArray(arr: seq<JsonValue>)
    | JObject(obj: map<string, JsonValue>)

  /** One jCard property: [name, parameters, value type, value, ...]. */
  type Property = seq<JsonValue>

  /** `v` is a property array named `name`, ignoring ASCII case. */
  predicate HasName(v: JsonValue, name: string) {
    v.JArray? && |v.arr| > 0 && v.arr[0].JString? && EqIgnoreAsciiCase(v.arr[0].str, name)
  }

  // ---------------------------------------------------------------------
  // Finding properties
  // ---------------------------------------------------------------------

  /** Every property of `vcard` named `name`, in order. */
  function FindProperties(vcard: seq<JsonValue>, name: string): (r: seq<Property>)
    ensures |r| <= |vcard|
    ensures forall k :: 0 <= k < |r| ==> HasName(JArray(r[k]), name)
  {
    if vcard == [] then []
    else (if HasName(vcard[0], name) then [vcard[0].arr] else []) + FindProperties(vcard[1..], name)
  }

  /** Finding properties distributes over concatenation: the result keeps the
      order of the input. */
  lemma {:induction false} FindPropertiesAppend(a: seq<JsonValue>, b: seq<JsonValue>, name: string)
    ensures FindProperties(a + b, name) == FindProperties(a, name) + FindProperties(b, name)
  {
    if a == [] {
      assert a + b == b;
    } else {
      assert (a + b)[0] == a[0];
      assert (a + b)[1..] == a[1..] + b;
      FindPropertiesAppend(a[1..], b, name);
    }
  }

  /** A property is found exactly when it occurs in the vCard under the
      name. */
  lemma {:induction false} FindPropertiesMembers(vcard: seq<JsonValue>, name: string, p: Property)
    ensures p in FindProperties(vcard, name) <==> JArray(p) in vcard && HasName(JArray(p), name)
  {
    if vcard != [] {
      FindPropertiesMembers(vcard[1..], name, p);
      assert vcard == [vcard[0]] + vcard[1..];
    }
  }

  /** The first property of `vcard` named `name`. */
  function FindProperty(vcard: seq<JsonValue>, name: string): (r: Option<Property>)
    ensures r.Some? ==> HasName(JArray(r.value), name)
  {
    if vcard == [] then None
    else if HasName(vcard[0], name) then Some(vcard[0].arr)
    else FindProperty(vcard[1..], name)
  }

  /** The property found is the first of those found. */
  lemma {:induction false} FindPropertyIsFirst(vcard: seq<JsonValue>, name: string)
    ensures FindProperty(vcard, name).None? <==> FindProperties(vcard, name) == []
    ensures FindProperty(vcard, name).Some? ==> FindProperty(vcard, name).value == FindProperties(vcard, name)[0]
  {
    if vcard != [] && !HasName(vcard[0], name) {
      FindPropertyIsFirst(vcard[1..], name);
    }
  }

  // ---------------------------------------------------------------------
  // Values and parameters
  // ---------------------------------------------------------------------

  /** The value of a property (its fourth element) when it is a string. */
  function GetText(prop: Property): (r: Option<string>)
    ensures r.Some? <==> |prop| > 3 && prop[3].JString?
    ensures r.Some? ==> r.value == prop[3].str
  {
    if |prop| > 3 && prop[3].JString? then Some(prop[3].str) else None
  }

  /** The results of `f` that are present, in order. */
  function FilterMap<T>(props: seq<Property>, f: Property -> Option<T>): (r: seq<T>)
    ensures |r| <= |props|
  {
    if props == [] then []
    else (match f(props[0]) case Some(x) => [x] case None => []) + FilterMap(props[1..], f)
  }

  /** None for an empty list, the list otherwise. */
  function NonEmpty<T>(s: seq<T>): (r: Option<seq<T>>)
    ensures r.None? <==> s == []
    ensures r.Some? ==> r.value == s
  {
    if s == [] then None else Some(s)
  }

  /** The text values of some properties, or None when none has one. */
  function GetTexts(props: seq<Property>): (r: Option<seq<string>>)
    ensures r.Some? ==> r.value != []
    ensures r.None? <==> forall k :: 0 <= k < |props| ==> GetText(props[k]).None?
    ensures r.Some? ==> forall s :: s in r.value <==> exists k :: 0 <= k < |props| && GetText(props[k]) == Some(s)
  {
    var texts := FilterMap(props, GetText);
    FilterMapEmpty(props, GetText);
    forall s
      ensures s in texts <==> exists k :: 0 <= k < |props| && GetText(props[k]) == Some(s)
    {
      FilterMapMembers(props, GetText, s);
    }
    NonEmpty(texts)
  }

  /** The texts of two runs of properties are the texts of the first run
      followed by those of the second. */
  lemma TextsAppend(a: seq<Property>, b: seq<Property>)
    ensures FilterMap(a + b, GetText) == FilterMap(a, GetText) + FilterMap(b, GetText)
    ensures GetTexts(a).Some? ==> GetTexts(a + b).Some? && GetTexts(a + b).value[..|GetTexts(a).value|] == GetTexts(a).value
  {
    FilterMapAppend(a, b, GetText);
  }

  /** A value is kept exactly when `f` gives it for some element. */
  lemma {:induction false} FilterMapMembers<T>(props: seq<Property>, f: Property -> Option<T>, x: T)
    ensures x in FilterMap(props, f) <==> exists k :: 0 <= k < |props| && f(props[k]) == Some(x)
  {
    if props != [] {
      var rest := props[1..];
      FilterMapMembers(rest, f, x);
      if exists k :: 0 <= k < |props| && f(props[k]) == Some(x) {
        var k :| 0 <= k < |props| && f(props[k]) == Some(x);
        if k > 0 {
          assert rest[k - 1] == props[k];
        }
      }
      if exists k :: 0 <= k < |rest| && f(rest[k]) == Some(x) {
        var k :| 0 <= k < |rest| && f(rest[k]) == Some(x);
        assert props[k + 1] == rest[k];
      }
    }
  }

  /** Filtering keeps the order of the elements: it distributes over
      concatenation. */
  lemma {:induction false} FilterMapAppend<T>(a: seq<Property>, b: seq<Property>, f: Property -> Option<T>)
    ensures FilterMap(a + b, f) == FilterMap(a, f) + FilterMap(b, f)
  {
    if a == [] {
      assert a + b == b;
    } else {
      assert (a + b)[0] == a[0];
      assert (a + b)[1..] == a[1..] + b;
      FilterMapAppend(a[1..], b, f);
    }
  }

  /** Filtering keeps nothing exactly when `f` gives nothing for every
      element. */
  lemma {:induction false} FilterMapEmpty<T>(props: seq<Property>, f: Property -> Option<T>)
    ensures FilterMap(props, f) == [] <==> forall k :: 0 <= k < |props| ==> f(props[k]).None?
  {
    if props != [] {
      FilterMapEmpty(props[1..], f);
      assert forall k :: 1 <= k < |props| ==> props[k] == props[1..][k - 1];
    }
  }

  /** A parameter of a property: its second element must be an object. */
  function Param(prop: Property, key: string): (r: Option<JsonValue>)
    ensures r.Some? ==> |prop| > 1 && prop[1].JObject? && key in prop[1].obj && r.value == prop[1].obj[key]
    ensures r.None? ==> |prop| <= 1 || !prop[1].JObject? || key !in prop[1].obj
  {
    if |prop| > 1 && prop[1].JObject? && key in prop[1].obj then Some(prop[1].obj[key]) else None
  }

  /** A parameter whose value is a string. */
  function StringParam(prop: Property, key: string): (r: Option<string>)
    ensures r.Some? <==> Param(prop, key).Some? && Param(prop, key).value.JString?
    ensures r.Some? ==> r.value == Param(prop, key).value.str
  {
    match Param(prop, key)
    case Some(JString(s)) => Some(s)
    case _ => None
  }

  /** The "pref" parameter read as a `u64`. */
  function GetPreference(prop: Property): (r: Option<nat>)
    ensures r.Some? ==> r.value < U64_LIMIT && StringParam(prop, "pref").Some?
  {
    match StringParam(prop, "pref")
    case None => None
    case Some(s) => ParseUnsigned(s, U64_LIMIT)
  }

  /** A preference is read exactly from a string "pref" parameter that is
      an optional `+` and a run of digits whose value fits a `u64`; that
      value is the preference. */
  lemma PreferenceValue(prop: Property)
    ensures GetPreference(prop).Some? <==> (StringParam(prop, "pref").Some? &&
      var digits := UnsignedDigits(StringParam(prop, "pref").value);
      digits != [] && AllDigits(digits) && DigitsValue(digits) < U64_LIMIT)
    ensures GetPreference(prop).Some? ==>
      GetPreference(prop).value == DigitsValue(UnsignedDigits(StringParam(prop, "pref").value))
  {
    if StringParam(prop, "pref").Some? {
      ParseUnsignedValue(StringParam(prop, "pref").value, U64_LIMIT);
    }
  }

  /** A "pref" parameter holding the decimal form of a `u64` gives it back. */
  lemma PreferenceRoundTrip(prop: Property, n: nat)
    requires n < U64_LIMIT
    requires Param(prop, "pref") == Some(JString(NatToDecimal(n)))
    ensures GetPreference(prop) == Some(n)
  {
    ParseDecimalRoundTrip(n, U64_LIMIT);
  }

  /** A "pref" parameter that is not a string, or whose text is no unsigned
      number (empty, a bare sign, negative, or holding a non-digit), gives
      no preference. */
  lemma PreferenceRejects(prop: Property)
    requires Param(prop, "pref").Some?
    requires !Param(prop, "pref").value.JString? || NotUnsigned(Param(prop, "pref").value.str)
    ensures GetPreference(prop) == None
  {
    if Param(prop, "pref").value.JString? {
      ParseRejects(Param(prop, "pref").value.str, U64_LIMIT);
    }
  }

  /** "+7" and "007" both read as 7; "x1" and "-1" give no preference. */
  lemma PreferenceExamples(prop: Property, pref: string)
    requires Param(prop, "pref") == Some(JString(pref))
    ensures pref == "+7" || pref == "007" ==> GetPreference(prop) == Some(7)
    ensures pref == "x1" || pref == "-1" ==> GetPreference(prop) == None
  {
    if pref == "+7" || pref == "007" {
      PreferenceValue(prop);
      assert UnsignedDigits(pref) == "7" || UnsignedDigits(pref) == "007";
      assert AllDigits(UnsignedDigits(pref));
      assert DigitsValue("0") == 0 && DigitsValue("00") == 0;
      assert "007"[..2] == "00" && "00"[..1] == "0" && "0"[..0] == [];
      assert "7"[..0] == [];
    } else if pref == "x1" || pref == "-1" {
      ParseRejects(pref, U64_LIMIT);
    }
  }

  /** The "label" parameter, a full address. */
  function GetLabel(prop: Property): (r: Option<string>)
    ensures r.Some? <==> Param(prop, "label").Some? && Param(prop, "label").value.JString?
  {
    StringParam(prop, "label")
  }

  /** The "cc" parameter, a country code. */
  function GetCountryCode(prop: Property): (r: Option<string>)
    ensures r.Some? <==> Param(prop, "cc").Some? && Param(prop, "cc").value.JString?
  {
    StringParam(prop, "cc")
  }

  // ---------------------------------------------------------------------
  // The TYPE parameter: contexts and features
  // ---------------------------------------------------------------------

  /** The JSContact contexts a TYPE value can name. */
  predicate IsContext(s: string) {
    s == "home" || s == "work" || s == "office" || s == "private" || s == "mobile" || s == "cell"
  }

  /** The string entries of a JSON array, lower-cased, in order. */
  function LoweredStrings(vs: seq<JsonValue>): (r: seq<string>)
    ensures |r| <= |vs|
    ensures forall k :: 0 <= k < |r| ==> LowerAscii(r[k]) == r[k]
  {
    if vs == [] then []
    else
      (if vs[0].JString? then (LowerIdempotent(vs[0].str); [LowerAscii(vs[0].str)]) else [])
      + LoweredStrings(vs[1..])
  }

  lemma LowerIdempotent(s: string)
    ensures LowerAscii(LowerAscii(s)) == LowerAscii(s)
  {
  }

  function Contexts(ss: seq<string>): (r: seq<string>)
    ensures forall k :: 0 <= k < |r| ==> IsContext(r[k]) && r[k] in ss
  {
    if ss == [] then []
    else (if IsContext(ss[0]) then [ss[0]] else []) + Contexts(ss[1..])
  }

  function Features(ss: seq<string>): (r: seq<string>)
    ensures forall k :: 0 <= k < |r| ==> !IsContext(r[k]) && r[k] in ss
  {
    if ss == [] then []
    else (if IsContext(ss[0]) then [] else [ss[0]]) + Features(ss[1..])
  }

  /** A lowered TYPE value comes from a string entry of the array, and
      every string entry gives one. */
  lemma {:induction false} LoweredStringsMembers(vs: seq<JsonValue>, s: string)
    ensures s in LoweredStrings(vs) <==>
      exists i :: 0 <= i < |vs| && vs[i].JString? && s == LowerAscii(vs[i].str)
  {
    if vs != [] {
      var rest := vs[1..];
      LoweredStringsMembers(rest, s);
      if exists i :: 0 <= i < |vs| && vs[i].JString? && s == LowerAscii(vs[i].str) {
        var i :| 0 <= i < |vs| && vs[i].JString? && s == LowerAscii(vs[i].str);
        if i > 0 {
          assert rest[i - 1] == vs[i];
        }
      }
      if exists i :: 0 <= i < |rest| && rest[i].JString? && s == LowerAscii(rest[i].str) {
        var i :| 0 <= i < |rest| && rest[i].JString? && s == LowerAscii(rest[i].str);
        assert vs[i + 1] == rest[i];
      }
    }
  }

  /** Lowering keeps the order of the entries: it distributes over
      concatenation. */
  lemma {:induction false} LoweredStringsAppend(a: seq<JsonValue>, b: seq<JsonValue>)
    ensures LoweredStrings(a + b) == LoweredStrings(a) + LoweredStrings(b)
  {
    if a == [] {
      assert a + b == b;
    } else {
      assert (a + b)[0] == a[0];
      assert (a + b)[1..] == a[1..] + b;
      LoweredStringsAppend(a[1..], b);
    }
  }

  /** The contexts of a list are exactly its members that are contexts. */
  lemma {:induction false} ContextsMembers(ss: seq<string>, s: string)
    ensures s in Contexts(ss) <==> s in ss && IsContext(s)
  {
    if ss != [] {
      ContextsMembers(ss[1..], s);
      assert s in ss <==> s == ss[0] || s in ss[1..];
    }
  }

  /** The features of a list are exactly its members that are not contexts. */
  lemma {:induction false} FeaturesMembers(ss: seq<string>, s: string)
    ensures s in Features(ss) <==> s in ss && !IsContext(s)
  {
    if ss != [] {
      FeaturesMembers(ss[1..], s);
      assert s in ss <==> s == ss[0] || s in ss[1..];
    }
  }

  /** Contexts keep their order: selection distributes over concatenation. */
  lemma {:induction false} ContextsAppend(a: seq<string>, b: seq<string>)
    ensures Contexts(a + b) == Contexts(a) + Contexts(b)
  {
    if a == [] {
      assert a + b == b;
    } else {
      assert (a + b)[0] == a[0];
      assert (a + b)[1..] == a[1..] + b;
      ContextsAppend(a[1..], b);
    }
  }

  /** Features keep their order: selection distributes over concatenation. */
  lemma {:induction false} FeaturesAppend(a: seq<string>, b: seq<string>)
    ensures Features(a + b) == Features(a) + Features(b)
  {
    if a == [] {
      assert a + b == b;
    } else {
      assert (a + b)[0] == a[0];
      assert (a + b)[1..] == a[1..] + b;
      FeaturesAppend(a[1..], b);
    }
  }

  /** Every lowered TYPE value lands in exactly one of the two lists, as
      often as it occurs. */
  lemma {:induction false} ContextsAndFeaturesPartition(ss: seq<string>)
    ensures multiset(Contexts(ss)) + multiset(Features(ss)) == multiset(ss)
    ensures |Contexts(ss)| + |Features(ss)| == |ss|
  {
    if ss != [] {
      ContextsAndFeaturesPartition(ss[1..]);
      assert ss == [ss[0]] + ss[1..];
    }
  }

  /** The TYPE values that are contexts, lower-cased: one string value gives
      itself if it is a context, an array gives its context entries. */
  function GetContexts(prop: Property): (r: Option<seq<string>>)
    ensures r.Some? ==> r.value != [] && forall k :: 0 <= k < |r.value| ==> IsContext(r.value[k]) && LowerAscii(r.value[k]) == r.value[k]
  {
    match Param(prop, "type")
    case Some(JString(s)) =>
      var context := LowerAscii(s);
      LowerIdempotent(s);
      if IsContext(context) then Some([context]) else None
    case Some(JArray(vs)) => NonEmpty(Contexts(LoweredStrings(vs)))
    case _ => None
  }

  /** The TYPE values that are not contexts, lower-cased. */
  function GetFeatures(prop: Property): (r: Option<seq<string>>)
    ensures r.Some? ==> r.value != [] && forall k :: 0 <= k < |r.value| ==> !IsContext(r.value[k]) && LowerAscii(r.value[k]) == r.value[k]
  {
    match Param(prop, "type")
    case Some(JString(s)) =>
      var feature := LowerAscii(s);
      LowerIdempotent(s);
      if !IsContext(feature) then Some([feature]) else None
    case Some(JArray(vs)) => NonEmpty(Features(LoweredStrings(vs)))
    case _ => None
  }

  /** A single TYPE string is exactly one of a context or a feature. */
  lemma SingleTypeIsContextOrFeature(prop: Property)
    requires Param(prop, "type").Some? && Param(prop, "type").value.JString?
    ensures GetContexts(prop).Some? != GetFeatures(prop).Some?
    ensures GetContexts(prop).Some? ==> GetContexts(prop).value == [LowerAscii(Param(prop, "type").value.str)]
    ensures GetFeatures(prop).Some? ==> GetFeatures(prop).value == [LowerAscii(Param(prop, "type").value.str)]
  {
  }

  /** A TYPE array splits its lowered string entries between contexts and
      features: each occurrence lands in exactly one list, the contexts
      being the entries that name a context and the features the rest. */
  lemma TypeArrayPartition(prop: Property)
    requires Param(prop, "type").Some? && Param(prop, "type").value.JArray?
    ensures multiset(GetContexts(prop).GetOr([])) + multiset(GetFeatures(prop).GetOr([]))
      == multiset(LoweredStrings(Param(prop, "type").value.arr))
    ensures forall s :: s in GetContexts(prop).GetOr([]) <==>
      s in LoweredStrings(Param(prop, "type").value.arr) && IsContext(s)
    ensures forall s :: s in GetFeatures(prop).GetOr([]) <==>
      s in LoweredStrings(Param(prop, "type").value.arr) && !IsContext(s)
  {
    var lowered := LoweredStrings(Param(prop, "type").value.arr);
    assert GetContexts(prop).GetOr([]) == Contexts(lowered);
    assert GetFeatures(prop).GetOr([]) == Features(lowered);
    ContextsAndFeaturesPartition(lowered);
    forall s
      ensures s in Contexts(lowered) <==> s in lowered && IsContext(s)
      ensures s in Features(lowered) <==> s in lowered && !IsContext(s)
    {
      ContextsMembers(lowered, s);
      FeaturesMembers(lowered, s);
    }
  }

  /** A telephone TYPE array ["work", "Voice"]: the context is "work" and
      the feature "voice", lower-cased. */
  lemma TypeArrayExample(prop: Property)
    requires Param(prop, "type") == Some(JArray([JString("work"), JString("Voice")]))
    ensures GetContexts(prop) == Some(["work"])
    ensures GetFeatures(prop) == Some(["voice"])
  {
    WorkVoiceLowered();
    WorkVoiceSplit();
  }

  lemma WorkVoiceLowered()
    ensures LoweredStrings([JString("work"), JString("Voice")]) == ["work", "voice"]
  {
    var work, voice := JString("work"), JString("Voice");
    assert LowerAscii("work") == "work";
    assert LowerAscii("Voice") == "voice";
    LoweredSingle(work);
    LoweredSingle(voice);
    LoweredStringsAppend([work], [voice]);
    assert [work] + [voice] == [work, voice];
  }

  lemma WorkVoiceSplit()
    ensures Contexts(["work", "voice"]) == ["work"] && Features(["work", "voice"]) == ["voice"]
  {
    var lowered := ["work", "voice"];
    assert lowered[1..] == ["voice"] && lowered[1..][1..] == [];
    assert !IsContext("voice");
    assert Contexts(["voice"]) == [] && Features(["voice"]) == ["voice"];
  }

  lemma LoweredSingle(v: JsonValue)
    ensures LoweredStrings([v]) == if v.JString? then [LowerAscii(v.str)] else []
  {
    assert [v][1..] == [];
  }

  // ---------------------------------------------------------------------
  // Languages, e-mail addresses, telephone numbers
  // ---------------------------------------------------------------------

  datatype Lang = Lang(tag: string, preference: Option<nat>)

  datatype Email = Email(email: string, contexts: seq<string>, preference: Option<nat>)

  datatype Phone = Phone(phone: string, features: seq<string>, contexts: seq<string>, preference: Option<nat>)

  function LangOf(prop: Property): Option<Lang> {
    match GetText(prop)
    case None => None
    case Some(tag) => Some(Lang(tag, GetPreference(prop)))
  }

  function EmailOf(prop: Property): Option<Email> {
    match GetText(prop)
    case None => None
    case Some(addr) => Some(Email(addr, GetContexts(prop).GetOr([]), GetPreference(prop)))
  }

  function PhoneOf(prop: Property): Option<Phone> {
    match GetText(prop)
    case None => None
    case Some(number) =>
      Some(Phone(number, GetFeatures(prop).GetOr([]), GetContexts(prop).GetOr([]), GetPreference(prop)))
  }

  function GetLangs(props: seq<Property>): (r: Option<seq<Lang>>)
    ensures r.Some? ==> r.value != []
  {
    NonEmpty(FilterMap(props, LangOf))
  }

  function GetEmails(props: seq<Property>): (r: Option<seq<Email>>)
    ensures r.Some? ==> r.value != []
  {
    NonEmpty(FilterMap(props, EmailOf))
  }

  function GetPhones(props: seq<Property>): (r: Option<seq<Phone>>)
    ensures r.Some? ==> r.value != []
  {
    NonEmpty(FilterMap(props, PhoneOf))
  }

  /** A language comes from a property with a text value: the text is its
      tag and the property's "pref" its preference; every such property
      gives one. */
  lemma LangsFromProperties(props: seq<Property>, l: Lang)
    ensures (GetLangs(props).Some? && l in GetLangs(props).value) <==>
      exists k :: 0 <= k < |props| && GetText(props[k]) == Some(l.tag) && l.preference == GetPreference(props[k])
  {
    FilterMapMembers(props, LangOf, l);
  }

  /** An e-mail address comes from a property with a text value, with that
      property's contexts and preference; every such property gives one. */
  lemma EmailsFromProperties(props: seq<Property>, e: Email)
    ensures (GetEmails(props).Some? && e in GetEmails(props).value) <==>
      exists k :: 0 <= k < |props| && GetText(props[k]) == Some(e.email)
        && e.contexts == GetContexts(props[k]).GetOr([]) && e.preference == GetPreference(props[k])
  {
    FilterMapMembers(props, EmailOf, e);
  }

  /** A phone comes from a property with a text value, with that property's
      features, contexts and preference; every such property gives one. */
  lemma PhonesFromProperties(props: seq<Property>, ph: Phone)
    ensures (GetPhones(props).Some? && ph in GetPhones(props).value) <==>
      exists k :: 0 <= k < |props| && GetText(props[k]) == Some(ph.phone)
        && ph.features == GetFeatures(props[k]).GetOr([]) && ph.contexts == GetContexts(props[k]).GetOr([])
        && ph.preference == GetPreference(props[k])
  {
    FilterMapMembers(props, PhoneOf, ph);
  }

  /** The records of two runs of properties are those of the first run
      followed by those of the second. */
  lemma RecordsAppend(a: seq<Property>, b: seq<Property>)
    ensures FilterMap(a + b, LangOf) == FilterMap(a, LangOf) + FilterMap(b, LangOf)
    ensures FilterMap(a + b, EmailOf) == FilterMap(a, EmailOf) + FilterMap(b, EmailOf)
    ensures FilterMap(a + b, PhoneOf) == FilterMap(a, PhoneOf) + FilterMap(b, PhoneOf)
  {
    FilterMapAppend(a, b, LangOf);
    FilterMapAppend(a, b, EmailOf);
    FilterMapAppend(a, b, PhoneOf);
  }

  /** A work voice line preferred first: the phone keeps the number, has the
      feature "voice", the context "work" and preference 1. */
  lemma PhoneExample(prop: Property, number: string)
    requires GetText(prop) == Some(number)
    requires Param(prop, "type") == Some(JArray([JString("work"), JString("Voice")]))
    requires Param(prop, "pref") == Some(JString("1"))
    ensures GetPhones([prop]) == Some([Phone(number, ["voice"], ["work"], Some(1))])
  {
    TypeArrayExample(prop);
    assert GetPreference(prop) == Some(1) by {
      ParseDecimalRoundTrip(1, U64_LIMIT);
      assert NatToDecimal(1) == "1";
    }
    var phone := Phone(number, ["voice"], ["work"], Some(1));
    assert PhoneOf(prop) == Some(phone);
    assert [prop][1..] == [];
    assert FilterMap([prop], PhoneOf) == [phone] + FilterMap([], PhoneOf);
    assert FilterMap([], PhoneOf) == [];
    assert [phone] + [] == [phone];
  }

  /** A getter that builds one record per property with a text value, keyed
      by that text, lines its records up with the texts one for one. */
  lemma {:induction false} RecordsFollowTexts<T>(props: seq<Property>, f: Property -> Option<T>, key: T -> string)
    requires forall p :: f(p).Some? <==> GetText(p).Some?
    requires forall p :: f(p).Some? ==> key(f(p).value) == GetText(p).value
    ensures |FilterMap(props, f)| == |FilterMap(props, GetText)|
    ensures forall k :: 0 <= k < |FilterMap(props, f)| ==> key(FilterMap(props, f)[k]) == FilterMap(props, GetText)[k]
  {
    if props != [] {
      RecordsFollowTexts(props[1..], f, key);
      var head := match f(props[0]) case Some(x) => [x] case None => [];
      var headText := match GetText(props[0]) case Some(x) => [x] case None => [];
      assert FilterMap(props, f) == head + FilterMap(props[1..], f);
      assert FilterMap(props, GetText) == headText + FilterMap(props[1..], GetText);
    }
  }

  /** The languages are the text values of the properties, each with its
      preference. */
  lemma LangsAreTexts(props: seq<Property>)
    ensures GetLangs(props).None? <==> GetTexts(props).None?
    ensures GetLangs(props).Some? ==>
      |GetLangs(props).value| == |GetTexts(props).value|
      && forall k :: 0 <= k < |GetLangs(props).value| ==> GetLangs(props).value[k].tag == GetTexts(props).value[k]
  {
    RecordsFollowTexts(props, LangOf, (l: Lang) => l.tag);
  }

  /** The e-mail addresses are the text values of the properties. */
  lemma EmailsAreTexts(props: seq<Property>)
    ensures GetEmails(props).None? <==> GetTexts(props).None?
    ensures GetEmails(props).Some? ==>
      |GetEmails(props).value| == |GetTexts(props).value|
      && forall k :: 0 <= k < |GetEmails(props).value| ==> GetEmails(props).value[k].email == GetTexts(props).value[k]
  {
    RecordsFollowTexts(props, EmailOf, (e: Email) => e.email);
  }

  /** The telephone numbers are the text values of the properties. */
  lemma PhonesAreTexts(props: seq<Property>)
    ensures GetPhones(props).None? <==> GetTexts(props).None?
    ensures GetPhones(props).Some? ==>
      |GetPhones(props).value| == |GetTexts(props).value|
      && forall k :: 0 <= k < |GetPhones(props).value| ==> GetPhones(props).value[k].phone == GetTexts(props).value[k]
  {
    RecordsFollowTexts(props, PhoneOf, (p: Phone) => p.phone);
  }

  // ---------------------------------------------------------------------
  // Strings or arrays of strings
  // ---------------------------------------------------------------------

  /** The non-empty strings of a JSON array, in order. */
  function NonEmptyStrings(vs: seq<JsonValue>): (r: seq<string>)
    ensures |r| <= |vs|
    ensures forall k :: 0 <= k < |r| ==> r[k] != []
  {
    if vs == [] then []
    else
      var last := vs[|vs| - 1];
      NonEmptyStrings(vs[..|vs| - 1]) + (if last.JString? && last.str != [] then [last.str] else [])
  }

  /** A non-empty string as a one-element list, or the non-empty strings of
      an array; None when that leaves nothing. */
  function GetStringOrVec(v: JsonValue): (r: Option<seq<string>>)
    ensures r.Some? ==> r.value != [] && forall k :: 0 <= k < |r.value| ==> r.value[k] != []
    ensures r.Some? ==> v.JString? || v.JArray?
    ensures v.JString? ==> (r.Some? <==> v.str != []) && (r.Some? ==> r.value == [v.str])
  {
    match v
    case JString(s) => if s == [] then None else Some([s])
    case JArray(vs) => NonEmpty(NonEmptyStrings(vs))
    case _ => None
  }

  /** An array keeps exactly its non-empty strings: empty strings and other
      values in it are dropped. */
  lemma {:induction false} NonEmptyStringsMembers(vs: seq<JsonValue>, s: string)
    ensures s in NonEmptyStrings(vs) <==> s != [] && JString(s) in vs
  {
    if vs != [] {
      NonEmptyStringsMembers(vs[..|vs| - 1], s);
      assert vs == vs[..|vs| - 1] + [vs[|vs| - 1]];
    }
  }

  // ---------------------------------------------------------------------
  // Postal addresses
  // ---------------------------------------------------------------------

  datatype PostalAddress = PostalAddress(
    fullAddress: Option<string>,
    contexts: seq<string>,
    preference: Option<nat>,
    countryCode: Option<string>,
    countryName: Option<string>,
    postalCode: Option<string>,
    regionName: Option<string>,
    regionCode: Option<string>,
    locality: Option<string>,
    streetParts: seq<string>)

  /** The number of bytes the UTF-8 encoding of `c` takes. */
  function Utf8Width(c: char): nat {
    if c as int < 0x80 then 1 else if c as int < 0x800 then 2 else if c as int < 0x1_0000 then 3 else 4
  }

  /** Rust's `str::len`: the length of the UTF-8 encoding. */
  function Utf8Len(s: string): (n: nat)
    ensures n >= |s|
  {
    if s == [] then 0 else Utf8Len(s[..|s| - 1]) + Utf8Width(s[|s| - 1])
  }

  /** A region or country field that reads as a code: two bytes long and
      unchanged by upper-casing. */
  predicate IsCode(s: string) {
    Utf8Len(s) == 2 && UpperAscii(s) == s
  }

  /** Two-letter upper-case codes are codes; names and lower-case codes are
      not. */
  lemma CodeExamples()
    ensures IsCode("QC") && IsCode("CA")
    ensures !IsCode("Canada") && !IsCode("qc") && !IsCode("Q")
  {
    assert Utf8Len("QC") == Utf8Len("Q") + 1 by { assert "QC"[..1] == "Q"; }
    assert Utf8Len("CA") == Utf8Len("C") + 1 by { assert "CA"[..1] == "C"; }
    assert "qc"[0] != "QC"[0];
    assert UpperAscii("qc")[0] == 'Q';
  }

  /** The address array of an "adr" property (its fourth element), or the
      empty array when it has none. */
  function AddressFields(prop: Property): seq<JsonValue> {
    if |prop| > 3 && prop[3].JArray? then prop[3].arr else []
  }

  /** A non-empty string at index `k` of an address array. */
  function FieldText(fields: seq<JsonValue>, k: nat): (r: Option<string>)
    ensures r.Some? ==> r.value != [] && k < |fields| && fields[k] == JString(r.value)
  {
    if k < |fields| && fields[k].JString? && fields[k].str != [] then Some(fields[k].str) else None
  }

  function OptionToSeq<T>(o: Option<T>): seq<T> {
    match o
    case Some(x) => [x]
    case None => []
  }

  /** The street parts: the post office box, the apartment, then the street,
      which may be one string or an array of them; empty strings are
      dropped. */
  function StreetParts(fields: seq<JsonValue>): (r: seq<string>)
    ensures forall k :: 0 <= k < |r| ==> r[k] != []
  {
    OptionToSeq(FieldText(fields, 0)) + OptionToSeq(FieldText(fields, 1))
    + (if |fields| > 2 && fields[2].JArray? then NonEmptyStrings(fields[2].arr)
       else OptionToSeq(FieldText(fields, 2)))
  }

  /** A field that is a code, and one that is a name. */
  function CodeOf(f: Option<string>): Option<string> {
    if f.Some? && IsCode(f.value) then f else None
  }

  function NameOf(f: Option<string>): Option<string> {
    if f.Some? && !IsCode(f.value) then f else None
  }

  /** The postal address one "adr" property describes. The "cc" parameter is
      preferred to a code in the country field. */
  function PostalAddressOf(prop: Property): PostalAddress {
    var fields := AddressFields(prop);
    PostalAddress(
      fullAddress := GetLabel(prop),
      contexts := GetContexts(prop).GetOr([]),
      preference := GetPreference(prop),
      countryCode := GetCountryCode(prop).Or(CodeOf(FieldText(fields, 6))),
      countryName := NameOf(FieldText(fields, 6)),
      postalCode := FieldText(fields, 5),
      regionName := NameOf(FieldText(fields, 4)),
      regionCode := CodeOf(FieldText(fields, 4)),
      locality := FieldText(fields, 3),
      streetParts := StreetParts(fields))
  }

  /** Collects the street parts of an address array: the box and the
      apartment when present, then the street string or each string of the
      street array. */
  method ReadStreetParts(addr: seq<JsonValue>) returns (streetParts: seq<string>)
    ensures streetParts == StreetParts(addr)
  {
    streetParts := [];
    if |addr| > 0 && addr[0].JString? && addr[0].str != [] {
      streetParts := streetParts + [addr[0].str];
    }
    if |addr| > 1 && addr[1].JString? && addr[1].str != [] {
      streetParts := streetParts + [addr[1].str];
    }
    if |addr| > 2 {
      var street := addr[2];
      if street.JString? {
        if street.str != [] {
          streetParts := streetParts + [street.str];
        }
      } else if street.JArray? {
        streetParts := PushStreetStrings(streetParts, street.arr);
      }
    }
  }

  /** Pushes each non-empty string of a street array onto `parts`. */
  method PushStreetStrings(parts: seq<string>, street: seq<JsonValue>) returns (streetParts: seq<string>)
    ensures streetParts == parts + NonEmptyStrings(street)
  {
    streetParts := parts;
    for i := 0 to |street|
      invariant streetParts == parts + NonEmptyStrings(street[..i])
    {
      assert street[..i + 1][..i] == street[..i];
      var v := street[i];
      if v.JString? && v.str != [] {
        streetParts := streetParts + [v.str];
      }
    }
    assert street[..|street|] == street;
  }

  /** Reads the locality, region, postal code and country fields of an
      address array; a two-byte upper-case region or country is a code. */
  method ReadPlaceFields(addr: seq<JsonValue>)
    returns (locality: Option<string>, regionCode: Option<string>, regionName: Option<string>,
             postalCode: Option<string>, countryCode: Option<string>, countryName: Option<string>)
    ensures locality == FieldText(addr, 3)
    ensures regionCode == CodeOf(FieldText(addr, 4)) && regionName == NameOf(FieldText(addr, 4))
    ensures postalCode == FieldText(addr, 5)
    ensures countryCode == CodeOf(FieldText(addr, 6)) && countryName == NameOf(FieldText(addr, 6))
  {
    locality, regionCode, regionName, postalCode, countryCode, countryName := None, None, None, None, None, None;
    if |addr| > 3 && addr[3].JString? && addr[3].str != [] {
      locality := Some(addr[3].str);
    }
    if |addr| > 4 && addr[4].JString? && addr[4].str != [] {
      var s := addr[4].str;
      if IsCode(s) {
        regionCode := Some(s);
      } else {
        regionName := Some(s);
      }
    }
    if |addr| > 5 && addr[5].JString? && addr[5].str != [] {
      postalCode := Some(addr[5].str);
    }
    if |addr| > 6 && addr[6].JString? && addr[6].str != [] {
      var s := addr[6].str;
      if IsCode(s) {
        countryCode := Some(s);
      } else {
        countryName := Some(s);
      }
    }
  }

  /** Builds the address of one "adr" property: the fields of its address
      array when it has one, then the parameters, the "cc" parameter taking
      precedence over a code in the country field. */
  method BuildPostalAddress(prop: Property) returns (a: PostalAddress)
    ensures a == PostalAddressOf(prop)
  {
    var addr := if |prop| > 3 && prop[3].JArray? then prop[3].arr else [];
    var streetParts := ReadStreetParts(addr);
    var locality, regionCode, regionName, postalCode, countryCode, countryName := ReadPlaceFields(addr);
    a := PostalAddress(
      fullAddress := GetLabel(prop),
      contexts := GetContexts(prop).GetOr([]),
      preference := GetPreference(prop),
      countryCode := GetCountryCode(prop).Or(countryCode),
      countryName := countryName,
      postalCode := postalCode,
      regionName := regionName,
      regionCode := regionCode,
      locality := locality,
      streetParts := streetParts);
  }

  /** The addresses of some "adr" properties, one per property. */
  function PostalAddressesOf(props: seq<Property>): (r: seq<PostalAddress>)
    ensures |r| == |props|
  {
    seq(|props|, k requires 0 <= k < |props| => PostalAddressOf(props[k]))
  }

  /** One address for every "adr" property, in order; None when there are no
      such properties. */
  method GetPostalAddresses(props: seq<Property>) returns (r: Option<seq<PostalAddress>>)
    ensures r.None? <==> props == []
    ensures r.Some? ==> r.value == PostalAddressesOf(props)
  {
    var addrs: seq<PostalAddress> := [];
    for i := 0 to |props|
      invariant addrs == PostalAddressesOf(props[..i])
    {
      var a := BuildPostalAddress(props[i]);
      addrs := addrs + [a];
      assert props[..i + 1][..i] == props[..i];
    }
    assert props[..|props|] == props;
    r := NonEmpty(addrs);
  }

  /** A non-empty region field is exactly one of a code or a name, and the
      code is two bytes of upper case. */
  lemma RegionIsCodeOrName(prop: Property)
    ensures PostalAddressOf(prop).regionCode.None? || PostalAddressOf(prop).regionName.None?
    ensures FieldText(AddressFields(prop), 4).Some? ==>
      PostalAddressOf(prop).regionCode.Some? != PostalAddressOf(prop).regionName.Some?
    ensures PostalAddressOf(prop).regionCode.Some? ==> IsCode(PostalAddressOf(prop).regionCode.value)
  {
  }

  /** A "cc" parameter gives the country code whatever the country field
      says; without one, the country field gives the code when it reads as a
      code. The country field never gives both a code and a name. */
  lemma CountryCodePrefersParameter(prop: Property)
    ensures GetCountryCode(prop).Some? ==> PostalAddressOf(prop).countryCode == GetCountryCode(prop)
    ensures GetCountryCode(prop).None? ==>
      PostalAddressOf(prop).countryCode == CodeOf(FieldText(AddressFields(prop), 6))
    ensures CodeOf(FieldText(AddressFields(prop), 6)).None? || PostalAddressOf(prop).countryName.None?
  {
  }

  /** An example address array whose street is an array of two strings. */
  function ExampleAddress(): Property {
    [JString("adr"), JObject(map["type" := JString("work")]), JString("text"),
     JArray([JString(""), JString("Suite 1234"), JArray([JString("4321 Rue Blue"), JString("1, Gawwn")]),
             JString("Quebec"), JString("QC"), JString("G1V 2M2"), JString("Canada")])]
  }

  /** The empty box is dropped and the street strings follow the
      apartment. */
  lemma StreetArrayExample()
    ensures PostalAddressOf(ExampleAddress()).streetParts == ["Suite 1234", "4321 Rue Blue", "1, Gawwn"]
  {
    var street := [JString("4321 Rue Blue"), JString("1, Gawwn")];
    assert NonEmptyStrings(street) == ["4321 Rue Blue", "1, Gawwn"] by {
      assert street[..1] == [JString("4321 Rue Blue")];
      assert street[..1][..0] == [];
    }
  }

  /** "QC" is a region code, "Canada" a country name, and the TYPE
      parameter "work" a context. */
  lemma AddressFieldsExample()
    ensures var a := PostalAddressOf(ExampleAddress());
      a.contexts == ["work"]
      && a.regionCode == Some("QC") && a.regionName == None
      && a.countryName == Some("Canada") && a.countryCode == None
      && a.postalCode == Some("G1V 2M2") && a.locality == Some("Quebec")
  {
    CodeExamples();
    assert LowerAscii("work") == "work";
  }

  // ---------------------------------------------------------------------
  // Name parts
  // ---------------------------------------------------------------------

  /** The structured name. An empty list stands for an absent one. */
  datatype NameParts = NameParts(
    surnames: seq<string>,
    givenNames: seq<string>,
    middleNames: seq<string>,
    prefixes: seq<string>,
    suffixes: seq<string>)

  predicate IsEmptyName(n: NameParts) {
    n.surnames == [] && n.givenNames == [] && n.middleNames == [] && n.prefixes == [] && n.suffixes == []
  }

  /** Only strings and arrays fill the slots of a structured name. */
  predicate IsNamePart(v: JsonValue) {
    v.JString? || v.JArray?
  }

  /** The values of a name array that fill its slots, in order. */
  function NamePartSlots(vs: seq<JsonValue>): (r: seq<JsonValue>)
    ensures |r| <= |vs|
    ensures forall k :: 0 <= k < |r| ==> IsNamePart(r[k])
  {
    if vs == [] then []
    else (if IsNamePart(vs[0]) then [vs[0]] else []) + NamePartSlots(vs[1..])
  }

  lemma {:induction false} NamePartSlotsAppend(a: seq<JsonValue>, b: seq<JsonValue>)
    ensures NamePartSlots(a + b) == NamePartSlots(a) + NamePartSlots(b)
  {
    if a == [] {
      assert a + b == b;
    } else {
      assert (a + b)[0] == a[0];
      assert (a + b)[1..] == a[1..] + b;
      NamePartSlotsAppend(a[1..], b);
    }
  }

  /** The strings of slot `k`, none when there are fewer slots. */
  function SlotValues(slots: seq<JsonValue>, k: nat): (r: seq<string>)
    ensures forall i :: 0 <= i < |r| ==> r[i] != []
  {
    if k < |slots| then GetStringOrVec(slots[k]).GetOr([]) else []
  }

  /** The structured name of an "n" property: its value array read as
      surnames, given names, middle names, prefixes and suffixes; None when
      there is no property, no array, or every slot is empty. */
  function NamePartsOf(prop: Option<Property>): (r: Option<NameParts>)
    ensures r.Some? ==> !IsEmptyName(r.value)
    ensures r.Some? ==> prop.Some? && |prop.value| > 3 && prop.value[3].JArray?
  {
    if prop.None? || |prop.value| <= 3 || !prop.value[3].JArray? then None
    else
      var slots := NamePartSlots(prop.value[3].arr);
      var name := NameParts(SlotValues(slots, 0), SlotValues(slots, 1), SlotValues(slots, 2),
                            SlotValues(slots, 3), SlotValues(slots, 4));
      if IsEmptyName(name) then None else Some(name)
  }

  /** The slots left after dropping `k` of them. */
  function DropSlots(slots: seq<JsonValue>, k: nat): seq<JsonValue> {
    if k <= |slots| then slots[k..] else []
  }

  /** Advances over the name array from `pos` to the next slot value, as the
      filtering iterator does: `next` is where the following call resumes. */
  method NextNamePart(parts: seq<JsonValue>, pos: nat) returns (e: Option<JsonValue>, next: nat)
    requires pos <= |parts|
    ensures next <= |parts|
    ensures e.None? <==> NamePartSlots(parts[pos..]) == []
    ensures e.Some? ==> e.value == NamePartSlots(parts[pos..])[0]
    ensures NamePartSlots(parts[next..]) == DropSlots(NamePartSlots(parts[pos..]), 1)
  {
    var i := pos;
    while i < |parts| && !IsNamePart(parts[i])
      invariant pos <= i <= |parts|
      invariant NamePartSlots(parts[i..]) == NamePartSlots(parts[pos..])
    {
      assert parts[i..][1..] == parts[i + 1..];
      i := i + 1;
    }
    if i == |parts| {
      e, next := None, i;
    } else {
      assert parts[i..][1..] == parts[i + 1..];
      e, next := Some(parts[i]), i + 1;
    }
  }

  /** Takes the next slot value of the name array, from `pos`, and reads its
      strings: the values of slot `k` of `slots`, when `pos` is where slot
      `k` starts. */
  method NextSlotValues(parts: seq<JsonValue>, pos: nat, ghost slots: seq<JsonValue>, ghost k: nat)
    returns (values: Option<seq<string>>, next: nat)
    requires pos <= |parts|
    requires NamePartSlots(parts[pos..]) == DropSlots(slots, k)
    ensures next <= |parts|
    ensures values.GetOr([]) == SlotValues(slots, k)
    ensures NamePartSlots(parts[next..]) == DropSlots(slots, k + 1)
  {
    var e;
    e, next := NextNamePart(parts, pos);
    values := None;
    if e.Some? {
      values := GetStringOrVec(e.value);
    }
    if k < |slots| {
      assert DropSlots(slots, k)[0] == slots[k];
      assert DropSlots(DropSlots(slots, k), 1) == DropSlots(slots, k + 1);
    }
  }

  /** Reads the structured name from an optional "n" property, taking the
      next five slot values in turn. */
  method GetNameParts(prop: Option<Property>) returns (r: Option<NameParts>)
    ensures r == NamePartsOf(prop)
  {
    if prop.None? || |prop.value| <= 3 || !prop.value[3].JArray? {
      return None;
    }
    var parts := prop.value[3].arr;
    ghost var slots := NamePartSlots(parts);
    assert parts[0..] == parts;
    var surnames, givenNames, middleNames, prefixes, suffixes: Option<seq<string>>;
    var pos := 0;
    surnames, pos := NextSlotValues(parts, pos, slots, 0);
    givenNames, pos := NextSlotValues(parts, pos, slots, 1);
    middleNames, pos := NextSlotValues(parts, pos, slots, 2);
    prefixes, pos := NextSlotValues(parts, pos, slots, 3);
    suffixes, pos := NextSlotValues(parts, pos, slots, 4);
    var name := NameParts(surnames.GetOr([]), givenNames.GetOr([]), middleNames.GetOr([]),
                          prefixes.GetOr([]), suffixes.GetOr([]));
    if IsEmptyName(name) {
      r := None;
    } else {
      r := Some(name);
    }
  }

  /** Values other than strings and arrays take no slot: removing one from
      the name array changes nothing. */
  lemma NonPartsTakeNoSlot(prop: Property, front: seq<JsonValue>, back: seq<JsonValue>, x: JsonValue)
    requires |prop| > 3
    requires !IsNamePart(x)
    ensures NamePartsOf(Some(prop[3 := JArray(front + [x] + back)])) == NamePartsOf(Some(prop[3 := JArray(front + back)]))
  {
    var p, q := prop[3 := JArray(front + [x] + back)], prop[3 := JArray(front + back)];
    NonPartSlots(front, back, x);
    SameSlotsSameName(p, q);
  }

  lemma NonPartSlots(front: seq<JsonValue>, back: seq<JsonValue>, x: JsonValue)
    requires !IsNamePart(x)
    ensures NamePartSlots(front + [x] + back) == NamePartSlots(front + back)
  {
    NamePartSlotsAppend(front + [x], back);
    NamePartSlotsAppend(front, [x]);
    NamePartSlotsAppend(front, back);
    assert NamePartSlots([x]) == [];
  }

  /** Two "n" properties whose name arrays have the same slots give the same
      structured name. */
  lemma SameSlotsSameName(p: Property, q: Property)
    requires |p| > 3 && |q| > 3 && p[3].JArray? && q[3].JArray?
    requires NamePartSlots(p[3].arr) == NamePartSlots(q[3].arr)
    ensures NamePartsOf(Some(p)) == NamePartsOf(Some(q))
  {
  }


  /** A surname, a given name, two empty slots and an array of suffixes. */
  lemma NamePartsExample()
    ensures NamePartsOf(Some([JString("n"), JObject(map[]), JString("text"),
      JArray([JString("User"), JString("Joe"), JString(""), JString(""),
              JArray([JString("ing. jr"), JString("M.Sc.")])])]))
      == Some(NameParts(["User"], ["Joe"], [], [], ["ing. jr", "M.Sc."]))
  {
    var suffixes := [JString("ing. jr"), JString("M.Sc.")];
    assert NonEmptyStrings(suffixes) == ["ing. jr", "M.Sc."] by {
      assert suffixes[..1] == [JString("ing. jr")];
      assert suffixes[..1][..0] == [];
    }
  }

  // ---------------------------------------------------------------------
  // The contact
  // ---------------------------------------------------------------------

  /** The contact a jCard describes. An empty list stands for an absent one. */
  datatype Contact = Contact(
    fullName: Option<string>,
    kind: Option<string>,
    titles: seq<string>,
    roles: seq<string>,
    nickNames: seq<string>,
    organizationNames: seq<string>,
    langs: seq<Lang>,
    emails: seq<Email>,
    phones: seq<Phone>,
    postalAddresses: seq<PostalAddress>,
    nameParts: Option<NameParts>,
    contactUris: seq<string>,
    urls: seq<string>)

  /** Some field of the contact is present. */
  predicate IsNonEmpty(c: Contact) {
    c.fullName.Some? || c.kind.Some? || c.titles != [] || c.roles != [] || c.nickNames != []
    || c.organizationNames != [] || c.langs != [] || c.emails != [] || c.phones != []
    || c.postalAddresses != [] || c.nameParts.Some? || c.contactUris != [] || c.urls != []
  }

  /** The text values of the properties of one name. */
  function TextsOf(vcard: seq<JsonValue>, name: string): seq<string> {
    GetTexts(FindProperties(vcard, name)).GetOr([])
  }

  /** The contact read from the properties of a jCard. */
  function ContactOf(vcard: seq<JsonValue>): Contact {
    Contact(
      fullName := match FindProperty(vcard, "fn") case Some(p) => GetText(p) case None => None,
      kind := match FindProperty(vcard, "kind") case Some(p) => GetText(p) case None => None,
      titles := TextsOf(vcard, "title"),
      roles := TextsOf(vcard, "role"),
      nickNames := TextsOf(vcard, "nickname"),
      organizationNames := TextsOf(vcard, "org"),
      langs := GetLangs(FindProperties(vcard, "lang")).GetOr([]),
      emails := GetEmails(FindProperties(vcard, "email")).GetOr([]),
      phones := GetPhones(FindProperties(vcard, "tel")).GetOr([]),
      postalAddresses := PostalAddressesOf(FindProperties(vcard, "adr")),
      nameParts := NamePartsOf(FindProperty(vcard, "n")),
      contactUris := TextsOf(vcard, "contact-uri"),
      urls := TextsOf(vcard, "url"))
  }

  /** The jCard form: "vcard" in any ASCII case, then an array of
      properties. */
  predicate IsVcardHeader(v: seq<JsonValue>) {
    |v| >= 2 && v[0].JString? && EqIgnoreAsciiCase(v[0].str, "vcard") && v[1].JArray?
  }

  /** The contact of a jCard, or None when the value is not a jCard or
      yields no contact information. */
  function FromVcard(v: seq<JsonValue>): (r: Option<Contact>)
    ensures r.Some? <==> IsVcardHeader(v) && IsNonEmpty(ContactOf(v[1].arr))
    ensures r.Some? ==> r.value == ContactOf(v[1].arr)
  {
    if |v| == 0 || !v[0].JString? || !EqIgnoreAsciiCase(v[0].str, "vcard") then None
    else if |v| < 2 || !v[1].JArray? then None
    else
      var contact := ContactOf(v[1].arr);
      if IsNonEmpty(contact) then Some(contact) else None
  }

  /** A jCard whose first "fn" property carries a text gives a contact with
      that full name, whatever the case of its "vcard" tag. */
  lemma FullNameGivesContact(tag: string, vcard: seq<JsonValue>, name: string)
    requires EqIgnoreAsciiCase(tag, "vcard")
    requires FindProperty(vcard, "fn").Some? && GetText(FindProperty(vcard, "fn").value) == Some(name)
    ensures FromVcard([JString(tag), JArray(vcard)]).Some?
    ensures FromVcard([JString(tag), JArray(vcard)]).value.fullName == Some(name)
  {
  }

  /** A jCard with no properties, or a value that is not a jCard, gives no
      contact. */
  lemma NoContactWithoutProperties(v: seq<JsonValue>)
    requires !IsVcardHeader(v) || v[1].arr == []
    ensures FromVcard(v) == None
  {
    if IsVcardHeader(v) {
      var c := ContactOf([]);
      assert GetTexts([]) == None;
      assert GetLangs([]) == None && GetEmails([]) == None && GetPhones([]) == None;
    }
  }
}
