/** The JSON shape the client's serde-derived types are read from and
    written to, as a value tree (not as text): numbers are integers,
    objects are maps from key to value. The helpers give serde's rules for a
    struct field: an `Option` field reads as `None` when its key is missing
    or null, any other field is required, and a present `None` is written as
    null unless the field is skipped. */
module Wire {
  import opened Wrappers

  /** Rust's `i64`. */
  type i64 = x: int | -0x8000_0000_0000_0000 <= x < 0x8000_0000_0000_0000

  datatype Value =
    | Null
    | Num(n: int)
    | Str(s: string)
    | Arr(items: seq<Value>)
    | Obj(fields: map<string, Value>)

  type Object = map<string, Value>

  // Writers

  function OfI64(x: i64): Value { Num(x) }

  function OfString(s: string): Value { Str(s) }

  function OfStrings(ss: seq<string>): (v: Value)
    ensures v.Arr? && |v.items| == |ss|
    ensures forall i :: 0 <= i < |ss| ==> v.items[i] == Str(ss[i])
  {
    Arr(seq(|ss|, i requires 0 <= i < |ss| => Str(ss[i])))
  }

  function OfStringMap(m: map<string, string>): (v: Value)
    ensures v.Obj? && v.fields.Keys == m.Keys
    ensures forall k :: k in m ==> v.fields[k] == Str(m[k])
  {
    Obj(map k | k in m :: Str(m[k]))
  }

  function OfOptString(o: Option<string>): Value
  {
    if o.Some? then Str(o.value) else Null
  }

  function OfOptStringMap(m: map<string, Option<string>>): (v: Value)
    ensures v.Obj? && v.fields.Keys == m.Keys
    ensures forall k :: k in m ==> v.fields[k] == OfOptString(m[k])
  {
    Obj(map k | k in m :: OfOptString(m[k]))
  }

  function OfList<T>(xs: seq<T>, enc: T -> Value): (v: Value)
    ensures v.Arr? && |v.items| == |xs|
    ensures forall i :: 0 <= i < |xs| ==> v.items[i] == enc(xs[i])
  {
    Arr(seq(|xs|, i requires 0 <= i < |xs| => enc(xs[i])))
  }

  /** An `Option` field that is always serialised: `None` becomes null. */
  function OfOption<T>(o: Option<T>, enc: T -> Value): Value
  {
    match o
    case Some(x) => enc(x)
    case None => Null
  }

  /** An `Option` field marked `skip_serializing_if = "Option::is_none"`:
      its JSON when present, and nothing (the key is left out) when not. */
  function Written<T>(o: Option<T>, enc: T -> Value): (r: Option<Value>)
    ensures r.Some? <==> o.Some?
    ensures o.Some? ==> r.value == enc(o.value)
  {
    match o
    case Some(x) => Some(enc(x))
    case None => None
  }

  // Readers

  function AsI64(v: Value): (r: Result<i64, string>)
    ensures r.Ok? <==> v.Num? && -0x8000_0000_0000_0000 <= v.n < 0x8000_0000_0000_0000
    ensures r.Ok? ==> r.value == v.n
  {
    if v.Num? && -0x8000_0000_0000_0000 <= v.n < 0x8000_0000_0000_0000 then Ok(v.n)
    else Err("invalid type: expected i64")
  }

  function AsString(v: Value): (r: Result<string, string>)
    ensures r.Ok? <==> v.Str?
    ensures r.Ok? ==> r.value == v.s
  {
    if v.Str? then Ok(v.s) else Err("invalid type: expected a string")
  }

  function AsStrings(v: Value): (r: Result<seq<string>, string>)
    ensures r.Ok? <==> v.Arr? && forall i :: 0 <= i < |v.items| ==> v.items[i].Str?
    ensures r.Ok? ==> |r.value| == |v.items| && forall i :: 0 <= i < |v.items| ==> r.value[i] == v.items[i].s
  {
    if v.Arr? && forall i :: 0 <= i < |v.items| ==> v.items[i].Str? then
      Ok(seq(|v.items|, i requires 0 <= i < |v.items| => v.items[i].s))
    else Err("invalid type: expected a sequence of strings")
  }

  function AsStringMap(v: Value): (r: Result<map<string, string>, string>)
    ensures r.Ok? <==> v.Obj? && forall k :: k in v.fields ==> v.fields[k].Str?
    ensures r.Ok? ==> r.value.Keys == v.fields.Keys && forall k :: k in r.value ==> r.value[k] == v.fields[k].s
  {
    if v.Obj? && forall k :: k in v.fields ==> v.fields[k].Str? then
      Ok(map k | k in v.fields :: v.fields[k].s)
    else Err("invalid type: expected a map of strings")
  }

  function AsOptString(v: Value): Result<Option<string>, string>
  {
    match v
    case Null => Ok(None)
    case Str(s) => Ok(Some(s))
    case _ => Err("invalid type: expected a string or null")
  }

  function AsOptStringMap(v: Value): (r: Result<map<string, Option<string>>, string>)
    ensures r.Ok? <==> v.Obj? && forall k :: k in v.fields ==> AsOptString(v.fields[k]).Ok?
    ensures r.Ok? ==> r.value.Keys == v.fields.Keys
    ensures r.Ok? ==> forall k :: k in r.value ==> AsOptString(v.fields[k]) == Ok(r.value[k])
  {
    if v.Obj? && forall k :: k in v.fields ==> AsOptString(v.fields[k]).Ok? then
      Ok(map k | k in v.fields :: AsOptString(v.fields[k]).value)
    else Err("invalid type: expected a map of optional strings")
  }

  /** Reads every element with `dec`; the first failure is the result. */
  function DecodeAll<T>(items: seq<Value>, dec: Value -> Result<T, string>): (r: Result<seq<T>, string>)
    ensures r.Ok? <==> forall i :: 0 <= i < |items| ==> dec(items[i]).Ok?
    ensures r.Ok? ==> |r.value| == |items| && forall i :: 0 <= i < |items| ==> r.value[i] == dec(items[i]).value
  {
    if items == [] then Ok([])
    else
      var x :- dec(items[0]);
      var xs :- DecodeAll(items[1..], dec);
      assert forall i :: 1 <= i < |items| ==> items[i] == items[1..][i - 1];
      Ok([x] + xs)
  }

  function AsList<T>(v: Value, dec: Value -> Result<T, string>): Result<seq<T>, string>
  {
    if v.Arr? then DecodeAll(v.items, dec) else Err("invalid type: expected a sequence")
  }

  /** An `Option<T>` struct field: missing or null reads as `None`. */
  function Optional<T>(o: Object, key: string, dec: Value -> Result<T, string>): (r: Result<Option<T>, string>)
    ensures key !in o || o[key] == Null ==> r == Ok(None)
    ensures key in o && o[key] != Null ==>
      (r.Ok? <==> dec(o[key]).Ok?) && (r.Ok? ==> r.value == Some(dec(o[key]).value))
  {
    if key !in o || o[key] == Null then Ok(None)
    else
      var x :- dec(o[key]);
      Ok(Some(x))
  }

  /** A struct field that is not an `Option`: a missing key is an error. */
  function Required<T>(o: Object, key: string, dec: Value -> Result<T, string>): (r: Result<T, string>)
    ensures key !in o ==> r.Err?
    ensures key in o ==> r == dec(o[key])
  {
    if key !in o then Err("missing field `" + key + "`") else dec(o[key])
  }

  /** A field reader only looks at its own key. */
  lemma OptionalIgnoresOtherKeys<T>(o: Object, k: string, extra: Value, key: string, dec: Value -> Result<T, string>)
    requires key != k
    ensures Optional(o[k := extra], key, dec) == Optional(o, key, dec)
  {
    assert (key in o[k := extra]) == (key in o);
    if key in o {
      assert o[k := extra][key] == o[key];
    }
  }

  // Round trips of the field helpers

  lemma I64RoundTrip(x: i64)
    ensures AsI64(OfI64(x)) == Ok(x)
  {
  }

  lemma StringsRoundTrip(ss: seq<string>)
    ensures AsStrings(OfStrings(ss)) == Ok(ss)
  {
    var r := AsStrings(OfStrings(ss));
    assert r.Ok?;
    assert r.value == ss;
  }

  lemma StringMapRoundTrip(m: map<string, string>)
    ensures AsStringMap(OfStringMap(m)) == Ok(m)
  {
    var r := AsStringMap(OfStringMap(m));
    assert r.Ok?;
    assert r.value == m;
  }

  lemma OptStringMapRoundTrip(m: map<string, Option<string>>)
    ensures AsOptStringMap(OfOptStringMap(m)) == Ok(m)
  {
    var v := OfOptStringMap(m);
    forall k | k in m ensures AsOptString(v.fields[k]) == Ok(m[k]) {
    }
    var r := AsOptStringMap(v);
    assert r.Ok?;
    assert r.value == m;
  }

  /** A list reads back element by element when every element does. */
  lemma ListRoundTrip<T>(xs: seq<T>, enc: T -> Value, dec: Value -> Result<T, string>)
    requires forall i :: 0 <= i < |xs| ==> dec(enc(xs[i])) == Ok(xs[i])
    ensures AsList(OfList(xs, enc), dec) == Ok(xs)
  {
    var v := OfList(xs, enc);
    assert forall i :: 0 <= i < |xs| ==> dec(v.items[i]).Ok?;
    var r := DecodeAll(v.items, dec);
    assert r.value == xs;
  }

  /** A skipped-when-absent field reads back from an object that holds its
      key exactly when it is present, provided its writer never writes null. */
  lemma WrittenRoundTrip<T>(o: Object, key: string, x: Option<T>, enc: T -> Value, dec: Value -> Result<T, string>)
    requires key in o <==> x.Some?
    requires x.Some? ==> o[key] == enc(x.value) && enc(x.value) != Null && dec(enc(x.value)) == Ok(x.value)
    ensures Optional(o, key, dec) == Ok(x)
  {
  }

  /** An always-written `Option` field reads back, provided the writer of
      its value never writes null. */
  lemma OptionRoundTrip<T>(o: Object, key: string, x: Option<T>, enc: T -> Value, dec: Value -> Result<T, string>)
    requires key in o && o[key] == OfOption(x, enc)
    requires x.Some? ==> enc(x.value) != Null && dec(enc(x.value)) == Ok(x.value)
    ensures Optional(o, key, dec) == Ok(x)
  {
  }
}
