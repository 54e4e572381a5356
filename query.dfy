/** The query-string encoder and the base-URL normaliser. The three Rust
    functions `param`, `params` and `remove_trailing_slash` appear with the
    same text in src/http.rs and src/http/mod.rs, and `remove_trailing_slash`
    once more in src/utils.rs; this one module stands for every copy. */
module Query {
  import opened Wrappers
  import Decimal

  /** `param(key, value)`: the fragment `key=value`, or nothing when the
      value is absent. Values are the ids, offsets and sizes of the client,
      rendered in decimal. */
  function Param(key: string, value: Option<int>): (r: Option<string>)
    ensures r.Some? <==> value.Some?
  {
    match value
    case Some(v) => Some(key + "=" + Decimal.Decimal(v))
    case None => None
  }

  /** Reads a fragment `key=value` back into its key and number: the key
      ends at the first '='. */
  function ParseParam(fragment: string): Option<(string, int)>
  {
    var i := IndexOf(fragment, '=');
    if i == |fragment| then None
    else match Decimal.ReadInt(fragment[i + 1..])
      case Some((n, rest)) => if rest == "" then Some((fragment[..i], n)) else None
      case None => None
  }

  /** Index of the first `c` in `s`, or `|s|` when there is none. */
  function IndexOf(s: string, c: char): (i: nat)
    ensures i <= |s| && c !in s[..i]
    ensures i < |s| ==> s[i] == c
  {
    if s == [] then 0
    else if s[0] == c then 0
    else
      var i := 1 + IndexOf(s[1..], c);
      assert s[..i] == [s[0]] + s[1..][..i - 1];
      i
  }

  /** The present fragments of a parameter list, in input order. */
  function Present(ps: seq<Option<string>>): seq<string>
  {
    if ps == [] then []
    else (if ps[0].Some? then [ps[0].value] else []) + Present(ps[1..])
  }

  /** `xs` joined with `sep` between neighbours. */
  function JoinWith(sep: string, xs: seq<string>): string
  {
    if xs == [] then ""
    else if |xs| == 1 then xs[0]
    else xs[0] + sep + JoinWith(sep, xs[1..])
  }

  /** What `params` produces: empty when no fragment is present, otherwise
      '?' followed by the present fragments joined with '&'. */
  function QueryString(ps: seq<Option<string>>): string
  {
    var xs := Present(ps);
    if xs == [] then "" else "?" + JoinWith("&", xs)
  }

  /** `params(ps)`: builds the query string in a mutable buffer, pushing '?'
      before the first present fragment and '&' before every later one. */
  method Params(ps: seq<Option<string>>) returns (s: string)
    ensures s == QueryString(ps)
  {
    s := "";
    for i := 0 to |ps|
      invariant s == QueryString(ps[..i])
    {
      assert ps[..i + 1] == ps[..i] + [ps[i]];
      QueryStringSnoc(ps[..i], ps[i]);
      match ps[i] {
        case Some(p) =>
          if s == "" {
            s := s + ['?'];
          } else {
            s := s + ['&'];
          }
          s := s + p;
        case None =>
      }
    }
    assert ps[..|ps|] == ps;
  }

  lemma {:induction false} PresentSnoc(ps: seq<Option<string>>, o: Option<string>)
    ensures Present(ps + [o]) == Present(ps) + (if o.Some? then [o.value] else [])
    decreases |ps|
  {
    var tail := if o.Some? then [o.value] else [];
    if ps == [] {
      assert ps + [o] == [o] && [o][1..] == [];
      assert Present([o]) == tail + Present([]);
    } else {
      var qs := ps + [o];
      assert qs[0] == ps[0] && qs[1..] == ps[1..] + [o];
      PresentSnoc(ps[1..], o);
      var head := if ps[0].Some? then [ps[0].value] else [];
      assert Present(qs) == head + (Present(ps[1..]) + tail);
      assert Present(ps) == head + Present(ps[1..]);
    }
  }

  lemma {:induction false} JoinWithSnoc(sep: string, xs: seq<string>, x: string)
    requires xs != []
    ensures JoinWith(sep, xs + [x]) == JoinWith(sep, xs) + sep + x
    decreases |xs|
  {
    if |xs| == 1 {
      assert (xs + [x])[1..] == [x];
    } else {
      assert (xs + [x])[1..] == xs[1..] + [x];
      JoinWithSnoc(sep, xs[1..], x);
    }
  }

  /** One step of the `params` loop: an absent entry changes nothing; a
      present one adds '?' when the string so far is empty and '&' otherwise,
      then the fragment itself. */
  lemma QueryStringSnoc(ps: seq<Option<string>>, o: Option<string>)
    ensures o.None? ==> QueryString(ps + [o]) == QueryString(ps)
    ensures o.Some? ==>
      QueryString(ps + [o]) == QueryString(ps) + (if QueryString(ps) == "" then "?" else "&") + o.value
  {
    PresentSnoc(ps, o);
    var xs := Present(ps);
    if o.None? {
      assert Present(ps + [o]) == xs by { assert xs + [] == xs; }
    } else if xs == [] {
      assert Present(ps + [o]) == [o.value];
      assert JoinWith("&", [o.value]) == o.value;
      assert QueryString(ps) == "";
    } else {
      JoinWithSnoc("&", xs, o.value);
      assert Present(ps + [o]) == xs + [o.value];
      assert QueryString(ps) == "?" + JoinWith("&", xs);
      assert QueryString(ps + [o]) == "?" + (JoinWith("&", xs) + "&" + o.value);
    }
  }

  lemma {:induction false} PresentEmpty(ps: seq<Option<string>>)
    ensures Present(ps) == [] <==> forall i :: 0 <= i < |ps| ==> ps[i].None?
    decreases |ps|
  {
    if ps != [] {
      PresentEmpty(ps[1..]);
      assert forall i :: 1 <= i < |ps| ==> ps[i] == ps[1..][i - 1];
    }
  }

  /** The query string is empty exactly when every entry is absent, and
      otherwise starts with '?'. */
  lemma QueryStringEmptyIffAllAbsent(ps: seq<Option<string>>)
    ensures QueryString(ps) == "" <==> forall i :: 0 <= i < |ps| ==> ps[i].None?
    ensures QueryString(ps) != "" ==> QueryString(ps)[0] == '?'
  {
    PresentEmpty(ps);
  }

  function TotalLength(xs: seq<string>): nat
  {
    if xs == [] then 0 else |xs[0]| + TotalLength(xs[1..])
  }

  lemma {:induction false} JoinWithLength(xs: seq<string>)
    requires xs != []
    ensures |JoinWith("&", xs)| == |xs| - 1 + TotalLength(xs)
    decreases |xs|
  {
    if |xs| > 1 {
      JoinWithLength(xs[1..]);
    }
  }

  /** One separator ('?' or '&') per present fragment, plus the fragments. */
  lemma QueryStringLength(ps: seq<Option<string>>)
    ensures |QueryString(ps)| == |Present(ps)| + TotalLength(Present(ps))
  {
    if Present(ps) != [] {
      JoinWithLength(Present(ps));
    }
  }

  /** The doc-test and unit-test cases of `params` with at most one fragment. */
  lemma ParamsExamples()
    ensures QueryString([]) == ""
    ensures QueryString([None]) == ""
    ensures QueryString([Some("key1=value1")]) == "?key1=value1"
  {
    var a := "key1=value1";
    var none: Option<string> := None;
    assert Present([Some(a)]) == [a] by {
      assert [Some(a)][1..] == [];
    }
    assert Present([none]) == [] by {
      assert [none][1..] == [];
    }
  }

  /** `params` of two optional fragments. */
  lemma QueryStringOfPair(a: Option<string>, b: Option<string>)
    ensures a.None? && b.None? ==> QueryString([a, b]) == ""
    ensures a.Some? && b.None? ==> QueryString([a, b]) == "?" + a.value
    ensures a.None? && b.Some? ==> QueryString([a, b]) == "?" + b.value
    ensures a.Some? && b.Some? ==> QueryString([a, b]) == "?" + a.value + "&" + b.value
  {
    assert [a, b] == [] + [a] + [b];
    QueryStringSnoc([], a);
    QueryStringSnoc([a], b);
    QueryStringEmptyIffAllAbsent([]);
  }

  /** The cases of `params` with two parameters, one of them absent. */
  lemma ParamsAbsentExamples()
    ensures QueryString([Some("key1=value1"), None]) == "?key1=value1"
    ensures QueryString([None, Some("key1=value1")]) == "?key1=value1"
  {
    QueryStringOfPair(Some("key1=value1"), None);
    QueryStringOfPair(None, Some("key1=value1"));
  }

  /** The case of `params` with two present parameters. */
  lemma ParamsPairExample()
    ensures QueryString([Some("key1=value1"), Some("key2=value2")]) == "?key1=value1&key2=value2"
  {
    QueryStringOfPair(Some("key1=value1"), Some("key2=value2"));
  }

  /** A parameter whose key has no '=' is read back as that key and value. */
  lemma ParamRoundTrip(key: string, v: int)
    requires '=' !in key
    ensures ParseParam(Param(key, Some(v)).value) == Some((key, v))
  {
    var d := Decimal.Decimal(v);
    var f := key + "=" + d;
    assert f == key + ("=" + d);
    IndexOfConcat(key, "=" + d, '=');
    assert f[|key| + 1..] == d + "";
    Decimal.ReadIntDecimal(v, "");
    assert f[..|key|] == key;
  }

  lemma {:induction false} IndexOfConcat(s: string, t: string, c: char)
    requires c !in s && t != [] && t[0] == c
    ensures IndexOf(s + t, c) == |s|
    decreases |s|
  {
    if s == [] {
      assert s + t == t;
    } else {
      assert (s + t)[1..] == s[1..] + t;
      IndexOfConcat(s[1..], t, c);
    }
  }

  /** The `param` tests: `from` with 2 and with nothing. */
  lemma ParamExamples()
    ensures Param("from", Some(2)) == Some("from=2")
    ensures Param("from", None) == None
  {
    assert Decimal.Decimal(2) == "2" by {
      assert Decimal.DigitChar(2) == '2';
    }
    assert "from" + "=" + "2" == "from=2";
  }

  predicate EndsWithSlash(s: string) { |s| > 0 && s[|s| - 1] == '/' }

  /** `remove_trailing_slash(s)`: drops the last character when it is '/'. */
  function RemoveTrailingSlash(s: string): (r: string)
    ensures r <= s
    ensures |s| - |r| == (if EndsWithSlash(s) then 1 else 0)
  {
    if EndsWithSlash(s) then s[..|s| - 1] else s
  }

  /** The result is the input, or the input with one '/' taken off its end. */
  lemma RemoveTrailingSlashCases(s: string)
    ensures EndsWithSlash(s) ==> RemoveTrailingSlash(s) + "/" == s
    ensures !EndsWithSlash(s) ==> RemoveTrailingSlash(s) == s
  {
    if EndsWithSlash(s) {
      assert s[..|s| - 1] + "/" == s;
    }
  }

  /** Only one slash goes: normalising twice changes the result again
      exactly when the input ends with two slashes. */
  lemma RemoveTrailingSlashTwice(s: string)
    ensures RemoveTrailingSlash(RemoveTrailingSlash(s)) == RemoveTrailingSlash(s)
      <==> !(|s| >= 2 && s[|s| - 1] == '/' && s[|s| - 2] == '/')
  {
  }

  /** The tests and the edge cases: a single slash, the empty string and a
      double slash, which keeps one slash. */
  lemma RemoveTrailingSlashExamples()
    ensures RemoveTrailingSlash("http://example.com/") == "http://example.com"
    ensures RemoveTrailingSlash("http://example.com") == "http://example.com"
    ensures RemoveTrailingSlash("/") == ""
    ensures RemoveTrailingSlash("") == ""
    ensures RemoveTrailingSlash("x//") == "x/"
    ensures RemoveTrailingSlash(RemoveTrailingSlash("x//")) == "x"
  {
  }
}
