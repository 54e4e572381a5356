/** serde's `rename_all = "camelCase"` rule, applied by the derive macros to
    the Rust names of struct fields and enum variants. */
module Naming {

  function ToAsciiUpper(c: char): char
  {
    if 'a' <= c <= 'z' then (c as int - 32) as char else c
  }

  function ToAsciiLower(c: char): char
  {
    if 'A' <= c <= 'Z' then (c as int + 32) as char else c
  }

  function LowerFirst(s: string): (r: string)
    ensures |r| == |s| && (s != [] ==> r[1..] == s[1..])
  {
    if s == [] then [] else [ToAsciiLower(s[0])] + s[1..]
  }

  /** serde's PascalCase of a snake_case field name: every '_' is dropped and
      the character after it (and the first one) is upper-cased. */
  function Pascal(field: string, capitalize: bool): string
  {
    if field == [] then []
    else if field[0] == '_' then Pascal(field[1..], true)
    else if capitalize then [ToAsciiUpper(field[0])] + Pascal(field[1..], false)
    else [field[0]] + Pascal(field[1..], false)
  }

  /** The wire key of a field of a struct marked camelCase. */
  function CamelField(field: string): string
  {
    LowerFirst(Pascal(field, true))
  }

  /** The wire tag of a variant of an enum marked camelCase. */
  function CamelVariant(variant: string): string
  {
    LowerFirst(variant)
  }

  /** A renamed key never holds an underscore. */
  lemma {:induction false} PascalHasNoUnderscore(field: string, capitalize: bool)
    ensures '_' !in Pascal(field, capitalize)
    decreases |field|
  {
    if field != [] {
      PascalHasNoUnderscore(field[1..], true);
      PascalHasNoUnderscore(field[1..], false);
    }
  }

  /** A word (no '_') is copied with only its first letter possibly raised. */
  lemma {:induction false} PascalWord(w: string, rest: string, capitalize: bool)
    requires w != [] && '_' !in w
    ensures Pascal(w + rest, capitalize)
      == [if capitalize then ToAsciiUpper(w[0]) else w[0]] + w[1..] + Pascal(rest, false)
    decreases |w|
  {
    assert (w + rest)[1..] == w[1..] + rest;
    if |w| > 1 {
      PascalWord(w[1..], rest, false);
    } else {
      assert w[1..] + rest == rest;
    }
  }

  /** The camelCase key of `first_second`: the second word is capitalised. */
  lemma CamelFieldOfTwo(field: string, first: string, rest: string)
    requires first != [] && '_' !in first && 'a' <= first[0] <= 'z'
    requires field == first + "_" + rest
    ensures CamelField(field) == first + Pascal(rest, true)
  {
    assert field == first + ("_" + rest);
    PascalWord(first, "_" + rest, true);
    assert ("_" + rest)[1..] == rest;
  }

  /** The camelCase key of a one-word field is the field itself. */
  lemma CamelFieldOfOne(field: string)
    requires field != [] && '_' !in field && 'a' <= field[0] <= 'z'
    ensures CamelField(field) == field
  {
    PascalWord(field, "", true);
    assert field + "" == field;
  }

  lemma PascalOfLast(w: string)
    requires w != [] && '_' !in w
    ensures Pascal(w, true) == [ToAsciiUpper(w[0])] + w[1..]
  {
    PascalWord(w, "", true);
    assert w + "" == w;
  }

  lemma PascalOfNext(field: string, w: string, rest: string)
    requires w != [] && '_' !in w
    requires field == w + "_" + rest
    ensures Pascal(field, true) == [ToAsciiUpper(w[0])] + w[1..] + Pascal(rest, true)
  {
    assert field == w + ("_" + rest);
    PascalWord(w, "_" + rest, true);
    assert ("_" + rest)[1..] == rest;
  }

  predicate IsWord(w: string) { w != [] && '_' !in w && 'a' <= w[0] <= 'z' }

  /** serde's PascalCase of `a_rest` for a word `a`. */
  lemma PascalNext(a: string, rest: string)
    requires IsWord(a)
    ensures Pascal(a + "_" + rest, true) == [ToAsciiUpper(a[0])] + a[1..] + Pascal(rest, true)
  {
    PascalOfNext(a + "_" + rest, a, rest);
  }

  /** A word's first letter raised to upper case. */
  function Capitalized(w: string): (r: string)
    requires w != []
    ensures |r| == |w| && r[1..] == w[1..]
  {
    [ToAsciiUpper(w[0])] + w[1..]
  }

  predicate AllWords(ws: seq<string>)
  {
    forall i :: 0 <= i < |ws| ==> IsWord(ws[i])
  }

  /** The snake_case name made of `ws`: the words joined by '_'. */
  function SnakeJoin(ws: seq<string>): string
  {
    if |ws| == 0 then "" else if |ws| == 1 then ws[0] else ws[0] + "_" + SnakeJoin(ws[1..])
  }

  /** The PascalCase name made of `ws`: each word capitalised, no separator. */
  function PascalJoin(ws: seq<string>): string
    requires AllWords(ws)
  {
    if ws == [] then "" else Capitalized(ws[0]) + PascalJoin(ws[1..])
  }

  /** The camelCase name made of `ws`: the first word as is, the others capitalised. */
  function CamelJoin(ws: seq<string>): string
    requires ws != [] && AllWords(ws)
  {
    ws[0] + PascalJoin(ws[1..])
  }

  lemma {:induction false} PascalOfSnake(ws: seq<string>)
    requires ws != [] && AllWords(ws)
    ensures Pascal(SnakeJoin(ws), true) == PascalJoin(ws)
    decreases |ws|
  {
    if |ws| == 1 {
      PascalOfLast(ws[0]);
      assert PascalJoin(ws[1..]) == "";
    } else {
      PascalNext(ws[0], SnakeJoin(ws[1..]));
      PascalOfSnake(ws[1..]);
    }
  }

  /** serde's camelCase of a snake_case name of lower-case words is the
      camelCase join of those words. */
  lemma CamelOfSnake(ws: seq<string>)
    requires ws != [] && AllWords(ws)
    ensures CamelField(SnakeJoin(ws)) == CamelJoin(ws)
  {
    if |ws| == 1 {
      CamelFieldOfOne(ws[0]);
      assert PascalJoin(ws[1..]) == "";
      assert ws[0] + "" == ws[0];
    } else {
      CamelFieldOfTwo(SnakeJoin(ws), ws[0], SnakeJoin(ws[1..]));
      PascalOfSnake(ws[1..]);
    }
  }
}
