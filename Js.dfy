/**
 * The little of JavaScript's value semantics that the client relies on:
 * `undefined`, truthiness, `a || b` on strings, JSON values, `indexOf`,
 * `trim` and the rendering of numbers inside template literals.
 */
module Js {

  /** A value that may be `undefined`. */
  datatype Option<+T> = None | Some(value: T)

  /** The outcome of a computation that may throw; `error` is the thrown value's text form. */
  datatype Result<+T> = Success(value: T) | Failure(error: string)

  /** A JSON value as `JSON.parse` produces it (numbers are kept integral). */
  datatype Json =
    | JNull
    | JBool(b: bool)
    | JNumber(n: int)
    | JString(s: string)
    | JArray(items: seq<Json>)
    | JObject(fields: map<string, Json>)

  /** The object literal `{}`. */
  const EMPTY_OBJECT: Json := JObject(map[])

  /** JavaScript truthiness of a JSON value. */
  predicate Truthy(j: Json)
  {
    match j
    case JNull => false
    case JBool(b) => b
    case JNumber(n) => n != 0
    case JString(s) => s != ""
    case _ => true
  }

  /** A string field that is `undefined` or `""`, i.e. falsy. */
  predicate Falsy(s: Option<string>)
  {
    s == None || s == Some("")
  }

  /** A numeric field that is `undefined` or `0`, i.e. falsy. */
  predicate FalsyNumber(n: Option<int>)
  {
    n == None || n == Some(0)
  }

  /** `s || fallback` for a possibly undefined string. */
  function Or(s: Option<string>, fallback: string): (r: string)
    ensures Falsy(s) ==> r == fallback
    ensures !Falsy(s) ==> Some(r) == s && r != ""
  {
    if Falsy(s) then fallback else s.value
  }

  /** `n || fallback` for a possibly undefined number. */
  function OrNumber(n: Option<int>, fallback: int): (r: int)
    ensures FalsyNumber(n) ==> r == fallback
    ensures !FalsyNumber(n) ==> Some(r) == n && r != 0
  {
    if FalsyNumber(n) then fallback else n.value
  }

  /** `pat` occurs in `s` starting at index `i`. */
  predicate OccursAt(s: string, pat: string, i: int)
  {
    0 <= i && i + |pat| <= |s| && s[i..i + |pat|] == pat
  }

  /** `pat` occurs somewhere in `s`. */
  predicate Contains(s: string, pat: string)
  {
    exists i | 0 <= i <= |s| :: OccursAt(s, pat, i)
  }

  /** `s` ends with `suffix`. */
  predicate EndsWith(s: string, suffix: string)
  {
    |suffix| <= |s| && s[|s| - |suffix|..] == suffix
  }

  lemma OccursAtTail(s: string, pat: string, j: int)
    requires |s| > 0 && j >= 0
    ensures OccursAt(s[1..], pat, j) <==> OccursAt(s, pat, j + 1)
  {
    if 0 <= j && j + |pat| <= |s| - 1 {
      assert s[1..][j..j + |pat|] == s[j + 1..j + 1 + |pat|];
    }
  }

  /** Occurrences in the tail of `s` are the occurrences in `s` after index 0, shifted by one. */
  lemma OccursShift(s: string, pat: string)
    requires |s| > 0
    ensures forall j :: 0 <= j ==> (OccursAt(s[1..], pat, j) <==> OccursAt(s, pat, j + 1))
    ensures forall j :: 1 <= j ==> (OccursAt(s, pat, j) <==> OccursAt(s[1..], pat, j - 1))
  {
    forall j | 0 <= j ensures OccursAt(s[1..], pat, j) <==> OccursAt(s, pat, j + 1) {
      OccursAtTail(s, pat, j);
    }
    forall j | 1 <= j ensures OccursAt(s, pat, j) <==> OccursAt(s[1..], pat, j - 1) {
      OccursAtTail(s, pat, j - 1);
    }
  }

  /** `s.indexOf(pat)`: the first index at which `pat` occurs, or -1. */
  function IndexOf(s: string, pat: string): (i: int)
    ensures -1 <= i <= |s|
    ensures i == -1 <==> !Contains(s, pat)
    ensures i >= 0 ==> OccursAt(s, pat, i)
    ensures forall j :: 0 <= j < i ==> !OccursAt(s, pat, j)
    decreases |s|
  {
    if |s| < |pat| then -1
    else if s[..|pat|] == pat then
      assert OccursAt(s, pat, 0);
      0
    else
      var k := IndexOf(s[1..], pat);
      OccursShift(s, pat);
      if k < 0 then -1 else k + 1
  }

  /**
   * Where a separator lands when a text that neither contains it nor ends in a
   * proper prefix of it is followed by the separator and anything else.
   */
  lemma {:induction false} IndexOfAfterPayload(payload: string, sep: string, rest: string)
    requires |sep| > 0
    requires !Contains(payload, sep)
    requires forall k :: 0 < k < |sep| ==> !EndsWith(payload, sep[..k])
    ensures IndexOf(payload + sep + rest, sep) == |payload|
  {
    var s := payload + sep + rest;
    assert s[|payload|..|payload| + |sep|] == sep;
    assert OccursAt(s, sep, |payload|);
    forall j | 0 <= j < |payload| ensures !OccursAt(s, sep, j) {
      if j + |sep| <= |payload| {
        assert s[j..j + |sep|] == payload[j..j + |sep|];
        assert !OccursAt(payload, sep, j);
      } else {
        var k := |payload| - j;
        assert s[j..j + |sep|][..k] == payload[j..];
        assert !EndsWith(payload, sep[..k]);
      }
    }
  }

  /** JavaScript's `trim` whitespace: WhiteSpace and LineTerminator code points of ECMA-262. */
  predicate IsWhitespace(c: char)
  {
    || ('\U{0009}' <= c <= '\U{000D}')
    || c == ' ' || c == '\U{00A0}' || c == '\U{1680}'
    || ('\U{2000}' <= c <= '\U{200A}')
    || c == '\U{2028}' || c == '\U{2029}' || c == '\U{202F}' || c == '\U{205F}' || c == '\U{3000}'
    || c == '\U{FEFF}'
  }

  /** `s` with its leading whitespace removed. */
  function TrimStart(s: string): string
  {
    if s != [] && IsWhitespace(s[0]) then TrimStart(s[1..]) else s
  }

  /** `s` with its trailing whitespace removed. */
  function TrimEnd(s: string): string
  {
    if s != [] && IsWhitespace(s[|s| - 1]) then TrimEnd(s[..|s| - 1]) else s
  }

  /** `s.trim()`. */
  function Trim(s: string): string
  {
    TrimEnd(TrimStart(s))
  }

  /** `TrimStart` removes a whitespace prefix and exactly that. */
  lemma {:induction false} TrimStartSpec(s: string)
    ensures var r := TrimStart(s);
      && |r| <= |s| && r == s[|s| - |r|..]
      && (forall k :: 0 <= k < |s| - |r| ==> IsWhitespace(s[k]))
      && (r != [] ==> !IsWhitespace(r[0]))
  {
    if s != [] && IsWhitespace(s[0]) {
      TrimStartSpec(s[1..]);
      var r := TrimStart(s);
      assert s[1..][|s| - 1 - |r|..] == s[|s| - |r|..];
      forall k | 0 <= k < |s| - |r| ensures IsWhitespace(s[k]) {
        if k > 0 { assert s[k] == s[1..][k - 1]; }
      }
    }
  }

  /** `TrimEnd` removes a whitespace suffix and exactly that. */
  lemma {:induction false} TrimEndSpec(s: string)
    ensures var r := TrimEnd(s);
      && |r| <= |s| && r == s[..|r|]
      && (forall k :: |r| <= k < |s| ==> IsWhitespace(s[k]))
      && (r != [] ==> !IsWhitespace(r[|r| - 1]))
  {
    if s != [] && IsWhitespace(s[|s| - 1]) {
      TrimEndSpec(s[..|s| - 1]);
      var r := TrimEnd(s);
      assert s[..|s| - 1][..|r|] == s[..|r|];
      forall k | |r| <= k < |s| ensures IsWhitespace(s[k]) {
        if k < |s| - 1 { assert s[k] == s[..|s| - 1][k]; }
      }
    }
  }

  /**
   * `trim` gives a middle part of its input that neither starts nor ends with
   * whitespace, and gives "" exactly for an all-whitespace input.
   */
  lemma {:induction false} TrimSpec(s: string)
    ensures var r := Trim(s);
      var a := |s| - |TrimStart(s)|;
      && 0 <= a && a + |r| <= |s| && r == s[a..a + |r|]
      && (forall k :: 0 <= k < a ==> IsWhitespace(s[k]))
      && (forall k :: a + |r| <= k < |s| ==> IsWhitespace(s[k]))
      && |r| <= |s|
      && (r == [] <==> forall k :: 0 <= k < |s| ==> IsWhitespace(s[k]))
      && (r != [] ==> !IsWhitespace(r[0]) && !IsWhitespace(r[|r| - 1]))
  {
    var t := TrimStart(s);
    var r := TrimEnd(t);
    TrimStartSpec(s);
    TrimEndSpec(t);
    var a := |s| - |t|;
    assert r == s[a..a + |r|];
    forall k | a + |r| <= k < |s| ensures IsWhitespace(s[k]) {
      assert s[k] == t[k - a];
    }
    if r == [] {
      assert t == [];
    } else {
      assert t[0] == r[0];
      assert s[|s| - |t|] == t[0];
    }
  }

  /** The decimal digits of a natural number. */
  function NatToString(n: nat): string
  {
    var digit := ["0", "1", "2", "3", "4", "5", "6", "7", "8", "9"][n % 10];
    if n < 10 then digit else NatToString(n / 10) + digit
  }

  /** The text form of an integer inside a template literal. */
  function IntToString(n: int): string
  {
    if n < 0 then "-" + NatToString(-n) else NatToString(n)
  }
}
