/** The pieces of Python's built-in semantics that the agent script relies
    on: truthiness of a value that is `None` or a `str`, the `or` operator on
    such values, the "first truthy lookup" early-return loop, and the string
    methods `strip`, `lower`, `join` and the `in` operator on strings. */
module PyBuiltins {
  import opened Wrappers

  /** `bool(v)` for `v` that is `None` or a `str`: `None` and `""` are falsy. */
  predicate Truthy(v: Option<string>) {
    v.Some? && v.value != ""
  }

  /** `a or b`: `a` when it is truthy, otherwise `b`. */
  function Or(a: Option<string>, b: Option<string>): (r: Option<string>)
    ensures Truthy(r) <==> Truthy(a) || Truthy(b)
    ensures Truthy(a) ==> r == a
    ensures !Truthy(a) ==> r == b
  {
    if Truthy(a) then a else b
  }

  /** The loop `for k in keys: v = lookup(k); if v: return v` followed by
      `return None`: the value of the first key, in order, whose lookup is
      truthy. */
  function FirstTruthy<K>(lookup: K -> Option<string>, keys: seq<K>): (r: Option<string>)
    ensures r.Some? ==> Truthy(r)
    ensures r.None? <==> forall i :: 0 <= i < |keys| ==> !Truthy(lookup(keys[i]))
    ensures r.Some? ==> exists i :: 0 <= i < |keys| && r == lookup(keys[i])
                                    && forall j :: 0 <= j < i ==> !Truthy(lookup(keys[j]))
  {
    if |keys| == 0 then None
    else if Truthy(lookup(keys[0])) then lookup(keys[0])
    else
      var r := FirstTruthy(lookup, keys[1..]);
      assert forall i :: 1 <= i < |keys| ==> keys[i] == keys[1..][i - 1];
      r
  }

  /** The loop returns at the first truthy key and never looks further. */
  lemma {:induction false} FirstTruthyAt<K>(lookup: K -> Option<string>, keys: seq<K>, i: nat)
    requires i < |keys| && Truthy(lookup(keys[i]))
    requires forall j :: 0 <= j < i ==> !Truthy(lookup(keys[j]))
    ensures FirstTruthy(lookup, keys) == lookup(keys[i])
  {
    if i > 0 {
      FirstTruthyAt(lookup, keys[1..], i - 1);
    }
  }

  /** Keys after the first truthy one are never consulted: appending more
      keys does not change the answer. */
  lemma {:induction false} FirstTruthyIgnoresLater<K>(lookup: K -> Option<string>, keys: seq<K>, rest: seq<K>)
    requires FirstTruthy(lookup, keys).Some?
    ensures FirstTruthy(lookup, keys + rest) == FirstTruthy(lookup, keys)
  {
    if !Truthy(lookup(keys[0])) {
      assert (keys + rest)[1..] == keys[1..] + rest;
      FirstTruthyIgnoresLater(lookup, keys[1..], rest);
    }
  }

  /** The answer depends only on what the lookup returns for the listed keys. */
  lemma {:induction false} FirstTruthyReadsOnlyKeys<K>(lookup: K -> Option<string>, other: K -> Option<string>, keys: seq<K>)
    requires forall i :: 0 <= i < |keys| ==> lookup(keys[i]) == other(keys[i])
    ensures FirstTruthy(lookup, keys) == FirstTruthy(other, keys)
  {
    if |keys| > 0 {
      FirstTruthyReadsOnlyKeys(lookup, other, keys[1..]);
    }
  }

  // ---------------------------------------------------------------------
  // Strings
  // ---------------------------------------------------------------------

  /** `c.isspace()`: the characters that `str.strip()` removes. */
  predicate IsSpace(c: char) {
    || c == ' '
    || ('\t' <= c <= '\r')
    || ('\U{1C}' <= c <= '\U{1F}')
    || c == '\U{85}' || c == '\U{A0}' || c == '\U{1680}'
    || ('\U{2000}' <= c <= '\U{200A}')
    || c == '\U{2028}' || c == '\U{2029}' || c == '\U{202F}' || c == '\U{205F}' || c == '\U{3000}'
  }

  predicate AllSpace(s: string) {
    forall k :: 0 <= k < |s| ==> IsSpace(s[k])
  }

  /** Number of whitespace characters at the start of `s`. */
  function LeadingSpaces(s: string): (n: nat)
    ensures n <= |s|
    ensures AllSpace(s[..n])
    ensures n < |s| ==> !IsSpace(s[n])
  {
    if |s| > 0 && IsSpace(s[0]) then
      var n := LeadingSpaces(s[1..]);
      assert s[..n + 1] == [s[0]] + s[1..][..n];
      n + 1
    else 0
  }

  /** Number of whitespace characters at the end of `s`. */
  function TrailingSpaces(s: string): (n: nat)
    ensures n <= |s|
    ensures AllSpace(s[|s| - n..])
    ensures n < |s| ==> !IsSpace(s[|s| - n - 1])
  {
    if |s| > 0 && IsSpace(s[|s| - 1]) then
      var init := s[..|s| - 1];
      var n := TrailingSpaces(init);
      assert AllSpace(s[|s| - (n + 1)..]) by {
        forall k | |s| - (n + 1) <= k < |s|
          ensures IsSpace(s[k])
        {
          if k < |s| - 1 {
            assert s[k] == init[|init| - n..][k - (|s| - (n + 1))];
          }
        }
      }
      assert n + 1 < |s| ==> s[|s| - (n + 1) - 1] == init[|init| - n - 1];
      n + 1
    else 0
  }

  /** `s.strip()`: `s` without its leading and trailing whitespace. */
  function Strip(s: string): (r: string)
    ensures exists i, j :: 0 <= i <= j <= |s| && r == s[i..j] && AllSpace(s[..i]) && AllSpace(s[j..])
    ensures r != [] ==> !IsSpace(r[0]) && !IsSpace(r[|r| - 1])
  {
    var i := LeadingSpaces(s);
    var rest := s[i..];
    var n := TrailingSpaces(rest);
    var j := |s| - n;
    assert s[j..] == rest[|rest| - n..];
    assert s[i..j] == rest[..|rest| - n];
    var r := s[i..j];
    assert r != [] ==> r[0] == s[i] && r[|r| - 1] == rest[|rest| - n - 1];
    assert 0 <= i <= j <= |s| && r == s[i..j] && AllSpace(s[..i]) && AllSpace(s[j..]);
    r
  }

  /** `strip` removes exactly the whitespace padding around a text that
      neither starts nor ends with whitespace. */
  lemma StripPadded(pre: string, s: string, post: string)
    requires AllSpace(pre) && AllSpace(post)
    requires s != [] && !IsSpace(s[0]) && !IsSpace(s[|s| - 1])
    ensures Strip(pre + s + post) == s
  {
    var w := pre + s + post;
    var i := LeadingSpaces(w);
    assert w[|pre|] == s[0];
    assert w[..|pre|] == pre;
    var rest := w[i..];
    assert rest == s + post;
    var n := TrailingSpaces(rest);
    assert rest[|s| - 1] == s[|s| - 1];
    assert w[i..i + |rest| - n] == s;
  }

  /** Stripping twice is stripping once. */
  lemma StripIdempotent(s: string)
    ensures Strip(Strip(s)) == Strip(s)
  {
    var r := Strip(s);
    assert LeadingSpaces(r) == 0;
    assert r[0..] == r;
    assert TrailingSpaces(r) == 0;
  }

  /** `c.lower()` for the ASCII letters; every other character is its own
      lower case here (see README for why this is exact where it is used). */
  function LowerChar(c: char): char {
    if 'A' <= c <= 'Z' then (c as int + 32) as char else c
  }

  function Lower(s: string): string {
    if s == [] then [] else [LowerChar(s[0])] + Lower(s[1..])
  }

  /** `sep.join(parts)`. */
  function Join(parts: seq<string>, sep: string): string {
    if |parts| == 0 then ""
    else if |parts| == 1 then parts[0]
    else parts[0] + sep + Join(parts[1..], sep)
  }

  /** `t` occurs in `s` starting at index `k`. */
  predicate OccursAt(s: string, t: string, k: int) {
    0 <= k && k + |t| <= |s| && s[k..k + |t|] == t
  }

  /** `t in s` for strings: `t` occurs in `s` as a substring. */
  predicate Contains(s: string, t: string) {
    exists k :: 0 <= k <= |s| && OccursAt(s, t, k)
  }

  lemma ContainsWithin(a: string, t: string, b: string)
    ensures Contains(a + t + b, t)
  {
    var s := a + t + b;
    assert s[|a|..|a| + |t|] == t;
    assert OccursAt(s, t, |a|);
  }

  lemma ContainsExtended(a: string, s: string, b: string, t: string)
    requires Contains(s, t)
    ensures Contains(a + s + b, t)
  {
    var k :| 0 <= k <= |s| && OccursAt(s, t, k);
    var w := a + s + b;
    assert w[|a| + k..|a| + k + |t|] == s[k..k + |t|];
    assert OccursAt(w, t, |a| + k);
  }

  /** Every part occurs in the joined string. */
  lemma {:induction false} JoinContainsEach(parts: seq<string>, sep: string, i: nat)
    requires i < |parts|
    ensures Contains(Join(parts, sep), parts[i])
  {
    if |parts| == 1 {
      assert "" + parts[0] + "" == parts[0];
      ContainsWithin("", parts[0], "");
    } else if i == 0 {
      assert Join(parts, sep) == "" + parts[0] + (sep + Join(parts[1..], sep));
      ContainsWithin("", parts[0], sep + Join(parts[1..], sep));
    } else {
      JoinContainsEach(parts[1..], sep, i - 1);
      assert Join(parts, sep) == (parts[0] + sep) + Join(parts[1..], sep) + "";
      ContainsExtended(parts[0] + sep, Join(parts[1..], sep), "", parts[i]);
    }
  }
}
