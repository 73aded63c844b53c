/**
 * The few pieces of JavaScript semantics the application's logic rests on:
 * optional values, truthiness of strings, `a || b || c` chains,
 * `String.prototype.includes`, and the character class `\s`.
 */
module Js {

  /** A value that may be `undefined`. */
  datatype Option<+T> = None | Some(value: T)

  /** JavaScript truthiness of a string that may be absent: `undefined` and `""` are falsy. */
  predicate Truthy(x: Option<string>) {
    x.Some? && x.value != ""
  }

  /** The index of the first truthy element of `xs`, or `|xs|` when there is none. */
  function FirstTruthyIndex(xs: seq<Option<string>>): (k: nat)
    ensures k <= |xs|
    ensures k < |xs| ==> Truthy(xs[k])
    ensures forall j :: 0 <= j < k ==> !Truthy(xs[j])
  {
    if xs == [] then 0
    else if Truthy(xs[0]) then 0
    else 1 + FirstTruthyIndex(xs[1..])
  }

  /**
   * The value of the JavaScript expression `xs[0] || xs[1] || ... || fallback`,
   * where `fallback` is a non-empty literal.
   */
  function FirstTruthy(xs: seq<Option<string>>, fallback: string): (r: string)
    ensures (forall i :: 0 <= i < |xs| ==> !Truthy(xs[i])) ==> r == fallback
    ensures forall i :: 0 <= i < |xs| && Truthy(xs[i]) && (forall j :: 0 <= j < i ==> !Truthy(xs[j])) ==> r == xs[i].value
    ensures r == fallback || exists i :: 0 <= i < |xs| && Truthy(xs[i]) && xs[i].value == r
  {
    var k := FirstTruthyIndex(xs);
    if k < |xs| then xs[k].value else fallback
  }

  /** `s.includes(t)`: `t` occurs in `s` as a contiguous block. */
  predicate Contains(s: string, t: string)
    decreases |s|
  {
    if |t| > |s| then false
    else s[..|t|] == t || Contains(s[1..], t)
  }

  /** `t` occurs in `s` starting at offset `i`. */
  predicate OccursAt(s: string, t: string, i: int) {
    0 <= i <= |s| - |t| && s[i..i + |t|] == t
  }

  /** `Contains` agrees with the declarative "occurs at some offset". */
  lemma {:induction false} ContainsIff(s: string, t: string)
    ensures Contains(s, t) <==> exists i :: OccursAt(s, t, i)
    decreases |s|
  {
    if |t| <= |s| && s[..|t|] != t {
      ContainsIff(s[1..], t);
      forall i | OccursAt(s[1..], t, i)
        ensures OccursAt(s, t, i + 1)
      {
        assert s[i + 1..i + 1 + |t|] == s[1..][i..i + |t|];
      }
      forall i | OccursAt(s, t, i)
        ensures OccursAt(s[1..], t, i - 1)
      {
        assert i != 0;
        assert s[1..][i - 1..i - 1 + |t|] == s[i..i + |t|];
      }
    } else if |t| <= |s| {
      assert OccursAt(s, t, 0);
    }
  }

  /** A block placed between two others is contained in the whole. */
  lemma ContainsMiddle(a: string, b: string, c: string)
    ensures Contains(a + b + c, b)
  {
    var s := a + b + c;
    assert s[|a|..|a| + |b|] == b;
    assert OccursAt(s, b, |a|);
    ContainsIff(s, b);
  }

  /**
   * The JavaScript regular-expression class `\s`: the WhiteSpace characters
   * (tab, vertical tab, form feed, no-break space, byte order mark and the
   * Unicode space separators) and the LineTerminator characters
   * (line feed, carriage return, line and paragraph separators).
   */
  predicate IsJsWhitespace(c: char) {
    || c == '\t' || c == '\n' || c == '\U{000B}' || c == '\U{000C}' || c == '\r'
    || c == ' ' || c == '\U{00A0}' || c == '\U{1680}'
    || ('\U{2000}' <= c <= '\U{200A}')
    || c == '\U{2028}' || c == '\U{2029}' || c == '\U{202F}' || c == '\U{205F}'
    || c == '\U{3000}' || c == '\U{FEFF}'
  }
}
