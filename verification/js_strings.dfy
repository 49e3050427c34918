/**
 * The JavaScript string semantics the agent relies on: `undefined` in a
 * template literal, the truthiness test behind `a || b`, and
 * `String.prototype.trim`.
 */
module JsStrings {

  datatype Option<+T> = None | Some(value: T)

  /** How a possibly missing string field renders inside a template literal or after `+=`. */
  function TemplateText(v: Option<string>): string {
    match v
    case Some(s) => s
    case None => "undefined"
  }

  /**
   * `v || fallback` for a value that is a string, `null` or `undefined`:
   * the empty string is falsy like the two missing values.
   */
  function Or(v: Option<string>, fallback: string): (r: string)
    ensures v.Some? && v.value != "" ==> r == v.value
    ensures v.None? || v.value == "" ==> r == fallback
    ensures fallback != "" ==> r != ""
  {
    if v.Some? && v.value != "" then v.value else fallback
  }

  /**
   * The code points ECMAScript counts as WhiteSpace or LineTerminator,
   * which is exactly what `trim` strips: TAB, VT, FF, SP, NBSP, ZWNBSP, the
   * other Unicode space separators (category Zs), LF, CR, LS and PS.
   */
  predicate IsWhitespace(c: char) {
    || c == '\t' || c == '\U{000B}' || c == '\U{000C}' || c == ' '
    || c == '\U{00A0}' || c == '\U{FEFF}' || c == '\U{1680}'
    || ('\U{2000}' <= c <= '\U{200A}')
    || c == '\U{202F}' || c == '\U{205F}' || c == '\U{3000}'
    || c == '\n' || c == '\r' || c == '\U{2028}' || c == '\U{2029}'
  }

  /** Every character of `s` at an index in `[lo, hi)` is whitespace. */
  predicate WhitespaceBetween(s: string, lo: nat, hi: nat)
    requires lo <= hi <= |s|
  {
    forall k :: lo <= k < hi ==> IsWhitespace(s[k])
  }

  predicate AllWhitespace(s: string) {
    WhitespaceBetween(s, 0, |s|)
  }

  /** Neither the first nor the last character of `s` is whitespace. */
  predicate NoEdgeWhitespace(s: string) {
    s == [] || (!IsWhitespace(s[0]) && !IsWhitespace(s[|s| - 1]))
  }

  /** `r` is `s[i..i+|r|]` and everything of `s` around it is whitespace. */
  predicate TrimmedAt(s: string, r: string, i: nat) {
    && i + |r| <= |s|
    && r == s[i..i + |r|]
    && WhitespaceBetween(s, 0, i)
    && WhitespaceBetween(s, i + |r|, |s|)
  }

  /** Leading whitespace removed. */
  function TrimStart(s: string): (r: string)
    ensures |r| <= |s| && r == s[|s| - |r|..]
    ensures WhitespaceBetween(s, 0, |s| - |r|)
    ensures r == [] || !IsWhitespace(r[0])
  {
    if s != [] && IsWhitespace(s[0]) then TrimStart(s[1..]) else s
  }

  /** Trailing whitespace removed. */
  function TrimEnd(s: string): (r: string)
    ensures |r| <= |s| && r == s[..|r|]
    ensures WhitespaceBetween(s, |r|, |s|)
    ensures r == [] || !IsWhitespace(r[|r| - 1])
  {
    if s != [] && IsWhitespace(s[|s| - 1]) then TrimEnd(s[..|s| - 1]) else s
  }

  /** `String.prototype.trim`: the longest whitespace prefix and suffix removed. */
  function Trim(s: string): (r: string)
    ensures NoEdgeWhitespace(r)
  {
    TrimEdges(s);
    TrimEnd(TrimStart(s))
  }

  /** The two halves of Trim leave no whitespace at either edge. */
  lemma TrimEdges(s: string)
    ensures NoEdgeWhitespace(TrimEnd(TrimStart(s)))
  {
    var t := TrimStart(s);
    var r := TrimEnd(t);
    assert r != [] ==> r[0] == t[0];
  }

  /** Trim cuts `s` into a whitespace prefix, the result, and a whitespace suffix. */
  lemma TrimIsCut(s: string)
    ensures TrimmedAt(s, Trim(s), |s| - |TrimStart(s)|)
  {
    SuffixThenPrefix(s, TrimStart(s), TrimEnd(TrimStart(s)));
  }

  /** A prefix `r` of a suffix `t` of `s`, each cut off at whitespace, is trimmed out of `s`. */
  lemma SuffixThenPrefix(s: string, t: string, r: string)
    requires |t| <= |s| && t == s[|s| - |t|..] && WhitespaceBetween(s, 0, |s| - |t|)
    requires |r| <= |t| && r == t[..|r|] && WhitespaceBetween(t, |r|, |t|)
    ensures TrimmedAt(s, r, |s| - |t|)
  {
    var off := |s| - |t|;
    assert r == s[off..off + |r|];
    forall k | off + |r| <= k < |s| ensures IsWhitespace(s[k]) {
      assert s[k] == t[k - off];
    }
  }

  /** A solid (non-whitespace) character after a whitespace-only prefix marks the same index. */
  lemma FirstSolidIndex(s: string, i: nat, j: nat)
    requires i < |s| && j < |s|
    requires WhitespaceBetween(s, 0, i) && WhitespaceBetween(s, 0, j)
    requires !IsWhitespace(s[i]) && !IsWhitespace(s[j])
    ensures i == j
  {
  }

  /**
   * Trim is the only way of cutting `s` into whitespace, a part without edge
   * whitespace, and whitespace: any such part is `Trim(s)`.
   */
  lemma {:induction false} TrimUnique(s: string, r: string, i: nat)
    requires TrimmedAt(s, r, i) && NoEdgeWhitespace(r)
    ensures r == Trim(s)
  {
    var t := Trim(s);
    var i' := |s| - |TrimStart(s)|;
    TrimIsCut(s);
    // An empty part means `s` is all whitespace, and a non-empty part rules that out.
    assert r == [] ==> AllWhitespace(s);
    assert t == [] ==> AllWhitespace(s);
    assert r != [] ==> r[0] == s[i];
    assert t != [] ==> t[0] == s[i'];
    if r != [] && t != [] {
      // Both parts start at the first solid character of `s` ...
      FirstSolidIndex(s, i, i');
      // ... and end at its last one.
      var e, e' := i + |r| - 1, i' + |t| - 1;
      assert r[|r| - 1] == s[e] && t[|t| - 1] == s[e'];
      assert e == e';
      assert r == s[i..e + 1] == t;
    }
  }

  /** A string without whitespace at its edges is its own trim. */
  lemma TrimClean(s: string)
    requires NoEdgeWhitespace(s)
    ensures Trim(s) == s
  {
    assert s[0..|s|] == s;
    assert TrimmedAt(s, s, 0);
    TrimUnique(s, s, 0);
  }

  /** Trimming twice changes nothing more. */
  lemma TrimIdempotent(s: string)
    ensures Trim(Trim(s)) == Trim(s)
  {
    TrimClean(Trim(s));
  }

  /** Trim is the empty string exactly when the input is only whitespace. */
  lemma TrimEmptyIff(s: string)
    ensures Trim(s) == "" <==> AllWhitespace(s)
  {
    TrimIsCut(s);
    if AllWhitespace(s) {
      assert TrimmedAt(s, [], 0);
      TrimUnique(s, [], 0);
    }
  }

  /** Whitespace padding around a string without edge whitespace is all that trim removes. */
  lemma TrimPadded(lead: string, body: string, trail: string)
    requires AllWhitespace(lead) && AllWhitespace(trail) && NoEdgeWhitespace(body)
    ensures Trim(lead + body + trail) == body
  {
    var s := lead + body + trail;
    assert s[..|lead|] == lead;
    assert s[|lead|..|lead| + |body|] == body;
    assert s[|lead| + |body|..] == trail;
    TrimUnique(s, body, |lead|);
  }
}
