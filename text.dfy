/** JavaScript string primitives the portfolio editor relies on: `trim`, the
    regular-expression class `\s` (as used by `replace(/\s+/g, '_')`) and
    `toLowerCase`. */
module Text {

  /** The ECMAScript WhiteSpace and LineTerminator code points: exactly the set
      that `String.prototype.trim` strips and that `\s` matches. */
  predicate IsWhitespace(c: char) {
    || c == '\t' || c == '\n' || c == '\U{000B}' || c == '\U{000C}' || c == '\r'
    || c == ' ' || c == '\U{00A0}' || c == '\U{1680}'
    || ('\U{2000}' <= c <= '\U{200A}')
    || c == '\U{2028}' || c == '\U{2029}' || c == '\U{202F}' || c == '\U{205F}'
    || c == '\U{3000}' || c == '\U{FEFF}'
  }

  predicate AllWhitespace(s: string) {
    forall i :: 0 <= i < |s| ==> IsWhitespace(s[i])
  }

  predicate NoWhitespace(s: string) {
    forall i :: 0 <= i < |s| ==> !IsWhitespace(s[i])
  }

  /** Lower-case mapping of one character: ASCII and Latin-1 capitals. */
  function Lower(c: char): (d: char)
    ensures IsWhitespace(d) <==> IsWhitespace(c)
    ensures !('A' <= d <= 'Z')
    ensures d != c ==> 'A' <= c <= 'Z' || ('\U{00C0}' <= c <= '\U{00DE}' && c != '\U{00D7}')
  {
    if 'A' <= c <= 'Z' || ('\U{00C0}' <= c <= '\U{00DE}' && c != '\U{00D7}')
    then (c as int + 32) as char
    else c
  }

  /** `toLowerCase`, character by character. */
  function LowerCase(s: string): (r: string)
    ensures |r| == |s|
  {
    seq(|s|, i requires 0 <= i < |s| => Lower(s[i]))
  }

  lemma LowerIdempotent(c: char)
    ensures Lower(Lower(c)) == Lower(c)
  {
  }

  lemma LowerCaseKeepsNoWhitespace(s: string)
    requires NoWhitespace(s)
    ensures NoWhitespace(LowerCase(s))
  {
  }

  lemma LowerCaseIdempotent(s: string)
    ensures LowerCase(LowerCase(s)) == LowerCase(s)
  {
    forall i | 0 <= i < |s| ensures LowerCase(LowerCase(s))[i] == LowerCase(s)[i] {
      LowerIdempotent(s[i]);
    }
  }

  lemma LowerCaseConcat(a: string, b: string)
    ensures LowerCase(a + b) == LowerCase(a) + LowerCase(b)
  {
  }

  /** Stated once so that proofs over long concatenations re-associate one step explicitly,
      instead of leaving the solver to search for it. */
  lemma Associative(x: string, y: string, z: string)
    ensures x + (y + z) == (x + y) + z
  {
  }

  /** Length of the longest all-whitespace prefix of `s`. */
  function LeadingWs(s: string): (n: nat)
    ensures n <= |s|
    ensures AllWhitespace(s[..n])
    ensures n < |s| ==> !IsWhitespace(s[n])
  {
    if s == [] || !IsWhitespace(s[0]) then 0 else 1 + LeadingWs(s[1..])
  }

  /** Length of the longest all-whitespace suffix of `s`. */
  function TrailingWs(s: string): (n: nat)
    ensures n <= |s|
    ensures AllWhitespace(s[|s| - n..])
    ensures n < |s| ==> !IsWhitespace(s[|s| - 1 - n])
  {
    if s == [] || !IsWhitespace(s[|s| - 1]) then 0
    else
      var m := TrailingWs(s[..|s| - 1]);
      TrailingStep(s, m);
      1 + m
  }

  /** Extending a whitespace suffix of `s` minus its last character by that character. */
  lemma TrailingStep(s: string, m: nat)
    requires s != [] && m <= |s| - 1 && IsWhitespace(s[|s| - 1])
    requires AllWhitespace(s[..|s| - 1][|s| - 1 - m..])
    ensures AllWhitespace(s[|s| - (m + 1)..])
    ensures m < |s| - 1 ==> s[..|s| - 1][|s| - 2 - m] == s[|s| - 1 - (m + 1)]
  {
    var init := s[..|s| - 1];
    forall i | |s| - (m + 1) <= i < |s| ensures IsWhitespace(s[i]) {
      if i < |s| - 1 {
        assert s[i] == init[|s| - 1 - m..][i - (|s| - 1 - m)];
      }
    }
  }

  /** `String.prototype.trim`: strip leading and trailing whitespace. */
  function Trim(s: string): (r: string)
    ensures r == [] <==> AllWhitespace(s)
    ensures r != [] ==> !IsWhitespace(r[0]) && !IsWhitespace(r[|r| - 1])
    ensures exists i :: 0 <= i <= |s| - |r| && s == s[..i] + r + s[i + |r|..]
                        && AllWhitespace(s[..i]) && AllWhitespace(s[i + |r|..])
  {
    var i := LeadingWs(s);
    if i == |s| then
      TrimBlank(s);
      []
    else
      var t := TrailingWs(s);
      TrimCore(s, i, t);
      s[i..|s| - t]
  }

  /** A string whose leading run is all of it is blank, and trims to nothing. */
  lemma TrimBlank(s: string)
    requires LeadingWs(s) == |s|
    ensures AllWhitespace(s)
    ensures s == s[..|s|] + [] + s[|s|..] && AllWhitespace(s[..|s|]) && AllWhitespace(s[|s|..])
  {
    assert s[..|s|] == s;
  }

  /** When the leading run stops short of the end, what lies between the two runs
      is non-empty, starts and ends with non-whitespace, and splits `s` in three. */
  lemma TrimCore(s: string, i: nat, t: nat)
    requires i == LeadingWs(s) && i < |s| && t == TrailingWs(s)
    ensures i < |s| - t
    ensures !AllWhitespace(s)
    ensures var r := s[i..|s| - t];
            && !IsWhitespace(r[0]) && !IsWhitespace(r[|r| - 1])
            && s == s[..i] + r + s[i + |r|..]
            && AllWhitespace(s[..i]) && AllWhitespace(s[i + |r|..])
  {
    assert !IsWhitespace(s[i]);
    SuffixWhitespace(s, t);
    ThreeSlices(s, i, |s| - t);
  }

  lemma SuffixWhitespace(s: string, t: nat)
    requires t <= |s| && AllWhitespace(s[|s| - t..])
    ensures forall j :: |s| - t <= j < |s| ==> IsWhitespace(s[j])
  {
    forall j | |s| - t <= j < |s| ensures IsWhitespace(s[j]) {
      assert s[j] == s[|s| - t..][j - (|s| - t)];
    }
  }

  lemma ThreeSlices(s: string, i: nat, k: nat)
    requires i <= k <= |s|
    ensures s == s[..i] + s[i..k] + s[k..]
  {
    assert s[..i] + s[i..k] == s[..k];
  }

  lemma {:induction false} TrimIdempotent(s: string)
    ensures Trim(Trim(s)) == Trim(s)
  {
    var r := Trim(s);
    if r != [] {
      assert LeadingWs(r) == 0;
      assert TrailingWs(r) == 0;
      assert r[0..|r|] == r;
    }
  }

  /** `s.replace(/\s+/g, '_')`: every maximal run of whitespace becomes one `_`. */
  function CollapseWhitespace(s: string): (r: string)
    ensures |r| <= |s|
    ensures r == [] <==> s == []
    ensures NoWhitespace(r)
    decreases |s|
  {
    if s == [] then []
    else if IsWhitespace(s[0]) then "_" + CollapseWhitespace(s[LeadingWs(s)..])
    else [s[0]] + CollapseWhitespace(s[1..])
  }

  lemma {:induction false} CollapseKeepsWords(s: string)
    requires NoWhitespace(s)
    ensures CollapseWhitespace(s) == s
    decreases |s|
  {
    if s != [] {
      CollapseKeepsWords(s[1..]);
      assert s == [s[0]] + s[1..];
    }
  }

  lemma CollapseOneRun(w: string)
    requires w != [] && AllWhitespace(w)
    ensures CollapseWhitespace(w) == "_"
  {
    LeadingWsOfRun(w, []);
    assert w + [] == w;
  }

  lemma {:induction false} LeadingWsOfRun(a: string, b: string)
    requires AllWhitespace(a)
    ensures LeadingWs(a + b) == |a| + LeadingWs(b)
    decreases |a|
  {
    if a == [] {
      assert a + b == b;
    } else {
      assert (a + b)[1..] == a[1..] + b;
      LeadingWsOfRun(a[1..], b);
    }
  }

  lemma {:induction false} LeadingWsOfPrefix(a: string, b: string)
    requires !AllWhitespace(a)
    ensures LeadingWs(a + b) == LeadingWs(a)
    decreases |a|
  {
    if IsWhitespace(a[0]) {
      assert (a + b)[1..] == a[1..] + b;
      LeadingWsOfPrefix(a[1..], b);
    }
  }

  /** Collapsing distributes over a concatenation that does not split a
      whitespace run: together with CollapseKeepsWords and CollapseOneRun this
      determines CollapseWhitespace on every string. */
  lemma {:induction false} CollapseConcat(a: string, b: string)
    requires a == [] || b == [] || !IsWhitespace(a[|a| - 1]) || !IsWhitespace(b[0])
    ensures CollapseWhitespace(a + b) == CollapseWhitespace(a) + CollapseWhitespace(b)
    decreases |a|, 1
  {
    if a == [] {
      assert a + b == b;
    } else if b == [] {
      assert a + b == a;
    } else if !IsWhitespace(a[0]) {
      CollapseConcatWord(a, b);
    } else if AllWhitespace(a) {
      LeadingWsOfRun(a, b);
      assert (a + b)[|a|..] == b;
      CollapseOneRun(a);
    } else {
      CollapseConcatGap(a, b);
    }
  }

  lemma {:induction false} CollapseConcatWord(a: string, b: string)
    requires a != [] && b != [] && !IsWhitespace(a[0])
    requires !IsWhitespace(a[|a| - 1]) || !IsWhitespace(b[0])
    ensures CollapseWhitespace(a + b) == CollapseWhitespace(a) + CollapseWhitespace(b)
    decreases |a|, 0
  {
    var ab := a + b;
    assert ab[0] == a[0];
    assert ab[1..] == a[1..] + b;
    assert CollapseWhitespace(ab) == [a[0]] + CollapseWhitespace(a[1..] + b);
    CollapseConcat(a[1..], b);
    assert CollapseWhitespace(a) == [a[0]] + CollapseWhitespace(a[1..]);
    Associative([a[0]], CollapseWhitespace(a[1..]), CollapseWhitespace(b));
  }

  lemma {:induction false} CollapseConcatGap(a: string, b: string)
    requires a != [] && b != [] && IsWhitespace(a[0]) && !AllWhitespace(a)
    requires !IsWhitespace(a[|a| - 1]) || !IsWhitespace(b[0])
    ensures CollapseWhitespace(a + b) == CollapseWhitespace(a) + CollapseWhitespace(b)
    decreases |a|, 0
  {
    var n := GapStep(a, b);
    var rest := a[n..];
    CollapseConcat(rest, b);
    Associative("_", CollapseWhitespace(rest), CollapseWhitespace(b));
  }

  /** Collapsing `a + b` and `a` both start by replacing the leading run of `a`. */
  lemma GapStep(a: string, b: string) returns (n: nat)
    requires a != [] && IsWhitespace(a[0]) && !AllWhitespace(a)
    ensures 0 < n < |a|
    ensures CollapseWhitespace(a + b) == "_" + CollapseWhitespace(a[n..] + b)
    ensures CollapseWhitespace(a) == "_" + CollapseWhitespace(a[n..])
    ensures a[n..][|a| - n - 1] == a[|a| - 1]
  {
    n := LeadingWs(a);
    assert n < |a| by {
      assert a[..|a|] == a;
    }
    LeadingWsOfPrefix(a, b);
    assert (a + b)[0] == a[0];
    assert (a + b)[n..] == a[n..] + b;
    CollapseAtRun(a + b);
    CollapseAtRun(a);
  }

  /** One step of collapsing at a whitespace run. */
  lemma CollapseAtRun(s: string)
    requires s != [] && IsWhitespace(s[0])
    ensures CollapseWhitespace(s) == "_" + CollapseWhitespace(s[LeadingWs(s)..])
  {
  }
}
