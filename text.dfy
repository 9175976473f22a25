/** The string primitives of JavaScript that the client relies on: the
    characters `\s` matches (and `trim` removes), `trim`, `split` on one
    character, `Array.prototype.join`, and `replace(/\s+/g, '_')`. */
module Text {

  /** ECMAScript WhiteSpace and LineTerminator code points. */
  predicate IsWhitespace(c: char) {
    var n := c as int;
    n == 0x09 || n == 0x0A || n == 0x0B || n == 0x0C || n == 0x0D || n == 0x20 ||
    n == 0xA0 || n == 0x1680 || (0x2000 <= n <= 0x200A) || n == 0x2028 ||
    n == 0x2029 || n == 0x202F || n == 0x205F || n == 0x3000 || n == 0xFEFF
  }

  predicate AllWhitespace(s: string) {
    forall i :: 0 <= i < |s| ==> IsWhitespace(s[i])
  }

  predicate NoWhitespace(s: string) {
    forall i :: 0 <= i < |s| ==> !IsWhitespace(s[i])
  }

  /** A string `trim` leaves as it is. */
  predicate IsTrimmed(s: string) {
    s == "" || (!IsWhitespace(s[0]) && !IsWhitespace(s[|s| - 1]))
  }

  /** The length of the leading whitespace run. */
  function LeadingSpaces(s: string): (n: nat)
    ensures n <= |s|
  {
    if s != "" && IsWhitespace(s[0]) then 1 + LeadingSpaces(s[1..]) else 0
  }

  lemma {:induction false} LeadingSpacesSpec(s: string)
    ensures AllWhitespace(s[..LeadingSpaces(s)])
    ensures LeadingSpaces(s) < |s| ==> !IsWhitespace(s[LeadingSpaces(s)])
  {
    if s != "" && IsWhitespace(s[0]) {
      var t := s[1..];
      LeadingSpacesSpec(t);
      var n := LeadingSpaces(t);
      forall i | 0 <= i < n + 1 ensures IsWhitespace(s[i]) {
        if i > 0 { assert s[i] == t[..n][i - 1]; }
      }
      assert n < |t| ==> s[n + 1] == t[n];
    }
  }

  /** The length of the trailing whitespace run. */
  function TrailingSpaces(s: string): (n: nat)
    ensures n <= |s|
  {
    if s != "" && IsWhitespace(s[|s| - 1]) then 1 + TrailingSpaces(s[..|s| - 1]) else 0
  }

  lemma {:induction false} TrailingSpacesSpec(s: string)
    ensures AllWhitespace(s[|s| - TrailingSpaces(s)..])
    ensures TrailingSpaces(s) < |s| ==> !IsWhitespace(s[|s| - 1 - TrailingSpaces(s)])
  {
    if s != "" && IsWhitespace(s[|s| - 1]) {
      var t := s[..|s| - 1];
      TrailingSpacesSpec(t);
      var n := TrailingSpaces(t);
      forall i | |s| - (n + 1) <= i < |s| ensures IsWhitespace(s[i]) {
        if i < |s| - 1 { assert s[i] == t[|t| - n..][i - (|t| - n)]; }
      }
      assert n < |t| ==> s[|s| - 2 - n] == t[|t| - 1 - n];
    }
  }

  /** Drops the leading whitespace run: what is dropped is all whitespace and
      what is left does not start with whitespace. */
  function TrimStart(s: string): (r: string)
    ensures |r| <= |s| && r == s[|s| - |r|..]
    ensures AllWhitespace(s[..|s| - |r|])
    ensures r != "" ==> !IsWhitespace(r[0])
  {
    LeadingSpacesSpec(s);
    s[LeadingSpaces(s)..]
  }

  /** Drops the trailing whitespace run. */
  function TrimEnd(s: string): (r: string)
    ensures |r| <= |s| && r == s[..|r|]
    ensures AllWhitespace(s[|r|..])
    ensures r != "" ==> !IsWhitespace(r[|r| - 1])
  {
    TrailingSpacesSpec(s);
    s[..|s| - TrailingSpaces(s)]
  }

  /** `String.prototype.trim`. */
  function Trim(s: string): (r: string)
    ensures |r| <= |s|
    ensures IsTrimmed(r)
  {
    TrimEnd(TrimStart(s))
  }

  /** A string is blank after trimming exactly when it is all whitespace. */
  lemma TrimBlank(s: string)
    ensures Trim(s) == "" <==> AllWhitespace(s)
  {
    var t := TrimStart(s);
    assert s[..|s|] == s;
    assert t != "" ==> t[0] == s[|s| - |t|];
  }

  /** `trim` is the identity on trimmed strings. */
  lemma TrimTrimmed(s: string)
    requires IsTrimmed(s)
    ensures Trim(s) == s
  {
  }

  /** A leading space is lost to `trim`. */
  lemma TrimLeadingSpace(s: string)
    ensures Trim(" " + s) == Trim(s)
  {
    var t := " " + s;
    assert t[0] == ' ' && t[1..] == s;
    assert LeadingSpaces(t) == 1 + LeadingSpaces(s);
    assert t[LeadingSpaces(t)..] == s[LeadingSpaces(s)..];
  }

  /** `trim` only removes characters: it cannot introduce one. */
  lemma TrimKeepsOut(s: string, c: char)
    requires c !in s
    ensures c !in Trim(s)
  {
    var t := TrimStart(s);
    var r := TrimEnd(t);
    forall i | 0 <= i < |r| ensures r[i] != c {
      assert r[i] == t[i] == s[|s| - |t| + i];
    }
  }

  /** Number of occurrences of `d` in `s`. */
  function Count(s: string, d: char): nat {
    if s == "" then 0 else (if s[0] == d then 1 else 0) + Count(s[1..], d)
  }

  /** `s.split(d)` for a one-character separator: one piece more than there are
      separators, none of the pieces containing the separator. */
  function Split(s: string, d: char): (r: seq<string>)
    ensures |r| == Count(s, d) + 1
    ensures forall i :: 0 <= i < |r| ==> d !in r[i]
  {
    if s == "" then [""]
    else if s[0] == d then [""] + Split(s[1..], d)
    else
      var rest := Split(s[1..], d);
      [[s[0]] + rest[0]] + rest[1..]
  }

  /** `xs.join(sep)`. */
  function Join(xs: seq<string>, sep: string): string {
    if |xs| == 0 then ""
    else if |xs| == 1 then xs[0]
    else xs[0] + sep + Join(xs[1..], sep)
  }

  /** Joining the pieces of a split with the separator gives back the text. */
  lemma {:induction false} JoinSplit(s: string, d: char)
    ensures Join(Split(s, d), [d]) == s
  {
    if s == "" {
    } else if s[0] == d {
      var rest := Split(s[1..], d);
      JoinSplit(s[1..], d);
      assert ([""] + rest)[1..] == rest;
      assert s == [d] + s[1..];
    } else {
      var rest := Split(s[1..], d);
      JoinSplit(s[1..], d);
      var r := [[s[0]] + rest[0]] + rest[1..];
      assert r[1..] == rest[1..];
      assert s == [s[0]] + s[1..];
    }
  }

  /** Splitting on a separator that was put between pieces free of it
      recovers exactly those pieces. */
  lemma {:induction false} SplitJoin(xs: seq<string>, d: char)
    requires |xs| > 0
    requires forall i :: 0 <= i < |xs| ==> d !in xs[i]
    ensures Split(Join(xs, [d]), d) == xs
  {
    if |xs| == 1 {
      SplitFree(xs[0], d);
    } else {
      SplitJoin(xs[1..], d);
      SplitAfter(xs[0], Join(xs[1..], [d]), d);
      assert [xs[0]] + xs[1..] == xs;
    }
  }

  /** A text without the separator splits into itself. */
  lemma {:induction false} SplitFree(s: string, d: char)
    requires d !in s
    ensures Split(s, d) == [s]
  {
    if s != "" {
      assert d !in s[1..] by {
        forall i | 0 <= i < |s[1..]| ensures s[1..][i] != d { assert s[1..][i] == s[i + 1]; }
      }
      SplitFree(s[1..], d);
      assert s == [s[0]] + s[1..];
    }
  }

  /** A character other than the separator in front of the text joins the
      first piece. */
  lemma SplitCons(c: char, s: string, d: char)
    requires c != d
    ensures Split([c] + s, d) == [[c] + Split(s, d)[0]] + Split(s, d)[1..]
  {
    assert ([c] + s)[1..] == s;
  }

  /** The first piece of a split is everything before the first separator. */
  lemma {:induction false} SplitAfter(a: string, b: string, d: char)
    requires d !in a
    ensures Split(a + [d] + b, d) == [a] + Split(b, d)
  {
    if a == "" {
      assert a + [d] + b == [d] + b;
      assert ([d] + b)[1..] == b;
    } else {
      var s := a + [d] + b;
      assert s[0] == a[0] && s[1..] == a[1..] + [d] + b;
      assert d !in a[1..] by {
        forall i | 0 <= i < |a[1..]| ensures a[1..][i] != d { assert a[1..][i] == a[i + 1]; }
      }
      SplitAfter(a[1..], b, d);
      assert [a[0]] + a[1..] == a;
    }
  }

  /** `s.replace(/\s+/g, '_')`: every maximal whitespace run becomes one `_`. */
  function UnderscoreWhitespace(s: string): (r: string)
    ensures |r| <= |s|
  {
    Collapse(s, false)
  }

  /** No whitespace is left after the replace. */
  lemma UnderscoreWhitespaceClean(s: string)
    ensures NoWhitespace(UnderscoreWhitespace(s))
  {
    CollapseClean(s, false);
  }

  /** The replace as a left-to-right scan; `inRun` says whether the text
      before `s` ended inside a whitespace run (whose `_` is already out). */
  function Collapse(s: string, inRun: bool): (r: string)
    ensures |r| <= |s|
  {
    if s == "" then ""
    else if IsWhitespace(s[0]) then (if inRun then "" else "_") + Collapse(s[1..], true)
    else [s[0]] + Collapse(s[1..], false)
  }

  /** The scan leaves no whitespace behind. */
  lemma {:induction false} CollapseClean(s: string, inRun: bool)
    ensures NoWhitespace(Collapse(s, inRun))
  {
    if s != "" {
      CollapseClean(s[1..], IsWhitespace(s[0]));
      var rest := Collapse(s[1..], IsWhitespace(s[0]));
      var head: string := if IsWhitespace(s[0]) then (if inRun then "" else "_") else [s[0]];
      assert Collapse(s, inRun) == head + rest;
      assert NoWhitespace(head);
      forall i | 0 <= i < |head + rest| ensures !IsWhitespace((head + rest)[i]) {
        if i >= |head| { assert (head + rest)[i] == rest[i - |head|]; }
      }
    }
  }

  /** Whether the scan is inside a run after reading `a`. */
  function EndsInRun(a: string, inRun: bool): bool {
    if a == "" then inRun else IsWhitespace(a[|a| - 1])
  }

  /** What the scan emits for one character. */
  function Emit(c: char, inRun: bool): string {
    if IsWhitespace(c) then (if inRun then "" else "_") else [c]
  }

  lemma CollapseCons(c: char, s: string, inRun: bool)
    ensures Collapse([c] + s, inRun) == Emit(c, inRun) + Collapse(s, IsWhitespace(c))
  {
    assert ([c] + s)[0] == c && ([c] + s)[1..] == s;
  }

  /** The scan of a concatenation is the scan of each part, the second one
      started in the state the first one ended in. */
  lemma {:induction false} CollapseConcat(a: string, b: string, inRun: bool)
    ensures Collapse(a + b, inRun) == Collapse(a, inRun) + Collapse(b, EndsInRun(a, inRun))
  {
    if a == "" {
      assert a + b == b;
    } else {
      var c, rest := a[0], a[1..];
      var next := IsWhitespace(c);
      assert a == [c] + rest;
      assert a + b == [c] + (rest + b);
      var e, x, y := Emit(c, inRun), Collapse(rest, next), Collapse(b, EndsInRun(rest, next));
      calc {
        Collapse(a + b, inRun);
        { CollapseCons(c, rest + b, inRun); }
        e + Collapse(rest + b, next);
        { CollapseConcat(rest, b, next); }
        e + (x + y);
        (e + x) + y;
        { CollapseCons(c, rest, inRun); EndsInRunCons(c, rest, inRun); }
        Collapse(a, inRun) + Collapse(b, EndsInRun(a, inRun));
      }
    }
  }

  lemma EndsInRunCons(c: char, rest: string, inRun: bool)
    ensures EndsInRun([c] + rest, inRun) == EndsInRun(rest, IsWhitespace(c))
  {
    if rest != "" { assert ([c] + rest)[|rest|] == rest[|rest| - 1]; }
  }

  /** A whitespace run gives one `_`, or nothing if it continues a run. */
  lemma {:induction false} CollapseRun(w: string, inRun: bool)
    requires w != "" && AllWhitespace(w)
    ensures Collapse(w, inRun) == if inRun then "" else "_"
  {
    if |w| > 1 {
      assert AllWhitespace(w[1..]) by {
        forall i | 0 <= i < |w[1..]| ensures IsWhitespace(w[1..][i]) { assert w[1..][i] == w[i + 1]; }
      }
      CollapseRun(w[1..], true);
    } else {
      assert w[1..] == "";
    }
  }

  /** After a run, text that does not start with whitespace is scanned as if
      from the start. */
  lemma CollapseAfterRun(b: string)
    requires b == "" || !IsWhitespace(b[0])
    ensures Collapse(b, true) == Collapse(b, false)
  {
  }

  /** Text without whitespace goes through unchanged. */
  lemma {:induction false} CollapseFree(s: string, inRun: bool)
    requires NoWhitespace(s)
    ensures Collapse(s, inRun) == s
  {
    if s != "" {
      assert NoWhitespace(s[1..]) by {
        forall i | 0 <= i < |s[1..]| ensures !IsWhitespace(s[1..][i]) { assert s[1..][i] == s[i + 1]; }
      }
      CollapseFree(s[1..], false);
      assert s == [s[0]] + s[1..];
    }
  }

  /** Text without whitespace goes through unchanged. */
  lemma UnderscoreWhitespaceFree(s: string)
    requires NoWhitespace(s)
    ensures UnderscoreWhitespace(s) == s
  {
    CollapseFree(s, false);
  }

  /** The defining property of the global replace: a maximal whitespace run
      `w` between `a` and `b` is replaced by a single `_`, and the two sides
      are rewritten independently. */
  lemma {:induction false} WhitespaceRunBetween(a: string, w: string, b: string)
    requires a == "" || !IsWhitespace(a[|a| - 1])
    requires w != "" && AllWhitespace(w)
    requires b == "" || !IsWhitespace(b[0])
    ensures UnderscoreWhitespace(a + w + b) == UnderscoreWhitespace(a) + "_" + UnderscoreWhitespace(b)
  {
    CollapseConcat(a + w, b, false);
    CollapseConcat(a, w, false);
    CollapseRun(w, false);
    assert EndsInRun(a + w, false) by { assert (a + w)[|a + w| - 1] == w[|w| - 1]; }
    CollapseAfterRun(b);
  }

  /** A leading run becomes a leading `_`. */
  lemma {:induction false} LeadingRun(w: string, b: string)
    requires w != "" && AllWhitespace(w)
    requires b == "" || !IsWhitespace(b[0])
    ensures UnderscoreWhitespace(w + b) == "_" + UnderscoreWhitespace(b)
  {
    CollapseConcat(w, b, false);
    CollapseRun(w, false);
    assert EndsInRun(w, false);
    CollapseAfterRun(b);
  }

  /** A trailing run becomes a trailing `_`. */
  lemma {:induction false} TrailingRun(a: string, w: string)
    requires a == "" || !IsWhitespace(a[|a| - 1])
    requires w != "" && AllWhitespace(w)
    ensures UnderscoreWhitespace(a + w) == UnderscoreWhitespace(a) + "_"
  {
    CollapseConcat(a, w, false);
    CollapseRun(w, false);
  }
}
