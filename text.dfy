/** The JavaScript string operations the core relies on: `String.prototype.trim`,
    `startsWith`, `split` on a one-character separator and `Array.prototype.join`
    (which is also what an array turns into inside a template literal). */
module Text {

  /** A code point that ECMAScript's `trim` removes: the WhiteSpace production
      (TAB, VT, FF, ZWNBSP and every space separator) and the LineTerminator
      production (LF, CR, LS, PS). */
  predicate IsJsWhitespace(c: char) {
    var n := c as int;
    n == 0x09 || n == 0x0A || n == 0x0B || n == 0x0C || n == 0x0D
    || n == 0x20 || n == 0xA0 || n == 0x1680 || (0x2000 <= n <= 0x200A)
    || n == 0x2028 || n == 0x2029 || n == 0x202F || n == 0x205F
    || n == 0x3000 || n == 0xFEFF
  }

  predicate AllWhitespace(s: string) {
    forall i :: 0 <= i < |s| ==> IsJsWhitespace(s[i])
  }

  /** The first position at or after `lo` that does not hold whitespace
      (or `|s|`): where `trim` makes its result start. */
  function LeadingStop(s: string, lo: nat): (r: nat)
    requires lo <= |s|
    ensures lo <= r <= |s|
    ensures forall k :: lo <= k < r ==> IsJsWhitespace(s[k])
    ensures r < |s| ==> !IsJsWhitespace(s[r])
    decreases |s| - lo
  {
    if lo < |s| && IsJsWhitespace(s[lo]) then LeadingStop(s, lo + 1) else lo
  }

  /** The position after the last non-whitespace character of `s[lo..hi]`
      (or `lo`): where `trim` makes its result end. */
  function TrailingStop(s: string, lo: nat, hi: nat): (r: nat)
    requires lo <= hi <= |s|
    ensures lo <= r <= hi
    ensures forall k :: r <= k < hi ==> IsJsWhitespace(s[k])
    ensures r > lo ==> !IsJsWhitespace(s[r - 1])
    decreases hi - lo
  {
    if hi > lo && IsJsWhitespace(s[hi - 1]) then TrailingStop(s, lo, hi - 1) else hi
  }

  /** `s.trim()`: the infix of `s` left after dropping leading and trailing
      whitespace. */
  function Trim(s: string): (r: string)
    ensures |r| <= |s|
    ensures r == [] || (!IsJsWhitespace(r[0]) && !IsJsWhitespace(r[|r| - 1]))
  {
    var i := LeadingStop(s, 0);
    var j := TrailingStop(s, i, |s|);
    s[i..j]
  }

  /** What `trim` removes is whitespace on both sides of an infix of `s`. */
  lemma TrimInfix(s: string) returns (i: nat)
    ensures i + |Trim(s)| <= |s|
    ensures forall k :: 0 <= k < |Trim(s)| ==> Trim(s)[k] == s[i + k]
    ensures forall k :: 0 <= k < i ==> IsJsWhitespace(s[k])
    ensures forall k :: i + |Trim(s)| <= k < |s| ==> IsJsWhitespace(s[k])
  {
    i := LeadingStop(s, 0);
  }

  /** A string trims to the empty string exactly when it is all whitespace. */
  lemma TrimEmptyIff(s: string)
    ensures Trim(s) == [] <==> AllWhitespace(s)
  {
    var i := TrimInfix(s);
    if Trim(s) != [] {
      assert !IsJsWhitespace(s[i]);
    }
  }

  /** A string with no whitespace at either end is its own trim. */
  lemma TrimUntouched(s: string)
    requires s == [] || (!IsJsWhitespace(s[0]) && !IsJsWhitespace(s[|s| - 1]))
    ensures Trim(s) == s
  {
    if s != [] {
      assert LeadingStop(s, 0) == 0;
      assert TrailingStop(s, 0, |s|) == |s|;
    }
  }

  /** Trimming twice is trimming once. */
  lemma TrimIdempotent(s: string)
    ensures Trim(Trim(s)) == Trim(s)
  {
    TrimUntouched(Trim(s));
  }

  /** `s.startsWith(p)`. */
  predicate StartsWith(s: string, p: string) {
    |p| <= |s| && s[..|p|] == p
  }

  /** A string that starts with a non-whitespace character is not blank. */
  lemma NotBlankWhenStartsWith(s: string, p: string)
    requires StartsWith(s, p) && |p| > 0 && !IsJsWhitespace(p[0])
    ensures Trim(s) != []
  {
    assert s[0] == p[0];
    TrimEmptyIff(s);
  }

  /** `s.split(sep)` for a one-character separator: the pieces between
      separators, always at least one, none containing the separator. */
  function Split(s: string, sep: char): (r: seq<string>)
    ensures |r| >= 1
    ensures forall k :: 0 <= k < |r| ==> sep !in r[k]
  {
    if |s| == 0 then [""]
    else
      var rest := Split(s[1..], sep);
      if s[0] == sep then [""] + rest
      else [[s[0]] + rest[0]] + rest[1..]
  }

  /** `xs.join(sep)`: the elements with `sep` between neighbours; `[]` joins to `""`. */
  function Join(xs: seq<string>, sep: char): string {
    if |xs| == 0 then ""
    else if |xs| == 1 then xs[0]
    else xs[0] + [sep] + Join(xs[1..], sep)
  }

  /** Splitting a string without the separator gives the string alone. */
  lemma {:induction false} SplitNoSeparator(s: string, sep: char)
    requires sep !in s
    ensures Split(s, sep) == [s]
  {
    if |s| > 0 {
      assert sep !in s[1..] by {
        forall k | 0 <= k < |s[1..]| ensures s[1..][k] != sep { assert s[1..][k] == s[k + 1]; }
      }
      SplitNoSeparator(s[1..], sep);
      assert [s[0]] + s[1..] == s;
    }
  }

  /** A leading separator splits off an empty first piece. */
  lemma SplitConsSeparator(t: string, sep: char)
    ensures Split([sep] + t, sep) == [""] + Split(t, sep)
  {
    var s := [sep] + t;
    assert s[0] == sep && s[1..] == t;
  }

  /** Any other leading character joins the first piece. */
  lemma SplitConsOther(c: char, t: string, sep: char)
    requires c != sep
    ensures Split([c] + t, sep) == [[c] + Split(t, sep)[0]] + Split(t, sep)[1..]
  {
    var s := [c] + t;
    assert s[0] == c && s[1..] == t;
  }

  /** The inductive step of `SplitAppend` for a leading separator. */
  lemma SplitAppendStepSeparator(rest: string, b: string, sep: char)
    requires Split(rest + [sep] + b, sep) == Split(rest, sep) + Split(b, sep)
    ensures Split([sep] + rest + [sep] + b, sep) == Split([sep] + rest, sep) + Split(b, sep)
  {
    var t := rest + [sep] + b;
    assert [sep] + rest + [sep] + b == [sep] + t;
    SplitConsSeparator(t, sep);
    SplitConsSeparator(rest, sep);
    PrependEmptyPiece(Split(rest, sep), Split(b, sep));
  }

  /** An empty first piece in front of `left + right` is one in front of `left`. */
  lemma PrependEmptyPiece(left: seq<string>, right: seq<string>)
    ensures [""] + (left + right) == ([""] + left) + right
  {
  }

  /** Extending the first piece of `left + right` extends the first piece of `left`. */
  lemma ExtendFirstPiece(c: char, left: seq<string>, right: seq<string>)
    requires |left| >= 1
    ensures [[c] + (left + right)[0]] + (left + right)[1..] == ([[c] + left[0]] + left[1..]) + right
  {
    assert (left + right)[0] == left[0] && (left + right)[1..] == left[1..] + right;
    var head := [c] + left[0];
    assert [head] + (left[1..] + right) == ([head] + left[1..]) + right;
  }

  /** The inductive step of `SplitAppend` for any other leading character. */
  lemma SplitAppendStepOther(c: char, rest: string, b: string, sep: char)
    requires c != sep
    requires Split(rest + [sep] + b, sep) == Split(rest, sep) + Split(b, sep)
    ensures Split([c] + rest + [sep] + b, sep) == Split([c] + rest, sep) + Split(b, sep)
  {
    var t := rest + [sep] + b;
    assert [c] + rest + [sep] + b == [c] + t;
    SplitConsOther(c, t, sep);
    SplitConsOther(c, rest, sep);
    ExtendFirstPiece(c, Split(rest, sep), Split(b, sep));
  }

  /** A separator between two strings splits them apart: splitting is a
      homomorphism from `a + [sep] + b` to list concatenation. */
  lemma {:induction false} SplitAppend(a: string, b: string, sep: char)
    ensures Split(a + [sep] + b, sep) == Split(a, sep) + Split(b, sep)
  {
    if |a| == 0 {
      assert a + [sep] + b == [sep] + b;
      SplitConsSeparator(b, sep);
    } else {
      SplitAppend(a[1..], b, sep);
      assert a == [a[0]] + a[1..];
      if a[0] == sep {
        SplitAppendStepSeparator(a[1..], b, sep);
      } else {
        SplitAppendStepOther(a[0], a[1..], b, sep);
      }
    }
  }

  /** Joining the pieces of a split gives back the original string. */
  lemma {:induction false} JoinSplit(s: string, sep: char)
    ensures Join(Split(s, sep), sep) == s
  {
    if |s| > 0 {
      var rest := Split(s[1..], sep);
      JoinSplit(s[1..], sep);
      if s[0] == sep {
        assert Split(s, sep)[1..] == rest;
      } else {
        var r := Split(s, sep);
        if |rest| > 1 {
          assert r[1..] == rest[1..];
        }
      }
      assert [s[0]] + s[1..] == s;
    }
  }

  /** Splitting a join gives back the elements, provided there is at least one
      and none contains the separator. */
  lemma {:induction false} SplitJoin(xs: seq<string>, sep: char)
    requires |xs| >= 1
    requires forall k :: 0 <= k < |xs| ==> sep !in xs[k]
    ensures Split(Join(xs, sep), sep) == xs
  {
    SplitNoSeparator(xs[0], sep);
    if |xs| > 1 {
      SplitJoin(xs[1..], sep);
      SplitAppend(xs[0], Join(xs[1..], sep), sep);
      assert [xs[0]] + xs[1..] == xs;
    }
  }

  /** A character that is neither the separator nor in any element is not in the join. */
  lemma {:induction false} JoinAvoids(xs: seq<string>, sep: char, c: char)
    requires c != sep
    requires forall k :: 0 <= k < |xs| ==> c !in xs[k]
    ensures c !in Join(xs, sep)
  {
    if |xs| > 1 {
      JoinAvoids(xs[1..], sep, c);
    }
  }

}
