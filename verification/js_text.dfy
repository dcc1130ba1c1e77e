/**
 * The JavaScript string built-ins the server relies on: `toLowerCase`,
 * `includes`, `Array.prototype.join`, `trim` and the decimal rendering of an
 * integer in a template literal. `Split` and `ParseNat` are not used by the
 * server; they are the inverses against which `Join` and `NatToString` are
 * proved.
 */
module JsText {

  // ---------------------------------------------------------------------------
  // toLowerCase (ASCII letters only)
  // ---------------------------------------------------------------------------

  predicate IsUpper(c: char) { 'A' <= c <= 'Z' }

  /** Lower-cases one ASCII letter and leaves every other character alone. */
  function LowerChar(c: char): (r: char)
    ensures !IsUpper(r)
    ensures IsUpper(c) ==> r as int == c as int + 32
    ensures !IsUpper(c) ==> r == c
  {
    if IsUpper(c) then (c as int + 32) as char else c
  }

  /** `s.toLowerCase()` restricted to ASCII: the same length, lowered point by point. */
  function ToLower(s: string): (r: string)
    ensures |r| == |s|
    ensures forall i :: 0 <= i < |s| ==> r[i] == LowerChar(s[i])
  {
    if s == [] then [] else [LowerChar(s[0])] + ToLower(s[1..])
  }

  /** Lower-casing twice is lower-casing once. */
  lemma ToLowerIdempotent(s: string)
    ensures ToLower(ToLower(s)) == ToLower(s)
  {
    var t := ToLower(s);
    assert forall i :: 0 <= i < |t| ==> ToLower(t)[i] == t[i];
  }

  /** Lower-casing commutes with taking a slice. */
  lemma ToLowerSlice(s: string, i: nat, j: nat)
    requires i <= j <= |s|
    ensures ToLower(s)[i..j] == ToLower(s[i..j])
  {
    var whole, part := ToLower(s), ToLower(s[i..j]);
    forall k | 0 <= k < j - i
      ensures whole[i..j][k] == part[k]
    {
      assert s[i..j][k] == s[i + k];
    }
  }

  /** A lower-case letter is absent from the lowered text when neither case of it occurs in the text. */
  lemma ToLowerAvoids(s: string, c: char)
    requires 'a' <= c <= 'z'
    requires c !in s && (c as int - 32) as char !in s
    ensures c !in ToLower(s)
  {
    var t := ToLower(s);
    forall k | 0 <= k < |t|
      ensures t[k] != c
    {
      assert s[k] in s;
    }
  }

  // ---------------------------------------------------------------------------
  // includes
  // ---------------------------------------------------------------------------

  predicate IsPrefix(pat: string, s: string) {
    |pat| <= |s| && s[..|pat|] == pat
  }

  /** `s.includes(pat)`: some suffix of `s` starts with `pat` (the empty pattern is always found). */
  function Includes(s: string, pat: string): (r: bool)
    ensures IsPrefix(pat, s) ==> r
    ensures r ==> |pat| <= |s|
    decreases |s|
  {
    if IsPrefix(pat, s) then true
    else if |s| == 0 then false
    else Includes(s[1..], pat)
  }

  /** `pat` occurs in `s` at offset `i`. */
  ghost predicate OccursAt(s: string, pat: string, i: int) {
    0 <= i && i + |pat| <= |s| && s[i..i + |pat|] == pat
  }

  /** `Includes` finds exactly the patterns that occur somewhere in `s`. */
  lemma {:induction false} IncludesIff(s: string, pat: string)
    ensures Includes(s, pat) <==> exists i :: OccursAt(s, pat, i)
    decreases |s|
  {
    if IsPrefix(pat, s) {
      assert OccursAt(s, pat, 0);
    } else if |s| == 0 {
    } else {
      IncludesIff(s[1..], pat);
      if exists i :: OccursAt(s[1..], pat, i) {
        var i :| OccursAt(s[1..], pat, i);
        assert s[i + 1..i + 1 + |pat|] == s[1..][i..i + |pat|];
        assert OccursAt(s, pat, i + 1);
      }
      if exists i :: OccursAt(s, pat, i) {
        var i :| OccursAt(s, pat, i);
        assert i != 0;
        assert s[1..][i - 1..i - 1 + |pat|] == s[i..i + |pat|];
        assert OccursAt(s[1..], pat, i - 1);
      }
    }
  }

  /** A text that lacks one of the pattern's characters does not include the pattern. */
  lemma MissingCharExcludes(s: string, pat: string, k: nat)
    requires k < |pat| && pat[k] !in s
    ensures !Includes(s, pat)
  {
    forall i | 0 <= i && i + |pat| <= |s|
      ensures !OccursAt(s, pat, i)
    {
      assert s[i + k] in s;
      assert s[i..i + |pat|][k] == s[i + k];
    }
    IncludesIff(s, pat);
  }

  /** A pattern that occurs, in any letter case, at position `i` is found in the lowered text. */
  lemma LoweredIncludes(s: string, i: nat, pat: string)
    requires i + |pat| <= |s| && ToLower(s[i..i + |pat|]) == pat
    ensures Includes(ToLower(s), pat)
  {
    ToLowerSlice(s, i, i + |pat|);
    assert OccursAt(ToLower(s), pat, i);
    IncludesIff(ToLower(s), pat);
  }

  /** An occurrence of `pat` is an occurrence of each of its suffixes. */
  lemma IncludesSuffix(s: string, pat: string, k: nat)
    requires k <= |pat|
    requires Includes(s, pat)
    ensures Includes(s, pat[k..])
  {
    IncludesIff(s, pat);
    var i :| OccursAt(s, pat, i);
    assert s[i + k..i + |pat|] == pat[k..];
    assert OccursAt(s, pat[k..], i + k);
    IncludesIff(s, pat[k..]);
  }

  // ---------------------------------------------------------------------------
  // Array.prototype.join and its inverse on a one-character separator
  // ---------------------------------------------------------------------------

  /**
   * `items.join(sep)`: the items in order with `sep` between neighbours; `[]`
   * gives "", and otherwise the result opens with the first item.
   */
  function Join(items: seq<string>, sep: string): (r: string)
    ensures |items| == 0 ==> r == ""
    ensures |items| > 0 ==> IsPrefix(items[0], r)
  {
    if |items| == 0 then ""
    else if |items| == 1 then items[0]
    else items[0] + sep + Join(items[1..], sep)
  }

  /** Joining a concatenation puts one separator at the seam. */
  lemma {:induction false} JoinAppend(xs: seq<string>, ys: seq<string>, sep: string)
    requires |xs| > 0 && |ys| > 0
    ensures Join(xs + ys, sep) == Join(xs, sep) + sep + Join(ys, sep)
  {
    assert (xs + ys)[0] == xs[0];
    if |xs| == 1 {
      assert (xs + ys)[1..] == ys;
    } else {
      assert (xs + ys)[1..] == xs[1..] + ys;
      JoinAppend(xs[1..], ys, sep);
    }
  }

  /** A character that neither the items nor the separator hold is absent from the join. */
  lemma {:induction false} JoinAvoids(xs: seq<string>, sep: string, c: char)
    requires c !in sep
    requires forall i :: 0 <= i < |xs| ==> c !in xs[i]
    ensures c !in Join(xs, sep)
  {
    if |xs| > 1 {
      JoinAvoids(xs[1..], sep, c);
    }
  }

  /** `s.split(c)` for a one-character separator: the pieces between the separators (never empty). */
  function Split(s: string, c: char): (r: seq<string>)
    ensures |r| >= 1
    decreases |s|
  {
    if |s| == 0 then [""]
    else
      var rest := Split(s[1..], c);
      if s[0] == c then [""] + rest else [[s[0]] + rest[0]] + rest[1..]
  }

  /** A piece without the separator splits into itself. */
  lemma {:induction false} SplitPlain(a: string, c: char)
    requires c !in a
    ensures Split(a, c) == [a]
    decreases |a|
  {
    if |a| > 0 {
      SplitPlain(a[1..], c);
      assert [a[0]] + a[1..] == a;
    }
  }

  /** Splitting at the first separator yields the piece before it and the split of the rest. */
  lemma {:induction false} SplitCons(a: string, b: string, c: char)
    requires c !in a
    ensures Split(a + [c] + b, c) == [a] + Split(b, c)
    decreases |a|
  {
    var s := a + [c] + b;
    if |a| == 0 {
      assert s[1..] == b;
    } else {
      assert s[1..] == a[1..] + [c] + b;
      SplitCons(a[1..], b, c);
      assert [a[0]] + a[1..] == a;
    }
  }

  /** Splitting undoes joining when no item holds the separator. */
  lemma {:induction false} SplitJoin(xs: seq<string>, c: char)
    requires |xs| >= 1
    requires forall i :: 0 <= i < |xs| ==> c !in xs[i]
    ensures Split(Join(xs, [c]), c) == xs
  {
    if |xs| == 1 {
      SplitPlain(xs[0], c);
    } else {
      SplitCons(xs[0], Join(xs[1..], [c]), c);
      SplitJoin(xs[1..], c);
      assert xs == [xs[0]] + xs[1..];
    }
  }

  /** Each item with `pad` put in front of it. */
  function PadAll(items: seq<string>, pad: string): (r: seq<string>)
    ensures |r| == |items|
    ensures forall i :: 0 <= i < |items| ==> r[i] == pad + items[i]
  {
    seq(|items|, i requires 0 <= i < |items| => pad + items[i])
  }

  /** A separator `c` followed by `pad` is the separator `c` with `pad` moved onto the next item. */
  lemma {:induction false} JoinPadded(items: seq<string>, c: char, pad: string)
    requires |items| > 0
    ensures pad + Join(items, [c] + pad) == Join(PadAll(items, pad), [c])
    decreases |items|
  {
    var padded := PadAll(items, pad);
    if |items| > 1 {
      var rest := Join(items[1..], [c] + pad);
      JoinPadded(items[1..], c, pad);
      assert PadAll(items[1..], pad) == padded[1..];
      calc {
        pad + Join(items, [c] + pad);
        pad + (items[0] + ([c] + pad) + rest);
        { assert items[0] + ([c] + pad) + rest == items[0] + [c] + (pad + rest); }
        pad + (items[0] + [c] + (pad + rest));
        (pad + items[0]) + [c] + (pad + rest);
        padded[0] + [c] + Join(padded[1..], [c]);
      }
    }
  }

  /**
   * Splitting a join whose separator is `c` then `pad` gives the first item,
   * then each further item with `pad` in front, when no item or pad holds `c`.
   */
  lemma SplitJoinPadded(items: seq<string>, c: char, pad: string)
    requires |items| > 0
    requires c !in pad
    requires forall i :: 0 <= i < |items| ==> c !in items[i]
    ensures Split(Join(items, [c] + pad), c) == [items[0]] + PadAll(items[1..], pad)
  {
    var lines := [items[0]] + PadAll(items[1..], pad);
    if |items| == 1 {
      assert lines == [items[0]];
      SplitPlain(items[0], c);
    } else {
      JoinPadded(items[1..], c, pad);
      assert items == [items[0]] + items[1..];
      JoinAppend([items[0]], items[1..], [c] + pad);
      JoinAppend([items[0]], PadAll(items[1..], pad), [c]);
      assert Join(items, [c] + pad) == items[0] + [c] + (pad + Join(items[1..], [c] + pad));
      forall i | 0 <= i < |lines|
        ensures c !in lines[i]
      {
        if i > 0 {
          assert lines[i] == pad + items[i];
        }
      }
      SplitJoin(lines, c);
    }
  }

  // ---------------------------------------------------------------------------
  // trim
  // ---------------------------------------------------------------------------

  /** The characters ECMAScript counts as WhiteSpace or LineTerminator, which `trim` removes. */
  predicate IsWhiteSpace(c: char) {
    c in {'\t', '\n', '\U{000B}', '\U{000C}', '\r', ' ', '\U{00A0}', '\U{1680}',
          '\U{2000}', '\U{2001}', '\U{2002}', '\U{2003}', '\U{2004}', '\U{2005}',
          '\U{2006}', '\U{2007}', '\U{2008}', '\U{2009}', '\U{200A}', '\U{2028}',
          '\U{2029}', '\U{202F}', '\U{205F}', '\U{3000}', '\U{FEFF}'}
  }

  /** Drops the leading white space: a suffix of `s` whose dropped part is all white space. */
  function TrimStart(s: string): (r: string)
    ensures |r| <= |s| && r == s[|s| - |r|..]
    ensures forall k :: 0 <= k < |s| - |r| ==> IsWhiteSpace(s[k])
    ensures r == [] || !IsWhiteSpace(r[0])
    decreases |s|
  {
    if |s| > 0 && IsWhiteSpace(s[0]) then TrimStart(s[1..]) else s
  }

  /** Drops the trailing white space: a prefix of `s` whose dropped part is all white space. */
  function TrimEnd(s: string): (r: string)
    ensures |r| <= |s| && r == s[..|r|]
    ensures forall k :: |r| <= k < |s| ==> IsWhiteSpace(s[k])
    ensures r == [] || !IsWhiteSpace(r[|r| - 1])
    decreases |s|
  {
    if |s| > 0 && IsWhiteSpace(s[|s| - 1]) then TrimEnd(s[..|s| - 1]) else s
  }

  /**
   * `s.trim()`: the slice `s[i..j]` left after dropping only white space at
   * both ends; neither end of the result is white space, and it is empty
   * exactly when `s` is all white space.
   */
  function Trim(s: string): (r: string)
    ensures IsTrimOf(s, r)
    ensures r == [] || (!IsWhiteSpace(r[0]) && !IsWhiteSpace(r[|r| - 1]))
    ensures r == [] <==> forall k :: 0 <= k < |s| ==> IsWhiteSpace(s[k])
  {
    var t := TrimStart(s);
    var r := TrimEnd(t);
    assert TrimmedAt(s, |s| - |t|, |s| - |t| + |r|) && r == s[|s| - |t|..|s| - |t| + |r|];
    r
  }

  /** `r` is a slice of `s` that leaves out only white space at both ends. */
  ghost predicate IsTrimOf(s: string, r: string) {
    exists i, j :: TrimmedAt(s, i, j) && r == s[i..j]
  }

  /** `s[i..j]` is what is left of `s` after dropping white space only, before `i` and from `j` on. */
  ghost predicate TrimmedAt(s: string, i: int, j: int) {
    && 0 <= i <= j <= |s|
    && (forall k :: 0 <= k < i ==> IsWhiteSpace(s[k]))
    && (forall k :: j <= k < |s| ==> IsWhiteSpace(s[k]))
  }

  // ---------------------------------------------------------------------------
  // Decimal rendering of an integer (`${n}` for an integral number)
  // ---------------------------------------------------------------------------

  predicate IsDigit(c: char) { '0' <= c <= '9' }

  function DigitChar(d: nat): (c: char)
    requires d < 10
    ensures IsDigit(c) && c as int - '0' as int == d
  {
    (d + '0' as int) as char
  }

  /** The decimal digits of `n`, most significant first, without leading zeros. */
  function NatToString(n: nat): (r: string)
    ensures |r| >= 1
    ensures forall i :: 0 <= i < |r| ==> IsDigit(r[i])
    ensures r[0] == '0' ==> n == 0
    decreases n
  {
    if n < 10 then [DigitChar(n)] else NatToString(n / 10) + [DigitChar(n % 10)]
  }

  /** Reads a string of decimal digits back as a number. */
  function ParseNat(s: string): nat
    requires forall i :: 0 <= i < |s| ==> IsDigit(s[i])
    decreases |s|
  {
    if |s| == 0 then 0
    else ParseNat(s[..|s| - 1]) * 10 + DigitValue(s[|s| - 1])
  }

  function DigitValue(c: char): nat
    requires IsDigit(c)
  {
    c as int - '0' as int
  }

  /** Reading the digits of `n` gives `n` back. */
  lemma {:induction false} ParseNatToString(n: nat)
    ensures ParseNat(NatToString(n)) == n
    decreases n
  {
    var s := NatToString(n);
    if n >= 10 {
      ParseNatToString(n / 10);
      assert s[..|s| - 1] == NatToString(n / 10);
    } else {
      assert s[..|s| - 1] == [];
    }
  }

  /**
   * `${n}` for an integer: the decimal digits of its magnitude, without
   * leading zeros, after a minus sign exactly when it is negative.
   */
  function IntToString(n: int): (r: string)
    ensures |r| >= 1
    ensures n < 0 <==> r[0] == '-'
    ensures forall i :: 0 < i < |r| ==> IsDigit(r[i])
    ensures n >= 0 ==> r == NatToString(n)
    ensures n < 0 ==> r[1..] == NatToString(-n)
  {
    if n < 0 then "-" + NatToString(-n) else NatToString(n)
  }

  /** Reading the digits after the sign gives back the magnitude. */
  lemma IntToStringRoundTrip(n: int)
    ensures n >= 0 ==> ParseNat(IntToString(n)) == n
    ensures n < 0 ==> ParseNat(IntToString(n)[1..]) == -n
  {
    if n < 0 {
      ParseNatToString(-n);
      assert IntToString(n)[1..] == NatToString(-n);
    } else {
      ParseNatToString(n);
    }
  }

  /** The rendering of an integer is one line. */
  lemma IntToStringNoNewline(n: int)
    ensures '\n' !in IntToString(n)
  {
    var r := IntToString(n);
    assert IsDigit(r[0]) || r[0] == '-';
  }
}
