/**
 * The few Python built-ins the request handling relies on, stated on
 * `string` (a sequence of characters): `str.strip()`, `str.split(sep)` with a
 * one-character separator, the substring test `sub in s`, `s[1:]`, `int(s)`
 * for a text argument in base 10, and `str(n)` for a non-negative integer.
 */
module PyStr {
  import opened Wrappers

  // ---------------------------------------------------------------------------
  // str.strip()
  // ---------------------------------------------------------------------------

  /** The characters Python's `str.isspace()` accepts (and `strip()` removes). */
  predicate IsSpace(c: char)
  {
    ('\t' <= c <= '\r') || ('\U{1C}' <= c <= '\U{1F}') || c == ' '
    || c == '\U{85}' || c == '\U{A0}' || c == '\U{1680}'
    || ('\U{2000}' <= c <= '\U{200A}') || c == '\U{2028}' || c == '\U{2029}'
    || c == '\U{202F}' || c == '\U{205F}' || c == '\U{3000}'
  }

  /**
   * Which white space is skipped: all of `str.isspace()` (what `strip()`
   * removes), or the part `int()` skips around a number, which leaves out
   * the separators U+001C to U+001F.
   */
  datatype Blanks = StripBlanks | IntBlanks

  predicate IsBlank(c: char, w: Blanks)
  {
    IsSpace(c) && (w == IntBlanks ==> !('\U{1C}' <= c <= '\U{1F}'))
  }

  /** The first index from `i` on that holds no white space (`|s|` if none): where `lstrip()` cuts. */
  function SkipSpace(s: string, i: nat, w: Blanks): (j: nat)
    requires i <= |s|
    ensures i <= j <= |s|
    ensures forall k :: i <= k < j ==> IsBlank(s[k], w)
    ensures j < |s| ==> !IsBlank(s[j], w)
    decreases |s| - i
  {
    if i < |s| && IsBlank(s[i], w) then SkipSpace(s, i + 1, w) else i
  }

  /** The end of `s[lo..j]` once its trailing white space is gone: where `rstrip()` cuts. */
  function SkipSpaceBack(s: string, lo: nat, j: nat, w: Blanks): (e: nat)
    requires lo <= j <= |s|
    ensures lo <= e <= j
    ensures forall k :: e <= k < j ==> IsBlank(s[k], w)
    ensures lo < e ==> !IsBlank(s[e - 1], w)
    decreases j - lo
  {
    if lo < j && IsBlank(s[j - 1], w) then SkipSpaceBack(s, lo, j - 1, w) else j
  }

  /** The text between the leading and the trailing white space of kind `w`. */
  function Trim(s: string, w: Blanks): (r: string)
    ensures |r| <= |s|
    ensures r != [] ==> !IsBlank(r[0], w) && !IsBlank(r[|r| - 1], w)
  {
    var i := SkipSpace(s, 0, w);
    s[i..SkipSpaceBack(s, i, |s|, w)]
  }

  /** `s.strip()`: the text without the white space around it. */
  function Strip(s: string): (r: string)
    ensures |r| <= |s|
    ensures r != [] ==> !IsSpace(r[0]) && !IsSpace(r[|r| - 1])
  {
    Trim(s, StripBlanks)
  }

  /**
   * Trimming removes exactly the white space around the text: whenever `s`
   * is white space up to `i` and from `j` on, and `s[i..j]` neither starts
   * nor ends with white space, the trimmed text is `s[i..j]`.
   */
  lemma TrimIsTrimmedSlice(s: string, w: Blanks, i: nat, j: nat)
    requires i <= j <= |s|
    requires forall k :: 0 <= k < i ==> IsBlank(s[k], w)
    requires forall k :: j <= k < |s| ==> IsBlank(s[k], w)
    requires i < j ==> !IsBlank(s[i], w) && !IsBlank(s[j - 1], w)
    ensures Trim(s, w) == s[i..j]
  {
    var l := SkipSpace(s, 0, w);
    var e := SkipSpaceBack(s, l, |s|, w);
    if i < j {
      assert l == i;
      assert e == j;
    } else {
      assert l == |s| && e == |s|;
    }
  }

  /** A text made only of white space strips to the empty text. */
  lemma StripAllSpace(s: string)
    requires forall k :: 0 <= k < |s| ==> IsSpace(s[k])
    ensures Strip(s) == []
  {
    TrimIsTrimmedSlice(s, StripBlanks, 0, 0);
  }

  /** Stripping twice changes nothing more. */
  lemma StripIdempotent(s: string)
    ensures Strip(Strip(s)) == Strip(s)
  {
    var t := Strip(s);
    TrimIsTrimmedSlice(t, StripBlanks, 0, |t|);
  }

  /** After `strip()`, `int()` finds no white space of its own to skip. */
  lemma IntTrimOfStripped(s: string)
    ensures Trim(Strip(s), IntBlanks) == Strip(s)
  {
    var t := Strip(s);
    TrimIsTrimmedSlice(t, IntBlanks, 0, |t|);
  }

  /** `int()` keeps a leading U+001C that `strip()` removes. */
  lemma SeparatorExample()
    ensures Strip("\U{1C}3") == "3"
    ensures Trim("\U{1C}3", IntBlanks) == "\U{1C}3"
  {
    TrimIsTrimmedSlice("\U{1C}3", StripBlanks, 1, 2);
    TrimIsTrimmedSlice("\U{1C}3", IntBlanks, 0, 2);
  }

  // ---------------------------------------------------------------------------
  // str.split(sep) and its inverse, sep.join(parts)
  // ---------------------------------------------------------------------------

  /**
   * `s.split(sep)` for a one-character `sep`: the pieces between separators,
   * never an empty list (`"".split("&") == [""]`).
   */
  function Split(s: string, sep: char): (parts: seq<string>)
    ensures |parts| >= 1
    decreases |s|
  {
    if |s| == 0 then [""]
    else
      var rest := Split(s[1..], sep);
      if s[0] == sep then [""] + rest
      else [[s[0]] + rest[0]] + rest[1..]
  }

  /** `sep.join(parts)` */
  function Join(parts: seq<string>, sep: char): string
    requires |parts| >= 1
    decreases |parts|
  {
    if |parts| == 1 then parts[0] else parts[0] + [sep] + Join(parts[1..], sep)
  }

  /** The number of occurrences of `c` in `s`. */
  function Count(s: string, c: char): nat
    decreases |s|
  {
    if s == [] then 0 else (if s[0] == c then 1 else 0) + Count(s[1..], c)
  }

  /** Joining the pieces back with the separator gives the original text. */
  lemma {:induction false} JoinSplit(s: string, sep: char)
    ensures Join(Split(s, sep), sep) == s
    decreases |s|
  {
    if |s| > 0 {
      var rest := Split(s[1..], sep);
      JoinSplit(s[1..], sep);
      if s[0] == sep {
        assert Split(s, sep)[1..] == rest;
      } else if |rest| == 1 {
        assert Split(s, sep) == [[s[0]] + rest[0]];
      } else {
        var parts := Split(s, sep);
        assert parts[1..] == rest[1..];
        assert Join(rest, sep) == rest[0] + [sep] + Join(rest[1..], sep);
        assert Join(parts, sep) == [s[0]] + Join(rest, sep);
      }
    }
  }

  /** No piece contains the separator. */
  lemma {:induction false} SplitPiecesFree(s: string, sep: char)
    ensures forall i :: 0 <= i < |Split(s, sep)| ==> sep !in Split(s, sep)[i]
    decreases |s|
  {
    if |s| > 0 {
      SplitPiecesFree(s[1..], sep);
      var rest := Split(s[1..], sep);
      if s[0] != sep {
        var parts := Split(s, sep);
        forall i | 0 <= i < |parts| ensures sep !in parts[i] {
          if i > 0 {
            assert parts[i] == rest[i];
          }
        }
      }
    }
  }

  /** There is one piece more than there are separators. */
  lemma {:induction false} SplitCount(s: string, sep: char)
    ensures |Split(s, sep)| == Count(s, sep) + 1
    decreases |s|
  {
    if |s| > 0 {
      SplitCount(s[1..], sep);
    }
  }

  /** A text without the separator is a single piece. */
  lemma {:induction false} SplitFree(p: string, sep: char)
    requires sep !in p
    ensures Split(p, sep) == [p]
    decreases |p|
  {
    if |p| > 0 {
      assert sep !in p[1..] by {
        forall k | 0 <= k < |p[1..]| ensures p[1..][k] != sep {
          assert p[1..][k] == p[k + 1];
        }
      }
      SplitFree(p[1..], sep);
      assert [p[0]] + p[1..] == p;
    }
  }

  /** A separator-free prefix followed by the separator is split off as the first piece. */
  lemma {:induction false} SplitPrefix(p: string, sep: char, t: string)
    requires sep !in p
    ensures Split(p + [sep] + t, sep) == [p] + Split(t, sep)
    decreases |p|
  {
    var s := p + [sep] + t;
    if |p| == 0 {
      assert s[1..] == t;
    } else {
      assert s[0] == p[0];
      assert s[1..] == p[1..] + [sep] + t;
      assert sep !in p[1..] by {
        forall k | 0 <= k < |p[1..]| ensures p[1..][k] != sep {
          assert p[1..][k] == p[k + 1];
        }
      }
      SplitPrefix(p[1..], sep, t);
      assert [p[0]] + p[1..] == p;
    }
  }

  /** Splitting a join of separator-free pieces gives the pieces back. */
  lemma {:induction false} SplitJoin(parts: seq<string>, sep: char)
    requires |parts| >= 1
    requires forall i :: 0 <= i < |parts| ==> sep !in parts[i]
    ensures Split(Join(parts, sep), sep) == parts
    decreases |parts|
  {
    if |parts| == 1 {
      SplitFree(parts[0], sep);
    } else {
      SplitJoin(parts[1..], sep);
      SplitPrefix(parts[0], sep, Join(parts[1..], sep));
      assert [parts[0]] + parts[1..] == parts;
    }
  }

  // ---------------------------------------------------------------------------
  // `sub in s` and `s[1:]`
  // ---------------------------------------------------------------------------

  /** `sub` occurs in `s` starting at index `i`. */
  predicate OccursAt(s: string, sub: string, i: nat)
  {
    i + |sub| <= |s| && s[i..i + |sub|] == sub
  }

  /** Python's substring test `sub in s`, scanning from the left. */
  predicate Contains(s: string, sub: string): (b: bool)
    ensures sub == [] ==> b
    ensures b ==> |sub| <= |s|
    decreases |s|
  {
    OccursAt(s, sub, 0) || (|s| > 0 && Contains(s[1..], sub))
  }

  /** The scan finds `sub` exactly when it occurs at some index. */
  lemma {:induction false} ContainsIff(s: string, sub: string)
    ensures Contains(s, sub) <==> exists i: nat :: OccursAt(s, sub, i)
    decreases |s|
  {
    if |s| > 0 {
      ContainsIff(s[1..], sub);
      if Contains(s[1..], sub) {
        var i: nat :| OccursAt(s[1..], sub, i);
        assert s[1..][i..i + |sub|] == s[i + 1..i + 1 + |sub|];
        assert OccursAt(s, sub, i + 1);
      }
      if i: nat :| OccursAt(s, sub, i) && i > 0 {
        assert s[1..][i - 1..i - 1 + |sub|] == s[i..i + |sub|];
        assert OccursAt(s[1..], sub, i - 1);
      }
    }
  }

  /** `sub` is not in `s` when its first character does not occur where `sub` could start. */
  lemma NotContainsHead(s: string, sub: string)
    requires 0 < |sub| <= |s| && sub[0] !in s[..|s| - |sub| + 1]
    ensures !Contains(s, sub)
  {
    ContainsIff(s, sub);
    forall i: nat ensures !OccursAt(s, sub, i) {
      if i + |sub| <= |s| {
        assert s[..|s| - |sub| + 1][i] == s[i];
        assert s[i..i + |sub|][0] == s[i];
      }
    }
  }

  /** `s[1:]`: everything after the first character (empty stays empty). */
  function Drop1(s: string): (r: string)
    ensures |s| > 0 ==> [s[0]] + r == s
    ensures |s| == 0 ==> r == []
  {
    if |s| == 0 then s else s[1..]
  }

  // ---------------------------------------------------------------------------
  // int(s) and str(n)
  // ---------------------------------------------------------------------------

  predicate IsDigit(c: char)
  {
    '0' <= c <= '9'
  }

  function DigitValue(c: char): nat
    requires IsDigit(c)
  {
    (c as int) - ('0' as int)
  }

  function DigitChar(d: nat): (c: char)
    requires d < 10
    ensures IsDigit(c) && DigitValue(c) == d
  {
    (('0' as int) + d) as char
  }

  /** Only digits and underscores. */
  predicate DigitsOrUnderscores(d: string)
  {
    forall i :: 0 <= i < |d| ==> IsDigit(d[i]) || d[i] == '_'
  }

  /**
   * The digit part `int()` accepts in base 10: ASCII digits, where an
   * underscore may stand only alone between two digits (`1_000`).
   */
  predicate IsDigitString(d: string)
  {
    && |d| > 0 && IsDigit(d[0]) && IsDigit(d[|d| - 1])
    && DigitsOrUnderscores(d)
    && (forall i :: 0 <= i < |d| - 1 ==> !(d[i] == '_' && d[i + 1] == '_'))
  }

  lemma DigitsPrefix(d: string)
    requires |d| > 0 && DigitsOrUnderscores(d)
    ensures DigitsOrUnderscores(d[..|d| - 1])
  {
    var p := d[..|d| - 1];
    forall i | 0 <= i < |p| ensures IsDigit(p[i]) || p[i] == '_' {
      assert p[i] == d[i];
    }
  }

  /** The decimal value of a digit string, underscores ignored. */
  function DigitsValue(d: string): nat
    requires DigitsOrUnderscores(d)
    decreases |d|
  {
    if d == [] then 0
    else
      var last := d[|d| - 1];
      DigitsPrefix(d);
      if last == '_' then DigitsValue(d[..|d| - 1])
      else 10 * DigitsValue(d[..|d| - 1]) + DigitValue(last)
  }

  /**
   * `int(s)` for a text `s`, as a Python from 3.6 on without the digit limit
   * of `int()` reads it: the white space `int()` skips is ignored around an
   * optional sign and a digit string; `None` stands for the `ValueError`.
   */
  function ParseInt(s: string): (r: Option<int>)
    ensures Trim(s, IntBlanks) == [] ==> r.None?
    ensures r.Some? && r.value < 0 ==> Trim(s, IntBlanks)[0] == '-'
  {
    var t := Trim(s, IntBlanks);
    if |t| > 0 && (t[0] == '+' || t[0] == '-') then
      var d := t[1..];
      if IsDigitString(d) then
        var n: int := DigitsValue(d);
        var v := if t[0] == '-' then 0 - n else n;
        Some(v)
      else None
    else if IsDigitString(t) then Some(DigitsValue(t))
    else None
  }

  /** `int("\x1c3")` raises, although `int("\x1c3".strip())` is 3. */
  lemma SeparatorIsNoNumber()
    ensures ParseInt("\U{1C}3") == None
    ensures ParseInt(Strip("\U{1C}3")) == Some(3)
  {
    SeparatorExample();
    assert "3"[0] == '3';
    assert DigitsValue("3") == 10 * DigitsValue("") + 3;
  }

  /** A minus sign in front of one digit gives the negative number. */
  lemma NegativeDigit(d: char)
    requires IsDigit(d)
    ensures ParseInt(['-', d]) == Some(0 - DigitValue(d))
  {
    var t := ['-', d];
    TrimIsTrimmedSlice(t, IntBlanks, 0, 2);
    assert t[0..2] == t && t[1..] == [d];
    assert DigitsValue([d]) == 10 * DigitsValue([d][..0]) + DigitValue(d);
  }

  /** `str(n)` for a non-negative integer: its decimal digits. */
  function Show(n: nat): (r: string)
    ensures |r| > 0
    ensures forall i :: 0 <= i < |r| ==> IsDigit(r[i])
  {
    if n < 10 then [DigitChar(n)] else Show(n / 10) + [DigitChar(n % 10)]
  }

  /** The digits `str` writes denote the number. */
  lemma {:induction false} ShowValue(n: nat)
    ensures DigitsOrUnderscores(Show(n)) && DigitsValue(Show(n)) == n
  {
    var r := Show(n);
    if n >= 10 {
      ShowValue(n / 10);
      assert r[..|r| - 1] == Show(n / 10);
    }
  }

  /** `int(str(n)) == n`: the decimal text round-trips. */
  lemma ParseShow(n: nat)
    ensures ParseInt(Show(n)) == Some(n)
  {
    var r := Show(n);
    assert IsDigit(r[0]) && IsDigit(r[|r| - 1]);
    TrimIsTrimmedSlice(r, IntBlanks, 0, |r|);
    assert r[0..|r|] == r;
    assert r[0] != '+' && r[0] != '-';
    assert IsDigitString(r);
    ShowValue(n);
  }
}
