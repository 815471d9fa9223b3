/**
 * The string operations the drivers apply to identity strings and replies, with the
 * meaning Python gives them on ASCII text: `str.split(sep)` with a one-character
 * separator, `str.lower()`, the `in` test on strings, `str(n)` and `str.zfill(w)` on
 * integers, `s[:-1]`, list indexing and the first match of the regular expression `\d+`.
 */
module Text {
  import opened Wrappers

  // ---------------------------------------------------------------- split / join

  /** Python `s.split(sep)`: never drops empty fields, and `"".split(sep) == [""]`. */
  function Split(s: string, sep: char): (parts: seq<string>)
    ensures |parts| >= 1
  {
    SplitFrom(s, sep, 0)
  }

  /** The fields of `s[i..]`, walking `s` by index so that literal identities can be evaluated. */
  function SplitFrom(s: string, sep: char, i: nat): (parts: seq<string>)
    requires i <= |s|
    ensures |parts| >= 1
    decreases |s| - i
  {
    if i == |s| then [""]
    else
      var rest := SplitFrom(s, sep, i + 1);
      if s[i] == sep then [""] + rest
      else [[s[i]] + rest[0]] + rest[1..]
  }

  /** Walking from index `i` splits the suffix that starts there. */
  lemma {:induction false} SplitFromSuffix(s: string, sep: char, i: nat)
    requires i <= |s|
    ensures SplitFrom(s, sep, i) == Split(s[i..], sep)
    decreases |s| - i
  {
    if i < |s| {
      SplitFromSuffix(s, sep, i + 1);
      SplitFromSuffix(s[i..], sep, 1);
      assert s[i..][1..] == s[i + 1..];
    }
  }

  /** `Split` peels off the first character: it starts a new field or extends the first one. */
  lemma SplitCons(s: string, sep: char)
    requires |s| > 0
    ensures Split(s, sep) ==
      (var rest := Split(s[1..], sep);
       if s[0] == sep then [""] + rest else [[s[0]] + rest[0]] + rest[1..])
  {
    SplitFromSuffix(s, sep, 1);
  }

  /** Python `sep.join(parts)`, the inverse of `Split`. */
  function Join(parts: seq<string>, sep: char): string
    requires |parts| >= 1
  {
    if |parts| == 1 then parts[0] else parts[0] + [sep] + Join(parts[1..], sep)
  }

  /** No field produced by `Split` contains the separator. */
  lemma {:induction false} SplitFieldsFree(s: string, sep: char)
    ensures forall k :: 0 <= k < |Split(s, sep)| ==> sep !in Split(s, sep)[k]
    decreases |s|
  {
    if |s| > 0 {
      SplitCons(s, sep);
      SplitFieldsFree(s[1..], sep);
      var rest := Split(s[1..], sep);
      if s[0] != sep {
        assert Split(s, sep)[0] == [s[0]] + rest[0];
        forall k | 1 <= k < |Split(s, sep)| ensures sep !in Split(s, sep)[k] {
          assert Split(s, sep)[k] == rest[k];
        }
      }
    }
  }

  /** Joining the fields back with the separator gives the original string. */
  lemma {:induction false} JoinSplit(s: string, sep: char)
    ensures Join(Split(s, sep), sep) == s
    decreases |s|
  {
    if |s| > 0 {
      SplitCons(s, sep);
      JoinSplit(s[1..], sep);
      var rest := Split(s[1..], sep);
      if s[0] == sep {
        assert Split(s, sep)[1..] == rest;
      } else {
        var parts := Split(s, sep);
        if |rest| == 1 {
          assert parts == [[s[0]] + rest[0]];
        } else {
          assert parts[1..] == rest[1..];
          assert Join(rest, sep) == rest[0] + [sep] + Join(rest[1..], sep);
        }
      }
    }
  }

  /** Splitting a join of separator-free fields gives the fields back. */
  lemma {:induction false} SplitJoin(parts: seq<string>, sep: char)
    requires |parts| >= 1
    requires forall k :: 0 <= k < |parts| ==> sep !in parts[k]
    ensures Split(Join(parts, sep), sep) == parts
    decreases |parts|, |parts[0]|
  {
    var p := parts[0];
    if |p| > 0 {
      var parts' := [p[1..]] + parts[1..];
      assert Join(parts, sep) == [p[0]] + Join(parts', sep) by {
        if |parts| == 1 {
        } else {
          assert Join(parts', sep) == p[1..] + [sep] + Join(parts'[1..], sep);
          assert parts'[1..] == parts[1..];
        }
      }
      SplitJoin(parts', sep);
      SplitCons(Join(parts, sep), sep);
      assert p[0] != sep by { assert p[0] in p; }
      assert [p[0]] + p[1..] == p;
      assert Join(parts, sep)[1..] == Join(parts', sep);
    } else if |parts| > 1 {
      SplitJoin(parts[1..], sep);
      assert Join(parts, sep) == [sep] + Join(parts[1..], sep);
      SplitCons(Join(parts, sep), sep);
      assert Join(parts, sep)[1..] == Join(parts[1..], sep);
      assert [""] + parts[1..] == parts;
    }
  }

  /** The string splits into more than one field exactly when it holds the separator. */
  lemma {:induction false} SplitSingle(s: string, sep: char)
    ensures |Split(s, sep)| == 1 <==> sep !in s
    decreases |s|
  {
    if |s| > 0 {
      SplitCons(s, sep);
      SplitSingle(s[1..], sep);
      assert sep in s <==> s[0] == sep || sep in s[1..] by {
        assert s == [s[0]] + s[1..];
      }
    }
  }

  /** A string without the separator is a single field. */
  lemma SplitWhole(s: string, sep: char)
    requires sep !in s
    ensures Split(s, sep) == [s]
  {
    SplitSingle(s, sep);
    JoinSplit(s, sep);
  }

  /** A separator-free first field is split off, and the rest splits on its own. */
  lemma SplitHead(head: string, rest: string, sep: char)
    requires sep !in head
    ensures Split(head + [sep] + rest, sep) == [head] + Split(rest, sep)
  {
    var parts := Split(rest, sep);
    JoinSplit(rest, sep);
    SplitFieldsFree(rest, sep);
    var all := [head] + parts;
    assert all[1..] == parts;
    assert Join(all, sep) == head + [sep] + rest;
    SplitJoin(all, sep);
  }

  /** Four separator-free fields joined by the separator split back into those four fields. */
  lemma SplitFour(a: string, b: string, c: string, d: string, sep: char)
    requires sep !in a && sep !in b && sep !in c && sep !in d
    ensures Split(a + [sep] + b + [sep] + c + [sep] + d, sep) == [a, b, c, d]
  {
    assert a + [sep] + b + [sep] + c + [sep] + d == a + [sep] + (b + [sep] + c + [sep] + d);
    SplitHead(a, b + [sep] + c + [sep] + d, sep);
    assert b + [sep] + c + [sep] + d == b + [sep] + (c + [sep] + d);
    SplitHead(b, c + [sep] + d, sep);
    SplitHead(c, d, sep);
    SplitWhole(d, sep);
  }

  /** Five separator-free parts joined by the separator split back into those parts. */
  lemma SplitFive(a: string, b: string, c: string, d: string, e: string, sep: char)
    requires sep !in a && sep !in b && sep !in c && sep !in d && sep !in e
    ensures Split(a + [sep] + b + [sep] + c + [sep] + d + [sep] + e, sep) == [a, b, c, d, e]
  {
    assert a + [sep] + b + [sep] + c + [sep] + d + [sep] + e
      == a + [sep] + (b + [sep] + c + [sep] + d + [sep] + e);
    SplitHead(a, b + [sep] + c + [sep] + d + [sep] + e, sep);
    SplitFour(b, c, d, e, sep);
  }

  // ---------------------------------------------------------------- lower case

  function LowerChar(c: char): char
  {
    if 'A' <= c <= 'Z' then (c as int + 32) as char else c
  }

  /** Python `s.lower()` on ASCII text. */
  function Lower(s: string): (r: string)
    ensures |r| == |s|
    ensures forall i :: 0 <= i < |s| ==> r[i] == LowerChar(s[i])
    ensures forall i :: 0 <= i < |r| ==> !('A' <= r[i] <= 'Z')
  {
    seq(|s|, i requires 0 <= i < |s| => LowerChar(s[i]))
  }

  /** Lower-casing twice is lower-casing once. */
  lemma LowerIdempotent(s: string)
    ensures Lower(Lower(s)) == Lower(s)
  {
  }

  /** A character that is not a letter is left alone by `lower()`. */
  predicate NotLetter(c: char)
  {
    !('A' <= c <= 'Z') && !('a' <= c <= 'z')
  }

  /**
   * Lower-casing commutes with splitting on a separator that is not a letter: the fields of
   * the lower-cased string are the lower-cased fields.
   */
  lemma {:induction false} SplitLower(s: string, sep: char)
    requires NotLetter(sep)
    ensures |Split(Lower(s), sep)| == |Split(s, sep)|
    ensures forall k :: 0 <= k < |Split(s, sep)| ==> Split(Lower(s), sep)[k] == Lower(Split(s, sep)[k])
    decreases |s|
  {
    if |s| > 0 {
      var l := Lower(s);
      SplitCons(s, sep);
      SplitCons(l, sep);
      assert l[1..] == Lower(s[1..]);
      SplitLower(s[1..], sep);
      var rest := Split(s[1..], sep);
      var lrest := Split(l[1..], sep);
      assert l[0] == sep <==> s[0] == sep;
      if s[0] != sep {
        assert [l[0]] + lrest[0] == Lower([s[0]] + rest[0]);
        forall k | 1 <= k < |Split(s, sep)|
          ensures Split(l, sep)[k] == Lower(Split(s, sep)[k])
        {
          assert Split(l, sep)[k] == lrest[k];
          assert Split(s, sep)[k] == rest[k];
        }
      } else {
        forall k | 1 <= k < |Split(s, sep)|
          ensures Split(l, sep)[k] == Lower(Split(s, sep)[k])
        {
          assert Split(l, sep)[k] == lrest[k - 1];
          assert Split(s, sep)[k] == rest[k - 1];
        }
      }
    }
  }

  // ---------------------------------------------------------------- substrings

  /** Python `sub in s` for strings. */
  predicate Contains(s: string, sub: string)
    decreases |s|
  {
    sub <= s || (|s| > 0 && Contains(s[1..], sub))
  }

  /** `sub` occurs in `s` at offset `i`. */
  predicate OccursAt(s: string, sub: string, i: int)
  {
    0 <= i && i + |sub| <= |s| && s[i..i + |sub|] == sub
  }

  /** `Contains` holds exactly when `sub` occurs at some offset of `s`. */
  lemma ContainsAt(s: string, sub: string)
    ensures Contains(s, sub) <==> exists i :: OccursAt(s, sub, i)
  {
    if Contains(s, sub) {
      var i := ContainsOffset(s, sub);
    }
    if exists i :: OccursAt(s, sub, i) {
      var i :| OccursAt(s, sub, i);
      OccursContains(s, sub, i);
    }
  }

  /** An offset at which `sub` occurs, when `Contains` holds. */
  lemma {:induction false} ContainsOffset(s: string, sub: string) returns (i: int)
    requires Contains(s, sub)
    ensures OccursAt(s, sub, i)
    decreases |s|
  {
    if sub <= s {
      i := 0;
    } else {
      var j := ContainsOffset(s[1..], sub);
      assert s[j + 1..j + 1 + |sub|] == s[1..][j..j + |sub|];
      i := j + 1;
    }
  }

  /** An occurrence at offset `i` makes `Contains` hold. */
  lemma {:induction false} OccursContains(s: string, sub: string, i: int)
    requires OccursAt(s, sub, i)
    ensures Contains(s, sub)
    decreases i
  {
    if i > 0 {
      assert s[1..][i - 1..i - 1 + |sub|] == s[i..i + |sub|];
      OccursContains(s[1..], sub, i - 1);
    } else {
      assert s[..|sub|] == sub;
    }
  }

  // ---------------------------------------------------------------- decimal numbers

  predicate IsDigit(c: char) { '0' <= c <= '9' }

  predicate AllDigits(s: string) { forall i :: 0 <= i < |s| ==> IsDigit(s[i]) }

  function DigitChar(d: nat): (c: char)
    requires d < 10
    ensures IsDigit(c) && c as int - '0' as int == d
  {
    ('0' as int + d) as char
  }

  /** Python `str(n)` for a non-negative integer. */
  function NatToString(n: nat): (s: string)
    ensures |s| >= 1 && AllDigits(s)
  {
    if n < 10 then [DigitChar(n)] else NatToString(n / 10) + [DigitChar(n % 10)]
  }

  /** Python `str(i)` for an integer. */
  function IntToString(i: int): (s: string)
    ensures |s| >= 1
    ensures s[0] == '-' <==> i < 0
  {
    if i < 0 then "-" + NatToString(-i) else NatToString(i)
  }

  /** The value of a string of decimal digits (Python `int(s)` on such a string). */
  function DigitsValue(s: string): nat
    requires AllDigits(s)
  {
    if |s| == 0 then 0 else 10 * DigitsValue(s[..|s| - 1]) + (s[|s| - 1] as int - '0' as int)
  }

  /** `str` and `int` are inverse on natural numbers. */
  lemma {:induction false} DigitsValueOfNatToString(n: nat)
    ensures DigitsValue(NatToString(n)) == n
  {
    if n >= 10 {
      var s := NatToString(n);
      assert s[..|s| - 1] == NatToString(n / 10);
      DigitsValueOfNatToString(n / 10);
    }
  }

  /** Python `s.zfill(width)`: pad with '0' after an optional sign up to `width` characters. */
  function ZFill(s: string, width: nat): (r: string)
    ensures |r| == if |s| >= width then |s| else width
  {
    if |s| >= width then s
    else if |s| > 0 && (s[0] == '-' || s[0] == '+') then [s[0]] + Zeros(width - |s|) + s[1..]
    else Zeros(width - |s|) + s
  }

  function Zeros(n: nat): (r: string)
    ensures |r| == n && forall i :: 0 <= i < n ==> r[i] == '0'
  {
    if n == 0 then "" else "0" + Zeros(n - 1)
  }

  /** The slot prefix: `str(n).zfill(2)`. */
  function TwoDigits(n: int): string
  {
    ZFill(IntToString(n), 2)
  }

  /** For slots 0..99 the padded text is exactly two digits that read back as the slot. */
  lemma TwoDigitsRoundTrip(n: int)
    requires 0 <= n < 100
    ensures |TwoDigits(n)| == 2 && AllDigits(TwoDigits(n))
    ensures DigitsValue(TwoDigits(n)) == n
  {
    var s := NatToString(n);
    if n < 10 {
      assert s == [DigitChar(n)];
      assert TwoDigits(n) == "0" + s;
      assert ("0" + s)[..1] == "0";
      assert DigitsValue("0") == 0 by { assert "0"[..0] == ""; }
    } else {
      assert NatToString(n / 10) == [DigitChar(n / 10)];
      assert s == [DigitChar(n / 10)] + [DigitChar(n % 10)];
      assert s[..1] == [DigitChar(n / 10)];
      assert DigitsValue(s[..1]) == n / 10 by { assert s[..1][..0] == ""; }
    }
  }

  // ---------------------------------------------------------------- slicing and indexing

  /** Python `s[:-1]`: everything but the last character ("" stays ""). */
  function DropLast(s: string): (r: string)
    ensures |s| > 0 ==> r + [s[|s| - 1]] == s
    ensures |s| == 0 ==> r == ""
  {
    if |s| == 0 then "" else s[..|s| - 1]
  }

  /** Python `xs[1:]`: everything but the first element ([] stays []). */
  function DropFirst<T>(xs: seq<T>): (r: seq<T>)
    ensures |r| == if |xs| == 0 then 0 else |xs| - 1
    ensures forall i :: 0 <= i < |r| ==> r[i] == xs[i + 1]
  {
    if |xs| == 0 then [] else xs[1..]
  }

  /** Python `xs[i]` on a list: negative indices count from the end; out of range is None. */
  function At<T>(xs: seq<T>, i: int): (r: Option<T>)
    ensures r.Some? <==> -|xs| <= i < |xs|
    ensures 0 <= i < |xs| ==> r == Some(xs[i])
    ensures -|xs| <= i < 0 ==> r == Some(xs[|xs| + i])
  {
    if 0 <= i < |xs| then Some(xs[i])
    else if -|xs| <= i < 0 then Some(xs[|xs| + i])
    else None
  }

  // ---------------------------------------------------------------- regular expression \d+

  /** The longest prefix of `s` made of digits. */
  function LeadingDigits(s: string): (r: string)
    ensures r <= s && AllDigits(r)
    ensures |r| < |s| ==> !IsDigit(s[|r|])
  {
    if |s| > 0 && IsDigit(s[0]) then [s[0]] + LeadingDigits(s[1..]) else ""
  }

  /** The index of the first digit of `s`, if any. */
  function FirstDigitIndex(s: string): (r: Option<nat>)
    ensures r.Some? ==> r.value < |s| && IsDigit(s[r.value])
    ensures r.Some? ==> forall j :: 0 <= j < r.value ==> !IsDigit(s[j])
    ensures r.None? ==> forall j :: 0 <= j < |s| ==> !IsDigit(s[j])
  {
    if |s| == 0 then None
    else if IsDigit(s[0]) then Some(0)
    else
      match FirstDigitIndex(s[1..])
      case None => None
      case Some(k) => Some(k + 1)
  }

  /**
   * `re.findall("\d+", s)[0]`: the first maximal run of digits; None (an IndexError in
   * Python) when `s` holds no digit.
   */
  function FirstDigitRun(s: string): (r: Option<string>)
    ensures r.None? <==> forall j :: 0 <= j < |s| ==> !IsDigit(s[j])
    ensures r.Some? ==> FirstDigitIndex(s).Some? && |r.value| >= 1 && AllDigits(r.value)
    ensures r.Some? ==> r.value <= s[FirstDigitIndex(s).value..]
    ensures r.Some? ==> var e := FirstDigitIndex(s).value + |r.value|; e < |s| ==> !IsDigit(s[e])
  {
    match FirstDigitIndex(s)
    case None => None
    case Some(i) => Some(LeadingDigits(s[i..]))
  }
}
