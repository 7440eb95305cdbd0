/** String helpers for the Python string operations the core relies on:
    `str.lower`, `in` on strings, `str.replace`, `str.split`, `str(int)` and `int(str)`.
    Characters are compared by code point, as Python does. */
module Text {
  import opened Wrappers

  /** Python truthiness of an optional text value: present and non-empty. */
  predicate Truthy(o: Option<string>) {
    o.Some? && o.value != ""
  }

  // ---------------------------------------------------------------------------
  // Case folding (ASCII letters only)
  // ---------------------------------------------------------------------------

  function LowerChar(c: char): char {
    if 'A' <= c <= 'Z' then (c as int + 32) as char else c
  }

  /** `s.lower()` restricted to ASCII upper-case letters. */
  function Lower(s: string): (r: string)
    ensures |r| == |s|
    ensures forall i :: 0 <= i < |s| ==> r[i] == LowerChar(s[i])
  {
    if s == [] then [] else [LowerChar(s[0])] + Lower(s[1..])
  }

  lemma {:induction false} LowerIdempotent(s: string)
    ensures Lower(Lower(s)) == Lower(s)
  {
    var l := Lower(s);
    assert Lower(l) == l by {
      forall i | 0 <= i < |l| ensures Lower(l)[i] == l[i] {
        assert LowerChar(LowerChar(s[i])) == LowerChar(s[i]);
      }
    }
  }

  /** Lower-casing works character by character, so it distributes over `+`. */
  lemma LowerAppend(a: string, b: string)
    ensures Lower(a + b) == Lower(a) + Lower(b)
  {
    var l, r := Lower(a + b), Lower(a) + Lower(b);
    forall i | 0 <= i < |l| ensures l[i] == r[i] {
      if i < |a| {
        assert (a + b)[i] == a[i];
      } else {
        assert (a + b)[i] == b[i - |a|];
      }
    }
  }

  // ---------------------------------------------------------------------------
  // Substrings
  // ---------------------------------------------------------------------------

  predicate StartsWith(s: string, prefix: string) {
    |prefix| <= |s| && s[..|prefix|] == prefix
  }

  /** Python's `sub in s`. */
  function Contains(s: string, sub: string): bool
    decreases |s|
  {
    StartsWith(s, sub) || (s != [] && Contains(s[1..], sub))
  }

  /** `sub` occurs in `s` starting at position `i`. */
  predicate OccursAt(s: string, sub: string, i: int) {
    0 <= i <= |s| - |sub| && s[i..i + |sub|] == sub
  }

  /** `Contains` holds exactly when `sub` occurs at some position of `s`. */
  lemma {:induction false} ContainsIffOccurs(s: string, sub: string)
    ensures Contains(s, sub) <==> exists i :: OccursAt(s, sub, i)
    decreases |s|
  {
    if s != [] {
      ContainsIffOccurs(s[1..], sub);
      if Contains(s[1..], sub) {
        var i :| OccursAt(s[1..], sub, i);
        assert s[i + 1..i + 1 + |sub|] == s[1..][i..i + |sub|];
        assert OccursAt(s, sub, i + 1);
      }
      if StartsWith(s, sub) {
        assert OccursAt(s, sub, 0);
      }
      if exists i :: OccursAt(s, sub, i) {
        var i :| OccursAt(s, sub, i);
        if i > 0 {
          assert s[1..][i - 1..i - 1 + |sub|] == s[i..i + |sub|];
          assert OccursAt(s[1..], sub, i - 1);
        } else {
          assert s[..|sub|] == s[i..i + |sub|];
        }
      }
    } else {
      if exists i :: OccursAt(s, sub, i) {
        var i :| OccursAt(s, sub, i);
        assert i == 0 && sub == [];
      }
      if Contains(s, sub) {
        assert OccursAt(s, sub, 0);
      }
    }
  }

  /** A string that occurs in a piece of `s` occurs in `s`. */
  lemma {:induction false} ContainsInfix(a: string, b: string, c: string, sub: string)
    requires Contains(b, sub)
    ensures Contains(a + b + c, sub)
  {
    ContainsIffOccurs(b, sub);
    var i :| OccursAt(b, sub, i);
    var s := a + b + c;
    assert s[|a| + i..|a| + i + |sub|] == b[i..i + |sub|];
    assert OccursAt(s, sub, |a| + i);
    ContainsIffOccurs(s, sub);
  }

  // ---------------------------------------------------------------------------
  // Replacement, splitting and joining
  // ---------------------------------------------------------------------------

  /** `s.replace(from, to)` for single characters. */
  function ReplaceChar(s: string, from: char, to: char): (r: string)
    ensures |r| == |s|
    ensures forall i :: 0 <= i < |s| ==> r[i] == if s[i] == from then to else s[i]
  {
    if s == [] then [] else [if s[0] == from then to else s[0]] + ReplaceChar(s[1..], from, to)
  }

  /** `s.split(sep)` for a one-character separator: the pieces between separators. */
  function Split(s: string, sep: char): (pieces: seq<string>)
    ensures |pieces| >= 1
  {
    if s == [] then [""]
    else
      var rest := Split(s[1..], sep);
      if s[0] == sep then [""] + rest else [[s[0]] + rest[0]] + rest[1..]
  }

  /** `sep.join(pieces)`. */
  function Join(pieces: seq<string>, sep: char): string
    requires |pieces| >= 1
  {
    if |pieces| == 1 then pieces[0] else pieces[0] + [sep] + Join(pieces[1..], sep)
  }

  /** Splitting loses nothing: joining the pieces gives the string back, and no
      piece contains the separator. */
  lemma {:induction false} SplitJoin(s: string, sep: char)
    ensures Join(Split(s, sep), sep) == s
    ensures forall p :: p in Split(s, sep) ==> sep !in p
  {
    if s != [] {
      var rest := Split(s[1..], sep);
      SplitJoin(s[1..], sep);
      if s[0] == sep {
        assert Split(s, sep) == [""] + rest;
        assert ([""] + rest)[1..] == rest;
      } else {
        var ps := Split(s, sep);
        assert ps == [[s[0]] + rest[0]] + rest[1..];
        if |rest| > 1 {
          assert ps[1..] == rest[1..];
          assert Join(rest, sep) == rest[0] + [sep] + Join(rest[1..], sep);
        }
        assert s == [s[0]] + s[1..];
        forall p | p in ps ensures sep !in p {
          if p == ps[0] { assert rest[0] in rest; }
          else { assert p in rest[1..]; }
        }
      }
    }
  }

  /** The number of pieces is one more than the number of separators. */
  function Count(s: string, c: char): nat {
    if s == [] then 0 else (if s[0] == c then 1 else 0) + Count(s[1..], c)
  }

  lemma {:induction false} SplitLength(s: string, sep: char)
    ensures |Split(s, sep)| == Count(s, sep) + 1
  {
    if s != [] { SplitLength(s[1..], sep); }
  }

  lemma {:induction false} CountPositive(s: string, c: char)
    ensures c in s <==> Count(s, c) > 0
  {
    if s != [] {
      CountPositive(s[1..], c);
      assert s == [s[0]] + s[1..];
    }
  }

  // ---------------------------------------------------------------------------
  // Integers as decimal text: `str(n)` and `int(s)`
  // ---------------------------------------------------------------------------

  predicate IsDigit(c: char) { '0' <= c <= '9' }

  function DigitChar(d: nat): char
    requires d < 10
  {
    ('0' as int + d) as char
  }

  function DigitValue(c: char): nat
    requires IsDigit(c)
  {
    c as int - '0' as int
  }

  /** `str(n)` for a natural number. */
  function NatToString(n: nat): (s: string)
    ensures |s| >= 1
    ensures forall i :: 0 <= i < |s| ==> IsDigit(s[i])
    decreases n
  {
    if n < 10 then [DigitChar(n)] else NatToString(n / 10) + [DigitChar(n % 10)]
  }

  /** `str(i)` for any integer. */
  function IntToString(i: int): string {
    if i < 0 then "-" + NatToString(-i) else NatToString(i)
  }

  /** The value of a string of decimal digits. */
  function DigitsValue(s: string): nat
    requires forall i :: 0 <= i < |s| ==> IsDigit(s[i])
  {
    if s == [] then 0 else 10 * DigitsValue(s[..|s| - 1]) + DigitValue(s[|s| - 1])
  }

  predicate AllDigits(s: string) {
    |s| >= 1 && forall i :: 0 <= i < |s| ==> IsDigit(s[i])
  }

  /** `int(s)` for an optional sign followed by decimal digits; `None` where
      Python would raise `ValueError`. */
  function ParseInt(s: string): Option<int> {
    if |s| >= 1 && s[0] == '-' && AllDigits(s[1..]) then Some(-(DigitsValue(s[1..]) as int))
    else if |s| >= 1 && s[0] == '+' && AllDigits(s[1..]) then Some(DigitsValue(s[1..]))
    else if AllDigits(s) then Some(DigitsValue(s))
    else None
  }

  lemma {:induction false} NatToStringValue(n: nat)
    ensures DigitsValue(NatToString(n)) == n
    decreases n
  {
    if n >= 10 {
      NatToStringValue(n / 10);
      var s := NatToString(n);
      assert s[..|s| - 1] == NatToString(n / 10);
    }
  }

  /** `int(str(i)) == i`: the decimal rendering of an identifier parses back to it. */
  lemma {:induction false} ParseIntToString(i: int)
    ensures ParseInt(IntToString(i)) == Some(i)
  {
    if i < 0 {
      NatToStringValue(-i);
      var s := IntToString(i);
      assert s[1..] == NatToString(-i);
    } else {
      NatToStringValue(i);
      assert IsDigit(NatToString(i)[0]);
    }
  }
}
