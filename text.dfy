/**
 * The handful of Python string operations the bot relies on (`startswith`,
 * `in`, `strip`, `split`, `replace`, slicing, `str(int)` and `int(str)`),
 * each with the contract Python gives it.  Strings are sequences of Unicode
 * scalar values, as Python's `str` is a sequence of code points.
 */
module Text {
  import opened Wrappers

  /** `s.startswith(prefix)` */
  predicate StartsWith(s: string, prefix: string) {
    |prefix| <= |s| && s[..|prefix|] == prefix
  }

  /** `sub in s` */
  predicate Contains(s: string, sub: string)
    decreases |s|
  {
    StartsWith(s, sub) || (|s| > 0 && Contains(s[1..], sub))
  }

  /** `s[:n]` for a non-negative `n`: Python clamps the bound to the length. */
  function Take<T>(s: seq<T>, n: nat): (r: seq<T>)
    ensures |r| == if n < |s| then n else |s|
    ensures r == s[..|r|]
  {
    if n < |s| then s[..n] else s
  }

  /** `s[:stop]` for any integer `stop`: a negative bound counts from the
      end, and both are clamped to the sequence. */
  function PrefixTo<T>(s: seq<T>, stop: int): (r: seq<T>)
    ensures |r| <= |s| && r == s[..|r|]
    ensures 0 <= stop ==> |r| == if stop < |s| then stop else |s|
    ensures stop < 0 ==> |r| == if |s| + stop < 0 then 0 else |s| + stop
  {
    if 0 <= stop then Take(s, stop)
    else if |s| + stop < 0 then []
    else s[..|s| + stop]
  }

  /** No element occurs twice. */
  predicate NoDuplicates<T(==)>(s: seq<T>) {
    forall i, j :: 0 <= i < j < |s| ==> s[i] != s[j]
  }

  // ---------------------------------------------------------------------
  // Whitespace and `strip`
  // ---------------------------------------------------------------------

  /** `c.isspace()`: the characters Python's argument-less `strip` removes. */
  predicate IsSpace(c: char) {
    || c == ' '
    || ('\t' <= c <= '\r')
    || ('\U{1C}' <= c <= '\U{1F}')
    || c == '\U{85}' || c == '\U{A0}' || c == '\U{1680}'
    || ('\U{2000}' <= c <= '\U{200A}')
    || c == '\U{2028}' || c == '\U{2029}' || c == '\U{202F}'
    || c == '\U{205F}' || c == '\U{3000}'
  }

  /** `s.lstrip()` */
  function TrimLeft(s: string): (r: string)
    ensures |r| <= |s| && r == s[|s| - |r|..]
    ensures r == [] || !IsSpace(r[0])
    ensures forall i :: 0 <= i < |s| - |r| ==> IsSpace(s[i])
  {
    if |s| > 0 && IsSpace(s[0]) then TrimLeft(s[1..]) else s
  }

  /** `s.rstrip()` */
  function TrimRight(s: string): (r: string)
    ensures |r| <= |s| && r == s[..|r|]
    ensures r == [] || !IsSpace(r[|r| - 1])
    ensures forall i :: |r| <= i < |s| ==> IsSpace(s[i])
  {
    if |s| > 0 && IsSpace(s[|s| - 1]) then TrimRight(s[..|s| - 1]) else s
  }

  /** Nothing but whitespace. */
  predicate AllSpace(s: string) {
    forall i :: 0 <= i < |s| ==> IsSpace(s[i])
  }

  /** `r` is `s` with some whitespace cut from both ends: an infix of `s`
      with only whitespace before and after it. */
  ghost predicate SpaceAround(s: string, r: string) {
    exists i :: 0 <= i <= |s| - |r| && r == s[i..i + |r|] && AllSpace(s[..i]) && AllSpace(s[i + |r|..])
  }

  /** `s.strip()`: what is left of `s` once the whitespace at both ends is
      cut off; it neither starts nor ends with whitespace, and it is empty
      exactly when `s` is all whitespace. */
  function Strip(s: string): (r: string)
    ensures |r| <= |s|
    ensures r == [] || (!IsSpace(r[0]) && !IsSpace(r[|r| - 1]))
    ensures r == [] <==> forall i :: 0 <= i < |s| ==> IsSpace(s[i])
    ensures |s| > 0 && !IsSpace(s[0]) && !IsSpace(s[|s| - 1]) ==> r == s
    ensures forall c :: c in r ==> c in s
  {
    var t := TrimLeft(s);
    var r := TrimRight(t);
    StripFacts(s, t, r);
    r
  }

  /** The properties of `Strip`, from those of its two halves. */
  lemma StripFacts(s: string, t: string, r: string)
    requires t == TrimLeft(s) && r == TrimRight(t)
    ensures |r| <= |s|
    ensures r == [] || (!IsSpace(r[0]) && !IsSpace(r[|r| - 1]))
    ensures r == [] <==> forall i :: 0 <= i < |s| ==> IsSpace(s[i])
    ensures |s| > 0 && !IsSpace(s[0]) && !IsSpace(s[|s| - 1]) ==> r == s
    ensures forall c :: c in r ==> c in s
  {
    var k := |s| - |t|;
    assert t == s[k..];
    assert r == t[..|r|];
    if r != [] {
      assert r[0] == t[0];
      assert s[k] == t[0];
    } else {
      assert t == [];
    }
    if |s| > 0 && !IsSpace(s[0]) && !IsSpace(s[|s| - 1]) {
      assert k == 0;
      assert t == s;
      assert |r| == |s|;
    }
    InfixChars(s, t, r);
  }

  /** Trimming whitespace off the front of `s`, then off the back of what
      is left, cuts `s` at `|s| - |t|` with whitespace around. */
  lemma InfixCut(s: string, t: string, r: string)
    requires |t| <= |s| && t == s[|s| - |t|..]
    requires forall i :: 0 <= i < |s| - |t| ==> IsSpace(s[i])
    requires |r| <= |t| && r == t[..|r|]
    requires forall i :: |r| <= i < |t| ==> IsSpace(t[i])
    ensures var k := |s| - |t|;
      r == s[k..k + |r|] && AllSpace(s[..k]) && AllSpace(s[k + |r|..])
  {
    var k := |s| - |t|;
    assert r == s[k..k + |r|];
    assert AllSpace(s[..k]);
    assert s[k + |r|..] == t[|r|..];
  }

  /** Where `Strip` cuts `s`. */
  lemma StripCut(s: string) returns (j: nat)
    ensures j + |Strip(s)| <= |s| && Strip(s) == s[j..j + |Strip(s)|]
    ensures AllSpace(s[..j]) && AllSpace(s[j + |Strip(s)|..])
  {
    var t := TrimLeft(s);
    var r := TrimRight(t);
    assert Strip(s) == r;
    InfixCut(s, t, r);
    j := |s| - |t|;
  }

  /** `Strip` cuts `s` with only whitespace around the result: together
      with `StripUnique`, its result is `s` without its leading and trailing
      whitespace, and nothing else. */
  lemma StripIsCut(s: string)
    ensures SpaceAround(s, Strip(s))
  {
    var j := StripCut(s);
  }

  /** `Strip` is the only way to cut whitespace from both ends of `s` that
      leaves none at either end. */
  lemma StripUnique(s: string, r: string)
    requires SpaceAround(s, r)
    requires r == [] || (!IsSpace(r[0]) && !IsSpace(r[|r| - 1]))
    ensures r == Strip(s)
  {
    var j := StripCut(s);
    CutUnique(s, r, Strip(s), j);
  }

  /** Two cuts of `s` with only whitespace around them and none at their
      ends, the second empty exactly when `s` is all whitespace, agree. */
  lemma CutUnique(s: string, r: string, q: string, j: nat)
    requires SpaceAround(s, r)
    requires j + |q| <= |s| && q == s[j..j + |q|] && AllSpace(s[..j]) && AllSpace(s[j + |q|..])
    requires r == [] || (!IsSpace(r[0]) && !IsSpace(r[|r| - 1]))
    requires q == [] || (!IsSpace(q[0]) && !IsSpace(q[|q| - 1]))
    requires q == [] <==> AllSpace(s)
    ensures r == q
  {
    var i :| 0 <= i <= |s| - |r| && r == s[i..i + |r|] && AllSpace(s[..i]) && AllSpace(s[i + |r|..]);
    if r == [] {
      AllSpaceJoin(s, i);
    } else {
      assert !IsSpace(s[i]) by {
        assert r[0] == s[i];
      }
      CutsAgree(s, r, i, q, j);
    }
  }

  /** Whitespace before and after position `i` is whitespace throughout. */
  lemma AllSpaceJoin(s: string, i: nat)
    requires i <= |s| && AllSpace(s[..i]) && AllSpace(s[i..])
    ensures AllSpace(s)
  {
    assert s == s[..i] + s[i..];
  }

  /** Two non-empty cuts of `s`, each with only whitespace around it and
      none at its own ends, are the same cut. */
  lemma CutsAgree(s: string, r: string, i: nat, q: string, j: nat)
    requires i + |r| <= |s| && r == s[i..i + |r|] && AllSpace(s[..i]) && AllSpace(s[i + |r|..])
    requires j + |q| <= |s| && q == s[j..j + |q|] && AllSpace(s[..j]) && AllSpace(s[j + |q|..])
    requires r != [] && !IsSpace(r[0]) && !IsSpace(r[|r| - 1])
    requires q != [] && !IsSpace(q[0]) && !IsSpace(q[|q| - 1])
    ensures r == q
  {
    assert s[i] == r[0] && s[j] == q[0];
    SameStart(s, i, j);
    assert s[i + |r| - 1] == r[|r| - 1] && s[j + |q| - 1] == q[|q| - 1];
    SameEnd(s, i + |r|, j + |q|);
  }

  /** The first character that is not whitespace has one position. */
  lemma SameStart(s: string, i: nat, j: nat)
    requires i < |s| && j < |s| && !IsSpace(s[i]) && !IsSpace(s[j])
    requires AllSpace(s[..i]) && AllSpace(s[..j])
    ensures i == j
  {
  }

  /** The last character that is not whitespace has one position. */
  lemma SameEnd(s: string, e: nat, f: nat)
    requires 0 < e <= |s| && 0 < f <= |s| && !IsSpace(s[e - 1]) && !IsSpace(s[f - 1])
    requires AllSpace(s[e..]) && AllSpace(s[f..])
    ensures e == f
  {
  }

  /** A prefix of a suffix holds only characters of the whole. */
  lemma InfixChars(s: string, t: string, r: string)
    requires |t| <= |s| && t == s[|s| - |t|..]
    requires |r| <= |t| && r == t[..|r|]
    ensures forall c :: c in r ==> c in s
  {
    var k := |s| - |t|;
    forall c | c in r ensures c in s {
      var i :| 0 <= i < |r| && r[i] == c;
      assert r[i] == t[i];
      assert t[i] == s[k + i];
    }
  }

  /** `s.replace(from, to)` for one-character `from` and `to`. */
  function ReplaceChar(s: string, from: char, to: char): (r: string)
    ensures |r| == |s|
    ensures forall i :: 0 <= i < |s| ==> r[i] == if s[i] == from then to else s[i]
  {
    if s == [] then [] else [if s[0] == from then to else s[0]] + ReplaceChar(s[1..], from, to)
  }

  // ---------------------------------------------------------------------
  // `split` on a one-character separator
  // ---------------------------------------------------------------------

  /** Number of occurrences of `c` in `s`. */
  function Count(s: string, c: char): nat {
    if s == [] then 0 else (if s[0] == c then 1 else 0) + Count(s[1..], c)
  }

  /** Occurrences of a character add up over a concatenation. */
  lemma {:induction false} CountConcat(a: string, b: string, c: char)
    ensures Count(a + b, c) == Count(a, c) + Count(b, c)
  {
    if a == [] {
      assert a + b == b;
    } else {
      assert (a + b)[0] == a[0];
      assert (a + b)[1..] == a[1..] + b;
      CountConcat(a[1..], b, c);
    }
  }

  /** `sep.join(parts)` */
  function Join(parts: seq<string>, sep: char): string
    requires |parts| >= 1
  {
    if |parts| == 1 then parts[0] else parts[0] + [sep] + Join(parts[1..], sep)
  }

  /** `s.split(sep)`: one more part than there are separators, no part holds
      the separator, and joining the parts back gives `s`. */
  function Split(s: string, sep: char): (parts: seq<string>)
    ensures |parts| == Count(s, sep) + 1
    ensures forall i :: 0 <= i < |parts| ==> sep !in parts[i]
    ensures Join(parts, sep) == s
  {
    if s == [] then [""]
    else
      var rest := Split(s[1..], sep);
      SplitStep(s, sep, rest);
      if s[0] == sep then [""] + rest else [[s[0]] + rest[0]] + rest[1..]
  }

  /** The inductive step of `Split`: the parts of `s[1..]` extended by `s[0]`. */
  lemma SplitStep(s: string, sep: char, rest: seq<string>)
    requires |s| > 0
    requires |rest| == Count(s[1..], sep) + 1
    requires forall i :: 0 <= i < |rest| ==> sep !in rest[i]
    requires Join(rest, sep) == s[1..]
    ensures var parts := if s[0] == sep then [""] + rest else [[s[0]] + rest[0]] + rest[1..];
      |parts| == Count(s, sep) + 1 &&
      (forall i :: 0 <= i < |parts| ==> sep !in parts[i]) &&
      Join(parts, sep) == s
  {
    assert [s[0]] + s[1..] == s;
    if s[0] == sep {
      assert ([""] + rest)[1..] == rest;
    } else {
      var parts := [[s[0]] + rest[0]] + rest[1..];
      JoinPrepend(s[0], rest, sep);
      forall i | 0 <= i < |parts| ensures sep !in parts[i] {
        if i == 0 {
          assert sep !in rest[0];
        } else {
          assert parts[i] == rest[i];
        }
      }
    }
  }

  /** Prepending a character to the first part prepends it to the join. */
  lemma JoinPrepend(c: char, parts: seq<string>, sep: char)
    requires |parts| >= 1
    ensures Join([[c] + parts[0]] + parts[1..], sep) == [c] + Join(parts, sep)
  {
    var longer := [[c] + parts[0]] + parts[1..];
    assert longer[1..] == parts[1..];
    if |parts| > 1 {
      assert Join(longer, sep) == ([c] + parts[0]) + [sep] + Join(parts[1..], sep);
      assert ([c] + parts[0]) + [sep] + Join(parts[1..], sep) == [c] + (parts[0] + [sep] + Join(parts[1..], sep));
    }
  }

  /** The separator count of a separator-free text is zero. */
  lemma {:induction false} CountAbsent(s: string, c: char)
    requires c !in s
    ensures Count(s, c) == 0
  {
    if s != [] {
      assert c !in s[1..] by {
        forall i | 0 <= i < |s[1..]| ensures s[1..][i] != c {
          assert s[1..][i] == s[i + 1];
        }
      }
      CountAbsent(s[1..], c);
    }
  }

  /** Splitting `head + [sep] + tail` where `head` holds no separator gives
      `head` followed by the parts of `tail`. */
  lemma {:induction false} SplitAfterHead(head: string, sep: char, tail: string)
    requires sep !in head
    ensures Split(head + [sep] + tail, sep) == [head] + Split(tail, sep)
  {
    if head == [] {
      assert head + [sep] + tail == [sep] + tail;
      assert ([sep] + tail)[1..] == tail;
    } else {
      var s := head + [sep] + tail;
      assert s[1..] == head[1..] + [sep] + tail;
      assert sep !in head[1..] by {
        forall i | 0 <= i < |head[1..]| ensures head[1..][i] != sep {
          assert head[1..][i] == head[i + 1];
        }
      }
      SplitAfterHead(head[1..], sep, tail);
      assert [head[0]] + head[1..] == head;
    }
  }

  /** A character occurs in a text exactly when its count is positive. */
  lemma {:induction false} CountPositive(s: string, c: char)
    ensures Count(s, c) > 0 <==> c in s
  {
    if s != [] {
      CountPositive(s[1..], c);
      assert forall x :: x in s <==> x == s[0] || x in s[1..];
    }
  }

  /** Splitting around one separator: the parts before it, then the parts
      after it. */
  lemma {:induction false} SplitAround(x: string, sep: char, y: string)
    ensures Split(x + [sep] + y, sep) == Split(x, sep) + Split(y, sep)
  {
    var s := x + [sep] + y;
    if x == [] {
      assert s == [sep] + y;
      assert s[1..] == y;
    } else {
      assert s[0] == x[0];
      assert s[1..] == x[1..] + [sep] + y;
      SplitAround(x[1..], sep, y);
    }
  }

  /** A text without the separator splits into itself alone. */
  lemma SplitAbsent(s: string, sep: char)
    requires sep !in s
    ensures Split(s, sep) == [s]
  {
    CountAbsent(s, sep);
    var parts := Split(s, sep);
    assert |parts| == 1;
  }

  // ---------------------------------------------------------------------
  // `str(n)` and `int(s)`
  // ---------------------------------------------------------------------

  predicate IsDigit(c: char) {
    '0' <= c <= '9'
  }

  predicate AllDigits(s: string) {
    forall i :: 0 <= i < |s| ==> IsDigit(s[i])
  }

  function DigitChar(d: nat): (c: char)
    requires d < 10
    ensures IsDigit(c) && c as int - '0' as int == d
  {
    (48 + d) as char
  }

  /** `str(n)` for a non-negative integer: its decimal digits, no leading zero. */
  function NatToString(n: nat): (s: string)
    ensures |s| >= 1 && AllDigits(s)
    ensures |s| > 1 ==> s[0] != '0'
  {
    if n < 10 then [DigitChar(n)] else NatToString(n / 10) + [DigitChar(n % 10)]
  }

  /** `str(n)` */
  function IntToString(n: int): string {
    if n < 0 then "-" + NatToString(-n) else NatToString(n)
  }

  /** The value of a string of decimal digits. */
  function DigitsValue(s: string): nat
    requires AllDigits(s)
  {
    if s == [] then 0 else DigitsValue(s[..|s| - 1]) * 10 + (s[|s| - 1] as int - '0' as int)
  }

  /** `int(s)`: surrounding whitespace, an optional sign and at least one
      decimal digit; anything else raises `ValueError`, modelled as `None`. */
  function ParseInt(s: string): Option<int> {
    ParseSigned(Strip(s))
  }

  /** An optional sign followed by at least one decimal digit. */
  function ParseSigned(t: string): Option<int> {
    if |t| > 0 && (t[0] == '-' || t[0] == '+') then
      if |t| > 1 && AllDigits(t[1..]) then
        var v: int := DigitsValue(t[1..]);
        Some(if t[0] == '-' then -v else v)
      else None
    else if |t| > 0 && AllDigits(t) then Some(DigitsValue(t))
    else None
  }

  lemma {:induction false} DigitsRoundTrip(n: nat)
    ensures DigitsValue(NatToString(n)) == n
  {
    if n >= 10 {
      var s := NatToString(n);
      assert s[..|s| - 1] == NatToString(n / 10);
      DigitsRoundTrip(n / 10);
    }
  }

  /** `str(n)` carries no surrounding whitespace. */
  lemma IntToStringStripped(n: int)
    ensures Strip(IntToString(n)) == IntToString(n)
  {
    var s := IntToString(n);
    assert s[0] == '-' || IsDigit(s[0]);
    assert IsDigit(s[|s| - 1]);
  }

  /** `int(str(n)) == n` */
  lemma IntRoundTrip(n: int)
    ensures ParseInt(IntToString(n)) == Some(n)
  {
    IntToStringStripped(n);
    SignedRoundTrip(n);
  }

  /** The sign and digits of `str(n)` read back as `n`. */
  lemma SignedRoundTrip(n: int)
    ensures ParseSigned(IntToString(n)) == Some(n)
  {
    var s := IntToString(n);
    if n < 0 {
      var d := NatToString(-n);
      DigitsRoundTrip(-n);
      assert s[0] == '-' && s[1..] == d;
      var v: int := DigitsValue(d);
      assert ParseSigned(s) == Some(-v);
    } else {
      DigitsRoundTrip(n);
      assert IsDigit(s[0]);
      assert ParseSigned(s) == Some(DigitsValue(s));
    }
  }
}
