/** String operations the handlers use, over ASCII text. */
module Text {

  /** JavaScript's `s.startsWith(prefix)`. */
  predicate StartsWith(s: string, prefix: string)
  {
    |prefix| <= |s| && s[..|prefix|] == prefix
  }

  /** Python's `sub in s`: `sub` occurs somewhere in `s`. */
  predicate Contains(s: string, sub: string)
    decreases |s|
  {
    StartsWith(s, sub) || (s != [] && Contains(s[1..], sub))
  }

  /** An occurrence of `sub` at any position of `s` makes `Contains` hold. */
  lemma {:induction false} ContainsAt(s: string, sub: string, k: nat)
    requires k + |sub| <= |s|
    ensures s[k..k + |sub|] == sub ==> Contains(s, sub)
    decreases k
  {
    if k > 0 && s[k..k + |sub|] == sub {
      assert s[1..][k - 1..k - 1 + |sub|] == s[k..k + |sub|];
      ContainsAt(s[1..], sub, k - 1);
    }
  }

  /** Conversely, when `Contains` holds, `sub` starts at a position `k` of `s`. */
  lemma {:induction false} ContainsWitness(s: string, sub: string) returns (k: nat)
    requires Contains(s, sub)
    ensures k + |sub| <= |s| && s[k..k + |sub|] == sub
    decreases |s|
  {
    if StartsWith(s, sub) {
      k := 0;
    } else {
      var j := ContainsWitness(s[1..], sub);
      k := j + 1;
      assert s[1..][j..j + |sub|] == s[k..k + |sub|];
    }
  }

  /** The text after the last `sep` in `s`, or the whole of `s` when `sep` does
      not occur: Python's `s.split(sep)[-1]` and JavaScript's `s.split(sep).pop()`. */
  function LastSegment(s: string, sep: char): (r: string)
    ensures sep !in r
    ensures |r| <= |s| && r == s[|s| - |r|..]
    ensures |r| == |s| || s[|s| - |r| - 1] == sep
    ensures sep !in s ==> r == s
  {
    if s == [] then []
    else if s[|s| - 1] == sep then []
    else
      var init := s[..|s| - 1];
      assert sep !in s ==> sep !in init;
      LastSegment(init, sep) + [s[|s| - 1]]
  }

  /** A `sep`-free text joined after `sep` is exactly the last segment. */
  lemma LastSegmentOfJoin(prefix: string, sep: char, tail: string)
    requires sep !in tail
    ensures LastSegment(prefix + [sep] + tail, sep) == tail
  {
    var s := prefix + [sep] + tail;
    assert s[|s| - |tail| - 1] == sep;
  }

  /** JavaScript's `s.length`: the number of UTF-16 code units, two for a
      character beyond U+FFFF and one for every other. */
  function Utf16Length(s: string): (n: nat)
    ensures |s| <= n <= 2 * |s|
    ensures (forall i :: 0 <= i < |s| ==> (s[i] as int) < 0x1_0000) ==> n == |s|
    ensures (forall i :: 0 <= i < |s| ==> (s[i] as int) >= 0x1_0000) ==> n == 2 * |s|
    decreases |s|
  {
    if s == [] then 0
    else Utf16Length(s[..|s| - 1]) + (if (s[|s| - 1] as int) >= 0x1_0000 then 2 else 1)
  }

  /** Python's `s.replace(from, to)` for single characters. */
  function Replace(s: string, from: char, to: char): (r: string)
    ensures |r| == |s|
    ensures forall i :: 0 <= i < |s| ==> r[i] == (if s[i] == from then to else s[i])
    ensures from != to ==> from !in r
  {
    seq(|s|, i requires 0 <= i < |s| => if s[i] == from then to else s[i])
  }

  predicate IsUpper(c: char) { 'A' <= c <= 'Z' }
  predicate IsLower(c: char) { 'a' <= c <= 'z' }

  /** A letter: Python calls these "cased" characters. */
  predicate IsCased(c: char) { IsUpper(c) || IsLower(c) }

  function ToLower(c: char): (r: char)
    ensures IsCased(r) == IsCased(c) && !IsUpper(r)
    ensures !IsCased(c) ==> r == c
  {
    if IsUpper(c) then (c as int + 32) as char else c
  }

  function ToUpper(c: char): (r: char)
    ensures IsCased(r) == IsCased(c) && !IsLower(r)
    ensures !IsCased(c) ==> r == c
  {
    if IsLower(c) then (c as int - 32) as char else c
  }

  /** Python's `s.lower()`. */
  function Lower(s: string): (r: string)
    ensures |r| == |s|
    ensures forall i :: 0 <= i < |s| ==> r[i] == ToLower(s[i])
    ensures forall i :: 0 <= i < |r| ==> !IsUpper(r[i]) && IsCased(r[i]) == IsCased(s[i])
    ensures forall i :: 0 <= i < |s| && !IsUpper(s[i]) ==> r[i] == s[i]
  {
    seq(|s|, i requires 0 <= i < |s| => ToLower(s[i]))
  }

  /** Lower-casing twice is lower-casing once. */
  lemma LowerIdempotent(s: string)
    ensures Lower(Lower(s)) == Lower(s)
  {
    var once := Lower(s);
    assert forall i :: 0 <= i < |once| ==> Lower(once)[i] == once[i];
  }

  /** Python's `s.title()`: a letter that follows a letter is lower-cased, every
      other letter is upper-cased, and every other character is kept. */
  function Title(s: string): string
  {
    TitleAfter(s, false)
  }

  /** `Title` of the rest of a string whose previous character was (`afterCased`)
      or was not a letter. */
  function TitleAfter(s: string, afterCased: bool): string
  {
    if s == [] then []
    else [if afterCased then ToLower(s[0]) else ToUpper(s[0])] + TitleAfter(s[1..], IsCased(s[0]))
  }

  /** The title-cased character at position `i` of `s`. */
  function TitleChar(s: string, i: nat): char
    requires i < |s|
  {
    if i > 0 && IsCased(s[i - 1]) then ToLower(s[i]) else ToUpper(s[i])
  }

  /** Position by position, `Title` upper-cases the first letter of every word
      and lower-cases the rest. */
  lemma {:induction false} TitleAt(s: string)
    ensures |Title(s)| == |s|
    ensures forall i :: 0 <= i < |s| ==> Title(s)[i] == TitleChar(s, i)
  {
    TitleAfterAt(s, false);
  }

  lemma {:induction false} TitleAfterAt(s: string, afterCased: bool)
    ensures |TitleAfter(s, afterCased)| == |s|
    ensures forall i :: 0 < i < |s| ==> TitleAfter(s, afterCased)[i] == TitleChar(s, i)
    ensures s != [] ==> TitleAfter(s, afterCased)[0] == (if afterCased then ToLower(s[0]) else ToUpper(s[0]))
  {
    if s != [] {
      var t := s[1..];
      TitleAfterAt(t, IsCased(s[0]));
      forall i | 0 < i < |s|
        ensures TitleAfter(s, afterCased)[i] == TitleChar(s, i)
      {
        assert TitleAfter(s, afterCased)[i] == TitleAfter(t, IsCased(s[0]))[i - 1];
        if i == 1 {
          assert t[0] == s[1];
        } else {
          assert TitleChar(t, i - 1) == TitleChar(s, i);
        }
      }
    }
  }

  /** Applying `title()` a second time changes nothing. */
  lemma TitleIdempotent(s: string)
    ensures Title(Title(s)) == Title(s)
  {
    var t := Title(s);
    TitleAt(s);
    TitleAt(t);
    forall i | 0 <= i < |t|
      ensures Title(t)[i] == t[i]
    {
      if i > 0 {
        assert IsCased(t[i - 1]) == IsCased(s[i - 1]);
      }
    }
  }

  /** A string that `Title` leaves as it is: every character already has the
      case its position calls for. */
  lemma TitleFixed(s: string)
    requires forall i :: 0 <= i < |s| ==> TitleChar(s, i) == s[i]
    ensures Title(s) == s
  {
    TitleAt(s);
  }

  /** The decimal digit character of `d`. */
  function Digit(d: nat): (c: char)
    requires d < 10
    ensures '0' <= c <= '9'
  {
    ('0' as int + d) as char
  }

  /** JavaScript's `${n}` for a non-negative integer: its decimal digits. */
  function NatToString(n: nat): (r: string)
    ensures 1 <= |r|
    ensures forall i :: 0 <= i < |r| ==> '0' <= r[i] <= '9'
    ensures n < 10 <==> |r| == 1
  {
    if n < 10 then [Digit(n)] else NatToString(n / 10) + [Digit(n % 10)]
  }

  /** The number a string of decimal digits denotes. */
  function DigitsValue(s: string): nat
    requires forall i :: 0 <= i < |s| ==> '0' <= s[i] <= '9'
  {
    if s == [] then 0 else 10 * DigitsValue(s[..|s| - 1]) + (s[|s| - 1] as int - '0' as int)
  }

  /** `NatToString` loses nothing: reading its digits gives back the number. */
  lemma {:induction false} NatToStringRoundTrip(n: nat)
    ensures DigitsValue(NatToString(n)) == n
  {
    if n >= 10 {
      NatToStringRoundTrip(n / 10);
      var r := NatToString(n);
      assert r[..|r| - 1] == NatToString(n / 10);
    }
  }
}
