/**
 * The C string routines the OBJ loader and the shader extraction rely on,
 * over character buffers: a buffer's string ends at its first NUL (or at
 * its end, where the terminator the source writes is taken as read).
 */
module CStrings {

  const NUL: char := '\0'

  /** The string a buffer holds: everything before its first NUL. */
  function CStr(s: seq<char>): (r: seq<char>)
    ensures r <= s && NUL !in r
    ensures |r| < |s| ==> s[|r|] == NUL
    ensures NUL !in s ==> r == s
  {
    if |s| == 0 || s[0] == NUL then [] else [s[0]] + CStr(s[1..])
  }

  /** `s[i]`, reading the terminator past the end of the buffer. */
  function At(s: seq<char>, i: nat): char
  {
    if i < |s| then s[i] else NUL
  }

  /** The buffer from its second character on. */
  function Rest(s: seq<char>): seq<char>
  {
    if |s| == 0 then [] else s[1..]
  }

  /**
   * `strncmp(a, b, n) == 0`: the first `n` characters agree, or the strings
   * agree up to a NUL both reach at the same place.
   */
  function StrNCmpZero(a: seq<char>, b: seq<char>, n: int): bool
    decreases n
  {
    if n <= 0 then true
    else if At(a, 0) != At(b, 0) then false
    else if At(a, 0) == NUL then true
    else StrNCmpZero(Rest(a), Rest(b), n - 1)
  }

  /** `starts_with(line, str)`: `strncmp(line, str, strlen(str)) == 0`. */
  function StartsWith(line: seq<char>, str: seq<char>): bool
  {
    StrNCmpZero(line, str, |CStr(str)|)
  }

  /** `starts_with` is a prefix test on the strings the two buffers hold. */
  lemma StartsWithIsPrefix(line: seq<char>, str: seq<char>)
    ensures StartsWith(line, str) <==> CStr(str) <= CStr(line)
  {
    StrNCmpPrefix(line, str, |CStr(str)|);
  }

  /**
   * Comparing no further than the string `b` reaches is a prefix test on
   * the strings the two buffers hold.
   */
  lemma {:induction false} StrNCmpPrefix(a: seq<char>, b: seq<char>, n: nat)
    requires n <= |CStr(b)|
    ensures StrNCmpZero(a, b, n) <==> CStr(b)[..n] <= CStr(a)
    decreases n
  {
    if n > 0 {
      var cb := CStr(b);
      assert |b| > 0 && b[0] != NUL;
      assert cb == [b[0]] + CStr(b[1..]);
      assert cb[..n][0] == b[0];
      if At(a, 0) == b[0] {
        var ca := CStr(a);
        assert ca == [a[0]] + CStr(a[1..]);
        StrNCmpPrefix(a[1..], b[1..], n - 1);
        assert cb[..n] == [b[0]] + CStr(b[1..])[..n - 1];
        PrefixCons(b[0], CStr(b[1..])[..n - 1], CStr(a[1..]));
      } else if |CStr(a)| > 0 {
        assert CStr(a)[0] == a[0];
      }
    }
  }

  /** A common first element does not change whether one sequence is a prefix of another. */
  lemma PrefixCons<T>(c: T, x: seq<T>, y: seq<T>)
    ensures [c] + x <= [c] + y <==> x <= y
  {
    if [c] + x <= [c] + y {
      assert x == ([c] + x)[1..] && ([c] + y)[1..|x| + 1] == y[..|x|];
    }
  }

  /** A buffer's string is the same however much of the buffer follows its terminator. */
  lemma {:induction false} CStrTerminated(buf: seq<char>, i: int)
    requires 0 <= i < |buf| && buf[i] == NUL
    ensures CStr(buf) == CStr(buf[..i])
    decreases i
  {
    if i > 0 {
      CStrTerminated(buf[1..], i - 1);
      assert buf[1..][..i - 1] == buf[..i][1..];
    }
  }

  /** `starts_with` looks no further than the terminator of `line`. */
  lemma StartsWithCStr(line: seq<char>, str: seq<char>)
    ensures StartsWith(line, str) == StartsWith(CStr(line), str)
  {
    StartsWithIsPrefix(line, str);
    StartsWithIsPrefix(CStr(line), str);
  }

  /** C `isspace` in the "C" locale. */
  predicate IsSpace(c: char)
  {
    c == ' ' || c == '\t' || c == '\n' || c == 11 as char || c == 12 as char || c == '\r'
  }

  predicate IsDigit(c: char)
  {
    '0' <= c <= '9'
  }

  function DigitValue(c: char): int
    requires IsDigit(c)
  {
    c as int - '0' as int
  }

  /** The buffer after its leading white space. */
  function SkipSpaces(s: seq<char>): (r: seq<char>)
    ensures |r| <= |s| && r == s[|s| - |r|..]
    ensures |r| > 0 ==> !IsSpace(r[0])
  {
    if |s| > 0 && IsSpace(s[0]) then SkipSpaces(s[1..]) else s
  }

  /** The run of digits the buffer starts with. */
  function LeadingDigits(s: seq<char>): (r: seq<char>)
    ensures r <= s && forall i :: 0 <= i < |r| ==> IsDigit(r[i])
    ensures |r| < |s| ==> !IsDigit(s[|r|])
  {
    if |s| > 0 && IsDigit(s[0]) then [s[0]] + LeadingDigits(s[1..]) else []
  }

  /** The number a run of decimal digits spells. */
  function DigitsValue(ds: seq<char>): (v: int)
    requires forall i :: 0 <= i < |ds| ==> IsDigit(ds[i])
    ensures v >= 0
  {
    if |ds| == 0 then 0 else DigitsValue(ds[..|ds| - 1]) * 10 + DigitValue(ds[|ds| - 1])
  }

  /**
   * `atoi`: skip white space, read an optional sign and the digits that
   * follow; 0 when there are none. Overflow is not modelled.
   */
  function Atoi(s: seq<char>): int
  {
    var t := SkipSpaces(s);
    if |t| > 0 && t[0] == '-' then -DigitsValue(LeadingDigits(t[1..]))
    else if |t| > 0 && t[0] == '+' then DigitsValue(LeadingDigits(t[1..]))
    else DigitsValue(LeadingDigits(t))
  }

  /** The decimal spelling of `n`, without leading zeros. */
  function Decimal(n: nat): (ds: seq<char>)
    ensures |ds| > 0 && forall i :: 0 <= i < |ds| ==> IsDigit(ds[i])
  {
    if n < 10 then [('0' as int + n) as char]
    else Decimal(n / 10) + [('0' as int + n % 10) as char]
  }

  lemma {:induction false} DecimalValue(n: nat)
    ensures DigitsValue(Decimal(n)) == n
  {
    if n >= 10 {
      DecimalValue(n / 10);
      assert Decimal(n)[..|Decimal(n)| - 1] == Decimal(n / 10);
    }
  }

  lemma {:induction false} LeadingDigitsOf(ds: seq<char>, rest: seq<char>)
    requires forall i :: 0 <= i < |ds| ==> IsDigit(ds[i])
    requires |rest| == 0 || !IsDigit(rest[0])
    ensures LeadingDigits(ds + rest) == ds
  {
    if |ds| > 0 {
      assert (ds + rest)[1..] == ds[1..] + rest;
      LeadingDigitsOf(ds[1..], rest);
    } else {
      assert ds + rest == rest;
    }
  }

  /**
   * `atoi` reads back a number written in decimal after white space, when
   * no further digit follows: the index a face line holds is the one written.
   */
  lemma AtoiDecimal(spaces: seq<char>, n: nat, rest: seq<char>)
    requires forall i :: 0 <= i < |spaces| ==> IsSpace(spaces[i])
    requires |rest| == 0 || !IsDigit(rest[0])
    ensures Atoi(spaces + Decimal(n) + rest) == n
  {
    var ds := Decimal(n);
    var t := ds + rest;
    assert spaces + ds + rest == spaces + t;
    SkipSpacesOver(spaces, t);
    assert t[0] == ds[0] && IsDigit(t[0]);
    LeadingDigitsOf(ds, rest);
    DecimalValue(n);
    AtoiUnsigned(spaces + t);
  }

  /** Without a sign, `atoi` is the value of the leading digits after the white space. */
  lemma AtoiUnsigned(s: seq<char>)
    requires |SkipSpaces(s)| > 0 && IsDigit(SkipSpaces(s)[0])
    ensures Atoi(s) == DigitsValue(LeadingDigits(SkipSpaces(s)))
  {
  }

  lemma {:induction false} SkipSpacesOver(spaces: seq<char>, t: seq<char>)
    requires forall i :: 0 <= i < |spaces| ==> IsSpace(spaces[i])
    requires |t| == 0 || !IsSpace(t[0])
    ensures SkipSpaces(spaces + t) == t
  {
    if |spaces| > 0 {
      assert (spaces + t)[1..] == spaces[1..] + t;
      SkipSpacesOver(spaces[1..], t);
    } else {
      assert spaces + t == t;
    }
  }

  /**
   * What `snprintf(out, size, "%s", s)` leaves in `out`: the string `s`
   * holds, cut to `size - 1` characters.
   */
  function SnprintfS(s: seq<char>, size: nat): (r: seq<char>)
    requires size > 0
    ensures r <= CStr(s) && |r| < size
    ensures |CStr(s)| < size ==> r == CStr(s)
  {
    var t := CStr(s);
    if |t| < size then t else t[..size - 1]
  }
}
