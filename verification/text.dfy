/**
 * The JavaScript string operations the components rely on, over `string`, a sequence of
 * Unicode scalar values (so `|s|` counts code points, where JavaScript's `length` counts
 * UTF-16 code units): the `\s` character class and `String.prototype.trim`,
 * `toLowerCase` (as a per-character mapping), `includes`, `startsWith`, and the
 * decimal text of an integer (`Number.prototype.toString`) with its parse.
 */
module Text {
  import opened Wrappers
  import Seqs

  /** The characters matched by the regular-expression class `\s`, which are also the ones
      `trim` removes: the ECMAScript WhiteSpace and LineTerminator code points. */
  predicate IsWhitespace(c: char) {
    var u := c as int;
    u == 0x09 || u == 0x0A || u == 0x0B || u == 0x0C || u == 0x0D || u == 0x20 ||
    u == 0xA0 || u == 0x1680 || (0x2000 <= u <= 0x200A) ||
    u == 0x2028 || u == 0x2029 || u == 0x202F || u == 0x205F || u == 0x3000 || u == 0xFEFF
  }

  /** Every character of `s` is whitespace (vacuously so for the empty string). */
  predicate AllWhitespace(s: string) {
    forall i :: 0 <= i < |s| ==> IsWhitespace(s[i])
  }

  /** `s` contains no whitespace character. */
  predicate NoWhitespace(s: string) {
    forall i :: 0 <= i < |s| ==> !IsWhitespace(s[i])
  }

  /** `s.replace(/\s/g, '')`: the characters of `s` that are not whitespace, in order. */
  function StripWhitespace(s: string): (r: string)
    ensures |r| <= |s| && NoWhitespace(r)
    ensures Seqs.IsSubsequence(r, s)
    ensures forall c :: multiset(r)[c] == if IsWhitespace(c) then 0 else multiset(s)[c]
    ensures forall c :: c in r <==> c in s && !IsWhitespace(c)
    ensures r == [] <==> AllWhitespace(s)
  {
    var r := Seqs.Filter(s, c => !IsWhitespace(c));
    assert forall i :: 0 <= i < |r| ==> r[i] in r;
    assert forall i :: 0 <= i < |s| && !IsWhitespace(s[i]) ==> s[i] in r;
    r
  }

  /** `trimStart`: drops the leading whitespace and nothing else. */
  function TrimStart(s: string): (r: string)
    ensures |r| <= |s| && r == s[|s| - |r|..]
    ensures forall i :: 0 <= i < |s| - |r| ==> IsWhitespace(s[i])
    ensures r == [] || !IsWhitespace(r[0])
    decreases |s|
  {
    if s != [] && IsWhitespace(s[0]) then TrimStart(s[1..]) else s
  }

  /** `trimEnd`: drops the trailing whitespace and nothing else. */
  function TrimEnd(s: string): (r: string)
    ensures |r| <= |s| && r == s[..|r|]
    ensures forall i :: |r| <= i < |s| ==> IsWhitespace(s[i])
    ensures r == [] || !IsWhitespace(r[|r| - 1])
    decreases |s|
  {
    if s != [] && IsWhitespace(s[|s| - 1]) then TrimEnd(s[..|s| - 1]) else s
  }

  /** `s.trim()`: a contiguous piece of `s` that neither starts nor ends with whitespace,
      and is empty exactly when `s` is all whitespace. */
  function Trim(s: string): (r: string)
    ensures |r| <= |s|
    ensures exists k :: TrimmedAt(s, r, k)
    ensures r != [] ==> !IsWhitespace(r[0]) && !IsWhitespace(r[|r| - 1])
    ensures r == [] <==> AllWhitespace(s)
  {
    TrimPieces(s);
    TrimEnd(TrimStart(s))
  }

  /** The facts about `trim` gathered over the two one-sided trims. */
  lemma TrimPieces(s: string)
    ensures TrimmedAt(s, TrimEnd(TrimStart(s)), |s| - |TrimStart(s)|)
    ensures TrimEnd(TrimStart(s)) == [] || !IsWhitespace(TrimEnd(TrimStart(s))[0])
    ensures TrimEnd(TrimStart(s)) == [] <==> AllWhitespace(s)
  {
    var front := TrimStart(s);
    var r := TrimEnd(front);
    PieceIsTrimmedAt(s, front, r);
    BlankIffEmptyPiece(s, r, |s| - |front|);
  }

  /** `r` is the piece of `s` that starts at index `k`, with only whitespace before and
      after it. */
  ghost predicate TrimmedAt(s: string, r: string, k: int) {
    && 0 <= k <= |s| - |r|
    && r == s[k..k + |r|]
    && (forall i :: 0 <= i < k ==> IsWhitespace(s[i]))
    && (forall i :: k + |r| <= i < |s| ==> IsWhitespace(s[i]))
  }

  /** Dropping leading whitespace and then trailing whitespace leaves a piece of the string
      with only whitespace around it, which starts with a non-whitespace character when it
      is not empty. */
  lemma PieceIsTrimmedAt(s: string, front: string, r: string)
    requires |front| <= |s| && front == s[|s| - |front|..]
    requires forall i :: 0 <= i < |s| - |front| ==> IsWhitespace(s[i])
    requires front == [] || !IsWhitespace(front[0])
    requires |r| <= |front| && r == front[..|r|]
    requires forall i :: |r| <= i < |front| ==> IsWhitespace(front[i])
    ensures TrimmedAt(s, r, |s| - |front|)
    ensures r == [] || !IsWhitespace(r[0])
  {
    var k := |s| - |front|;
    assert r == s[k..k + |r|];
    forall i | k + |r| <= i < |s|
      ensures IsWhitespace(s[i])
    {
      assert s[i] == front[i - k];
    }
    if r != [] {
      assert r[0] == front[0];
    }
  }

  /** A piece with only whitespace around it, ending in a non-whitespace character when
      non-empty, is empty exactly when the whole string is whitespace. */
  lemma BlankIffEmptyPiece(s: string, r: string, k: int)
    requires TrimmedAt(s, r, k)
    requires r == [] || !IsWhitespace(r[|r| - 1])
    ensures r == [] <==> AllWhitespace(s)
  {
    if r != [] {
      assert s[k + |r| - 1] == r[|r| - 1];
    } else {
      forall i | 0 <= i < |s|
        ensures IsWhitespace(s[i])
      {
      }
    }
  }

  /** `String.prototype.toLowerCase` on one character, for the alphabets the site's names use:
      Latin `A`-`Z` and the Cyrillic capitals U+0400-U+042F; every other character is kept. */
  function LowerChar(c: char): (r: char)
    ensures 'A' <= c <= 'Z' ==> r as int == c as int + 32
    ensures 0x0410 <= c as int <= 0x042F ==> r as int == c as int + 32
    ensures 0x0400 <= c as int <= 0x040F ==> r as int == c as int + 80
    ensures !('A' <= c <= 'Z') && !(0x0400 <= c as int <= 0x042F) ==> r == c
  {
    if 'A' <= c <= 'Z' then (c as int + 32) as char
    else if 0x0410 <= c as int <= 0x042F then (c as int + 32) as char
    else if 0x0400 <= c as int <= 0x040F then (c as int + 80) as char
    else c
  }

  /** `s.toLowerCase()`, character by character. */
  function Lower(s: string): (r: string)
    ensures |r| == |s|
    ensures forall i :: 0 <= i < |s| ==> r[i] == LowerChar(s[i])
  {
    seq(|s|, i requires 0 <= i < |s| => LowerChar(s[i]))
  }

  /** Lower-casing twice is lower-casing once: a lower-cased search term is already in the
      form the filters compare against. */
  lemma LowerIdempotent(s: string)
    ensures Lower(Lower(s)) == Lower(s)
  {
    forall i | 0 <= i < |s|
      ensures LowerChar(LowerChar(s[i])) == LowerChar(s[i])
    {
      var c := s[i];
      if 'A' <= c <= 'Z' {
        assert 'a' <= LowerChar(c) <= 'z';
      }
    }
  }

  /** `s.startsWith(prefix)`. */
  predicate StartsWith(s: string, prefix: string)
    ensures StartsWith(s, prefix) <==> |prefix| <= |s| && s == prefix + s[|prefix|..]
  {
    |prefix| <= |s| && s[..|prefix|] == prefix
  }

  /** `t` occurs in `s` starting at index `i`. */
  ghost predicate OccursAt(s: string, t: string, i: int) {
    0 <= i && i + |t| <= |s| && s[i..i + |t|] == t
  }

  /** `s.includes(t)`: tried at every starting position from the left. */
  predicate Includes(s: string, t: string)
    ensures Includes(s, t) ==> |t| <= |s|
    ensures StartsWith(s, t) ==> Includes(s, t)
    ensures t == "" ==> Includes(s, t)
    decreases |s|
  {
    StartsWith(s, t) || (s != [] && Includes(s[1..], t))
  }

  /** `includes` holds exactly when `t` occurs somewhere in `s`. */
  lemma {:induction false} IncludesIffOccurs(s: string, t: string)
    ensures Includes(s, t) <==> exists i :: OccursAt(s, t, i)
    decreases |s|
  {
    if Includes(s, t) {
      if StartsWith(s, t) {
        assert OccursAt(s, t, 0);
      } else {
        IncludesIffOccurs(s[1..], t);
        var j :| OccursAt(s[1..], t, j);
        assert s[j + 1..j + 1 + |t|] == s[1..][j..j + |t|];
        assert OccursAt(s, t, j + 1);
      }
    }
    if exists i :: OccursAt(s, t, i) {
      var i :| OccursAt(s, t, i);
      if i == 0 {
        assert StartsWith(s, t);
      } else {
        assert s[1..][i - 1..i - 1 + |t|] == s[i..i + |t|];
        assert OccursAt(s[1..], t, i - 1);
        IncludesIffOccurs(s[1..], t);
      }
    }
  }

  predicate IsDigit(c: char) {
    '0' <= c <= '9'
  }

  predicate AllDigits(s: string) {
    forall i :: 0 <= i < |s| ==> IsDigit(s[i])
  }

  function DigitChar(d: int): (c: char)
    requires 0 <= d < 10
    ensures IsDigit(c) && c as int - '0' as int == d
  {
    ('0' as int + d) as char
  }

  /** The decimal digits of `n`, most significant first, with no leading zero. */
  function DigitsOf(n: nat): (r: string)
    ensures |r| >= 1 && AllDigits(r)
    ensures |r| > 1 ==> r[0] != '0'
  {
    if n < 10 then [DigitChar(n)] else DigitsOf(n / 10) + [DigitChar(n % 10)]
  }

  /** The number a run of decimal digits denotes. */
  function DigitsValue(ds: string): nat
    requires AllDigits(ds)
  {
    if ds == [] then 0 else DigitsValue(ds[..|ds| - 1]) * 10 + (ds[|ds| - 1] as int - '0' as int)
  }

  /** `n.toString()` for an integer `n` with `|n| < 10^21` (larger numbers are written by
      JavaScript in exponent form, which is not modelled): an optional minus sign followed by
      the digits, with no leading zero. */
  function DecimalText(n: int): (r: string)
    ensures r != []
    ensures n >= 0 ==> AllDigits(r) && (|r| > 1 ==> r[0] != '0')
    ensures n < 0 ==> |r| > 1 && r[0] == '-' && AllDigits(r[1..]) && r[1] != '0'
  {
    if n < 0 then "-" + DigitsOf(-n) else DigitsOf(n)
  }

  /** The integer an optionally signed run of decimal digits denotes; `None` for any other
      text. This is the number `parseFloat` reads only while it is a safe integer (see
      `ReadsAsSafeInteger`): beyond that, `parseFloat` rounds to the nearest double. */
  function DecimalValue(s: string): (r: Option<int>)
    ensures r.Some? <==> s != [] && (AllDigits(s) || (|s| > 1 && s[0] == '-' && AllDigits(s[1..])))
    ensures r.Some? && s[0] != '-' ==> r.value >= 0
  {
    if |s| > 1 && s[0] == '-' && AllDigits(s[1..]) then Some(-(DigitsValue(s[1..]) as int))
    else if |s| > 0 && AllDigits(s) then Some(DigitsValue(s))
    else None
  }

  /** `Number.MAX_SAFE_INTEGER`, 2^53 - 1: every integer of at most this magnitude is a
      double exactly. */
  const MaxSafeInteger := 9007199254740991

  /** `s` is an optionally signed run of decimal digits denoting a safe integer, so that
      `parseFloat(s)` is exactly `DecimalValue(s)`. */
  predicate ReadsAsSafeInteger(s: string)
    ensures ReadsAsSafeInteger(s) ==> DecimalValue(s).Some?
  {
    DecimalValue(s).Some? && -MaxSafeInteger <= DecimalValue(s).value <= MaxSafeInteger
  }

  /** The first integer past the safe range: its digit text does not read as a safe
      integer, although it is a digit text that `DecimalValue` reads exactly. */
  lemma UnsafeDigitTextIsNotSafe()
    ensures DecimalValue(DecimalText(MaxSafeInteger + 2)) == Some(MaxSafeInteger + 2)
    ensures !ReadsAsSafeInteger(DecimalText(MaxSafeInteger + 2))
  {
    DecimalRoundTrip(MaxSafeInteger + 2);
  }

  lemma {:induction false} DigitsRoundTrip(n: nat)
    ensures DigitsValue(DigitsOf(n)) == n
  {
    if n >= 10 {
      DigitsRoundTrip(n / 10);
      var ds := DigitsOf(n);
      assert ds[..|ds| - 1] == DigitsOf(n / 10);
    }
  }

  /** Reading back the decimal text of an integer gives the integer. */
  lemma DecimalRoundTrip(n: int)
    ensures DecimalValue(DecimalText(n)) == Some(n)
  {
    if n < 0 {
      DigitsRoundTrip(-n);
      assert DecimalText(n)[1..] == DigitsOf(-n);
    } else {
      DigitsRoundTrip(n);
    }
  }
}
