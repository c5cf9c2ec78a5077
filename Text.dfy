/**
 * The JavaScript string operations the application relies on, over `seq<char>`:
 * ASCII lower-casing, `includes`, `startsWith`, `split` on one character,
 * `join`, `slice(-k)`, `trim()`-emptiness, decimal `toString` and `Number`.
 */
module Text {

  datatype Option<T> = None | Some(value: T)

  // ---------------------------------------------------------------- case

  /** `toLowerCase` on one character; only ASCII letters are mapped. */
  function LowerChar(c: char): char
  {
    if 'A' <= c <= 'Z' then (c as int + 32) as char else c
  }

  function Lower(s: string): (r: string)
    ensures |r| == |s|
    ensures forall i :: 0 <= i < |s| ==> r[i] == LowerChar(s[i])
  {
    if s == [] then [] else [LowerChar(s[0])] + Lower(s[1..])
  }

  /** Lower-casing twice is lower-casing once. */
  lemma LowerIdempotent(s: string)
    ensures Lower(Lower(s)) == Lower(s)
  {
  }

  // ------------------------------------------------------------ substrings

  predicate StartsWith(s: string, prefix: string)
  {
    |prefix| <= |s| && s[..|prefix|] == prefix
  }

  predicate OccursAt(s: string, sub: string, i: int)
  {
    0 <= i && i + |sub| <= |s| && s[i..i + |sub|] == sub
  }

  /** `s.includes(sub)`, written as a scan so that it evaluates on literals. */
  predicate Contains(s: string, sub: string)
    decreases |s|
  {
    StartsWith(s, sub) || (|s| > 0 && Contains(s[1..], sub))
  }

  /** An occurrence at position `i` is found by the scan. */
  lemma {:induction false} OccurrenceIsFound(s: string, sub: string, i: int)
    requires OccursAt(s, sub, i)
    ensures Contains(s, sub)
    decreases i
  {
    if i == 0 {
      assert StartsWith(s, sub);
    } else {
      assert s[1..][i - 1..i - 1 + |sub|] == s[i..i + |sub|];
      OccurrenceIsFound(s[1..], sub, i - 1);
    }
  }

  /** What the scan finds occurs at some position. */
  lemma {:induction false} FoundIsOccurrence(s: string, sub: string)
    requires Contains(s, sub)
    ensures exists i :: OccursAt(s, sub, i)
    decreases |s|
  {
    if StartsWith(s, sub) {
      assert OccursAt(s, sub, 0);
    } else {
      FoundIsOccurrence(s[1..], sub);
      var i :| OccursAt(s[1..], sub, i);
      assert s[1..][i..i + |sub|] == s[i + 1..i + 1 + |sub|];
      assert OccursAt(s, sub, i + 1);
    }
  }

  /** The scan finds `sub` exactly when `sub` occurs at some position of `s`. */
  lemma ContainsIffOccurs(s: string, sub: string)
    ensures Contains(s, sub) <==> exists i :: OccursAt(s, sub, i)
  {
    if Contains(s, sub) {
      FoundIsOccurrence(s, sub);
    }
    forall i | OccursAt(s, sub, i) ensures Contains(s, sub) {
      OccurrenceIsFound(s, sub, i);
    }
  }

  /** Every string includes the empty string. */
  lemma EmptyIsContained(s: string)
    ensures Contains(s, "")
  {
    assert StartsWith(s, "");
  }

  /** A string that includes `p + q` includes `p`. */
  lemma {:induction false} ContainsPrefixOfNeedle(s: string, p: string, q: string)
    requires Contains(s, p + q)
    ensures Contains(s, p)
  {
    ContainsIffOccurs(s, p + q);
    var i :| OccursAt(s, p + q, i);
    assert s[i..i + |p|] == (p + q)[..|p|] == p;
    assert OccursAt(s, p, i);
    ContainsIffOccurs(s, p);
  }

  /** A string includes each of its own slices. */
  lemma ContainsSlice(s: string, i: nat, j: nat)
    requires i <= j <= |s|
    ensures Contains(s, s[i..j])
  {
    assert OccursAt(s, s[i..j], i);
    ContainsIffOccurs(s, s[i..j]);
  }

  // --------------------------------------------------------- split and join

  /** `parts.join(sep)`. */
  function Join(parts: seq<string>, sep: string): string
  {
    if |parts| == 0 then ""
    else if |parts| == 1 then parts[0]
    else parts[0] + sep + Join(parts[1..], sep)
  }

  /** `s.split(sep)` for a one-character separator; never empty. */
  function Split(s: string, sep: char): (r: seq<string>)
    ensures |r| >= 1
  {
    if s == [] then [""]
    else if s[0] == sep then [""] + Split(s[1..], sep)
    else var rest := Split(s[1..], sep); [[s[0]] + rest[0]] + rest[1..]
  }

  /** Splitting a separator-free string gives the string back as one part. */
  lemma {:induction false} SplitWithoutSeparator(s: string, sep: char)
    requires sep !in s
    ensures Split(s, sep) == [s]
  {
    if s != [] {
      SplitWithoutSeparator(s[1..], sep);
      assert [s[0]] + s[1..] == s;
    }
  }

  /** Splitting at the first separator yields the part before it and the split rest. */
  lemma {:induction false} SplitAtSeparator(a: string, sep: char, b: string)
    requires sep !in a
    ensures Split(a + [sep] + b, sep) == [a] + Split(b, sep)
  {
    if a == [] {
      assert a + [sep] + b == [sep] + b;
      assert ([sep] + b)[1..] == b;
    } else {
      SplitAtSeparator(a[1..], sep, b);
      assert (a + [sep] + b)[1..] == a[1..] + [sep] + b;
      assert [a[0]] + a[1..] == a;
    }
  }

  /** `split` undoes `join` when no part contains the separator. */
  lemma {:induction false} SplitJoin(parts: seq<string>, sep: char)
    requires |parts| >= 1
    requires forall k :: 0 <= k < |parts| ==> sep !in parts[k]
    ensures Split(Join(parts, [sep]), sep) == parts
  {
    if |parts| == 1 {
      SplitWithoutSeparator(parts[0], sep);
    } else {
      SplitJoin(parts[1..], sep);
      SplitAtSeparator(parts[0], sep, Join(parts[1..], [sep]));
      assert [parts[0]] + parts[1..] == parts;
    }
  }

  /** The text before the first separator, i.e. `s.split(sep)[0]`. */
  lemma {:induction false} SplitHead(a: string, sep: char, b: string)
    requires sep !in a
    ensures Split(a + [sep] + b, sep)[0] == a
  {
    SplitAtSeparator(a, sep, b);
  }

  /** `s.split(sep)[0]` is the text before the first separator, or all of `s` when there is none. */
  lemma SplitFirstField(s: string, sep: char)
    ensures sep !in s ==> Split(s, sep)[0] == s
    ensures forall i :: 0 <= i < |s| && s[i] == sep && sep !in s[..i] ==> Split(s, sep)[0] == s[..i]
  {
    if sep !in s {
      SplitWithoutSeparator(s, sep);
    }
    forall i | 0 <= i < |s| && s[i] == sep && sep !in s[..i]
      ensures Split(s, sep)[0] == s[..i]
    {
      assert s == s[..i] + [sep] + s[i + 1..];
      SplitHead(s[..i], sep, s[i + 1..]);
    }
  }

  /** `iso.split("T")[0]`: the date part of an ISO-8601 timestamp. */
  function DatePart(iso: string): string
  {
    Split(iso, 'T')[0]
  }

  /** The date part of `<date>T<time>` is `<date>`. */
  lemma DatePartOfTimestamp(date: string, time: string)
    requires 'T' !in date
    ensures DatePart(date + "T" + time) == date
  {
    SplitHead(date, 'T', time);
  }

  /** The number of occurrences of `c` in `s`. */
  function CountChar(s: string, c: char): nat
  {
    if s == [] then 0 else (if s[0] == c then 1 else 0) + CountChar(s[1..], c)
  }

  lemma {:induction false} CountCharAppend(a: string, b: string, c: char)
    ensures CountChar(a + b, c) == CountChar(a, c) + CountChar(b, c)
  {
    if a != [] {
      CountCharAppend(a[1..], b, c);
      assert (a + b)[1..] == a[1..] + b;
    } else {
      assert a + b == b;
    }
  }

  /** `s.split(sep)` has one part more than `s` has separators. */
  lemma {:induction false} SplitLength(s: string, sep: char)
    ensures |Split(s, sep)| == CountChar(s, sep) + 1
  {
    if s != [] {
      SplitLength(s[1..], sep);
    }
  }

  /** The occurrences of `c` inside the parts, summed. */
  function CountInParts(parts: seq<string>, c: char): nat
  {
    if parts == [] then 0 else CountChar(parts[0], c) + CountInParts(parts[1..], c)
  }

  /**
   * Splitting a join reads back one part per joined part plus one per
   * separator character hidden inside a part.
   */
  lemma {:induction false} SplitJoinLength(parts: seq<string>, sep: char)
    requires |parts| >= 1
    ensures |Split(Join(parts, [sep]), sep)| == |parts| + CountInParts(parts, sep)
  {
    SplitLength(Join(parts, [sep]), sep);
    JoinCount(parts, sep);
  }

  lemma {:induction false} JoinCount(parts: seq<string>, sep: char)
    requires |parts| >= 1
    ensures CountChar(Join(parts, [sep]), sep) == |parts| - 1 + CountInParts(parts, sep)
  {
    if |parts| == 1 {
      assert CountInParts(parts[1..], sep) == 0;
    } else {
      JoinCount(parts[1..], sep);
      CountCharAppend(parts[0] + [sep], Join(parts[1..], [sep]), sep);
      CountCharAppend(parts[0], [sep], sep);
      assert CountChar([sep], sep) == 1 by {
        assert [sep][1..] == [];
      }
    }
  }

  /** A joined text contains the separator only where the parts do. */
  lemma {:induction false} JoinHasNoOtherChar(parts: seq<string>, sep: string, c: char)
    requires c !in sep
    requires forall k :: 0 <= k < |parts| ==> c !in parts[k]
    ensures c !in Join(parts, sep)
  {
    if |parts| > 1 {
      JoinHasNoOtherChar(parts[1..], sep, c);
    }
  }

  /** The last character of a join is that of its last part. */
  lemma {:induction false} JoinEndsWithLastPart(parts: seq<string>, sep: string)
    requires |parts| >= 1 && |parts[|parts| - 1]| > 0
    ensures |Join(parts, sep)| > 0
    ensures Join(parts, sep)[|Join(parts, sep)| - 1] == parts[|parts| - 1][|parts[|parts| - 1]| - 1]
  {
    if |parts| > 1 {
      JoinEndsWithLastPart(parts[1..], sep);
    }
  }

  // ---------------------------------------------------- lexicographic order

  /** `a <= b` in code-unit lexicographic order. */
  predicate LexLe(a: string, b: string)
    decreases |a|
  {
    if a == [] then true
    else if b == [] then false
    else if a[0] != b[0] then a[0] < b[0]
    else LexLe(a[1..], b[1..])
  }

  /** Any two strings are ordered one way or the other. */
  lemma {:induction false} LexLeTotal(a: string, b: string)
    ensures LexLe(a, b) || LexLe(b, a)
    decreases |a|
  {
    if a != [] && b != [] && a[0] == b[0] {
      LexLeTotal(a[1..], b[1..]);
    }
  }

  lemma {:induction false} LexLeTransitive(a: string, b: string, c: string)
    requires LexLe(a, b) && LexLe(b, c)
    ensures LexLe(a, c)
    decreases |a|
  {
    if a != [] && b != [] && c != [] && a[0] == b[0] && b[0] == c[0] {
      LexLeTransitive(a[1..], b[1..], c[1..]);
    }
  }

  // ------------------------------------------------------------- slicing

  /** `s.slice(-k)` for `k > 0`: the last `k` characters, or all of `s` when shorter. */
  function SliceFromEnd(s: string, k: nat): (r: string)
    ensures |r| == if |s| < k then |s| else k
    ensures r == s[|s| - |r|..]
  {
    if |s| < k then s else s[|s| - k..]
  }

  /** `s.slice(0, k)` for `k >= 0`. */
  function Take(s: string, k: nat): (r: string)
    ensures |r| == if |s| < k then |s| else k
    ensures StartsWith(s, r)
  {
    if |s| < k then s else s[..k]
  }

  /** A character outside the Basic Multilingual Plane, which UTF-16 stores as a surrogate pair. */
  predicate IsAstral(c: char)
  {
    c as int >= 0x1_0000
  }

  /**
   * JavaScript's `s.length`: the number of UTF-16 code units, where a
   * character outside the Basic Multilingual Plane counts twice.
   */
  function Utf16Length(s: string): (n: nat)
    ensures |s| <= n <= 2 * |s|
    ensures (forall i :: 0 <= i < |s| ==> !IsAstral(s[i])) ==> n == |s|
  {
    if s == [] then 0 else (if IsAstral(s[0]) then 2 else 1) + Utf16Length(s[1..])
  }

  /** Decimal digits are one code unit each. */
  lemma DigitsUtf16Length(s: string)
    requires AllDigits(s)
    ensures Utf16Length(s) == |s|
  {
    assert forall i :: 0 <= i < |s| ==> IsDigit(s[i]) && !IsAstral(s[i]);
  }

  /** A string of three astral characters is six code units long. */
  lemma ThreeAstralsAreSixUnits()
    ensures |"\U{1F600}\U{1F600}\U{1F600}"| == 3
    ensures Utf16Length("\U{1F600}\U{1F600}\U{1F600}") == 6
  {
    var s := "\U{1F600}\U{1F600}\U{1F600}";
    assert IsAstral(s[0]) && s[1..] == "\U{1F600}\U{1F600}";
    assert s[1..][1..] == "\U{1F600}";
    assert s[1..][1..][1..] == "";
  }

  // ---------------------------------------------------------- whitespace

  /** JavaScript's WhiteSpace and LineTerminator characters, which `trim` removes. */
  predicate IsJsSpace(c: char)
  {
    c == ' ' || c == '\t' || c == '\n' || c == '\r' || c == '\U{000B}' || c == '\U{000C}'
    || c == '\U{00A0}' || c == '\U{1680}' || ('\U{2000}' <= c <= '\U{200A}')
    || c == '\U{2028}' || c == '\U{2029}' || c == '\U{202F}' || c == '\U{205F}'
    || c == '\U{3000}' || c == '\U{FEFF}'
  }

  /** `s.trim() === ""`: the string is empty or all whitespace. */
  predicate IsBlank(s: string)
  {
    forall i :: 0 <= i < |s| ==> IsJsSpace(s[i])
  }

  // ------------------------------------------------------ decimal numbers

  predicate IsDigit(c: char)
  {
    '0' <= c <= '9'
  }

  function DigitChar(d: nat): (c: char)
    requires d < 10
    ensures IsDigit(c) && c as int - '0' as int == d
  {
    ('0' as int + d) as char
  }

  /** `n.toString()` for a non-negative integer: decimal digits, no leading zero. */
  function DecimalString(n: nat): (r: string)
    ensures |r| >= 1
    ensures forall i :: 0 <= i < |r| ==> IsDigit(r[i])
    ensures n > 0 ==> r[0] != '0'
  {
    if n < 10 then [DigitChar(n)] else DecimalString(n / 10) + [DigitChar(n % 10)]
  }

  function Pow10(k: nat): (r: nat)
    ensures r >= 1
  {
    if k == 0 then 1 else 10 * Pow10(k - 1)
  }

  /** A number with `k` digits prints as exactly `k` characters. */
  lemma {:induction false} DecimalLength(n: nat, k: nat)
    requires k >= 1 && Pow10(k - 1) <= n < Pow10(k)
    ensures |DecimalString(n)| == k
  {
    if k > 1 {
      assert Pow10(k - 1) == 10 * Pow10(k - 2);
      DecimalLength(n / 10, k - 1);
    }
  }

  predicate AllDigits(s: string)
  {
    forall i :: 0 <= i < |s| ==> IsDigit(s[i])
  }

  /** The value of a string of decimal digits. */
  function DigitsValue(s: string): nat
    requires AllDigits(s)
  {
    if s == [] then 0
    else 10 * DigitsValue(s[..|s| - 1]) + (s[|s| - 1] as int - '0' as int)
  }

  /** Reading back what `toString` printed gives the number. */
  lemma {:induction false} DecimalRoundTrip(n: nat)
    ensures DigitsValue(DecimalString(n)) == n
  {
    var s := DecimalString(n);
    if n >= 10 {
      DecimalRoundTrip(n / 10);
      assert s[..|s| - 1] == DecimalString(n / 10);
    }
  }

  /** Different numbers print differently. */
  lemma DecimalInjective(m: nat, n: nat)
    requires DecimalString(m) == DecimalString(n)
    ensures m == n
  {
    DecimalRoundTrip(m);
    DecimalRoundTrip(n);
  }

  /** The result of JavaScript's `Number(s)`, for the strings this model reads. */
  datatype NumValue = Finite(value: int) | NaN

  /**
   * `Number(s)`: the empty string is 0, a run of decimal digits is its value,
   * a `-` or `+` followed by digits is the signed value, anything else is NaN.
   */
  function ToNumber(s: string): NumValue
  {
    if s == "" then Finite(0)
    else if AllDigits(s) then Finite(DigitsValue(s))
    else if |s| > 1 && s[0] == '-' && AllDigits(s[1..]) then Finite(-(DigitsValue(s[1..]) as int))
    else if |s| > 1 && s[0] == '+' && AllDigits(s[1..]) then Finite(DigitsValue(s[1..]))
    else NaN
  }

  /** `Number(n.toString()) === n` for non-negative integers. */
  lemma NumberOfDecimal(n: nat)
    ensures ToNumber(DecimalString(n)) == Finite(n)
  {
    DecimalRoundTrip(n);
  }

  /** `Number("-" + n.toString()) === -n`. */
  lemma NumberOfNegativeDecimal(n: nat)
    ensures ToNumber("-" + DecimalString(n)) == Finite(-(n as int))
  {
    var s := "-" + DecimalString(n);
    assert s[1..] == DecimalString(n);
    assert !IsDigit(s[0]);
    DecimalRoundTrip(n);
  }
}
