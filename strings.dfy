/**
 * Python `str` operations the server relies on, over `seq<char>`.
 * ASCII behaviour is written out; the parts of the Unicode database that
 * concern characters outside ASCII (case mappings, the alphanumeric and
 * cased properties, NFC) are left as uninterpreted tables.
 */
module Strings {
  import opened JsonValues

  // ---------------------------------------------------------------------
  // Unicode database entries for characters outside ASCII
  // ---------------------------------------------------------------------

  /** `c.lower()` and `c.upper()` / title case for a non-ASCII character. */
  const NonAsciiLower: char -> char
  const NonAsciiTitle: char -> char
  /** `c.isalnum()`, `c.isalpha()`, "is cased" and "is lowercase" for a non-ASCII character. */
  const NonAsciiAlnum: char -> bool
  const NonAsciiAlpha: char -> bool
  const NonAsciiCased: char -> bool
  const NonAsciiLowercase: char -> bool
  /** "is uppercase or titlecase" for a non-ASCII character. */
  const NonAsciiUpperOrTitle: char -> bool
  /** `unicodedata.normalize('NFC', s)`, and NFC after removing combining marks. */
  const Nfc: string -> string
  const NfcWithoutMarks: string -> string
  /** `urllib.parse.unquote` on text that contains a `%`. */
  const PercentDecode: string -> string

  // ---------------------------------------------------------------------
  // Characters
  // ---------------------------------------------------------------------

  predicate IsAsciiUpper(c: char) { 'A' <= c <= 'Z' }
  predicate IsAsciiLower(c: char) { 'a' <= c <= 'z' }
  predicate IsAsciiLetter(c: char) { IsAsciiUpper(c) || IsAsciiLower(c) }
  predicate IsDigit(c: char) { '0' <= c <= '9' }
  predicate IsAscii(c: char) { c as int < 128 }

  /** `c.isspace()`, which is also what `\s` matches in a `str` pattern. */
  predicate IsSpace(c: char)
  {
    ('\t' <= c <= '\r') || ('\U{1c}' <= c <= ' ') || c == '\U{85}' || c == '\U{a0}'
    || c == '\U{1680}' || ('\U{2000}' <= c <= '\U{200a}') || c == '\U{2028}' || c == '\U{2029}'
    || c == '\U{202f}' || c == '\U{205f}' || c == '\U{3000}'
  }

  /** What `\w` matches: letters and digits of any script, and `_`.
    * No whitespace character is alphanumeric. */
  predicate IsWordChar(c: char)
  {
    IsAsciiLetter(c) || IsDigit(c) || c == '_' || (!IsAscii(c) && !IsSpace(c) && NonAsciiAlnum(c))
  }

  /** A word character is never whitespace. */
  lemma WordCharIsNoSpace(c: char)
    requires IsWordChar(c)
    ensures !IsSpace(c)
  {
  }

  predicate IsAlpha(c: char) { IsAsciiLetter(c) || (!IsAscii(c) && NonAsciiAlpha(c)) }
  predicate IsCased(c: char) { IsAsciiLetter(c) || (!IsAscii(c) && NonAsciiCased(c)) }
  predicate IsLowercase(c: char) { IsAsciiLower(c) || (!IsAscii(c) && NonAsciiLowercase(c)) }
  predicate IsUpperOrTitle(c: char) { IsAsciiUpper(c) || (!IsAscii(c) && NonAsciiUpperOrTitle(c)) }

  function LowerChar(c: char): (r: char)
    ensures IsAscii(c) ==> IsAscii(r) && !IsAsciiUpper(r)
    ensures !IsAsciiLetter(c) && IsAscii(c) ==> r == c
  {
    if IsAsciiUpper(c) then (c as int + 32) as char
    else if IsAscii(c) then c
    else NonAsciiLower(c)
  }

  function TitleChar(c: char): char
  {
    if IsAsciiLower(c) then (c as int - 32) as char
    else if IsAscii(c) then c
    else NonAsciiTitle(c)
  }

  // ---------------------------------------------------------------------
  // Whole strings
  // ---------------------------------------------------------------------

  /** `s.lower()` (one character in, one character out). */
  function Lower(s: string): (r: string)
    ensures |r| == |s|
  {
    seq(|s|, i requires 0 <= i < |s| => LowerChar(s[i]))
  }

  /** `s.replace(a, b)` for single characters. */
  function ReplaceChar(s: string, a: char, b: char): (r: string)
    ensures |r| == |s|
  {
    seq(|s|, i requires 0 <= i < |s| => if s[i] == a then b else s[i])
  }

  /** The characters of `s` that satisfy `keep`, in order. */
  function Filter(s: string, keep: char -> bool): (r: string)
    ensures |r| <= |s|
    ensures forall i :: 0 <= i < |r| ==> keep(r[i])
    ensures (forall i :: 0 <= i < |s| ==> keep(s[i])) ==> r == s
  {
    if s == [] then []
    else (if keep(s[0]) then [s[0]] else []) + Filter(s[1..], keep)
  }

  /** `urllib.parse.unquote(s)`: text without a `%` comes back unchanged. */
  function Unquote(s: string): (r: string)
    ensures '%' !in s ==> r == s
  {
    if '%' in s then PercentDecode(s) else s
  }

  /** Drops the characters satisfying `p` from the front: the rest of `s`
    * from its first character that does not satisfy `p`. */
  function LStripBy(s: string, p: char -> bool): (r: string)
    ensures |r| <= |s|
    ensures r != [] ==> !p(r[0])
    ensures forall i :: 0 <= i < |s| - |r| ==> p(s[i])
  {
    if s != [] && p(s[0]) then LStripBy(s[1..], p) else s
  }

  /** What is left after stripping the front is a suffix. */
  lemma {:induction false} LStripBySuffix(s: string, p: char -> bool)
    ensures LStripBy(s, p) == s[|s| - |LStripBy(s, p)|..]
  {
    if s != [] && p(s[0]) {
      LStripBySuffix(s[1..], p);
    }
  }

  /** Drops the characters satisfying `p` from the back. */
  function RStripBy(s: string, p: char -> bool): (r: string)
    ensures |r| <= |s|
    ensures r != [] ==> !p(r[|r| - 1])
    ensures forall i :: |r| <= i < |s| ==> p(s[i])
  {
    if s != [] && p(s[|s| - 1]) then RStripBy(s[..|s| - 1], p) else s
  }

  /** What is left after stripping the back is a prefix. */
  lemma {:induction false} RStripByPrefix(s: string, p: char -> bool)
    ensures RStripBy(s, p) == s[..|RStripBy(s, p)|]
  {
    if s != [] && p(s[|s| - 1]) {
      RStripByPrefix(s[..|s| - 1], p);
    }
  }

  function StripBy(s: string, p: char -> bool): (r: string)
    ensures |r| <= |s|
    ensures r != [] ==> !p(r[0]) && !p(r[|r| - 1])
  {
    RStripByPrefix(LStripBy(s, p), p);
    LStripBySuffix(s, p);
    RStripBy(LStripBy(s, p), p)
  }

  /** `s.strip()`. */
  function Strip(s: string): (r: string)
    ensures |r| <= |s|
    ensures r != [] ==> !IsSpace(r[0]) && !IsSpace(r[|r| - 1])
  {
    StripBy(s, IsSpace)
  }

  /** Text with no ASCII capital and nothing outside ASCII is its own lower case. */
  lemma LowerKeeps(s: string)
    requires forall i :: 0 <= i < |s| ==> IsAscii(s[i]) && !IsAsciiUpper(s[i])
    ensures Lower(s) == s
  {
    assert forall i :: 0 <= i < |s| ==> Lower(s)[i] == s[i];
  }

  /** Text with no whitespace at either end is its own strip. */
  lemma StripKeeps(s: string)
    requires s != [] ==> !IsSpace(s[0]) && !IsSpace(s[|s| - 1])
    ensures Strip(s) == s
  {
    assert LStripBy(s, IsSpace) == s;
    assert RStripBy(s, IsSpace) == s;
  }

  lemma StripAllSpace(s: string)
    requires forall i :: 0 <= i < |s| ==> IsSpace(s[i])
    ensures Strip(s) == []
  {
    LStripBySuffix(s, IsSpace);
  }

  predicate StartsWith(s: string, prefix: string)
  {
    |prefix| <= |s| && s[..|prefix|] == prefix
  }

  predicate EndsWith(s: string, suffix: string)
  {
    |suffix| <= |s| && s[|s| - |suffix|..] == suffix
  }

  /** `sub in s`. */
  predicate Contains(s: string, sub: string)
    decreases |s|
  {
    StartsWith(s, sub) || (s != [] && Contains(s[1..], sub))
  }

  lemma ContainsAt(s: string, sub: string, i: nat)
    requires i + |sub| <= |s| && s[i..i + |sub|] == sub
    ensures Contains(s, sub)
    decreases i
  {
    if i > 0 {
      assert s[1..][i - 1..i - 1 + |sub|] == sub;
      ContainsAt(s[1..], sub, i - 1);
    }
  }

  /** A string in which the first character of `sub` never occurs does
    * not contain `sub`. */
  lemma {:induction false} NotContainsForeign(s: string, sub: string)
    requires sub != [] && sub[0] !in s
    ensures !Contains(s, sub)
    decreases |s|
  {
    if s != [] {
      assert sub[0] !in s[1..];
      NotContainsForeign(s[1..], sub);
      if |sub| <= |s| {
        assert s[..|sub|][0] == s[0];
      }
    }
  }

  // ---------------------------------------------------------------------
  // split / join
  // ---------------------------------------------------------------------

  /** `sep.join(parts)`. */
  function Join(parts: seq<string>, sep: char): string
  {
    if |parts| == 0 then ""
    else if |parts| == 1 then parts[0]
    else parts[0] + [sep] + Join(parts[1..], sep)
  }

  /** `sep.join(parts)` for a separator of any length. */
  function JoinWith(parts: seq<string>, sep: string): string
  {
    if |parts| == 0 then ""
    else if |parts| == 1 then parts[0]
    else parts[0] + sep + JoinWith(parts[1..], sep)
  }

  /** `s.split(sep)` for a one-character separator. */
  function Split(s: string, sep: char): (parts: seq<string>)
    ensures |parts| >= 1
    ensures forall i :: 0 <= i < |parts| ==> sep !in parts[i]
    decreases |s|
  {
    if s == [] then [""]
    else
      var rest := Split(s[1..], sep);
      if s[0] == sep then [""] + rest
      else [[s[0]] + rest[0]] + rest[1..]
  }

  /** Joining the pieces of a split gives the string back. */
  lemma {:induction false} JoinSplit(s: string, sep: char)
    ensures Join(Split(s, sep), sep) == s
    decreases |s|
  {
    if s != [] {
      var rest := Split(s[1..], sep);
      JoinSplit(s[1..], sep);
      if s[0] == sep {
        assert Split(s, sep) == [""] + rest;
        assert Join([""] + rest, sep) == "" + [sep] + Join(rest, sep);
        assert s == [s[0]] + s[1..];
      } else {
        var parts := [[s[0]] + rest[0]] + rest[1..];
        assert parts[1..] == rest[1..];
        if |rest| == 1 {
          assert Join(rest, sep) == rest[0];
        } else {
          assert Join(rest, sep) == rest[0] + [sep] + Join(rest[1..], sep);
        }
        assert s == [s[0]] + s[1..];
      }
    }
  }

  /** Splitting a join of separator-free pieces gives the pieces back. */
  lemma {:induction false} SplitJoin(parts: seq<string>, sep: char)
    requires |parts| >= 1
    requires forall i :: 0 <= i < |parts| ==> sep !in parts[i]
    ensures Split(Join(parts, sep), sep) == parts
    decreases |parts|, |parts[0]|
  {
    if |parts| == 1 {
      SplitNoSep(parts[0], sep);
    } else if parts[0] == [] {
      SplitJoin(parts[1..], sep);
      assert Join(parts, sep) == [sep] + Join(parts[1..], sep);
      assert ([sep] + Join(parts[1..], sep))[1..] == Join(parts[1..], sep);
      assert parts == [""] + parts[1..];
    } else {
      var p0 := parts[0];
      var shorter := [p0[1..]] + parts[1..];
      assert shorter[1..] == parts[1..];
      assert forall i :: 0 <= i < |shorter| ==> sep !in shorter[i] by {
        forall i | 0 <= i < |shorter| ensures sep !in shorter[i] {
          if i == 0 {
            assert forall k :: 0 <= k < |p0[1..]| ==> p0[1..][k] == p0[k + 1];
          } else {
            assert shorter[i] == parts[i];
          }
        }
      }
      SplitJoin(shorter, sep);
      var j := Join(parts, sep);
      assert j == p0 + [sep] + Join(parts[1..], sep);
      assert j[1..] == p0[1..] + [sep] + Join(parts[1..], sep);
      assert Join(shorter, sep) == j[1..];
      assert j[0] == p0[0] && p0[0] != sep;
      assert p0 == [p0[0]] + p0[1..];
    }
  }

  /** A split has more than one piece exactly when the separator occurs. */
  lemma {:induction false} SplitPieces(s: string, sep: char)
    ensures |Split(s, sep)| > 1 <==> sep in s
    decreases |s|
  {
    if sep !in s {
      SplitNoSep(s, sep);
    } else if s[0] != sep {
      assert s == [s[0]] + s[1..];
      assert sep in s[1..];
      SplitPieces(s[1..], sep);
    }
  }

  lemma {:induction false} SplitNoSep(s: string, sep: char)
    requires sep !in s
    ensures Split(s, sep) == [s]
    decreases |s|
  {
    if s != [] {
      assert sep !in s[1..];
      SplitNoSep(s[1..], sep);
      assert s == [s[0]] + s[1..];
    }
  }

  // ---------------------------------------------------------------------
  // Integers and their decimal text
  // ---------------------------------------------------------------------

  function DigitChar(d: nat): (c: char)
    requires d < 10
    ensures IsDigit(c)
  {
    ('0' as int + d) as char
  }

  function DigitValue(c: char): nat
    requires IsDigit(c)
  {
    c as int - '0' as int
  }

  /** `str(n)` for a natural number. */
  function NatToString(n: nat): (s: string)
    ensures |s| >= 1
    ensures forall i :: 0 <= i < |s| ==> IsDigit(s[i])
  {
    if n < 10 then [DigitChar(n)] else NatToString(n / 10) + [DigitChar(n % 10)]
  }

  /** `str(i)` for an integer. */
  function IntToString(i: int): string
  {
    if i < 0 then "-" + NatToString(-i) else NatToString(i)
  }

  /** The value of a digit string, read left to right (underscores between
    * digits, which `int()` allows, carry no value). */
  function DigitsValue(s: string): nat
    requires forall i :: 0 <= i < |s| ==> IsDigit(s[i]) || s[i] == '_'
  {
    if s == [] then 0
    else if s[|s| - 1] == '_' then DigitsValue(s[..|s| - 1])
    else DigitsValue(s[..|s| - 1]) * 10 + DigitValue(s[|s| - 1])
  }

  /** The digit part accepted by `int()`: digits, with single underscores
    * allowed between two digits. */
  predicate DigitGroups(s: string)
  {
    s != [] && IsDigit(s[0]) && IsDigit(s[|s| - 1])
    && (forall i :: 0 <= i < |s| ==> IsDigit(s[i]) || s[i] == '_')
    && (forall i :: 0 <= i < |s| - 1 ==> !(s[i] == '_' && s[i + 1] == '_'))
  }

  /** `int(s)` for a `str` argument: surrounding whitespace, an optional
    * sign and decimal digit groups; None where Python raises ValueError. */
  function ParseInt(s: string): (r: Option<int>)
    ensures r.Some? ==> Strip(s) != []
  {
    var t := Strip(s);
    if t == [] then None
    else
      var neg := t[0] == '-';
      var body := if t[0] == '-' || t[0] == '+' then t[1..] else t;
      if !DigitGroups(body) then None
      else if neg then Some(-(DigitsValue(body) as int))
      else Some(DigitsValue(body))
  }

  lemma {:induction false} DigitsValueOfNatToString(n: nat)
    ensures DigitsValue(NatToString(n)) == n
  {
    if n >= 10 {
      DigitsValueOfNatToString(n / 10);
      var s := NatToString(n);
      assert s[..|s| - 1] == NatToString(n / 10);
    }
  }

  /** Text that starts and ends outside `p` is left alone by `StripBy`. */
  lemma StripByNoop(s: string, p: char -> bool)
    requires s != [] && !p(s[0]) && !p(s[|s| - 1])
    ensures StripBy(s, p) == s
  {
  }

  lemma DigitsAreGroups(d: string)
    requires d != [] && forall i :: 0 <= i < |d| ==> IsDigit(d[i])
    ensures DigitGroups(d)
  {
  }

  lemma IntToStringIsStripped(i: int)
    ensures Strip(IntToString(i)) == IntToString(i)
  {
    var s := IntToString(i);
    var digits := NatToString(if i < 0 then -i else i);
    assert s[|s| - 1] == digits[|digits| - 1];
    assert IsDigit(s[|s| - 1]);
    assert s[0] == '-' || IsDigit(s[0]);
    StripByNoop(s, IsSpace);
  }

  /** `int(str(i)) == i`. */
  lemma ParseIntOfIntToString(i: int)
    ensures ParseInt(IntToString(i)) == Some(i)
  {
    if i < 0 {
      ParseIntOfNegative(i);
    } else {
      ParseIntOfNonNegative(i);
    }
  }

  lemma ParseIntOfNegative(i: int)
    requires i < 0
    ensures ParseInt(IntToString(i)) == Some(i)
  {
    var digits := NatToString(-i);
    DigitsValueOfNatToString(-i);
    DigitsAreGroups(digits);
    IntToStringIsStripped(i);
    var s := IntToString(i);
    assert s[0] == '-' && s[1..] == digits;
  }

  lemma ParseIntOfNonNegative(i: int)
    requires i >= 0
    ensures ParseInt(IntToString(i)) == Some(i)
  {
    var digits := NatToString(i);
    DigitsValueOfNatToString(i);
    DigitsAreGroups(digits);
    IntToStringIsStripped(i);
    assert IntToString(i) == digits && IsDigit(digits[0]);
  }

  // ---------------------------------------------------------------------
  // Sequences
  // ---------------------------------------------------------------------

  /** `s[:n]`, a negative `n` counting from the end. */
  function SliceTo<T>(s: seq<T>, n: int): (r: seq<T>)
    ensures n >= |s| ==> r == s
    ensures 0 <= n ==> |r| <= n
    ensures |r| == if n >= |s| then |s| else if n >= 0 then n else if |s| + n >= 0 then |s| + n else 0
    ensures |r| <= |s| && r == s[..|r|]
  {
    if n >= |s| then s
    else if n >= 0 then s[..n]
    else if |s| + n >= 0 then s[..|s| + n]
    else []
  }

  predicate NoDuplicates<T(==)>(s: seq<T>)
  {
    forall i, j :: 0 <= i < j < |s| ==> s[i] != s[j]
  }

  /** `list(dict.fromkeys(s))`: the first occurrence of every element, in order. */
  function Dedup<T(==,!new)>(s: seq<T>): (r: seq<T>)
    ensures NoDuplicates(r)
    ensures forall x :: x in r <==> x in s
    ensures |r| <= |s|
  {
    if s == [] then []
    else
      var d := Dedup(s[..|s| - 1]);
      var last := s[|s| - 1];
      assert forall x :: x in s <==> x in s[..|s| - 1] || x == last by {
        assert s == s[..|s| - 1] + [last];
      }
      if last in d then d else d + [last]
  }

  // ---------------------------------------------------------------------
  // Regular-expression passes over one character class
  // ---------------------------------------------------------------------

  /** No two neighbouring characters both satisfy `p`. */
  predicate NoAdjacent(s: string, p: char -> bool)
  {
    forall i :: 0 <= i < |s| - 1 ==> !(p(s[i]) && p(s[i + 1]))
  }

  /** `re.sub(C + '+', rep, s)` for a one-character class `C` given as `p`:
    * every maximal run of characters satisfying `p` becomes `rep`, and every
    * other character is kept. */
  function SubRuns(s: string, p: char -> bool, rep: string): (r: string)
    ensures s != [] && !p(s[0]) ==> r != [] && r[0] == s[0]
    ensures rep != [] ==> (s == [] <==> r == [])
    ensures |rep| <= 1 ==> |r| <= |s|
    decreases |s|
  {
    if s == [] then []
    else if p(s[0]) then
      var rest := LStripBy(s, p);
      assert |rest| < |s|;
      rep + SubRuns(rest, p, rep)
    else [s[0]] + SubRuns(s[1..], p, rep)
  }

  /** A run replaced by one character of the class leaves no two class
    * characters side by side. */
  lemma {:induction false} SubRunsNoAdjacent(s: string, p: char -> bool, rep: string)
    requires |rep| == 1 && p(rep[0])
    ensures NoAdjacent(SubRuns(s, p, rep), p)
    decreases |s|
  {
    if s != [] {
      if p(s[0]) {
        var rest := LStripBy(s, p);
        SubRunsNoAdjacent(rest, p, rep);
        var tail := SubRuns(rest, p, rep);
        assert SubRuns(s, p, rep) == rep + tail;
      } else {
        SubRunsNoAdjacent(s[1..], p, rep);
        var tail := SubRuns(s[1..], p, rep);
        assert SubRuns(s, p, rep) == [s[0]] + tail;
      }
    }
  }

  /** Text without a character of the class is left as it is. */
  lemma {:induction false} SubRunsNoop(s: string, p: char -> bool, rep: string)
    requires forall i :: 0 <= i < |s| ==> !p(s[i])
    ensures SubRuns(s, p, rep) == s
    decreases |s|
  {
    if s != [] {
      SubRunsNoop(s[1..], p, rep);
    }
  }

  /** `re.sub(pat, '', s)` for a non-empty literal pattern: occurrences are
    * removed left to right without overlapping. */
  function RemoveAll(s: string, pat: string): (r: string)
    requires pat != []
    ensures |r| <= |s|
    ensures !Contains(s, pat) ==> r == s
    decreases |s|
  {
    if |s| < |pat| then
      NotContainsShort(s, pat);
      s
    else if s[..|pat|] == pat then RemoveAll(s[|pat|..], pat)
    else [s[0]] + RemoveAll(s[1..], pat)
  }

  /** Removing occurrences keeps a property of every character. */
  lemma {:induction false} RemoveAllAll(s: string, pat: string, q: char -> bool)
    requires pat != [] && All(s, q)
    ensures All(RemoveAll(s, pat), q)
    decreases |s|
  {
    if |s| >= |pat| {
      if s[..|pat|] == pat {
        assert forall i :: 0 <= i < |s[|pat|..]| ==> s[|pat|..][i] == s[|pat| + i];
        RemoveAllAll(s[|pat|..], pat, q);
      } else {
        assert forall i :: 0 <= i < |s[1..]| ==> s[1..][i] == s[1 + i];
        RemoveAllAll(s[1..], pat, q);
      }
    }
  }

  /** Filtering keeps a property of every character. */
  lemma {:induction false} FilterAll(s: string, keep: char -> bool, q: char -> bool)
    requires All(s, q)
    ensures All(Filter(s, keep), q)
    decreases |s|
  {
    if s != [] {
      assert forall i :: 0 <= i < |s[1..]| ==> s[1..][i] == s[1 + i];
      FilterAll(s[1..], keep, q);
    }
  }

  lemma {:induction false} NotContainsShort(s: string, sub: string)
    requires |s| < |sub|
    ensures !Contains(s, sub)
    decreases |s|
  {
    if s != [] {
      NotContainsShort(s[1..], sub);
    }
  }

  /** A prefix of a suffix is a slice. */
  lemma PrefixOfSuffix(s: string, k: nat, n: nat)
    requires k <= |s| && n <= |s| - k
    ensures s[k..][..n] == s[k..k + n]
  {
  }

  /** A stripped string is a contiguous piece of the original. */
  lemma StripByInfix(s: string, p: char -> bool) returns (k: nat)
    ensures k + |StripBy(s, p)| <= |s| && StripBy(s, p) == s[k..k + |StripBy(s, p)|]
  {
    var l := LStripBy(s, p);
    LStripBySuffix(s, p);
    k := |s| - |l|;
    var r := RStripBy(l, p);
    RStripByPrefix(l, p);
    PrefixOfSuffix(s, k, |r|);
  }

  /** Every character of `s` satisfies `q`. */
  predicate All(s: string, q: char -> bool)
  {
    forall i :: 0 <= i < |s| ==> q(s[i])
  }

  /** Stripping keeps a property of every character. */
  lemma StripByAll(s: string, p: char -> bool, q: char -> bool)
    requires All(s, q)
    ensures All(StripBy(s, p), q)
  {
    var r := StripBy(s, p);
    var k := StripByInfix(s, p);
    forall i | 0 <= i < |r| ensures q(r[i]) {
      assert r[i] == s[k + i];
    }
  }

  /** Stripping keeps the absence of neighbours of a class. */
  lemma StripByNoAdjacent(s: string, p: char -> bool, q: char -> bool)
    requires NoAdjacent(s, q)
    ensures NoAdjacent(StripBy(s, p), q)
  {
    var r := StripBy(s, p);
    var k := StripByInfix(s, p);
    forall i | 0 <= i < |r| - 1 ensures !(q(r[i]) && q(r[i + 1])) {
      assert r[i] == s[k + i] && r[i + 1] == s[k + i + 1];
    }
  }

  /** When the replacement and every character outside the class satisfy
    * `q`, so does every character of the run substitution. */
  lemma {:induction false} SubRunsAll(s: string, p: char -> bool, rep: string, q: char -> bool)
    requires All(rep, q)
    requires forall i :: 0 <= i < |s| ==> p(s[i]) || q(s[i])
    ensures All(SubRuns(s, p, rep), q)
    decreases |s|
  {
    if s != [] {
      var rest := if p(s[0]) then LStripBy(s, p) else s[1..];
      var head := if p(s[0]) then rep else [s[0]];
      LStripBySuffix(s, p);
      assert rest == s[|s| - |rest|..];
      assert forall i :: 0 <= i < |rest| ==> rest[i] == s[|s| - |rest| + i];
      SubRunsAll(rest, p, rep, q);
      assert SubRuns(s, p, rep) == head + SubRuns(rest, p, rep);
    }
  }

  /** Python's `str.title()`: a character after a cased one is lowercased,
    * any other is titlecased. */
  function Title(s: string, afterCased: bool): (r: string)
    ensures |r| == |s|
    decreases |s|
  {
    if s == [] then []
    else [if afterCased then LowerChar(s[0]) else TitleChar(s[0])] + Title(s[1..], IsCased(s[0]))
  }

  /** Title-casing changes only letters: an ASCII character that is not a
    * letter keeps its place. */
  lemma {:induction false} TitleKeepsNonLetters(s: string, afterCased: bool)
    ensures forall i :: 0 <= i < |s| && IsAscii(s[i]) && !IsAsciiLetter(s[i]) ==> Title(s, afterCased)[i] == s[i]
    decreases |s|
  {
    if s != [] {
      var rest := Title(s[1..], IsCased(s[0]));
      TitleKeepsNonLetters(s[1..], IsCased(s[0]));
      assert Title(s, afterCased)[1..] == rest;
    }
  }

  /** `s.islower()`: no uppercase or titlecase character, and at least one lowercase one. */
  predicate IsLowerText(s: string)
  {
    (forall i :: 0 <= i < |s| ==> !IsUpperOrTitle(s[i])) && (exists i :: 0 <= i < |s| && IsLowercase(s[i]))
  }

  /** `len(s.split())`: the number of maximal runs of non-whitespace characters. */
  function WordCount(s: string): nat
    decreases |s|
  {
    if s == [] then 0
    else if IsSpace(s[0]) then WordCount(s[1..])
    else 1 + WordCount(LStripBy(s, c => !IsSpace(c)))
  }
}
