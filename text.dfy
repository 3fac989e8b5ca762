/**
 * Character classes and the handful of Python `str` operations the server relies on:
 * `isspace`, `strip`, `split()` (whitespace), `split(sep)`, `rsplit(sep, 1)`, `join`,
 * ASCII `lower`/`upper`, `startswith`, substring search and prefix truncation.
 */
module Text {

  datatype Option<+T> = None | Some(value: T)

  /** A value or the message of the exception the source raises instead. */
  datatype Result<+T> = Ok(value: T) | Err(error: string)

  type Byte = bv8

  /** Python's `str.isspace` (also what `\s` matches in a `str` regular expression). */
  predicate IsSpace(c: char)
  {
    var n := c as int;
    (0x09 <= n <= 0x0D) || (0x1C <= n <= 0x20) || n == 0x85 || n == 0xA0 || n == 0x1680
    || (0x2000 <= n <= 0x200A) || n == 0x2028 || n == 0x2029 || n == 0x202F || n == 0x205F
    || n == 0x3000
  }

  /** The Bengali Unicode block U+0980..U+09FF. */
  predicate IsBengali(c: char) { 0x0980 <= c as int <= 0x09FF }

  predicate IsAsciiLetter(c: char) { ('a' <= c <= 'z') || ('A' <= c <= 'Z') }

  predicate IsAsciiDigit(c: char) { '0' <= c <= '9' }

  /** Number of characters of `s` in the Bengali block. */
  function CountBengali(s: string): (n: nat)
    ensures n <= |s|
  {
    if s == [] then 0 else CountBengali(s[..|s| - 1]) + (if IsBengali(s[|s| - 1]) then 1 else 0)
  }

  /** Number of ASCII letters of `s`. */
  function CountAsciiLetters(s: string): (n: nat)
    ensures n <= |s|
  {
    if s == [] then 0 else CountAsciiLetters(s[..|s| - 1]) + (if IsAsciiLetter(s[|s| - 1]) then 1 else 0)
  }

  /** Number of leading whitespace characters. */
  function LeadingSpaces(s: string): (k: nat)
    ensures k <= |s|
    ensures k < |s| ==> !IsSpace(s[k])
  {
    if s == [] || !IsSpace(s[0]) then 0 else 1 + LeadingSpaces(s[1..])
  }

  /** Every character of the leading run is whitespace. */
  lemma {:induction false} LeadingSpacesAreSpaces(s: string)
    ensures forall i :: 0 <= i < LeadingSpaces(s) ==> IsSpace(s[i])
  {
    if s != [] && IsSpace(s[0]) {
      LeadingSpacesAreSpaces(s[1..]);
      assert forall i :: 1 <= i < |s| ==> s[i] == s[1..][i - 1];
    }
  }

  /** Number of trailing whitespace characters. */
  function TrailingSpaces(s: string): (k: nat)
    ensures k <= |s|
    ensures forall i :: |s| - k <= i < |s| ==> IsSpace(s[i])
    ensures k < |s| ==> !IsSpace(s[|s| - 1 - k])
  {
    if s == [] || !IsSpace(s[|s| - 1]) then 0 else 1 + TrailingSpaces(s[..|s| - 1])
  }

  /** Python `str.strip()`: the slice left after removing leading and trailing whitespace. */
  function Strip(s: string): (r: string)
    ensures |r| <= |s|
    ensures r != [] ==> !IsSpace(r[0]) && !IsSpace(r[|r| - 1])
    ensures LeadingSpaces(s) + |r| <= |s| && r == s[LeadingSpaces(s)..LeadingSpaces(s) + |r|]
  {
    if LeadingSpaces(s) == |s| then []
    else s[LeadingSpaces(s)..|s| - TrailingSpaces(s)]
  }

  /** What `strip` removes is whitespace. */
  lemma {:induction false} StripRemovesOnlySpaces(s: string)
    ensures forall j :: 0 <= j < LeadingSpaces(s) ==> IsSpace(s[j])
    ensures forall j :: LeadingSpaces(s) + |Strip(s)| <= j < |s| ==> IsSpace(s[j])
  {
    LeadingSpacesAreSpaces(s);
  }

  /** A text without whitespace at either end is its own `strip`. */
  lemma {:induction false} StripUnchanged(s: string)
    requires s != [] ==> !IsSpace(s[0]) && !IsSpace(s[|s| - 1])
    ensures Strip(s) == s
  {
    if s != [] {
      assert LeadingSpaces(s) == 0;
      assert TrailingSpaces(s) == 0;
    }
  }

  /** Length of the leading run of non-whitespace characters. */
  function WordLength(s: string): (k: nat)
    ensures k <= |s|
    ensures k < |s| ==> IsSpace(s[k])
  {
    if s == [] || IsSpace(s[0]) then 0 else 1 + WordLength(s[1..])
  }

  /** No character of the leading word is whitespace. */
  lemma {:induction false} WordLengthNonSpaces(s: string)
    ensures forall i :: 0 <= i < WordLength(s) ==> !IsSpace(s[i])
  {
    if s != [] && !IsSpace(s[0]) {
      WordLengthNonSpaces(s[1..]);
      assert forall i :: 1 <= i < |s| ==> s[i] == s[1..][i - 1];
    }
  }

  predicate IsWord(w: string) { w != [] && forall i :: 0 <= i < |w| ==> !IsSpace(w[i]) }

  /** Python `str.split()` with no argument: the maximal runs of non-whitespace characters. */
  function Words(s: string): seq<string>
    decreases |s|
  {
    var a := LeadingSpaces(s);
    if a == |s| then []
    else
      var t := s[a..];
      var k := WordLength(t);
      [t[..k]] + Words(t[k..])
  }

  /** Every piece `split()` returns is a non-empty run of non-whitespace characters. */
  lemma {:induction false} WordsAreWords(s: string)
    ensures forall i :: 0 <= i < |Words(s)| ==> IsWord(Words(s)[i])
    decreases |s|
  {
    var a := LeadingSpaces(s);
    if a < |s| {
      var t := s[a..];
      var k := WordLength(t);
      WordsAreWords(t[k..]);
      WordLengthNonSpaces(t);
      assert t[0] == s[a];
      var w := t[..k];
      assert forall i :: 0 <= i < |w| ==> w[i] == t[i];
      assert IsWord(w);
      assert Words(s) == [w] + Words(t[k..]);
    }
  }

  /** A whitespace prefix can be skipped before counting leading whitespace. */
  lemma {:induction false} LeadingSpacesShift(s: string, j: nat)
    requires j <= |s| && forall i :: 0 <= i < j ==> IsSpace(s[i])
    ensures LeadingSpaces(s) == j + LeadingSpaces(s[j..])
  {
    if j > 0 {
      LeadingSpacesShift(s[1..], j - 1);
      assert s[1..][j - 1..] == s[j..];
    }
  }

  /** `k` is the number of leading whitespace characters when it ends the whitespace prefix. */
  lemma {:induction false} LeadingSpacesUnique(s: string, k: nat)
    requires k <= |s| && (forall i :: 0 <= i < k ==> IsSpace(s[i])) && (k < |s| ==> !IsSpace(s[k]))
    ensures LeadingSpaces(s) == k
  {
    if k > 0 {
      assert forall i :: 0 <= i < k - 1 ==> s[1..][i] == s[i + 1];
      LeadingSpacesUnique(s[1..], k - 1);
    }
  }

  /** `k` is the length of the leading word when it ends the non-whitespace prefix. */
  lemma {:induction false} WordLengthUnique(s: string, k: nat)
    requires k <= |s| && (forall i :: 0 <= i < k ==> !IsSpace(s[i])) && (k < |s| ==> IsSpace(s[k]))
    ensures WordLength(s) == k
  {
    if k > 0 {
      assert forall i :: 0 <= i < k - 1 ==> s[1..][i] == s[i + 1];
      WordLengthUnique(s[1..], k - 1);
    }
  }

  /** A slice inside the first part of a concatenation. */
  lemma {:induction false} SliceOfAppend<T>(x: seq<T>, y: seq<T>, i: nat, j: nat)
    requires i <= j <= |x|
    ensures (x + y)[i..j] == x[i..j]
  {
    assert forall n :: 0 <= n < j - i ==> (x + y)[i..j][n] == x[i + n];
  }

  /** A suffix starting inside the first part of a concatenation. */
  lemma {:induction false} SuffixOfAppend<T>(x: seq<T>, y: seq<T>, i: nat)
    requires i <= |x|
    ensures (x + y)[i..] == x[i..] + y
  {
    assert forall n :: 0 <= n < |x| - i + |y| ==> (x + y)[i..][n] == (x[i..] + y)[n];
  }

  /** A text of whitespace only has no words. */
  lemma {:induction false} WordsOfSpaces(s: string)
    requires forall i :: 0 <= i < |s| ==> IsSpace(s[i])
    ensures Words(s) == []
  {
    LeadingSpacesUnique(s, |s|);
  }

  /** `a` spaces, then a word of length `k` that ends the text or is followed by whitespace. */
  lemma {:induction false} WordsFirst(s: string, a: nat, k: nat)
    requires 0 < k && a + k <= |s|
    requires forall i :: 0 <= i < a ==> IsSpace(s[i])
    requires forall i :: a <= i < a + k ==> !IsSpace(s[i])
    requires a + k < |s| ==> IsSpace(s[a + k])
    ensures Words(s) == [s[a..a + k]] + Words(s[a + k..])
  {
    LeadingSpacesUnique(s, a);
    var t := s[a..];
    assert forall i :: 0 <= i < |t| ==> t[i] == s[a + i];
    WordLengthUnique(t, k);
    assert t[..k] == s[a..a + k];
    assert t[k..] == s[a + k..];
  }

  /** The leading word of a text that has one. */
  lemma {:induction false} WordsHead(s: string) returns (a: nat, k: nat)
    requires LeadingSpaces(s) < |s|
    ensures a == LeadingSpaces(s) && k == WordLength(s[a..]) && 0 < k && a + k <= |s|
    ensures forall i :: 0 <= i < a ==> IsSpace(s[i])
    ensures forall i :: a <= i < a + k ==> !IsSpace(s[i])
    ensures a + k < |s| ==> IsSpace(s[a + k])
    ensures Words(s) == [s[a..a + k]] + Words(s[a + k..])
  {
    a := LeadingSpaces(s);
    var t := s[a..];
    k := WordLength(t);
    LeadingSpacesAreSpaces(s);
    WordLengthNonSpaces(t);
    assert forall i :: 0 <= i < |t| ==> t[i] == s[a + i];
    WordsFirst(s, a, k);
  }

  /** Leading whitespace does not change `split()`. */
  lemma {:induction false} WordsSkipLeading(s: string, j: nat)
    requires j <= |s| && forall i :: 0 <= i < j ==> IsSpace(s[i])
    ensures Words(s) == Words(s[j..])
  {
    if j == 0 {
      assert s[0..] == s;
    } else {
      WordsDropSpace(s);
      WordsSkipLeading(s[1..], j - 1);
      assert s[1..][j - 1..] == s[j..];
    }
  }

  /** One leading whitespace character does not change `split()`. */
  lemma {:induction false} WordsDropSpace(s: string)
    requires s != [] && IsSpace(s[0])
    ensures Words(s) == Words(s[1..])
  {
    var u := s[1..];
    var a := LeadingSpaces(s);
    assert a == 1 + LeadingSpaces(u);
    if a < |s| {
      var t := s[a..];
      assert u[a - 1..] == t;
      var k := WordLength(t);
      assert Words(s) == [t[..k]] + Words(t[k..]);
      assert Words(u) == [t[..k]] + Words(t[k..]);
    }
  }

  /** The first word of `x + y` when it lies in `x` and is followed by whitespace or the end of `x + y`. */
  lemma {:induction false} WordsFirstAppend(x: string, y: string, a: nat, k: nat)
    requires 0 < k && a + k <= |x|
    requires forall i :: 0 <= i < a ==> IsSpace(x[i])
    requires forall i :: a <= i < a + k ==> !IsSpace(x[i])
    requires a + k < |x| ==> IsSpace(x[a + k])
    requires a + k == |x| && y != [] ==> IsSpace(y[0])
    ensures Words(x + y) == [x[a..a + k]] + Words(x[a + k..] + y)
  {
    var s := x + y;
    assert forall i :: 0 <= i < |x| ==> s[i] == x[i];
    if a + k == |x| && y != [] {
      assert s[a + k] == y[0];
    }
    WordsFirst(s, a, k);
    SliceOfAppend(x, y, a, a + k);
    SuffixOfAppend(x, y, a + k);
    assert s[a + k..] == x[a + k..] + y;
    assert Words(s[a + k..]) == Words(x[a + k..] + y);
  }

  /** Trailing whitespace does not change `split()`. */
  lemma {:induction false} WordsAppendSpaces(x: string, y: string)
    requires forall i :: 0 <= i < |y| ==> IsSpace(y[i])
    ensures Words(x + y) == Words(x)
    decreases |x|
  {
    if LeadingSpaces(x) == |x| {
      var xy := x + y;
      LeadingSpacesAreSpaces(x);
      WordsOfSpaces(x);
      forall i | 0 <= i < |xy| ensures IsSpace(xy[i]) {
        if i >= |x| { assert xy[i] == y[i - |x|]; }
      }
      WordsOfSpaces(xy);
    } else {
      var a, k := WordsHead(x);
      if a + k == |x| && y != [] {
        assert IsSpace(y[0]);
      }
      WordsFirstAppend(x, y, a, k);
      WordsAppendSpaces(x[a + k..], y);
    }
  }

  /** What follows a position past the stripped text is whitespace. */
  lemma {:induction false} StripTail(s: string)
    ensures var j := LeadingSpaces(s) + |Strip(s)|;
      j <= |s| && forall i :: 0 <= i < |s[j..]| ==> IsSpace(s[j..][i])
  {
    var j := LeadingSpaces(s) + |Strip(s)|;
    StripRemovesOnlySpaces(s);
    forall i | 0 <= i < |s[j..]| ensures IsSpace(s[j..][i]) {
      assert s[j..][i] == s[j + i];
    }
  }

  /** `s.strip().split() == s.split()`. */
  lemma {:induction false} WordsOfStrip(s: string)
    ensures Words(Strip(s)) == Words(s)
  {
    var l := LeadingSpaces(s);
    var r := Strip(s);
    var tail := s[l + |r|..];
    LeadingSpacesAreSpaces(s);
    StripTail(s);
    WordsSkipLeading(s, l);
    assert s[l..] == r + tail;
    WordsAppendSpaces(r, tail);
    assert Words(s[l..]) == Words(r + tail);
  }

  lemma {:induction false} WordsOfWord(w: string)
    requires IsWord(w)
    ensures Words(w) == [w]
  {
    WordsFirst(w, 0, |w|);
    assert w[0..|w|] == w;
    assert w[|w|..] == [];
  }

  /** Splitting words joined by single spaces gives the words back. */
  lemma {:induction false} WordsOfJoin(ws: seq<string>)
    requires forall i :: 0 <= i < |ws| ==> IsWord(ws[i])
    ensures Words(Join(" ", ws)) == ws
  {
    WordsOfSpaceJoin(ws);
    WordsOfEachWord(ws);
  }

  lemma {:induction false} WordsOfEachWord(ws: seq<string>)
    requires forall i :: 0 <= i < |ws| ==> IsWord(ws[i])
    ensures WordsOfEach(ws) == ws
  {
    if ws != [] {
      WordsOfWord(ws[0]);
      WordsOfEachWord(ws[1..]);
      assert ws == [ws[0]] + ws[1..];
    }
  }

  /** A text followed by something that starts with whitespace splits into the words of each. */
  lemma {:induction false} WordsBeforeSpace(x: string, z: string)
    requires z != [] && IsSpace(z[0])
    ensures Words(x + z) == Words(x) + Words(z)
    decreases |x|
  {
    if LeadingSpaces(x) == |x| {
      LeadingSpacesAreSpaces(x);
      WordsAfterSpaces(x, z);
    } else {
      var a, k := WordsHead(x);
      WordsFirstAppend(x, z, a, k);
      var w, r := x[a..a + k], x[a + k..];
      WordsBeforeSpace(r, z);
      AppendAssoc([w], Words(r), Words(z));
    }
  }

  lemma {:induction false} AppendAssoc<T>(a: seq<T>, b: seq<T>, c: seq<T>)
    ensures a + (b + c) == (a + b) + c
  {
  }

  /** A whitespace-only prefix contributes no words. */
  lemma {:induction false} WordsAfterSpaces(x: string, z: string)
    requires forall i :: 0 <= i < |x| ==> IsSpace(x[i])
    ensures Words(x) == [] && Words(x + z) == Words(z)
  {
    var xz := x + z;
    WordsOfSpaces(x);
    assert forall i :: 0 <= i < |x| ==> xz[i] == x[i];
    WordsSkipLeading(xz, |x|);
    assert xz[|x|..] == z;
  }

  /** The words of each part, in order. */
  function WordsOfEach(parts: seq<string>): seq<string>
  {
    if parts == [] then [] else Words(parts[0]) + WordsOfEach(parts[1..])
  }

  /** Total number of whitespace-separated words over the parts. */
  function WordCountSum(parts: seq<string>): nat
  {
    if parts == [] then 0 else |Words(parts[0])| + WordCountSum(parts[1..])
  }

  /** `" ".join(parts).split()` is the concatenation of every part's `split()`. */
  lemma {:induction false} WordsOfSpaceJoin(parts: seq<string>)
    ensures Words(Join(" ", parts)) == WordsOfEach(parts)
    ensures |Words(Join(" ", parts))| == WordCountSum(parts)
  {
    if parts == [] {
    } else if |parts| == 1 {
      assert parts[1..] == [];
    } else {
      var rest := Join(" ", parts[1..]);
      AppendAssoc(parts[0], " ", rest);
      WordsBeforeSpace(parts[0], " " + rest);
      WordsSkipLeading(" " + rest, 1);
      assert (" " + rest)[1..] == rest;
      WordsOfSpaceJoin(parts[1..]);
    }
  }

  /** Python `sep.join(parts)`. */
  function Join(sep: string, parts: seq<string>): string
  {
    if parts == [] then []
    else if |parts| == 1 then parts[0]
    else parts[0] + sep + Join(sep, parts[1..])
  }

  /** Python `str.split(sep)` for a one-character separator: the pieces between separators. */
  function SplitOn(s: string, sep: char): (pieces: seq<string>)
    ensures |pieces| >= 1
    decreases |s|
  {
    if s == [] then [[]]
    else
      var rest := SplitOn(s[1..], sep);
      if s[0] == sep then [[]] + rest else [[s[0]] + rest[0]] + rest[1..]
  }

  lemma {:induction false} SplitOnWithoutSeparator(s: string, sep: char)
    requires forall i :: 0 <= i < |s| ==> s[i] != sep
    ensures SplitOn(s, sep) == [s]
    decreases |s|
  {
    if s != [] {
      SplitOnWithoutSeparator(s[1..], sep);
      assert [s[0]] + s[1..] == s;
    }
  }

  /** A one-character separator splits text joined with it back into the parts, when no part contains it. */
  lemma {:induction false} SplitOnJoin(parts: seq<string>, sep: char)
    requires parts != []
    requires forall i, k :: 0 <= i < |parts| && 0 <= k < |parts[i]| ==> parts[i][k] != sep
    ensures SplitOn(Join([sep], parts), sep) == parts
  {
    if |parts| == 1 {
      SplitOnWithoutSeparator(parts[0], sep);
    } else {
      SplitOnJoin(parts[1..], sep);
      SplitOnSeparated(parts[0], Join([sep], parts[1..]), sep);
      assert Join([sep], parts) == parts[0] + [sep] + Join([sep], parts[1..]);
      assert parts == [parts[0]] + parts[1..];
    }
  }

  lemma {:induction false} SplitOnSeparated(a: string, b: string, sep: char)
    requires forall k :: 0 <= k < |a| ==> a[k] != sep
    ensures SplitOn(a + [sep] + b, sep) == [a] + SplitOn(b, sep)
    decreases |a|
  {
    var s := a + [sep] + b;
    if a == [] {
      assert s[1..] == b;
    } else {
      assert s[1..] == a[1..] + [sep] + b;
      SplitOnSeparated(a[1..], b, sep);
      assert [a[0]] + a[1..] == a;
    }
  }

  /** Every part occurs in the joined text. */
  lemma {:induction false} JoinContains(sep: string, parts: seq<string>, i: nat)
    requires i < |parts|
    ensures Contains(Join(sep, parts), parts[i])
  {
    var j := Join(sep, parts);
    if i == 0 {
      if |parts| > 1 {
        assert j[0..|parts[0]|] == parts[0];
      } else {
        assert j[0..|parts[0]|] == parts[0];
      }
      assert OccursAt(j, parts[0], 0);
    } else {
      JoinContains(sep, parts[1..], i - 1);
      var rest := Join(sep, parts[1..]);
      var k :| 0 <= k <= |rest| - |parts[i]| && OccursAt(rest, parts[i], k);
      var head := parts[0] + sep;
      assert j == head + rest;
      OccursAtShift(head, rest, parts[i], k);
    }
  }

  lemma {:induction false} OccursAtShift(head: string, s: string, sub: string, k: int)
    requires OccursAt(s, sub, k)
    ensures OccursAt(head + s, sub, |head| + k)
  {
    assert (head + s)[|head| + k..|head| + k + |sub|] == s[k..k + |sub|];
  }

  /** `sub in s` and `s in t` give `sub in t`. */
  lemma {:induction false} ContainsWithin(sub: string, s: string, t: string)
    requires Contains(s, sub) && Contains(t, s)
    ensures Contains(t, sub)
  {
    var k :| 0 <= k <= |s| - |sub| && OccursAt(s, sub, k);
    var m :| 0 <= m <= |t| - |s| && OccursAt(t, s, m);
    forall x | 0 <= x < |sub| ensures t[m + k + x] == sub[x] {
      assert t[m..m + |s|][k + x] == s[k + x];
      assert s[k..k + |sub|][x] == sub[x];
    }
    assert t[m + k..m + k + |sub|] == sub;
    assert OccursAt(t, sub, m + k);
  }

  /** A string occurs in any string that has it as one of its concatenated pieces. */
  lemma {:induction false} ContainsPiece(a: string, b: string, c: string)
    ensures Contains(a + b + c, b)
  {
    assert (a + b + c)[|a|..|a| + |b|] == b;
    assert OccursAt(a + b + c, b, |a|);
  }

  function DigitChar(d: nat): char
    requires d < 10
  {
    (('0' as int) + d) as char
  }

  /** Python `str(n)` for a natural number: its decimal digits, most significant first. */
  function NatToString(n: nat): (s: string)
    ensures |s| >= 1 && forall i :: 0 <= i < |s| ==> '0' <= s[i] <= '9'
    ensures n < 10 ==> |s| == 1
    ensures n >= 10 ==> s[0] != '0'
  {
    if n < 10 then [DigitChar(n)] else NatToString(n / 10) + [DigitChar(n % 10)]
  }

  /** Index of the first occurrence of `c` in `s`, if any. */
  function IndexOf(s: string, c: char): (r: Option<nat>)
    ensures r.None? ==> forall i :: 0 <= i < |s| ==> s[i] != c
    ensures r.Some? ==> r.value < |s| && s[r.value] == c
                        && forall i :: 0 <= i < r.value ==> s[i] != c
  {
    if s == [] then None
    else if s[0] == c then Some(0)
    else match IndexOf(s[1..], c)
         case None => None
         case Some(k) => Some(k + 1)
  }

  /** Python `s.split(c, 1)[1]`: the text after the first `c` (`s` must contain one). */
  function AfterFirst(s: string, c: char): (r: string)
    requires IndexOf(s, c).Some?
    ensures |r| < |s| && r == s[IndexOf(s, c).value + 1..]
  {
    s[IndexOf(s, c).value + 1..]
  }

  /** Index of the last occurrence of `c` in `s`, if any. */
  function LastIndexOf(s: string, c: char): (r: Option<nat>)
    ensures r.None? ==> forall i :: 0 <= i < |s| ==> s[i] != c
    ensures r.Some? ==> r.value < |s| && s[r.value] == c
                        && forall i :: r.value < i < |s| ==> s[i] != c
  {
    if s == [] then None
    else if s[|s| - 1] == c then Some(|s| - 1)
    else LastIndexOf(s[..|s| - 1], c)
  }

  /** Python `s.split(c)[-1]`: the text after the last `c`, or all of `s` when there is none. */
  function AfterLast(s: string, c: char): (r: string)
    ensures forall i :: 0 <= i < |r| ==> r[i] != c
    ensures LastIndexOf(s, c).None? ==> r == s
    ensures LastIndexOf(s, c).Some? ==> r == s[LastIndexOf(s, c).value + 1..]
  {
    match LastIndexOf(s, c)
    case None => s
    case Some(i) => s[i + 1..]
  }

  /** Python `s.rsplit(c, 1)[0]`: the text before the last `c`, or all of `s` when there is none. */
  function BeforeLast(s: string, c: char): (r: string)
    ensures LastIndexOf(s, c).None? ==> r == s
    ensures LastIndexOf(s, c).Some? ==> r == s[..LastIndexOf(s, c).value]
  {
    match LastIndexOf(s, c)
    case None => s
    case Some(i) => s[..i]
  }

  function LowerChar(c: char): char
  {
    if 'A' <= c <= 'Z' then (c as int + 32) as char else c
  }

  function UpperChar(c: char): char
  {
    if 'a' <= c <= 'z' then (c as int - 32) as char else c
  }

  /** `str.lower()` on ASCII letters; every other character is kept. */
  function Lower(s: string): (r: string)
    ensures |r| == |s| && forall i :: 0 <= i < |s| ==> r[i] == LowerChar(s[i])
  {
    seq(|s|, i requires 0 <= i < |s| => LowerChar(s[i]))
  }

  /** `str.upper()` on ASCII letters; every other character is kept. */
  function Upper(s: string): (r: string)
    ensures |r| == |s| && forall i :: 0 <= i < |s| ==> r[i] == UpperChar(s[i])
  {
    seq(|s|, i requires 0 <= i < |s| => UpperChar(s[i]))
  }

  predicate StartsWith(s: string, prefix: string)
  {
    |prefix| <= |s| && s[..|prefix|] == prefix
  }

  /** Python `sub in s`. */
  predicate Contains(s: string, sub: string)
  {
    exists i :: 0 <= i <= |s| - |sub| && OccursAt(s, sub, i)
  }

  predicate OccursAt(s: string, sub: string, i: int)
  {
    0 <= i <= |s| - |sub| && s[i..i + |sub|] == sub
  }

  /** A text none of whose characters is `sub[k]` does not contain `sub`. */
  lemma {:induction false} MissingCharNotContained(s: string, sub: string, k: nat)
    requires k < |sub| && forall i :: 0 <= i < |s| ==> s[i] != sub[k]
    ensures !Contains(s, sub)
  {
    forall i | 0 <= i <= |s| - |sub| ensures !OccursAt(s, sub, i) {
      assert s[i..i + |sub|][k] == s[i + k];
    }
  }

  /** A text contains each of its prefixes. */
  lemma {:induction false} ContainsPrefix(prefix: string, rest: string)
    ensures Contains(prefix + rest, prefix)
  {
    assert (prefix + rest)[..|prefix|] == prefix;
    assert OccursAt(prefix + rest, prefix, 0);
  }

  /** The elements of `s` in reverse order (`list.reverse()`). */
  function Reverse<T>(s: seq<T>): (r: seq<T>)
    ensures |r| == |s|
  {
    seq(|s|, i requires 0 <= i < |s| => s[|s| - 1 - i])
  }

  /** A query's `skip`: all but the first `n` elements. */
  function Drop<T>(s: seq<T>, n: nat): (r: seq<T>)
    ensures |r| == if n < |s| then |s| - n else 0
  {
    if n < |s| then s[n..] else []
  }

  /**
   * Reversing, skipping `offset`, taking `limit` and reversing back selects the run of at
   * most `limit` elements that ends `offset` elements before the end.
   */
  lemma {:induction false} ReversedWindow<T>(s: seq<T>, limit: nat, offset: nat)
    ensures var hi := if offset < |s| then |s| - offset else 0;
      var lo := if limit < hi then hi - limit else 0;
      Reverse(Take(Drop(Reverse(s), offset), limit)) == s[lo..hi]
  {
    var page := Reverse(Take(Drop(Reverse(s), offset), limit));
    if offset < |s| {
      var lo := |s| - offset - |page|;
      assert lo == if limit < |s| - offset then |s| - offset - limit else 0;
      forall k | 0 <= k < |page| ensures page[k] == s[lo..|s| - offset][k] {
        ReversedWindowAt(s, limit, offset, k);
      }
    }
  }

  lemma {:induction false} ReversedWindowAt<T>(s: seq<T>, limit: nat, offset: nat, k: nat)
    requires offset < |s| && k < |Take(Drop(Reverse(s), offset), limit)|
    ensures var page := Reverse(Take(Drop(Reverse(s), offset), limit));
      page[k] == s[|s| - offset - |page| + k]
  {
    var rev := Reverse(s);
    var dropped := Drop(rev, offset);
    var taken := Take(dropped, limit);
    var j := |taken| - 1 - k;
    assert Reverse(taken)[k] == taken[j];
    assert taken[j] == dropped[j];
    assert dropped[j] == rev[offset + j];
  }

  /** A query's `take`: at most the first `n` elements. */
  function Take<T>(s: seq<T>, n: nat): (r: seq<T>)
    ensures |r| == if n < |s| then n else |s|
    ensures r == s[..|r|]
  {
    if n < |s| then s[..n] else s
  }

  /** `s[:n] + "..." if len(s) > n else s`: the preview the server shows of long texts. */
  function Preview(s: string, n: nat): (r: string)
    ensures |s| <= n ==> r == s
    ensures |s| > n ==> |r| == n + 3 && r[..n] == s[..n] && r[n..] == "..."
  {
    if |s| > n then s[..n] + "..." else s
  }

  /** Python `s[:k]` for an integer `k`, which counts from the end when negative. */
  function PyPrefix<T>(s: seq<T>, k: int): (r: seq<T>)
    ensures k >= 0 ==> |r| == if k < |s| then k else |s|
    ensures k < 0 ==> |r| == if |s| + k > 0 then |s| + k else 0
    ensures r == s[..|r|]
  {
    if k >= 0 then (if k < |s| then s[..k] else s)
    else (if |s| + k > 0 then s[..|s| + k] else [])
  }

  /** Python `s[-n:]`: the last `n` elements (all of them when there are fewer). */
  function LastN<T>(s: seq<T>, n: nat): (r: seq<T>)
    ensures |r| == if |s| < n then |s| else n
    ensures r == s[|s| - |r|..]
  {
    if |s| <= n then s else s[|s| - n..]
  }
}
