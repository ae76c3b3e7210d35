/**
 * The JavaScript string operations the services rely on: truthiness of a
 * string, `trim`, `split(',')`, `toLowerCase`, `charAt(0).toUpperCase()`,
 * `includes` and `slice`.  JavaScript strings are sequences of UTF-16 code
 * units; here a `char` stands for one code unit.
 */
module JsText {
  import opened Wrappers

  /** A string value is truthy in JavaScript iff it is present and non-empty. */
  predicate Truthy(s: Option<string>) {
    s.Some? && s.value != ""
  }

  /** `s || fallback` for a value that is a string or absent. */
  function Or(s: Option<string>, fallback: string): (r: string)
    ensures Truthy(s) ==> r == s.value
    ensures !Truthy(s) ==> r == fallback
  {
    if Truthy(s) then s.value else fallback
  }

  // ---------------------------------------------------------------- trim

  /**
   * The characters `String.prototype.trim` removes: ECMAScript WhiteSpace
   * (tab, vertical tab, form feed, space, no-break space, byte order mark
   * and the Unicode space separators) and LineTerminator (LF, CR, LS, PS).
   */
  predicate IsWhitespace(c: char) {
    var n := c as int;
    n == 0x09 || n == 0x0A || n == 0x0B || n == 0x0C || n == 0x0D ||
    n == 0x20 || n == 0xA0 || n == 0x1680 || (0x2000 <= n <= 0x200A) ||
    n == 0x2028 || n == 0x2029 || n == 0x202F || n == 0x205F ||
    n == 0x3000 || n == 0xFEFF
  }

  /** Every character of `s` from index `lo` up to (not including) `hi` is whitespace. */
  predicate BlankBetween(s: string, lo: int, hi: int)
    requires 0 <= lo && hi <= |s|
  {
    forall k :: lo <= k < hi ==> IsWhitespace(s[k])
  }

  /** Neither end of `s` is a whitespace character. */
  predicate Trimmed(s: string) {
    s == [] || (!IsWhitespace(s[0]) && !IsWhitespace(s[|s| - 1]))
  }

  /** The index of the first non-whitespace character at or after `i`, or `|s|`. */
  function SkipBlanks(s: string, i: nat): (j: nat)
    requires i <= |s|
    ensures i <= j <= |s|
    ensures BlankBetween(s, i, j)
    ensures j < |s| ==> !IsWhitespace(s[j])
    decreases |s| - i
  {
    if i < |s| && IsWhitespace(s[i]) then SkipBlanks(s, i + 1) else i
  }

  /** The index just after the last non-whitespace character before `j` and not before `lo`, or `lo`. */
  function BackBlanks(s: string, lo: nat, j: nat): (k: nat)
    requires lo <= j <= |s|
    ensures lo <= k <= j
    ensures BlankBetween(s, k, j)
    ensures k > lo ==> !IsWhitespace(s[k - 1])
    decreases j
  {
    if j > lo && IsWhitespace(s[j - 1]) then BackBlanks(s, lo, j - 1) else j
  }

  /** `r` is `s[i..]` with only whitespace cut from both ends. */
  predicate CutFrom(s: string, r: string, i: int) {
    0 <= i <= |s| - |r| && r == s[i..i + |r|] && BlankBetween(s, 0, i) && BlankBetween(s, i + |r|, |s|)
  }

  /**
   * `s.trim()`: the infix of `s` left after removing whitespace at both
   * ends; only whitespace was removed and none is left at either end.
   */
  function Trim(s: string): (r: string)
    ensures CutFrom(s, r, SkipBlanks(s, 0))
    ensures Trimmed(r)
  {
    var i := SkipBlanks(s, 0);
    var j := BackBlanks(s, i, |s|);
    s[i..j]
  }

  /** Trimming keeps no character that was not in the string. */
  lemma TrimKeepsCharacters(s: string, c: char)
    requires c in Trim(s)
    ensures c in s
  {
    var r := Trim(s);
    var i := SkipBlanks(s, 0);
    var k :| 0 <= k < |r| && r[k] == c;
    assert s[i + k] == c;
  }

  lemma TrimLeavesTrimmed(s: string)
    requires Trimmed(s)
    ensures Trim(s) == s
  {
  }

  /** Trimming twice is trimming once. */
  lemma TrimIdempotent(s: string)
    ensures Trim(Trim(s)) == Trim(s)
  {
    TrimLeavesTrimmed(Trim(s));
  }

  /** `xs.map(v => v.trim())`. */
  function TrimAll(xs: seq<string>): (r: seq<string>)
    ensures |r| == |xs|
    ensures forall i :: 0 <= i < |xs| ==> r[i] == Trim(xs[i])
  {
    seq(|xs|, i requires 0 <= i < |xs| => Trim(xs[i]))
  }

  // ---------------------------------------------------------- split, join

  /**
   * `s.split(sep)` for a one-character separator: the pieces between
   * separators, at least one, none containing the separator.
   */
  function Split(s: string, sep: char): (r: seq<string>)
    ensures |r| >= 1
    ensures forall i :: 0 <= i < |r| ==> sep !in r[i]
  {
    if s == [] then [""]
    else
      var rest := Split(s[1..], sep);
      if s[0] == sep then [""] + rest
      else [[s[0]] + rest[0]] + rest[1..]
  }

  /** `parts.join(sep)`. */
  function Join(parts: seq<string>, sep: char): string {
    if |parts| == 0 then ""
    else if |parts| == 1 then parts[0]
    else parts[0] + [sep] + Join(parts[1..], sep)
  }

  /** Splitting and joining back gives the original string. */
  lemma {:induction false} JoinSplit(s: string, sep: char)
    ensures Join(Split(s, sep), sep) == s
  {
    if s != [] {
      var rest := Split(s[1..], sep);
      JoinSplit(s[1..], sep);
      if s[0] == sep {
        assert Split(s, sep) == [""] + rest;
        assert ([""] + rest)[1..] == rest;
      } else {
        var r := Split(s, sep);
        assert r == [[s[0]] + rest[0]] + rest[1..];
        if |rest| > 1 {
          assert r[1..] == rest[1..];
          assert Join(rest, sep) == rest[0] + [sep] + Join(rest[1..], sep);
        }
      }
    }
  }

  /** Splitting `a + t` where `a` holds no separator glues `a` onto the first piece. */
  lemma {:induction false} SplitGluesPrefix(a: string, t: string, sep: char)
    requires sep !in a
    ensures Split(a + t, sep) == [a + Split(t, sep)[0]] + Split(t, sep)[1..]
  {
    if a != [] {
      SplitGluesPrefix(a[1..], t, sep);
      var r := Split(t, sep);
      assert (a + t)[1..] == a[1..] + t;
      assert (a + t)[0] == a[0] != sep;
      assert [a[0]] + (a[1..] + r[0]) == a + r[0];
    } else {
      assert a + t == t;
      var r := Split(t, sep);
      assert a + r[0] == r[0];
      assert r == [r[0]] + r[1..];
    }
  }

  /** Joining separator-free pieces and splitting again gives the pieces back. */
  lemma {:induction false} SplitJoin(parts: seq<string>, sep: char)
    requires |parts| >= 1
    requires forall i :: 0 <= i < |parts| ==> sep !in parts[i]
    ensures Split(Join(parts, sep), sep) == parts
  {
    if |parts| == 1 {
      SplitGluesPrefix(parts[0], "", sep);
      assert parts[0] + "" == parts[0];
      assert Split("", sep) == [""];
      assert parts == [parts[0]];
    } else {
      var tail := Join(parts[1..], sep);
      SplitJoin(parts[1..], sep);
      SplitGluesPrefix(parts[0], [sep] + tail, sep);
      assert parts[0] + [sep] + tail == parts[0] + ([sep] + tail);
      assert ([sep] + tail)[1..] == tail;
      assert parts[0] + Split([sep] + tail, sep)[0] == parts[0] + "" == parts[0];
      assert Split([sep] + tail, sep) == [""] + parts[1..];
      assert parts == [parts[0]] + parts[1..];
    }
  }

  // ------------------------------------------------------------------ case

  /** `toLowerCase` on one code unit (ASCII letters only). */
  function LowerChar(c: char): char {
    if 'A' <= c <= 'Z' then (c as int + 32) as char else c
  }

  /** `toUpperCase` on one code unit (ASCII letters only). */
  function UpperChar(c: char): char {
    if 'a' <= c <= 'z' then (c as int - 32) as char else c
  }

  /** `s.toLowerCase()`: same length, each code unit lower-cased. */
  function Lower(s: string): (r: string)
    ensures |r| == |s|
    ensures forall i :: 0 <= i < |s| ==> r[i] == LowerChar(s[i])
  {
    seq(|s|, i requires 0 <= i < |s| => LowerChar(s[i]))
  }

  /** `s.charAt(0).toUpperCase() + s.slice(1)`. */
  function Capitalize(s: string): (r: string)
    ensures |r| == |s|
    ensures s != [] ==> r[0] == UpperChar(s[0])
    ensures forall i :: 1 <= i < |s| ==> r[i] == s[i]
  {
    var first := if s == [] then "" else [s[0]];
    Upper(first) + SliceFrom(s, 1)
  }

  function Upper(s: string): (r: string)
    ensures |r| == |s|
    ensures forall i :: 0 <= i < |s| ==> r[i] == UpperChar(s[i])
  {
    seq(|s|, i requires 0 <= i < |s| => UpperChar(s[i]))
  }

  // -------------------------------------------------------------- includes

  /** `needle` occurs in `hay` starting at offset `i`. */
  predicate OccursAt(hay: string, needle: string, i: int) {
    0 <= i && i + |needle| <= |hay| && hay[i..i + |needle|] == needle
  }

  /**
   * `hay.includes(needle)`: the empty needle is in every string, and a
   * needle longer than the string is in none (`IncludesIff` states the
   * rest).
   */
  function Includes(hay: string, needle: string): (b: bool)
    ensures needle == [] ==> b
    ensures b ==> |needle| <= |hay|
  {
    if |needle| <= |hay| && hay[..|needle|] == needle then true
    else if hay == [] then false
    else Includes(hay[1..], needle)
  }

  /** `Includes` holds exactly when `needle` occurs in `hay` at some offset. */
  lemma {:induction false} IncludesIff(hay: string, needle: string)
    ensures Includes(hay, needle) <==> exists i :: OccursAt(hay, needle, i)
  {
    var n := |needle|;
    if n <= |hay| && hay[..n] == needle {
      assert OccursAt(hay, needle, 0);
    } else if hay != [] {
      IncludesIff(hay[1..], needle);
      if Includes(hay[1..], needle) {
        var i :| OccursAt(hay[1..], needle, i);
        assert hay[1..][i..i + n] == hay[i + 1..i + 1 + n];
        assert OccursAt(hay, needle, i + 1);
      }
      if exists i :: OccursAt(hay, needle, i) {
        var i :| OccursAt(hay, needle, i);
        assert i != 0;
        assert hay[1..][i - 1..i - 1 + n] == hay[i..i + n];
        assert OccursAt(hay[1..], needle, i - 1);
      }
    } else {
      assert forall i :: !OccursAt(hay, needle, i);
    }
  }

  // ----------------------------------------------------------------- slice

  /** How `String.prototype.slice` resolves an index: negative counts from the end, then clamped to `[0, n]`. */
  function SliceIndex(i: int, n: nat): (k: nat)
    ensures k <= n
    ensures 0 <= i <= n ==> k == i
    ensures i < 0 && n + i >= 0 ==> k == n + i
    ensures i > n ==> k == n
    ensures i < 0 && n + i < 0 ==> k == 0
  {
    if i < 0 then (if n + i < 0 then 0 else n + i)
    else if i > n then n
    else i
  }

  /** `s.slice(start, end)`: a contiguous infix of `s`, empty when the resolved start is not before the resolved end. */
  function Slice<T>(s: seq<T>, start: int, end: int): (r: seq<T>)
    ensures |r| <= |s|
    ensures SliceIndex(start, |s|) < SliceIndex(end, |s|) ==>
            r == s[SliceIndex(start, |s|)..SliceIndex(end, |s|)]
    ensures SliceIndex(start, |s|) >= SliceIndex(end, |s|) ==> r == []
  {
    var a := SliceIndex(start, |s|);
    var b := SliceIndex(end, |s|);
    if a < b then s[a..b] else []
  }

  /** `s.slice(start)`. */
  function SliceFrom<T>(s: seq<T>, start: int): (r: seq<T>)
    ensures r == s[SliceIndex(start, |s|)..]
  {
    Slice(s, start, |s|)
  }

  /** `s.slice(0, limit)` with `limit >= 0` is the first `min(limit, |s|)` elements. */
  lemma SliceHead<T>(s: seq<T>, limit: int)
    requires limit >= 0
    ensures Slice(s, 0, limit) == s[..if limit < |s| then limit else |s|]
  {
  }

  /** `s.slice(-k)` for `k > 0` is the last `min(k, |s|)` elements. */
  lemma SliceLast<T>(s: seq<T>, k: int)
    requires k > 0
    ensures SliceFrom(s, -k) == s[if k < |s| then |s| - k else 0..]
  {
  }
}
