/**
 * The few pieces of Python's string handling that the launcher and the
 * mission parser rely on: `str.split()` with no argument, `sep.join(parts)`,
 * `str(n)` for integers and `int(s)` for decimal integers.
 */
module Text {
  import opened Wrappers

  /** The characters Python's `str.split()` treats as separators (`str.isspace`). */
  predicate IsSpace(c: char) {
    || c == ' ' || c == '\t' || c == '\n' || c == '\r'
    || c == '\U{0B}' || c == '\U{0C}'
    || ('\U{1C}' <= c <= '\U{1F}')
    || c == '\U{85}' || c == '\U{A0}' || c == '\U{1680}'
    || ('\U{2000}' <= c <= '\U{200A}')
    || c == '\U{2028}' || c == '\U{2029}' || c == '\U{202F}' || c == '\U{205F}'
    || c == '\U{3000}'
  }

  /** A field as `split()` returns it: non-empty and free of whitespace. */
  predicate IsWord(w: string) {
    |w| > 0 && forall i :: 0 <= i < |w| ==> !IsSpace(w[i])
  }

  /** Length of the run of non-whitespace characters that starts `s`. */
  function WordLen(s: string): (n: nat)
    ensures n <= |s|
    ensures forall i :: 0 <= i < n ==> !IsSpace(s[i])
    ensures n < |s| ==> IsSpace(s[n])
  {
    if s == [] || IsSpace(s[0]) then 0 else 1 + WordLen(s[1..])
  }

  /** Python's `s.split()`: the maximal whitespace-free runs of `s`, in order. */
  function Split(s: string): (r: seq<string>)
    ensures forall i :: 0 <= i < |r| ==> IsWord(r[i])
    decreases |s|
  {
    if s == [] then []
    else if IsSpace(s[0]) then Split(s[1..])
    else
      var n := WordLen(s);
      [s[..n]] + Split(s[n..])
  }

  /** Python's `sep.join(parts)`. */
  function Join(sep: string, parts: seq<string>): (r: string)
    ensures |parts| == 1 ==> r == parts[0]
  {
    if |parts| == 0 then ""
    else if |parts| == 1 then parts[0]
    else parts[0] + sep + Join(sep, parts[1..])
  }

  /** A word ends where the first whitespace character of what follows it stands. */
  lemma {:induction false} WordLenBeforeSpace(a: string, c: string)
    requires c != [] && IsSpace(c[0])
    ensures WordLen(a + c) == WordLen(a)
    decreases |a|
  {
    if a == [] {
      assert a + c == c;
    } else if !IsSpace(a[0]) {
      assert (a + c)[1..] == a[1..] + c;
      WordLenBeforeSpace(a[1..], c);
    }
  }

  /** A separator `split()` skips: one or more whitespace characters. */
  predicate IsGap(sep: string) {
    |sep| > 0 && forall i :: 0 <= i < |sep| ==> IsSpace(sep[i])
  }

  /** Leading whitespace contributes no field. */
  lemma {:induction false} SplitSkipsSpaces(sep: string, b: string)
    requires forall i :: 0 <= i < |sep| ==> IsSpace(sep[i])
    ensures Split(sep + b) == Split(b)
    decreases |sep|
  {
    if sep == [] {
      assert sep + b == b;
    } else {
      assert (sep + b)[1..] == sep[1..] + b;
      SplitSkipsSpaces(sep[1..], b);
    }
  }

  /** Splitting at a run of whitespace splits the two sides independently. */
  lemma {:induction false} SplitAroundGap(a: string, sep: string, b: string)
    requires IsGap(sep)
    ensures Split(a + sep + b) == Split(a) + Split(b)
    decreases |a|
  {
    var s := a + sep + b;
    if a == [] {
      assert s == sep + b;
      SplitSkipsSpaces(sep, b);
    } else if IsSpace(a[0]) {
      assert s[1..] == a[1..] + sep + b;
      SplitAroundGap(a[1..], sep, b);
    } else {
      assert s == a + (sep + b);
      WordLenBeforeSpace(a, sep + b);
      var n := WordLen(a);
      assert s[..n] == a[..n];
      assert s[n..] == a[n..] + sep + b;
      SplitAroundGap(a[n..], sep, b);
    }
  }

  /** The non-whitespace characters of `s`, in order. */
  function NonSpace(s: string): string {
    if s == [] then [] else (if IsSpace(s[0]) then [] else [s[0]]) + NonSpace(s[1..])
  }

  /** `''.join(parts)` */
  function Concat(parts: seq<string>): string {
    if parts == [] then [] else parts[0] + Concat(parts[1..])
  }

  /** A whitespace-free prefix passes through `NonSpace` unchanged. */
  lemma {:induction false} NonSpacePrefix(s: string, n: nat)
    requires n <= |s|
    requires forall i :: 0 <= i < n ==> !IsSpace(s[i])
    ensures NonSpace(s) == s[..n] + NonSpace(s[n..])
  {
    if n > 0 {
      NonSpacePrefix(s[1..], n - 1);
      assert s[1..][..n - 1] == s[1..n];
      assert s[1..][n - 1..] == s[n..];
      assert s[..n] == [s[0]] + s[1..n];
    }
  }

  /**
   * `split()` loses nothing but whitespace: its fields, put back together,
   * are exactly the non-whitespace characters of the input, in order.
   */
  lemma {:induction false} SplitKeepsNonSpace(s: string)
    ensures Concat(Split(s)) == NonSpace(s)
    decreases |s|
  {
    if s == [] {
    } else if IsSpace(s[0]) {
      SplitKeepsNonSpace(s[1..]);
    } else {
      var n := WordLen(s);
      var rest := Split(s[n..]);
      assert Split(s) == [s[..n]] + rest;
      assert ([s[..n]] + rest)[1..] == rest;
      SplitKeepsNonSpace(s[n..]);
      NonSpacePrefix(s, n);
    }
  }

  /** A single word splits into itself. */
  lemma SplitWord(w: string)
    requires IsWord(w)
    ensures Split(w) == [w]
  {
    assert WordLen(w) == |w|;
    assert w[..|w|] == w;
    assert w[|w|..] == [];
  }

  /** The fields of each part, in order: what splitting each part and concatenating gives. */
  function SplitEach(parts: seq<string>): seq<string> {
    if parts == [] then [] else Split(parts[0]) + SplitEach(parts[1..])
  }

  /** Splitting parts joined with whitespace is splitting each part. */
  lemma {:induction false} SplitJoinEach(sep: string, parts: seq<string>)
    requires IsGap(sep)
    ensures Split(Join(sep, parts)) == SplitEach(parts)
  {
    if |parts| == 0 {
    } else if |parts| == 1 {
      assert parts[1..] == [];
    } else {
      SplitAroundGap(parts[0], sep, Join(sep, parts[1..]));
      SplitJoinEach(sep, parts[1..]);
    }
  }

  /**
   * Joining words with any whitespace separator (a space, a tab, several
   * blanks) and splitting again gives back the words: a line built this way
   * is read back field by field.
   */
  lemma {:induction false} SplitJoin(sep: string, ws: seq<string>)
    requires IsGap(sep)
    requires forall i :: 0 <= i < |ws| ==> IsWord(ws[i])
    ensures Split(Join(sep, ws)) == ws
  {
    SplitJoinEach(sep, ws);
    SplitEachWords(ws);
  }

  lemma {:induction false} SplitEachWords(ws: seq<string>)
    requires forall i :: 0 <= i < |ws| ==> IsWord(ws[i])
    ensures SplitEach(ws) == ws
  {
    if ws != [] {
      SplitWord(ws[0]);
      SplitEachWords(ws[1..]);
      assert ws == [ws[0]] + ws[1..];
    }
  }

  lemma WordConcat(a: string, b: string)
    requires IsWord(a) && IsWord(b)
    ensures IsWord(a + b)
  {
    assert forall i :: |a| <= i < |a + b| ==> (a + b)[i] == b[i - |a|];
  }

  /** Joining words with a separator that holds no whitespace gives one word. */
  lemma {:induction false} JoinIsWord(sep: string, parts: seq<string>)
    requires |parts| > 0
    requires forall i :: 0 <= i < |parts| ==> IsWord(parts[i])
    requires forall i :: 0 <= i < |sep| ==> !IsSpace(sep[i])
    ensures IsWord(Join(sep, parts))
  {
    if |parts| > 1 {
      JoinIsWord(sep, parts[1..]);
      var r := Join(sep, parts[1..]);
      var s := parts[0] + sep + r;
      forall i | 0 <= i < |s| ensures !IsSpace(s[i]) {
        if i < |parts[0]| {
          assert s[i] == parts[0][i];
        } else if i < |parts[0]| + |sep| {
          assert s[i] == sep[i - |parts[0]|];
        } else {
          assert s[i] == r[i - |parts[0]| - |sep|];
        }
      }
    }
  }

  predicate IsDigit(c: char) {
    '0' <= c <= '9'
  }

  predicate AllDigits(s: string) {
    forall i :: 0 <= i < |s| ==> IsDigit(s[i])
  }

  function DigitChar(d: nat): (c: char)
    requires d < 10
    ensures IsDigit(c)
  {
    (('0' as int) + d) as char
  }

  function DigitValue(c: char): (d: nat)
    requires IsDigit(c)
    ensures d < 10 && DigitChar(d) == c
  {
    (c as int) - ('0' as int)
  }

  /** Python's `str(n)` for a non-negative integer. */
  function ShowNat(n: nat): (s: string)
    ensures |s| > 0 && AllDigits(s)
  {
    if n < 10 then [DigitChar(n)] else ShowNat(n / 10) + [DigitChar(n % 10)]
  }

  /** Python's `str(i)` for any integer. */
  function ShowInt(i: int): (s: string)
    ensures IsWord(s)
  {
    var s := if i < 0 then "-" + ShowNat(-i) else ShowNat(i);
    assert forall j :: 0 <= j < |s| ==> s[j] == '-' || IsDigit(s[j]);
    s
  }

  /** The value of a string of decimal digits, most significant first. */
  function DigitsValue(s: string): nat
    requires AllDigits(s)
  {
    if s == [] then 0 else DigitsValue(s[..|s| - 1]) * 10 + DigitValue(s[|s| - 1])
  }

  function ParseNat(s: string): Option<nat> {
    if s != [] && AllDigits(s) then Some(DigitsValue(s)) else None
  }

  /** Python's `int(s)` on a whitespace-free field: an optional sign, then decimal digits. */
  function ParseInt(s: string): (r: Option<int>)
    ensures r.Some? ==> |s| > 0
  {
    if |s| > 0 && (s[0] == '-' || s[0] == '+') then
      match ParseNat(s[1..])
      case Some(n) =>
        var v: int := n;
        Some(if s[0] == '-' then -v else v)
      case None => None
    else
      match ParseNat(s)
      case Some(n) => Some(n)
      case None => None
  }

  lemma {:induction false} DigitsOfShowNat(n: nat)
    ensures DigitsValue(ShowNat(n)) == n
  {
    var s := ShowNat(n);
    if n >= 10 {
      DigitsOfShowNat(n / 10);
      assert s[..|s| - 1] == ShowNat(n / 10);
    }
  }

  /** `int(str(i)) == i`: printing an integer and reading it back is the identity. */
  lemma ParseShowInt(i: int)
    ensures ParseInt(ShowInt(i)) == Some(i)
  {
    var s := ShowInt(i);
    if i < 0 {
      var t := ShowNat(-i);
      assert s == "-" + t;
      assert s[0] == '-' && s[1..] == t;
      DigitsOfShowNat(-i);
      assert ParseNat(t) == Some(-i);
    } else {
      var t := ShowNat(i);
      assert s == t && IsDigit(t[0]);
      DigitsOfShowNat(i);
      assert ParseNat(t) == Some(i);
    }
  }
}
