/** Values shared by the firmware and backend models: optional values,
    JSON documents as Python's json module produces them, Python truthiness
    and the handful of Python string operations the backend relies on. */
module Common {

  datatype Option<+T> = None | Some(value: T) {
    function GetOr(default: T): T { if Some? then value else default }
  }

  /** A decoded JSON value. Python keeps integers and floats apart, and
      `isinstance(v, int)` also accepts booleans, so both are kept here. */
  datatype Json =
    | JNull
    | JBool(b: bool)
    | JInt(i: int)
    | JFloat(f: real)
    | JStr(s: string)
    | JArr(items: seq<Json>)
    | JObj(fields: map<string, Json>)

  /** Python's `bool(v)` for a decoded JSON value. */
  predicate Truthy(j: Json)
  {
    match j
    case JNull => false
    case JBool(b) => b
    case JInt(i) => i != 0
    case JFloat(f) => f != 0.0
    case JStr(s) => |s| > 0
    case JArr(a) => |a| > 0
    case JObj(m) => |m| > 0
  }

  /** `d.get(key, default)` on a JSON object. */
  function Get(m: map<string, Json>, key: string, default: Json): (r: Json)
    ensures key in m ==> r == m[key]
    ensures key !in m ==> r == default
  {
    if key in m then m[key] else default
  }

  /** `isinstance(v, int)` followed by the integer value (`True` is 1). */
  function PyInt(j: Json): (r: Option<int>)
    ensures r.Some? <==> (j.JInt? || j.JBool?)
    ensures j.JInt? ==> r == Some(j.i)
  {
    match j
    case JInt(i) => Some(i)
    case JBool(b) => Some(if b then 1 else 0)
    case _ => None
  }

  // ---------------------------------------------------------------- strings

  predicate OccursAt(s: string, pat: string, i: int)
  {
    0 <= i && i + |pat| <= |s| && s[i..i + |pat|] == pat
  }

  /** Python's `pat in s`. */
  predicate Contains(s: string, pat: string)
  {
    exists i :: 0 <= i <= |s| && OccursAt(s, pat, i)
  }

  predicate StartsWith(s: string, prefix: string)
  {
    |prefix| <= |s| && s[..|prefix|] == prefix
  }

  /** Index of the first occurrence of `pat` in `s` at or after `from`. */
  function FindFrom(s: string, pat: string, from: nat): (r: Option<nat>)
    requires from <= |s|
    ensures r.Some? ==> from <= r.value && OccursAt(s, pat, r.value)
    ensures r.Some? ==> forall j :: from <= j < r.value ==> !OccursAt(s, pat, j)
    ensures r.None? ==> forall j :: from <= j ==> !OccursAt(s, pat, j)
    decreases |s| - from
  {
    if from + |pat| > |s| then None
    else if s[from..from + |pat|] == pat then Some(from)
    else if from == |s| then None
    else FindFrom(s, pat, from + 1)
  }

  /** Python's `s.find(pat)`, as an option. */
  function Find(s: string, pat: string): (r: Option<nat>)
    ensures r.Some? <==> Contains(s, pat)
    ensures r.Some? ==> OccursAt(s, pat, r.value) && forall j :: 0 <= j < r.value ==> !OccursAt(s, pat, j)
  {
    FindFrom(s, pat, 0)
  }

  /** `s.split(sep)[0]`: everything before the first separator. */
  function SplitHead(s: string, sep: string): (r: string)
    ensures |r| <= |s| && r == s[..|r|]
    ensures !Contains(s, sep) ==> r == s
  {
    match Find(s, sep)
    case Some(k) => s[..k]
    case None => s
  }

  /** `s.split(sep)[1]` when `sep in s`: the text between the first and the
      second separator (or the end). */
  function SplitSecond(s: string, sep: string): string
    requires Contains(s, sep)
  {
    var k := Find(s, sep).value;
    SplitHead(s[k + |sep|..], sep)
  }

  /** The characters Python's `str.isspace()` accepts and `str.strip()`
      removes: the ASCII controls 9-13 and 28-31, the space, NEL, the
      no-break spaces and the Unicode space separators. */
  predicate IsSpace(c: char)
  {
    ('\U{09}' <= c <= '\U{0D}') || ('\U{1C}' <= c <= '\U{20}') || c == '\U{85}' || c == '\U{A0}' ||
    c == '\U{1680}' || ('\U{2000}' <= c <= '\U{200A}') || c == '\U{2028}' || c == '\U{2029}' ||
    c == '\U{202F}' || c == '\U{205F}' || c == '\U{3000}'
  }

  function StripLeft(s: string): (r: string)
    ensures |r| <= |s| && r == s[|s| - |r|..]
    ensures |r| > 0 ==> !IsSpace(r[0])
  {
    if |s| > 0 && IsSpace(s[0]) then StripLeft(s[1..]) else s
  }

  function StripRight(s: string): (r: string)
    ensures |r| <= |s| && r == s[..|r|]
    ensures |r| > 0 ==> !IsSpace(r[|r| - 1])
  {
    if |s| > 0 && IsSpace(s[|s| - 1]) then StripRight(s[..|s| - 1]) else s
  }

  /** Python's `s.strip()`. */
  function Strip(s: string): (r: string)
    ensures |r| > 0 ==> !IsSpace(r[0]) && !IsSpace(r[|r| - 1])
  {
    StripRight(StripLeft(s))
  }

  /** A piece of a string that contains no occurrence of `pat` has none. */
  lemma {:induction false} NoOccurrenceInSlice(s: string, pat: string, a: nat, b: nat)
    requires a <= b <= |s| && !Contains(s, pat)
    ensures !Contains(s[a..b], pat)
  {
    forall i | 0 <= i <= b - a
      ensures !OccursAt(s[a..b], pat, i)
    {
      if i + |pat| <= b - a {
        var inner, outer := s[a..b][i..i + |pat|], s[a + i..a + i + |pat|];
        forall k | 0 <= k < |pat| ensures inner[k] == outer[k] {
          assert s[a..b][i + k] == s[a + i + k];
        }
        assert inner == outer;
        assert !OccursAt(s, pat, a + i);
      }
    }
  }

  /** Strip returns a piece of its argument. */
  lemma StripIsSlice(s: string)
    ensures exists a: nat, b: nat :: a <= b <= |s| && Strip(s) == s[a..b]
  {
    var l := StripLeft(s);
    var r := StripRight(l);
    var a := |s| - |l|;
    assert r == l[..|r|] && l == s[a..];
    assert r == s[a..a + |r|];
  }

  /** An occurrence inside a prefix `s[..m]` is an occurrence in `s`, and back. */
  lemma OccursInPrefix(s: string, pat: string, m: nat, i: int)
    requires m <= |s| && 0 <= i && i + |pat| <= m
    ensures OccursAt(s[..m], pat, i) <==> OccursAt(s, pat, i)
  {
    var inner, outer := s[..m][i..i + |pat|], s[i..i + |pat|];
    forall k | 0 <= k < |pat| ensures inner[k] == outer[k] {
      assert s[..m][i + k] == s[i + k];
    }
    assert inner == outer;
  }

  /** The piece before the first separator contains no separator. */
  lemma {:induction false} SplitHeadNoSep(s: string, sep: string)
    requires |sep| > 0
    ensures !Contains(SplitHead(s, sep), sep)
  {
    match Find(s, sep)
    case None =>
    case Some(q) =>
      var a := s[..q];
      forall i | 0 <= i <= |a| ensures !OccursAt(a, sep, i) {
        if i + |sep| <= q {
          OccursInPrefix(s, sep, q, i);
        }
      }
  }

  /** `s.split(sep)[0].split(sep)[0] == s.split(sep)[0]`. */
  lemma SplitHeadIdempotent(s: string, sep: string)
    requires |sep| > 0
    ensures SplitHead(SplitHead(s, sep), sep) == SplitHead(s, sep)
  {
    SplitHeadNoSep(s, sep);
  }

  /** Cutting at the first `p` and then at the first `q`, where `p` begins
      with `q`, is cutting at the first `q`, provided no occurrence of `q`
      straddles an occurrence of `p` that follows it. */
  lemma {:induction false} SplitHeadNested(s: string, p: string, q: string)
    requires StartsWith(p, q) && |q| > 0
    requires forall i, j :: 0 <= i < j <= |s| && OccursAt(s, q, i) && OccursAt(s, p, j) ==> i + |q| <= j
    ensures SplitHead(SplitHead(s, p), q) == SplitHead(s, q)
  {
    match Find(s, p)
    case None =>
    case Some(m) =>
      var a := s[..m];
      assert OccursAt(s, q, m) by {
        assert s[m..m + |q|] == s[m..m + |p|][..|q|];
      }
      var first := Find(s, q).value;
      assert first <= m;
      forall i | 0 <= i < first ensures !OccursAt(a, q, i) {
        if i + |q| <= m {
          OccursInPrefix(s, q, m, i);
        }
      }
      if first == m {
        forall i | 0 <= i <= |a| ensures !OccursAt(a, q, i) {
          if i + |q| <= m {
            OccursInPrefix(s, q, m, i);
          }
        }
        assert !Contains(a, q);
      } else {
        assert first + |q| <= m;
        OccursInPrefix(s, q, m, first);
        assert Find(a, q) == Some(first);
        assert a[..first] == s[..first];
      }
  }

  /** Python's `s.replace(pat, rep)`: every non-overlapping occurrence, left to right. */
  function ReplaceAll(s: string, pat: string, rep: string): string
    requires |pat| > 0
    decreases |s|
  {
    if |s| < |pat| then s
    else if s[..|pat|] == pat then rep + ReplaceAll(s[|pat|..], pat, rep)
    else [s[0]] + ReplaceAll(s[1..], pat, rep)
  }

  /** ASCII lower-casing, the case folding used for case-insensitive matching. */
  function LowerChar(c: char): char
  {
    if 'A' <= c <= 'Z' then (c as int + 32) as char else c
  }

  function Lower(s: string): (r: string)
    ensures |r| == |s| && forall i :: 0 <= i < |s| ==> r[i] == LowerChar(s[i])
  {
    if |s| == 0 then [] else [LowerChar(s[0])] + Lower(s[1..])
  }

  /** A case-insensitive containment test (`field__icontains`). */
  predicate IContains(s: string, pat: string)
  {
    Contains(Lower(s), Lower(pat))
  }

  /** Lexicographic order of strings by character code. */
  predicate StrLe(a: string, b: string)
    decreases |a|
  {
    |a| == 0 || (|b| > 0 && (a[0] < b[0] || (a[0] == b[0] && StrLe(a[1..], b[1..]))))
  }

  lemma {:induction false} StrLeTotal(a: string, b: string)
    ensures StrLe(a, b) || StrLe(b, a)
    decreases |a|
  {
    if |a| > 0 && |b| > 0 && a[0] == b[0] {
      StrLeTotal(a[1..], b[1..]);
    }
  }

  lemma {:induction false} StrLeTransitive(a: string, b: string, c: string)
    requires StrLe(a, b) && StrLe(b, c)
    ensures StrLe(a, c)
    decreases |a|
  {
    if |a| > 0 && a[0] == b[0] && b[0] == c[0] {
      StrLeTransitive(a[1..], b[1..], c[1..]);
    }
  }

  // ---------------------------------------------------------------- integers as text

  predicate IsDigit(c: char) { '0' <= c <= '9' }

  predicate AllDigits(s: string)
  {
    forall i :: 0 <= i < |s| ==> IsDigit(s[i])
  }

  /** The value of a string of decimal digits. */
  function DigitsValue(s: string): nat
    requires AllDigits(s)
  {
    if |s| == 0 then 0 else DigitsValue(s[..|s| - 1]) * 10 + (s[|s| - 1] as int - '0' as int)
  }

  /** The decimal digits of `n`, without leading zeros. */
  function NatDigits(n: nat): (r: string)
    ensures |r| > 0 && AllDigits(r)
  {
    var last := [('0' as int + n % 10) as char];
    if n < 10 then last else NatDigits(n / 10) + last
  }

  /** Python's `int(s)` on a string: surrounding whitespace, an optional
      sign and at least one decimal digit; anything else is a ValueError
      (None here). */
  function ParseInt(s: string): (r: Option<int>)
    ensures r.Some? ==> |Strip(s)| > 0
  {
    var t := Strip(s);
    var signed := |t| > 0 && (t[0] == '-' || t[0] == '+');
    var digits := if signed then t[1..] else t;
    if |digits| == 0 || !AllDigits(digits) then None
    else
      var v: int := DigitsValue(digits);
      Some(if signed && t[0] == '-' then -v else v)
  }

  /** Python's `str(n)` on an integer. */
  function IntToString(n: int): (r: string)
    ensures |r| > 0 && (n >= 0 ==> AllDigits(r))
  {
    if n < 0 then "-" + NatDigits(-n) else NatDigits(n)
  }

  lemma {:induction false} NatDigitsValue(n: nat)
    ensures DigitsValue(NatDigits(n)) == n
  {
    var last := [('0' as int + n % 10) as char];
    if n >= 10 {
      NatDigitsValue(n / 10);
      var s := NatDigits(n / 10) + last;
      assert s[..|s| - 1] == NatDigits(n / 10);
    }
  }

  /** A string with no whitespace at either end is its own strip. */
  lemma StripUnspaced(s: string)
    requires |s| > 0 && !IsSpace(s[0]) && !IsSpace(s[|s| - 1])
    ensures Strip(s) == s
  {
    assert StripLeft(s) == s;
    assert StripRight(s) == s;
  }

  /** `int(str(n)) == n`. */
  lemma IntToStringParses(n: int)
    ensures ParseInt(IntToString(n)) == Some(n)
  {
    var s := IntToString(n);
    var d: nat := if n < 0 then -n else n;
    NatDigitsValue(d);
    var digits := NatDigits(d);
    assert IsDigit(digits[0]) && IsDigit(digits[|digits| - 1]);
    if n < 0 {
      assert s == "-" + digits && s[1..] == digits;
      assert s[|s| - 1] == digits[|digits| - 1];
      StripUnspaced(s);
      var v: int := DigitsValue(digits);
      assert -v == n;
    } else {
      assert s == digits;
      StripUnspaced(s);
      assert s[0] != '-' && s[0] != '+';
    }
  }
}
