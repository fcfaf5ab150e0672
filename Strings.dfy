/** String operations of Python's `str` and JavaScript's `String` that the core relies on. */
module Strings {
  import opened Common

  /** The characters Python's `str.isspace` (and the regex class `\s`) treats as whitespace. */
  const PyWhitespace: set<char> := {
    ' ', '\t', '\n', '\r', '\U{000B}', '\U{000C}',
    '\U{001C}', '\U{001D}', '\U{001E}', '\U{001F}', '\U{0085}', '\U{00A0}',
    '\U{1680}', '\U{2000}', '\U{2001}', '\U{2002}', '\U{2003}', '\U{2004}',
    '\U{2005}', '\U{2006}', '\U{2007}', '\U{2008}', '\U{2009}', '\U{200A}',
    '\U{2028}', '\U{2029}', '\U{202F}', '\U{205F}', '\U{3000}'
  }

  /** The characters JavaScript's `String.prototype.trim` removes. */
  const JsWhitespace: set<char> := {
    ' ', '\t', '\n', '\r', '\U{000B}', '\U{000C}', '\U{00A0}', '\U{FEFF}',
    '\U{1680}', '\U{2000}', '\U{2001}', '\U{2002}', '\U{2003}', '\U{2004}',
    '\U{2005}', '\U{2006}', '\U{2007}', '\U{2008}', '\U{2009}', '\U{200A}',
    '\U{2028}', '\U{2029}', '\U{202F}', '\U{205F}', '\U{3000}'
  }

  // ---------------------------------------------------------------------------
  // Case

  function LowerChar(c: char): char
  {
    if 'A' <= c <= 'Z' then (c as int + 32) as char else c
  }

  /** `str.lower()` restricted to ASCII letters; every other character is kept. */
  function Lower(s: string): (r: string)
    ensures |r| == |s|
    ensures forall i :: 0 <= i < |s| ==> r[i] == LowerChar(s[i])
  {
    if |s| == 0 then [] else [LowerChar(s[0])] + Lower(s[1..])
  }

  lemma {:induction false} LowerConcat(a: string, b: string)
    ensures Lower(a + b) == Lower(a) + Lower(b)
  {
    var l := Lower(a + b);
    var r := Lower(a) + Lower(b);
    forall i | 0 <= i < |l| ensures l[i] == r[i] {
      if i < |a| {
        assert (a + b)[i] == a[i] && r[i] == Lower(a)[i];
      } else {
        assert (a + b)[i] == b[i - |a|] && r[i] == Lower(b)[i - |a|];
      }
    }
  }

  // ---------------------------------------------------------------------------
  // Prefixes, suffixes and occurrences

  predicate StartsWith(s: string, p: string)
  {
    |p| <= |s| && s[..|p|] == p
  }

  predicate EndsWith(s: string, p: string)
  {
    |p| <= |s| && s[|s| - |p|..] == p
  }

  /** `w` occurs in `s` starting at index `i`. */
  predicate OccursAt(s: string, w: string, i: int)
  {
    0 <= i && i + |w| <= |s| && s[i..i + |w|] == w
  }

  /** Python's `w in s` for strings. */
  predicate Contains(s: string, w: string)
  {
    exists i :: 0 <= i <= |s| - |w| && OccursAt(s, w, i)
  }

  function FindFrom(s: string, w: string, i: nat): (r: Option<nat>)
    ensures r.Some? ==> i <= r.value && OccursAt(s, w, r.value)
    ensures r.Some? ==> forall j :: i <= j < r.value ==> !OccursAt(s, w, j)
    ensures r.None? ==> forall j :: i <= j ==> !OccursAt(s, w, j)
    decreases |s| - i
  {
    if i + |w| > |s| then None
    else if s[i..i + |w|] == w then Some(i)
    else FindFrom(s, w, i + 1)
  }

  /** Python's `s.find(w)`: the first index where `w` occurs, or None (Python's -1). */
  function Find(s: string, w: string): (r: Option<nat>)
    ensures r.Some? <==> Contains(s, w)
    ensures r.Some? ==> OccursAt(s, w, r.value)
    ensures r.Some? ==> forall j :: 0 <= j < r.value ==> !OccursAt(s, w, j)
  {
    FindFrom(s, w, 0)
  }

  lemma ContainsAt(s: string, w: string, i: int)
    requires OccursAt(s, w, i)
    ensures Contains(s, w)
  {
  }

  // ---------------------------------------------------------------------------
  // Python's str.split(sep) and sep.join(parts)

  function Split(s: string, sep: string): (r: seq<string>)
    requires |sep| > 0
    ensures |r| >= 1
    decreases |s|
  {
    match Find(s, sep)
    case None => [s]
    case Some(i) => [s[..i]] + Split(s[i + |sep|..], sep)
  }

  function Join(parts: seq<string>, sep: string): string
  {
    if |parts| == 0 then ""
    else if |parts| == 1 then parts[0]
    else parts[0] + sep + Join(parts[1..], sep)
  }

  /** Joining the pieces of a split with the same separator gives back the string. */
  lemma {:induction false} JoinSplit(s: string, sep: string)
    requires |sep| > 0
    ensures Join(Split(s, sep), sep) == s
    decreases |s|
  {
    match Find(s, sep)
    case None =>
    case Some(i) =>
      var rest := s[i + |sep|..];
      var tail := Split(rest, sep);
      JoinSplit(rest, sep);
      var parts := [s[..i]] + tail;
      assert Split(s, sep) == parts;
      assert |parts| >= 2 && parts[0] == s[..i] && parts[1..] == tail;
      assert Join(parts, sep) == s[..i] + sep + Join(tail, sep);
      assert s == s[..i] + sep + rest by {
        assert s[i..i + |sep|] == sep;
      }
  }

  /** No piece of a split contains the separator. */
  lemma {:induction false} SplitPiecesFree(s: string, sep: string)
    requires |sep| > 0
    ensures forall k :: 0 <= k < |Split(s, sep)| ==> !Contains(Split(s, sep)[k], sep)
    decreases |s|
  {
    match Find(s, sep)
    case None =>
    case Some(i) =>
      var rest := s[i + |sep|..];
      SplitPiecesFree(rest, sep);
      var head := s[..i];
      forall j | 0 <= j <= |head| - |sep| ensures !OccursAt(head, sep, j) {
        var u := head[j..j + |sep|];
        var v := s[j..j + |sep|];
        forall d | 0 <= d < |sep| ensures u[d] == v[d] {
          assert head[j + d] == s[j + d];
        }
        assert u == v;
        assert !OccursAt(s, sep, j);
      }
  }

  /** Joining at least two parts ends with the separator and the last part. */
  lemma {:induction false} JoinLast(parts: seq<string>, sep: string)
    requires |parts| >= 2
    ensures Join(parts, sep) == Join(parts[..|parts| - 1], sep) + sep + parts[|parts| - 1]
    decreases |parts|
  {
    var t := parts[1..];
    if |parts| > 2 {
      JoinLast(t, sep);
      assert t[..|t| - 1] == parts[1..|parts| - 1];
      assert parts[..|parts| - 1][1..] == parts[1..|parts| - 1];
    } else {
      assert parts[..1] == [parts[0]];
    }
  }

  /** `last` is all of `s`, or a suffix of `s` right after an occurrence of `sep`. */
  predicate PrecededBy(s: string, last: string, sep: string)
  {
    last == s || (|last| + |sep| <= |s| && OccursAt(s, sep, |s| - |last| - |sep|))
  }

  /** The last of the parts joined into `s` is a suffix of `s`: all of it, or the text after a separator (with JoinSplit, the last piece of a split). */
  lemma JoinedLastPreceded(s: string, parts: seq<string>, sep: string)
    requires |parts| >= 1 && Join(parts, sep) == s
    ensures EndsWith(s, parts[|parts| - 1])
    ensures PrecededBy(s, parts[|parts| - 1], sep)
  {
    var last := parts[|parts| - 1];
    if |parts| >= 2 {
      JoinLast(parts, sep);
      var front := Join(parts[..|parts| - 1], sep);
      assert s == front + sep + last;
      assert s[|front|..|front| + |sep|] == sep;
      assert s[|s| - |last|..] == last;
    } else {
      assert s[|s| - |last|..] == last;
    }
  }

  /** The first step of a split: no separator and a single piece, or the piece before the first separator. */
  lemma SplitUnfold(s: string, sep: string) returns (i: Option<nat>)
    requires |sep| > 0
    ensures i.None? ==> Split(s, sep) == [s]
    ensures i.Some? ==> OccursAt(s, sep, i.value) && Split(s, sep) == [s[..i.value]] + Split(s[i.value + |sep|..], sep)
  {
    i := Find(s, sep);
    if i.Some? {
      var k := i.value;
      assert OccursAt(s, sep, k);
      assert Split(s, sep) == [s[..k]] + Split(s[k + |sep|..], sep);
    }
  }

  /** The first piece of a split runs from the start up to the first separator, or to the end. */
  lemma FirstPiecePrefix(s: string, sep: string)
    requires |sep| > 0
    ensures |Split(s, sep)[0]| <= |s| && Split(s, sep)[0] == s[..|Split(s, sep)[0]|]
    ensures |Split(s, sep)[0]| == |s| || OccursAt(s, sep, |Split(s, sep)[0]|)
  {
    var i := SplitUnfold(s, sep);
  }

  /** The second piece of a split runs from after the first separator up to the next one, or to the end. */
  lemma SecondPiece(s: string, sep: string)
    requires |sep| > 0 && |Split(s, sep)| >= 2
    ensures Find(s, sep).Some?
    ensures var rest := s[Find(s, sep).value + |sep|..];
      var p := Split(s, sep)[1];
      |p| <= |rest| && p == rest[..|p|] && (|p| == |rest| || OccursAt(rest, sep, |p|))
  {
    assert Find(s, sep).Some?;
    var i := Find(s, sep).value;
    assert Split(s, sep) == [s[..i]] + Split(s[i + |sep|..], sep);
    FirstPiecePrefix(s[i + |sep|..], sep);
  }

  /** Splitting on a one-character separator undoes joining pieces that do not hold it. */
  lemma {:induction false} SplitJoin(parts: seq<string>, sep: string)
    requires |sep| == 1 && |parts| >= 1
    requires forall k :: 0 <= k < |parts| ==> !Contains(parts[k], sep)
    ensures Split(Join(parts, sep), sep) == parts
  {
    var p := parts[0];
    if |parts| == 1 {
      assert Find(p, sep).None?;
    } else {
      var rest := Join(parts[1..], sep);
      assert Join(parts, sep) == p + sep + rest;
      FindAfterFree(p, sep, rest);
      SplitAt(p, sep, rest);
      SplitJoin(parts[1..], sep);
      assert parts == [p] + parts[1..];
    }
  }

  lemma FindAfterFree(p: string, sep: string, rest: string)
    requires |sep| == 1 && !Contains(p, sep)
    ensures Find(p + sep + rest, sep) == Some(|p|)
  {
    var s := p + sep + rest;
    forall j | 0 <= j < |p| ensures !OccursAt(s, sep, j) {
      assert j <= |p| - |sep|;
      assert !OccursAt(p, sep, j);
      assert s[j..j + 1] == p[j..j + 1];
    }
    assert s[|p|..|p| + 1] == sep;
    assert OccursAt(s, sep, |p|);
    ContainsAt(s, sep, |p|);
    var r := Find(s, sep);
    assert r.Some?;
    assert !(r.value < |p|) && !(r.value > |p|);
  }

  lemma SplitAt(p: string, sep: string, rest: string)
    requires |sep| > 0 && Find(p + sep + rest, sep) == Some(|p|)
    ensures Split(p + sep + rest, sep) == [p] + Split(rest, sep)
  {
    var s := p + sep + rest;
    assert s[..|p|] == p;
    assert s[|p| + |sep|..] == rest;
  }

  /** A slice of a string free of `w` is free of `w`. */
  lemma SliceFree(s: string, i: nat, j: nat, w: string)
    requires i <= j <= |s| && !Contains(s, w)
    ensures !Contains(s[i..j], w)
  {
    var t := s[i..j];
    forall k | 0 <= k <= |t| - |w| ensures !OccursAt(t, w, k) {
      var u := t[k..k + |w|];
      var v := s[i + k..i + k + |w|];
      forall d | 0 <= d < |w| ensures u[d] == v[d] {
        assert t[k + d] == s[i + k + d];
      }
      assert u == v;
      assert 0 <= i + k <= |s| - |w|;
      assert !OccursAt(s, w, i + k);
    }
  }

  // ---------------------------------------------------------------------------
  // Trimming

  /** Number of leading characters of `s` that are in `ws`. */
  function Lead(s: string, ws: set<char>): (k: nat)
    ensures k <= |s|
    ensures forall j :: 0 <= j < k ==> s[j] in ws
    ensures k < |s| ==> s[k] !in ws
  {
    if |s| > 0 && s[0] in ws then 1 + Lead(s[1..], ws) else 0
  }

  /** Number of trailing characters of `s` that are in `ws`. */
  function Trail(s: string, ws: set<char>): (k: nat)
    ensures k <= |s|
    ensures forall j :: |s| - k <= j < |s| ==> s[j] in ws
    ensures k < |s| ==> s[|s| - 1 - k] !in ws
  {
    if |s| > 0 && s[|s| - 1] in ws then 1 + Trail(s[..|s| - 1], ws) else 0
  }

  /** Nothing of `ws` at either end of `s`. */
  predicate Trimmed(s: string, ws: set<char>)
  {
    s == [] || (s[0] !in ws && s[|s| - 1] !in ws)
  }

  /** Removes the characters of `ws` from both ends: Python's `strip()`, JavaScript's `trim()`. */
  function Trim(s: string, ws: set<char>): (r: string)
    ensures Trimmed(r, ws)
    ensures |r| <= |s|
    ensures r == [] <==> forall i :: 0 <= i < |s| ==> s[i] in ws
    ensures Lead(s, ws) + |r| <= |s| && r == s[Lead(s, ws)..Lead(s, ws) + |r|]
  {
    var a := Lead(s, ws);
    var t := s[a..];
    var b := Trail(t, ws);
    var r := t[..|t| - b];
    assert r == s[a..a + |r|];
    r
  }

  /** A string surrounded by whitespace trims to its core when the core is trimmed. */
  lemma TrimAround(pre: string, core: string, post: string, ws: set<char>)
    requires forall i :: 0 <= i < |pre| ==> pre[i] in ws
    requires forall i :: 0 <= i < |post| ==> post[i] in ws
    requires Trimmed(core, ws)
    ensures Trim(pre + core + post, ws) == core
  {
    var s := pre + core + post;
    if core == [] {
      assert forall i :: 0 <= i < |s| ==> s[i] in ws by {
        forall i | 0 <= i < |s| ensures s[i] in ws {
          if i < |pre| { assert s[i] == pre[i]; } else { assert s[i] == post[i - |pre|]; }
        }
      }
    } else {
      LeadIs(s, ws, |pre|);
      var t := s[|pre|..];
      assert t == core + post;
      TrailIs(t, ws, |post|);
    }
  }

  lemma {:induction false} LeadIs(s: string, ws: set<char>, k: nat)
    requires k < |s| && s[k] !in ws
    requires forall j :: 0 <= j < k ==> s[j] in ws
    ensures Lead(s, ws) == k
  {
    if k > 0 {
      LeadIs(s[1..], ws, k - 1);
    }
  }

  lemma {:induction false} TrailIs(s: string, ws: set<char>, k: nat)
    requires k < |s| && s[|s| - 1 - k] !in ws
    requires forall j :: |s| - k <= j < |s| ==> s[j] in ws
    ensures Trail(s, ws) == k
  {
    if k > 0 {
      TrailIs(s[..|s| - 1], ws, k - 1);
    }
  }

  lemma TrimNoop(s: string, ws: set<char>)
    requires Trimmed(s, ws)
    ensures Trim(s, ws) == s
  {
    TrimAround([], s, [], ws);
    assert [] + s + [] == s;
  }

  // ---------------------------------------------------------------------------
  // Python's str.replace(w, rep): every non-overlapping occurrence, left to right

  function Replace(s: string, w: string, rep: string): (r: string)
    requires |w| > 0
    ensures !Contains(s, w) ==> r == s
    decreases |s|
  {
    if |s| < |w| then s
    else if s[..|w|] == w then
      assert OccursAt(s, w, 0);
      rep + Replace(s[|w|..], w, rep)
    else
      assert !Contains(s, w) ==> !Contains(s[1..], w) by {
        if Contains(s[1..], w) {
          var j :| 0 <= j <= |s| - 1 - |w| && OccursAt(s[1..], w, j);
          assert s[j + 1..j + 1 + |w|] == s[1..][j..j + |w|];
          assert OccursAt(s, w, j + 1);
        }
      }
      [s[0]] + Replace(s[1..], w, rep)
  }

  /** Replacing with a text of the same length keeps the length. */
  lemma {:induction false} ReplaceLength(s: string, w: string, rep: string)
    requires |w| > 0 && |rep| == |w|
    ensures |Replace(s, w, rep)| == |s|
    decreases |s|
  {
    if |s| < |w| {
    } else if s[..|w|] == w {
      ReplaceLength(s[|w|..], w, rep);
    } else {
      ReplaceLength(s[1..], w, rep);
    }
  }

  /** `n` copies of `c`. */
  function Repeat(c: char, n: nat): (r: string)
    ensures |r| == n
    ensures forall i :: 0 <= i < n ==> r[i] == c
  {
    seq(n, _ => c)
  }

  // ---------------------------------------------------------------------------
  // Decimal integers: `str(n)` and Python's `int(s)`

  predicate IsDigit(c: char) { '0' <= c <= '9' }

  function DigitChar(d: nat): (c: char)
    requires d < 10
    ensures IsDigit(c) && DigitValue(c) == d
  {
    ('0' as int + d) as char
  }

  function DigitValue(c: char): nat
    requires IsDigit(c)
  {
    c as int - '0' as int
  }

  /** `str(n)` for a non-negative integer: its decimal digits, no leading zeros. */
  function NatToString(n: nat): (r: string)
    ensures |r| > 0
    ensures forall i :: 0 <= i < |r| ==> IsDigit(r[i])
    ensures DigitsValue(r) == n
  {
    if n < 10 then [DigitChar(n)]
    else
      var r := NatToString(n / 10) + [DigitChar(n % 10)];
      assert r[..|r| - 1] == NatToString(n / 10);
      r
  }

  /** `str(i)` for any integer. */
  function IntToString(i: int): string
  {
    if i < 0 then "-" + NatToString(-i) else NatToString(i)
  }

  /** The number a string of decimal digits denotes. */
  function DigitsValue(s: string): nat
    requires forall i :: 0 <= i < |s| ==> IsDigit(s[i])
  {
    if |s| == 0 then 0 else 10 * DigitsValue(s[..|s| - 1]) + DigitValue(s[|s| - 1])
  }

  /**
   * The body Python's `int()` accepts after the sign: decimal digits, with single
   * underscores allowed between digits.
   */
  predicate DigitBody(s: string)
  {
    |s| > 0 && IsDigit(s[0]) && IsDigit(s[|s| - 1]) &&
    (forall i :: 0 <= i < |s| ==> IsDigit(s[i]) || s[i] == '_') &&
    (forall i :: 0 <= i < |s| - 1 ==> !(s[i] == '_' && s[i + 1] == '_'))
  }

  function RemoveUnderscores(s: string): (r: string)
    ensures forall i :: 0 <= i < |r| ==> r[i] != '_'
    ensures (forall i :: 0 <= i < |s| ==> IsDigit(s[i]) || s[i] == '_') ==>
              forall i :: 0 <= i < |r| ==> IsDigit(r[i])
  {
    if |s| == 0 then []
    else (if s[0] == '_' then [] else [s[0]]) + RemoveUnderscores(s[1..])
  }

  lemma {:induction false} RemoveUnderscoresNone(s: string)
    requires forall i :: 0 <= i < |s| ==> s[i] != '_'
    ensures RemoveUnderscores(s) == s
  {
    if |s| > 0 {
      RemoveUnderscoresNone(s[1..]);
    }
  }

  /** Python's `int(s)`: surrounding whitespace, an optional sign and a digit body; None where Python raises ValueError. */
  function ParseInt(s: string): (r: Option<int>)
    ensures r.Some? ==> |Trim(s, PyWhitespace)| > 0
  {
    var t := Trim(s, PyWhitespace);
    if |t| == 0 then None
    else
      var neg := t[0] == '-';
      var body := if t[0] == '-' || t[0] == '+' then t[1..] else t;
      if !DigitBody(body) then None
      else
        var v: int := DigitsValue(RemoveUnderscores(body));
        var n: int := if neg then -v else v;
        Some(n)
  }

  /** `int(str(i)) == i`. */
  lemma ParseIntToString(i: int)
    ensures ParseInt(IntToString(i)) == Some(i)
  {
    var s := IntToString(i);
    var d := if i < 0 then NatToString(-i) else NatToString(i);
    assert DigitBody(d);
    assert s[0] == '-' || IsDigit(s[0]);
    assert IsDigit(s[|s| - 1]);
    NotWhitespace(s[0]);
    NotWhitespace(s[|s| - 1]);
    TrimNoop(s, PyWhitespace);
    if i < 0 {
      assert s[1..] == d;
    }
    RemoveUnderscoresNone(d);
  }

  lemma NotWhitespace(c: char)
    requires c == '-' || IsDigit(c)
    ensures c !in PyWhitespace
  {
  }

  // ---------------------------------------------------------------------------
  // Python's ordering of str values (code point by code point)

  predicate StrLe(a: string, b: string)
  {
    |a| == 0 || (|b| > 0 && (a[0] < b[0] || (a[0] == b[0] && StrLe(a[1..], b[1..]))))
  }

  predicate StrLt(a: string, b: string)
  {
    StrLe(a, b) && a != b
  }

  lemma {:induction false} StrLeTotal(a: string, b: string)
    ensures StrLe(a, b) || StrLe(b, a)
  {
    if |a| > 0 && |b| > 0 && a[0] == b[0] {
      StrLeTotal(a[1..], b[1..]);
    }
  }

  lemma {:induction false} StrLeTrans(a: string, b: string, c: string)
    requires StrLe(a, b) && StrLe(b, c)
    ensures StrLe(a, c)
  {
    if |a| > 0 && a[0] == b[0] && b[0] == c[0] {
      StrLeTrans(a[1..], b[1..], c[1..]);
    }
  }

  lemma {:induction false} StrLeAntisym(a: string, b: string)
    requires StrLe(a, b) && StrLe(b, a)
    ensures a == b
  {
    if |a| > 0 {
      StrLeAntisym(a[1..], b[1..]);
      assert a == [a[0]] + a[1..] && b == [b[0]] + b[1..];
    }
  }
}
