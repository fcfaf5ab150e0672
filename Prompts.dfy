/**
 * The prompt library (fulcrum-llm-ops/backend/app/services/prompts.py): prompts with
 * versioned templates kept in a table, `{{ name }}` placeholder extraction and
 * substitution. The JSON file the service persists to is the `prompts` field here.
 */
module Prompts {
  import opened Common
  import opened Strings
  import Sorting

  datatype PromptVersion = PromptVersion(
    version: string,
    template: string,
    variables: seq<string>,
    author: string,
    createdAt: string)

  datatype Prompt = Prompt(
    id: string,
    name: string,
    latestVersion: PromptVersion,
    versions: seq<PromptVersion>,
    status: string,
    updatedAt: string,
    author: string)

  /** The fields of a create request that the service reads (tags are not stored). */
  datatype CreatePromptRequest = CreatePromptRequest(
    name: string, slug: string, template: string, author: string, status: string)

  datatype CreateVersionRequest = CreateVersionRequest(template: string, author: string)

  // ---------------------------------------------------------------------------
  // Placeholder scanning: the pattern `\{\{\s*(\w+)\s*\}\}`

  /** `\w` restricted to ASCII: letters, digits and underscore (Python also counts Unicode letters and digits). */
  predicate WordChar(c: char)
  {
    'a' <= c <= 'z' || 'A' <= c <= 'Z' || '0' <= c <= '9' || c == '_'
  }

  predicate IsWord(s: string)
  {
    |s| > 0 && forall i :: 0 <= i < |s| ==> WordChar(s[i])
  }

  /** Length of the run of word characters that starts `s`. */
  function WordLen(s: string): (n: nat)
    ensures n <= |s|
    ensures forall i :: 0 <= i < n ==> WordChar(s[i])
    ensures n < |s| ==> !WordChar(s[n])
  {
    if |s| > 0 && WordChar(s[0]) then 1 + WordLen(s[1..]) else 0
  }

  /** Length of the run of whitespace that starts `s`. */
  function WsLen(s: string): nat
  {
    Lead(s, PyWhitespace)
  }

  /**
   * A variable placeholder at the very start of `s`: its name and the length it spans.
   * Whitespace, word characters and braces are disjoint, so the pattern matches
   * without backtracking: each run is taken whole.
   */
  function VarMatch(s: string): (r: Option<(string, nat)>)
    ensures r.Some? ==> IsWord(r.value.0) && 5 <= r.value.1 <= |s|
  {
    if |s| < 2 || s[..2] != "{{" then None
    else
      var q := 2 + WsLen(s[2..]);
      var w := WordLen(s[q..]);
      if w == 0 then None
      else
        var t := q + w + WsLen(s[q + w..]);
        if t + 2 <= |s| && s[t..t + 2] == "}}" then Some((s[q..q + w], t + 2)) else None
  }

  /** `re.findall` of the placeholder pattern: names left to right, matches never overlapping. */
  function FindVars(s: string): (r: seq<string>)
    ensures forall i :: 0 <= i < |r| ==> IsWord(r[i])
    decreases |s|
  {
    if |s| == 0 then []
    else match VarMatch(s)
      case Some((name, n)) => [name] + FindVars(s[n..])
      case None => FindVars(s[1..])
  }

  /** `_extract_variables`: the names of the placeholders, each once, in sorted order. */
  function ExtractVariables(template: string): (r: seq<string>)
    ensures Sorting.StrictlyAscending(r)
    ensures forall x :: x in r <==> x in FindVars(template)
    ensures forall i :: 0 <= i < |r| ==> IsWord(r[i])
  {
    var found := FindVars(template);
    var r := Sorting.SortedSet(found);
    forall i | 0 <= i < |r| ensures IsWord(r[i]) {
      assert r[i] in found;
      var k :| 0 <= k < |found| && found[k] == r[i];
    }
    r
  }

  /** A placeholder for `x` starts at position `i` of `s`. */
  predicate PlaceholderAt(s: string, i: int, x: string)
  {
    0 <= i <= |s| && VarMatch(s[i..]).Some? && VarMatch(s[i..]).value.0 == x
  }

  /** After its opening `{{` a placeholder holds no `{`. */
  lemma PlaceholderBody(s: string)
    requires VarMatch(s).Some?
    ensures forall k :: 2 <= k < VarMatch(s).value.1 ==> s[k] != '{'
  {
    var q, w, t := PlaceholderParts(s);
    SpaceRunNoBrace(s, 2, q);
    WordRunNoBrace(s, q, q + w);
    SpaceRunNoBrace(s, q + w, t);
    JoinNoBrace(s, q, q + w, t);
  }

  /** The runs a placeholder is made of: whitespace up to `q`, a word of length `w`, whitespace up to `t`, then `}}`. */
  lemma PlaceholderParts(s: string) returns (q: nat, w: nat, t: nat)
    requires VarMatch(s).Some?
    ensures 2 <= q <= q + w <= t && t + 2 == VarMatch(s).value.1
    ensures q == 2 + WsLen(s[2..]) && w == WordLen(s[q..]) && t == q + w + WsLen(s[q + w..])
    ensures s[t..t + 2] == "}}"
  {
    q := 2 + WsLen(s[2..]);
    w := WordLen(s[q..]);
    t := q + w + WsLen(s[q + w..]);
  }

  /** Four runs free of `{`, back to back, make one. */
  lemma JoinNoBrace(s: string, q: nat, r: nat, t: nat)
    requires 2 <= q <= r <= t && t + 2 <= |s|
    requires forall k :: 2 <= k < q ==> s[k] != '{'
    requires forall k :: q <= k < r ==> s[k] != '{'
    requires forall k :: r <= k < t ==> s[k] != '{'
    requires s[t..t + 2] == "}}"
    ensures forall k :: 2 <= k < t + 2 ==> s[k] != '{'
  {
    assert s[t] == '}' && s[t + 1] == '}' by { assert s[t..t + 2][0] == s[t] && s[t..t + 2][1] == s[t + 1]; }
  }

  lemma SpaceRunNoBrace(s: string, a: nat, b: nat)
    requires a <= b <= |s| && b == a + WsLen(s[a..])
    ensures forall k :: a <= k < b ==> s[k] != '{'
  {
    var x := s[a..];
    assert forall j :: 0 <= j < b - a ==> x[j] in PyWhitespace;
    assert '{' !in PyWhitespace;
    forall k | a <= k < b ensures s[k] != '{' {
      assert x[k - a] == s[k];
    }
  }

  lemma WordRunNoBrace(s: string, a: nat, b: nat)
    requires a <= b <= |s| && b == a + WordLen(s[a..])
    ensures forall k :: a <= k < b ==> s[k] != '{'
  {
    var x := s[a..];
    forall k | a <= k < b ensures s[k] != '{' {
      assert x[k - a] == s[k];
    }
  }

  /** No placeholder starts inside another one. */
  lemma NoPlaceholderInside(s: string, i: nat)
    requires VarMatch(s).Some? && 0 < i < VarMatch(s).value.1
    ensures VarMatch(s[i..]).None?
  {
    PlaceholderBody(s);
    if i + 2 <= |s| {
      assert s[i..][..2] == [s[i], s[i + 1]];
      if i == 1 {
        assert s[2] != '{';
      } else {
        assert s[i] != '{';
      }
    }
  }

  /** Every placeholder of the text has its name found, wherever it starts. */
  lemma FindVarsComplete(s: string, i: nat, x: string)
    requires PlaceholderAt(s, i, x)
    ensures x in FindVars(s)
  {
    CompleteFrom(s, 0, i, x);
    assert s[0..] == s;
  }

  /** A scan that resumes at any position up to a placeholder's start finds its name. */
  lemma {:induction false} CompleteFrom(s: string, m: nat, i: nat, x: string)
    requires m <= i && PlaceholderAt(s, i, x)
    ensures x in FindVars(s[m..])
    decreases i - m
  {
    if m == i {
      FoundAtMatch(s, m);
    } else if VarMatch(s[m..]).None? {
      CompleteFrom(s, m + 1, i, x);
      FoundAfterSkip(s, m, x);
    } else {
      var n := VarMatch(s[m..]).value.1;
      NextPlaceholderAfter(s, m, n, i);
      var k := m + n;
      CompleteFrom(s, k, i, x);
      FoundAfterMatch(s, m, n, k, x);
    }
  }

  /** The scan resumed at a placeholder finds its name first. */
  lemma FoundAtMatch(s: string, m: nat)
    requires m <= |s| && VarMatch(s[m..]).Some?
    ensures VarMatch(s[m..]).value.0 in FindVars(s[m..])
  {
  }

  /** Where no placeholder starts, the scan steps over one character. */
  lemma FoundAfterSkip(s: string, m: nat, x: string)
    requires m < |s| && VarMatch(s[m..]).None? && x in FindVars(s[m + 1..])
    ensures x in FindVars(s[m..])
  {
    assert s[m..][1..] == s[m + 1..];
  }

  /** Where a placeholder starts, the scan jumps over the whole match. */
  lemma FoundAfterMatch(s: string, m: nat, n: nat, k: nat, x: string)
    requires m <= |s| && VarMatch(s[m..]).Some? && n == VarMatch(s[m..]).value.1
    requires k == m + n <= |s| && x in FindVars(s[k..])
    ensures x in FindVars(s[m..])
  {
    assert s[m..][n..] == s[k..];
  }

  /** A placeholder that starts after the one at `m` starts at or after its end. */
  lemma NextPlaceholderAfter(s: string, m: nat, n: nat, i: nat)
    requires m < i <= |s| && VarMatch(s[m..]).Some? && n == VarMatch(s[m..]).value.1
    ensures VarMatch(s[i..]).Some? ==> m + n <= i
  {
    if i < m + n {
      NoPlaceholderInside(s[m..], i - m);
      assert s[m..][i - m..] == s[i..];
    }
  }

  /** Every name found is the name of a placeholder of the text. */
  lemma {:induction false} FindVarsSound(s: string, x: string)
    requires x in FindVars(s)
    ensures exists i :: PlaceholderAt(s, i, x)
    decreases |s|, 1
  {
    if VarMatch(s).None? {
      SoundAfterSkip(s, x);
    } else if x == VarMatch(s).value.0 {
      assert s[0..] == s;
      assert PlaceholderAt(s, 0, x);
    } else {
      SoundAfterMatch(s, x);
    }
  }

  lemma {:induction false} SoundAfterSkip(s: string, x: string)
    requires x in FindVars(s) && VarMatch(s).None?
    ensures exists i :: PlaceholderAt(s, i, x)
    decreases |s|, 0
  {
    FindVarsSound(s[1..], x);
    var i :| PlaceholderAt(s[1..], i, x);
    PlaceholderUnshift(s, 1, i, x);
  }

  lemma {:induction false} SoundAfterMatch(s: string, x: string)
    requires x in FindVars(s) && VarMatch(s).Some? && x != VarMatch(s).value.0
    ensures exists i :: PlaceholderAt(s, i, x)
    decreases |s|, 0
  {
    var n := VarMatch(s).value.1;
    FindVarsSound(s[n..], x);
    var i :| PlaceholderAt(s[n..], i, x);
    PlaceholderUnshift(s, n, i, x);
  }

  /** A placeholder at `i` of the text after its first `n` characters is a placeholder at `n + i` of the whole. */
  lemma PlaceholderUnshift(s: string, n: nat, i: int, x: string)
    requires n <= |s| && PlaceholderAt(s[n..], i, x)
    ensures PlaceholderAt(s, n + i, x)
  {
    assert s[n..][i..] == s[n + i..];
  }

  /** A name is found exactly when some placeholder of the text carries it. */
  lemma FindVarsExactly(s: string, x: string)
    ensures x in FindVars(s) <==> exists i :: PlaceholderAt(s, i, x)
  {
    if x in FindVars(s) {
      FindVarsSound(s, x);
    }
    if exists i :: PlaceholderAt(s, i, x) {
      var i :| PlaceholderAt(s, i, x);
      FindVarsComplete(s, i, x);
    }
  }

  /** The variables of a template are exactly the names of its placeholders, so none exactly when it has no placeholder. */
  lemma ExtractVariablesExactly(template: string)
    ensures forall x :: x in ExtractVariables(template) <==> exists i :: PlaceholderAt(template, i, x)
  {
    forall x ensures x in ExtractVariables(template) <==> exists i :: PlaceholderAt(template, i, x) {
      FindVarsExactly(template, x);
    }
  }

  /** Text with no `{` holds no placeholders. */
  lemma {:induction false} FindVarsNoBrace(s: string)
    requires forall i :: 0 <= i < |s| ==> s[i] != '{'
    ensures FindVars(s) == []
    decreases |s|
  {
    if |s| > 0 {
      assert VarMatch(s).None? by { assert s[0] != '{'; assert |s| >= 2 ==> s[..2][0] == s[0]; }
      FindVarsNoBrace(s[1..]);
    }
  }

  /** A template that is one padded placeholder declares exactly that variable. */
  lemma ExtractSingle(name: string)
    requires IsWord(name)
    ensures ExtractVariables("{{ " + name + " }}") == [name]
  {
    var s := "{{ " + name + " }}";
    assert s[..2] == "{{";
    assert WsLen(s[2..]) == 1 by {
      Strings.LeadIs(s[2..], PyWhitespace, 1);
    }
    assert s[3..][..|name|] == name;
    assert WordLen(s[3..]) == |name| by { WordLenIs(s[3..], |name|); }
    assert WsLen(s[3 + |name|..]) == 1 by {
      Strings.LeadIs(s[3 + |name|..], PyWhitespace, 1);
    }
    assert s[4 + |name|..6 + |name|] == "}}" by {
      assert s[4 + |name|] == '}' && s[5 + |name|] == '}';
    }
    assert s[3..3 + |name|] == name by {
      forall k | 0 <= k < |name| ensures s[3..3 + |name|][k] == name[k] {
        assert s[3 + k] == name[k];
      }
    }
    assert VarMatch(s) == Some((name, |s|));
    assert s[|s|..] == [];
    assert FindVars(s) == [name];
    assert Sorting.Distinct([name]) == [name];
    Sorting.StrLeTotal();
    assert Sorting.Sort([name], Strings.StrLe) == [name];
  }

  lemma {:induction false} WordLenIs(s: string, n: nat)
    requires n <= |s| && forall i :: 0 <= i < n ==> WordChar(s[i])
    requires n < |s| ==> !WordChar(s[n])
    ensures WordLen(s) == n
  {
    if n > 0 {
      WordLenIs(s[1..], n - 1);
    }
  }

  // ---------------------------------------------------------------------------
  // Substitution: `re.sub(r"\{\{\s*" + re.escape(k) + r"\s*\}\}", value, rendered)`

  /** After whitespace from `q`, a closing `}}`: the end of the match. */
  function Closes(s: string, q: nat): (r: Option<nat>)
    requires q <= |s|
    ensures r.Some? ==> q + 2 <= r.value <= |s|
  {
    var t := q + WsLen(s[q..]);
    if t + 2 <= |s| && s[t..t + 2] == "}}" then Some(t + 2) else None
  }

  /**
   * The leading `\s*` backtracks: it first takes the whole whitespace run, so the key is
   * tried at the run's end `p`, then at earlier positions down to 2, until the key and
   * the closing part match.
   */
  function TryLead(s: string, key: string, p: nat): (r: Option<nat>)
    requires 2 <= p <= |s|
    ensures r.Some? ==> 4 <= r.value <= |s|
    decreases p
  {
    if StartsWith(s[p..], key) && Closes(s, p + |key|).Some? then Closes(s, p + |key|)
    else if p == 2 then None
    else TryLead(s, key, p - 1)
  }

  /** A placeholder for `key` at the start of `s`: the length it spans. */
  function KeyMatch(s: string, key: string): (r: Option<nat>)
    ensures r.Some? ==> 4 <= r.value <= |s|
  {
    if |s| < 2 || s[..2] != "{{" then None
    else TryLead(s, key, 2 + WsLen(s[2..]))
  }

  /** One left-to-right pass replacing every placeholder for `key` with `value`; text without `{` is left alone. */
  function Substitute(s: string, key: string, value: string): (r: string)
    ensures NoOpenBrace(s) ==> r == s
    decreases |s|
  {
    if |s| == 0 then []
    else if s[0] != '{' then
      assert KeyMatch(s, key).None? by { assert |s| >= 2 ==> s[..2][0] == s[0]; }
      [s[0]] + Substitute(s[1..], key, value)
    else match KeyMatch(s, key)
      case Some(n) => value + Substitute(s[n..], key, value)
      case None => [s[0]] + Substitute(s[1..], key, value)
  }

  // ---------------------------------------------------------------------------
  // The replacement string: `re.sub` reads it as a template, in which backslash
  // escapes are processed and group references are resolved against the match.

  /** One piece of a parsed replacement template: a literal character, or the whole match (`\g<0>`). */
  datatype ReplPiece = Lit(c: char) | WholeMatch

  /**
   * Why `re` refuses a replacement template (every kind raises `re.error` or
   * `IndexError`). The pattern has no capture groups, so only group 0 exists.
   */
  datatype ReplError =
    | BadEscape              // a trailing `\`, or `\` before an ASCII letter with no meaning
    | MissingLt              // `\g` not followed by `<`
    | UnterminatedName       // `\g<` with no `>` after it
    | MissingGroupName       // `\g<>`
    | UnknownGroupName       // `\g<name>`
    | BadGroupName           // `\g<...>` holding neither a name nor a number
    | InvalidGroupReference  // `\1` to `\99`, or `\g<n>` with n >= 1
    | OctalOutOfRange        // `\400` to `\777`

  /** The escapes `\a \b \f \n \r \t \v \\`. */
  function SimpleEscape(c: char): Option<char>
  {
    match c
    case 'a' => Some(7 as char)
    case 'b' => Some(8 as char)
    case 'f' => Some(12 as char)
    case 'n' => Some('\n')
    case 'r' => Some('\r')
    case 't' => Some('\t')
    case 'v' => Some(11 as char)
    case '\\' => Some('\\')
    case _ => None
  }

  predicate OctDigit(c: char) { '0' <= c <= '7' }
  predicate Digit(c: char) { '0' <= c <= '9' }
  predicate AsciiLetter(c: char) { 'a' <= c <= 'z' || 'A' <= c <= 'Z' }

  /** An identifier in the ASCII range: a letter or `_`, then word characters. */
  predicate IsIdentifier(s: string)
  {
    |s| > 0 && (AsciiLetter(s[0]) || s[0] == '_') && forall i :: 0 <= i < |s| ==> WordChar(s[i])
  }

  predicate AllDigits(s: string)
  {
    forall i :: 0 <= i < |s| ==> Digit(s[i])
  }

  /** The value of an octal digit. */
  function OctValue(c: char): (d: nat)
    requires OctDigit(c)
    ensures d < 8
  {
    (c as int - '0' as int) as nat
  }

  /** The position of the first `c` in `s`. */
  function IndexOfChar(s: string, c: char): (r: Option<nat>)
    ensures r.Some? ==> r.value < |s| && s[r.value] == c && forall j :: 0 <= j < r.value ==> s[j] != c
    ensures r.None? ==> forall j :: 0 <= j < |s| ==> s[j] != c
  {
    if |s| == 0 then None
    else if s[0] == c then Some(0)
    else match IndexOfChar(s[1..], c)
      case Some(k) => Some(k + 1)
      case None => None
  }

  function Prepend(ps: seq<ReplPiece>, r: Result<seq<ReplPiece>, ReplError>): Result<seq<ReplPiece>, ReplError>
  {
    if r.Ok? then Ok(ps + r.value) else r
  }

  /** The group reference `\g<name>` at the start of `v`, which continues from `v[3..]`. */
  function GroupRef(v: string): (r: Result<(ReplPiece, nat), ReplError>)
    requires |v| >= 2 && v[..2] == "\\g"
    ensures r.Ok? ==> 4 <= r.value.1 <= |v|
  {
    if |v| < 3 || v[2] != '<' then Err(MissingLt)
    else match IndexOfChar(v[3..], '>')
      case None => Err(UnterminatedName)
      case Some(k) =>
        var name := v[3..3 + k];
        if name == [] then Err(MissingGroupName)
        else if IsIdentifier(name) then Err(UnknownGroupName)
        else if !AllDigits(name) then Err(BadGroupName)
        else if exists i :: 0 <= i < |name| && name[i] != '0' then Err(InvalidGroupReference)
        else Ok((WholeMatch, 4 + k))
  }

  /** The escape `\0`, `\0o` or `\0oo` at the start of `v`: its character and its length. */
  function ZeroEscape(v: string): (r: (char, nat))
    requires |v| >= 2
    ensures 2 <= r.1 <= |v|
  {
    if 2 < |v| && OctDigit(v[2]) then
      if 3 < |v| && OctDigit(v[3]) then ((OctValue(v[2]) * 8 + OctValue(v[3])) as char, 4)
      else (OctValue(v[2]) as char, 3)
    else (0 as char, 2)
  }

  /** `sre_parse.parse_template` for a pattern without groups. */
  function ParseRepl(v: string): (r: Result<seq<ReplPiece>, ReplError>)
    decreases |v|
  {
    if |v| == 0 then Ok([])
    else if v[0] != '\\' then Prepend([Lit(v[0])], ParseRepl(v[1..]))
    else if |v| == 1 then Err(BadEscape)
    else
      var c := v[1];
      if c == 'g' then
        match GroupRef(v)
        case Err(e) => Err(e)
        case Ok((piece, n)) => Prepend([piece], ParseRepl(v[n..]))
      else if c == '0' then
        var (e, n) := ZeroEscape(v);
        Prepend([Lit(e)], ParseRepl(v[n..]))
      else if Digit(c) then
        if OctDigit(c) && 3 < |v| && OctDigit(v[2]) && OctDigit(v[3]) then
          var code := OctValue(c) * 64 + OctValue(v[2]) * 8 + OctValue(v[3]);
          if code > 0xFF then Err(OctalOutOfRange) else Prepend([Lit(code as char)], ParseRepl(v[4..]))
        else Err(InvalidGroupReference)
      else match SimpleEscape(c)
        case Some(e) => Prepend([Lit(e)], ParseRepl(v[2..]))
        case None =>
          if AsciiLetter(c) then Err(BadEscape) else Prepend([Lit('\\'), Lit(c)], ParseRepl(v[2..]))
  }

  /** The text a parsed template produces for a match whose text is `matched`. */
  function Expand(pieces: seq<ReplPiece>, matched: string): string
  {
    if |pieces| == 0 then []
    else (if pieces[0].Lit? then [pieces[0].c] else matched) + Expand(pieces[1..], matched)
  }

  /** Each character as a literal piece. */
  function Literal(v: string): (r: seq<ReplPiece>)
    ensures |r| == |v| && forall i :: 0 <= i < |v| ==> r[i] == Lit(v[i])
  {
    if |v| == 0 then [] else [Lit(v[0])] + Literal(v[1..])
  }

  predicate NoBackslash(v: string)
  {
    forall i :: 0 <= i < |v| ==> v[i] != '\\'
  }

  /** `re.sub`'s quick path: a replacement without a backslash is inserted as it is. */
  lemma {:induction false} ParsePlain(v: string)
    requires NoBackslash(v)
    ensures ParseRepl(v) == Ok(Literal(v))
    decreases |v|
  {
    if |v| > 0 {
      ParsePlain(v[1..]);
    }
  }

  lemma {:induction false} ExpandLiteral(v: string, matched: string)
    ensures Expand(Literal(v), matched) == v
    decreases |v|
  {
    if |v| > 0 {
      assert Literal(v)[1..] == Literal(v[1..]);
      ExpandLiteral(v[1..], matched);
    }
  }

  /** The replacement that stands for `v` itself: every backslash doubled. */
  function EscapeRepl(v: string): string
  {
    if |v| == 0 then []
    else (if v[0] == '\\' then "\\\\" else [v[0]]) + EscapeRepl(v[1..])
  }

  /** Doubling the backslashes makes `re.sub` insert any value literally. */
  lemma {:induction false} EscapeReplInverse(v: string)
    ensures ParseRepl(EscapeRepl(v)) == Ok(Literal(v))
    decreases |v|
  {
    if |v| > 0 {
      var e := EscapeRepl(v);
      EscapeReplInverse(v[1..]);
      if v[0] == '\\' {
        assert e[..2] == "\\\\" && e[2..] == EscapeRepl(v[1..]);
      } else {
        assert e[0] == v[0] && e[1..] == EscapeRepl(v[1..]);
      }
    }
  }

  lemma ParseLiteralStep(v: string)
    requires |v| > 0 && v[0] != '\\'
    ensures ParseRepl(v) == Prepend([Lit(v[0])], ParseRepl(v[1..]))
  {
  }

  lemma ParseEscapeStep(v: string)
    requires |v| >= 2 && v[0] == '\\' && v[1] != 'g' && !Digit(v[1]) && SimpleEscape(v[1]).Some?
    ensures ParseRepl(v) == Prepend([Lit(SimpleEscape(v[1]).value)], ParseRepl(v[2..]))
  {
  }

  /** `C:\new` as a replacement yields a newline, not a backslash and an `n`. */
  lemma NewlineEscape()
    ensures ParseRepl("C:\\new") == Ok([Lit('C'), Lit(':'), Lit('\n'), Lit('e'), Lit('w')])
  {
    ParsePlain("ew");
    assert Literal("ew") == [Lit('e'), Lit('w')];
    var v := "\\new";
    ParseEscapeStep(v);
    assert v[2..] == "ew";
    assert [Lit('\n')] + [Lit('e'), Lit('w')] == [Lit('\n'), Lit('e'), Lit('w')];
    assert ParseRepl(v) == Ok([Lit('\n'), Lit('e'), Lit('w')]);
    ParseLiteralStep(":" + v);
    assert (":" + v)[1..] == v;
    assert [Lit(':')] + [Lit('\n'), Lit('e'), Lit('w')] == [Lit(':'), Lit('\n'), Lit('e'), Lit('w')];
    assert ParseRepl(":" + v) == Ok([Lit(':'), Lit('\n'), Lit('e'), Lit('w')]);
    ParseLiteralStep("C:" + v);
    assert ("C:" + v)[1..] == ":" + v;
    assert [Lit('C')] + [Lit(':'), Lit('\n'), Lit('e'), Lit('w')] == [Lit('C'), Lit(':'), Lit('\n'), Lit('e'), Lit('w')];
    assert "C:" + v == "C:\\new";
  }

  /** `a\d` is refused: `\d` is an unknown escape of an ASCII letter. */
  lemma LetterEscapeRefused()
    ensures ParseRepl("a\\d") == Err(BadEscape)
  {
    ParseLiteralStep("a\\d");
    assert "a\\d"[1..] == "\\d";
  }

  /** `\1` refers to a group the placeholder pattern does not have. */
  lemma GroupReferenceRefused()
    ensures ParseRepl("\\1") == Err(InvalidGroupReference)
  {
  }

  /** `\g<0>` inserts the whole matched placeholder. */
  lemma WholeMatchReference()
    ensures ParseRepl("\\g<0>!") == Ok([WholeMatch, Lit('!')])
  {
    var g := "\\g<0>!";
    assert g[..2] == "\\g";
    assert IndexOfChar(g[3..], '>') == Some(1) by { assert g[3..][0] != '>' && g[3..][1] == '>'; }
    assert g[3..4] == "0";
    assert GroupRef(g) == Ok((WholeMatch, 5));
    assert g[5..] == "!";
    ParsePlain("!");
    assert Literal("!") == [Lit('!')];
    assert ParseRepl(g) == Prepend([WholeMatch], ParseRepl(g[5..]));
    assert [WholeMatch] + [Lit('!')] == [WholeMatch, Lit('!')];
  }

  /** An unknown escape of a non-letter keeps both characters. */
  lemma OtherEscapeKept()
    ensures ParseRepl("\\{") == Ok([Lit('\\'), Lit('{')])
  {
    var v := "\\{";
    assert v[2..] == "";
    assert ParseRepl(v) == Prepend([Lit('\\'), Lit('{')], ParseRepl(v[2..]));
    assert [Lit('\\'), Lit('{')] + [] == [Lit('\\'), Lit('{')];
  }

  /** One left-to-right pass replacing every placeholder for `key` by the expanded template. */
  function SubstituteWith(s: string, key: string, pieces: seq<ReplPiece>): string
    decreases |s|
  {
    if |s| == 0 then []
    else match KeyMatch(s, key)
      case Some(n) => Expand(pieces, s[..n]) + SubstituteWith(s[n..], key, pieces)
      case None => [s[0]] + SubstituteWith(s[1..], key, pieces)
  }

  /** A template of literal pieces substitutes like the literal text. */
  lemma {:induction false} SubstituteWithLiteral(s: string, key: string, v: string)
    ensures SubstituteWith(s, key, Literal(v)) == Substitute(s, key, v)
    decreases |s|
  {
    if |s| > 0 {
      match KeyMatch(s, key)
      case Some(n) =>
        SubstituteWithLiteral(s[n..], key, v);
        LiteralAtMatch(s, key, v, n);
      case None =>
        SubstituteWithLiteral(s[1..], key, v);
        LiteralAtSkip(s, key, v);
    }
  }

  lemma LiteralAtMatch(s: string, key: string, v: string, n: nat)
    requires KeyMatch(s, key) == Some(n)
    requires SubstituteWith(s[n..], key, Literal(v)) == Substitute(s[n..], key, v)
    ensures SubstituteWith(s, key, Literal(v)) == Substitute(s, key, v)
  {
    ExpandLiteral(v, s[..n]);
    assert s[..2][0] == s[0];
  }

  lemma LiteralAtSkip(s: string, key: string, v: string)
    requires |s| > 0 && KeyMatch(s, key).None?
    requires SubstituteWith(s[1..], key, Literal(v)) == Substitute(s[1..], key, v)
    ensures SubstituteWith(s, key, Literal(v)) == Substitute(s, key, v)
  {
  }

  /** The template after substituting each (key, value) pair in turn; the first refused value fails the render. */
  function RenderSpec(template: string, vars: seq<(string, string)>): (r: Result<string, ReplError>)
    ensures r.Ok? <==> forall i :: 0 <= i < |vars| ==> ParseRepl(vars[i].1).Ok?
    decreases |vars|
  {
    if |vars| == 0 then Ok(template)
    else
      assert forall i :: 0 <= i < |vars| - 1 ==> vars[..|vars| - 1][i] == vars[i];
      match RenderSpec(template, vars[..|vars| - 1])
      case Err(e) => Err(e)
      case Ok(prev) =>
        match ParseRepl(vars[|vars| - 1].1)
        case Err(e) => Err(e)
        case Ok(pieces) => Ok(SubstituteWith(prev, vars[|vars| - 1].0, pieces))
  }

  /** `render_prompt`: the variables are the dict's items in order, values already `str`-converted. */
  method RenderPrompt(template: string, vars: seq<(string, string)>) returns (rendered: Result<string, ReplError>)
    ensures rendered == RenderSpec(template, vars)
    ensures rendered.Ok? <==> forall i :: 0 <= i < |vars| ==> ParseRepl(vars[i].1).Ok?
  {
    var text := template;
    for j := 0 to |vars|
      invariant RenderSpec(template, vars[..j]) == Ok(text)
    {
      assert vars[..j + 1][..j] == vars[..j];
      var repl := ParseRepl(vars[j].1);
      if repl.Err? {
        RenderFailsFrom(template, vars[..j + 1], vars);
        return Err(repl.error);
      }
      text := SubstituteWith(text, vars[j].0, repl.value);
    }
    assert vars[..|vars|] == vars;
    rendered := Ok(text);
  }

  /** A failure in a prefix of the variables fails the whole render with the same error. */
  lemma {:induction false} RenderFailsFrom(template: string, pre: seq<(string, string)>, vars: seq<(string, string)>)
    requires pre <= vars && RenderSpec(template, pre).Err?
    ensures RenderSpec(template, vars) == RenderSpec(template, pre)
    decreases |vars|
  {
    if |vars| > |pre| {
      var init := vars[..|vars| - 1];
      assert pre <= init;
      RenderFailsFrom(template, pre, init);
    } else {
      assert pre == vars;
    }
  }

  /** Rendering with backslash-free values substitutes each value literally. */
  lemma {:induction false} RenderPlain(template: string, vars: seq<(string, string)>)
    requires forall i :: 0 <= i < |vars| ==> NoBackslash(vars[i].1)
    ensures RenderSpec(template, vars).Ok?
    ensures |vars| > 0 ==>
      RenderSpec(template, vars).value ==
      Substitute(RenderSpec(template, vars[..|vars| - 1]).value, vars[|vars| - 1].0, vars[|vars| - 1].1)
    decreases |vars|
  {
    if |vars| > 0 {
      var init := vars[..|vars| - 1];
      RenderPlain(template, init);
      ParsePlain(vars[|vars| - 1].1);
      SubstituteWithLiteral(RenderSpec(template, init).value, vars[|vars| - 1].0, vars[|vars| - 1].1);
    }
  }

  /** Text without `{` is left alone by any template. */
  lemma {:induction false} SubstituteWithNoBrace(s: string, key: string, pieces: seq<ReplPiece>)
    requires NoOpenBrace(s)
    ensures SubstituteWith(s, key, pieces) == s
    decreases |s|
  {
    if |s| > 0 {
      assert KeyMatch(s, key).None? by { assert |s| >= 2 ==> s[..2][0] == s[0]; }
      SubstituteWithNoBrace(s[1..], key, pieces);
    }
  }

  /** With no variables, or a template without `{` and values `re` accepts, rendering returns the template. */
  lemma {:induction false} RenderUnchanged(template: string, vars: seq<(string, string)>)
    requires |vars| == 0 || (NoOpenBrace(template) && forall i :: 0 <= i < |vars| ==> ParseRepl(vars[i].1).Ok?)
    ensures RenderSpec(template, vars) == Ok(template)
    decreases |vars|
  {
    if |vars| > 0 {
      var init := vars[..|vars| - 1];
      assert forall i :: 0 <= i < |init| ==> init[i] == vars[i];
      RenderUnchanged(template, init);
      SubstituteWithNoBrace(template, vars[|vars| - 1].0, ParseRepl(vars[|vars| - 1].1).value);
    }
  }

  /** A whitespace run, as `\s*` matches it. */
  predicate AllSpace(w: string)
  {
    forall i :: 0 <= i < |w| ==> w[i] in PyWhitespace
  }

  /** `{{`, whitespace, the key, whitespace, `}}`: a placeholder as templates write it, `{{ k }}` or `{{k}}`. */
  function Placeholder(key: string, pad: (string, string)): string
  {
    "{{" + pad.0 + key + pad.1 + "}}"
  }

  /** `segs[0] {{ key }} segs[1] {{ key }} ... segs[n]`, the i-th placeholder padded by `pads[i]`. */
  function Fill(segs: seq<string>, key: string, pads: seq<(string, string)>): string
    requires |segs| > 0 && |pads| == |segs| - 1
  {
    if |segs| == 1 then segs[0] else segs[0] + Placeholder(key, pads[0]) + Fill(segs[1..], key, pads[1..])
  }

  /** `segs[0] value segs[1] value ... segs[n]`. */
  function Interleave(segs: seq<string>, value: string): string
    requires |segs| > 0
  {
    if |segs| == 1 then segs[0] else segs[0] + value + Interleave(segs[1..], value)
  }

  predicate NoOpenBrace(s: string)
  {
    forall i :: 0 <= i < |s| ==> s[i] != '{'
  }

  /**
   * Every placeholder of a template whose literal text has no `{` is replaced, padded
   * or not: rendering yields the literal text with the value in each placeholder's place.
   */
  lemma {:induction false} SubstituteFills(segs: seq<string>, key: string, pads: seq<(string, string)>, value: string)
    requires |segs| > 0 && |pads| == |segs| - 1
    requires forall j :: 0 <= j < |segs| ==> NoOpenBrace(segs[j])
    requires forall j :: 0 <= j < |pads| ==> AllSpace(pads[j].0) && AllSpace(pads[j].1)
    requires key == [] || key[0] !in PyWhitespace
    ensures Substitute(Fill(segs, key, pads), key, value) == Interleave(segs, value)
    decreases |segs|
  {
    if |segs| > 1 {
      SubstituteSegment(segs[0], key, pads[0], value, Fill(segs[1..], key, pads[1..]));
      SubstituteFills(segs[1..], key, pads[1..], value);
    }
  }

  /** A brace-free segment followed by a placeholder renders as the segment, then the value. */
  lemma SubstituteSegment(seg: string, key: string, pad: (string, string), value: string, rest: string)
    requires NoOpenBrace(seg)
    requires AllSpace(pad.0) && AllSpace(pad.1)
    requires key == [] || key[0] !in PyWhitespace
    ensures Substitute(seg + Placeholder(key, pad) + rest, key, value) == seg + value + Substitute(rest, key, value)
  {
    var ph := Placeholder(key, pad) + rest;
    assert seg + Placeholder(key, pad) + rest == seg + ph;
    SubstituteLiteral(seg, ph, key, value);
    SubstitutePadded(key, pad, value, rest);
  }

  /** A leading placeholder, padded or not, is replaced by the value and the rest substituted. */
  lemma SubstitutePadded(key: string, pad: (string, string), value: string, rest: string)
    requires AllSpace(pad.0) && AllSpace(pad.1)
    requires key == [] || key[0] !in PyWhitespace
    ensures Substitute(Placeholder(key, pad) + rest, key, value) == value + Substitute(rest, key, value)
  {
    PaddedMatches(key, pad, rest);
    var n := |Placeholder(key, pad)|;
    assert (Placeholder(key, pad) + rest)[n..] == rest;
  }

  lemma SubstitutePlaceholder(key: string, value: string, rest: string)
    requires key == [] || key[0] !in PyWhitespace
    ensures Substitute("{{" + key + "}}" + rest, key, value) == value + Substitute(rest, key, value)
  {
    assert Placeholder(key, ("", "")) == "{{" + key + "}}";
    SubstitutePadded(key, ("", ""), value, rest);
  }

  /** A placeholder for `key`, padded or not, matches `\{\{\s*key\s*\}\}` with its whole length. */
  lemma PaddedMatches(key: string, pad: (string, string), rest: string)
    requires AllSpace(pad.0) && AllSpace(pad.1)
    requires key == [] || key[0] !in PyWhitespace
    ensures KeyMatch(Placeholder(key, pad) + rest, key) == Some(|Placeholder(key, pad)|)
  {
    var s := Placeholder(key, pad) + rest;
    var p := 2 + |pad.0|;
    var q := p + |key|;
    var t := q + |pad.1|;
    PaddedLayout(s, key, pad, rest, p, q, t);
    if key == [] {
      MatchEmptyKey(s, t);
    } else {
      MatchWithKey(s, key, p, q, t);
    }
  }

  /** With an empty key the two whitespace runs are one, which the leading `\s*` takes whole. */
  lemma MatchEmptyKey(s: string, t: nat)
    requires |s| >= 2 && s[..2] == "{{" && t == 2 + WsLen(s[2..]) && t <= |s| && StartsWith(s[t..], "}}")
    ensures KeyMatch(s, []) == Some(t + 2)
  {
    CloseAt(s, t);
    ClosesAt(s, t, t);
    LeadTaken(s, [], t, t);
  }

  /** `{{`, a whitespace run up to `p`, the key up to `q`, a whitespace run up to `t`, then `}}`. */
  lemma MatchWithKey(s: string, key: string, p: nat, q: nat, t: nat)
    requires |s| >= 2 && s[..2] == "{{" && p == 2 + WsLen(s[2..]) && q == p + |key| && q <= t <= |s|
    requires StartsWith(s[p..], key) && WsLen(s[q..]) == t - q && StartsWith(s[t..], "}}")
    ensures KeyMatch(s, key) == Some(t + 2)
  {
    ClosesAt(s, q, t);
    LeadTaken(s, key, p, t);
  }

  /** Where the parts of a padded placeholder lie. */
  lemma PaddedLayout(s: string, key: string, pad: (string, string), rest: string, p: nat, q: nat, t: nat)
    requires AllSpace(pad.0) && AllSpace(pad.1)
    requires key == [] || key[0] !in PyWhitespace
    requires s == Placeholder(key, pad) + rest
    requires p == 2 + |pad.0| && q == p + |key| && t == q + |pad.1|
    ensures 2 <= p <= q <= t && t + 2 == |Placeholder(key, pad)| && t <= |s|
    ensures s[..2] == "{{" && StartsWith(s[p..], key) && StartsWith(s[t..], "}}")
    ensures key != [] ==> p == 2 + WsLen(s[2..]) && WsLen(s[q..]) == t - q
    ensures key == [] ==> t == 2 + WsLen(s[2..])
  {
    var t0 := "}}" + rest;
    var t1 := pad.1 + t0;
    var t2 := key + t1;
    var t3 := pad.0 + t2;
    assert s == "{{" + t3;
    SplitTail(s, 2, "{{", t3);
    SplitTail(t3, |pad.0|, pad.0, t2);
    TailOfTail(s, 2, |pad.0|, p);
    SplitTail(t2, |key|, key, t1);
    TailOfTail(s, p, |key|, q);
    SplitTail(t1, |pad.1|, pad.1, t0);
    TailOfTail(s, q, |pad.1|, t);
    LeadAppend(pad.0, t2);
    LeadAppend(pad.1, t0);
    LeadStop("}}", rest);
    KeyLead(key, t1);
  }

  /** A run of whitespace cannot start with `}`. */
  lemma LeadStop(close: string, rest: string)
    requires close == "}}"
    ensures Lead(close + rest, PyWhitespace) == 0
  {
    assert '}' !in PyWhitespace;
    assert (close + rest)[0] == '}';
  }

  /** The whitespace run before the key ends where the key starts, or runs on into the next run when the key is empty. */
  lemma KeyLead(key: string, t1: string)
    requires key == [] || key[0] !in PyWhitespace
    ensures Lead(key + t1, PyWhitespace) == (if key == [] then Lead(t1, PyWhitespace) else 0)
  {
    if key == [] {
      assert key + t1 == t1;
    } else {
      assert (key + t1)[0] == key[0];
    }
  }

  /** The text after a prefix of length `n`. */
  lemma SplitTail(s: string, n: nat, pre: string, post: string)
    requires s == pre + post && n == |pre|
    ensures s[n..] == post
  {
  }

  lemma TailOfTail(s: string, a: nat, b: nat, c: nat)
    requires a <= |s| && b <= |s| - a && c == a + b
    ensures s[a..][b..] == s[c..]
  {
  }

  /** `}}` at `t` starts no whitespace run. */
  lemma CloseAt(s: string, t: nat)
    requires t <= |s| && StartsWith(s[t..], "}}")
    ensures WsLen(s[t..]) == 0
  {
    assert s[t..][0] == s[t..][..2][0] == '}';
  }

  /** Whitespace from `q` up to `t`, then `}}`: the closing part ends at `t + 2`. */
  lemma ClosesAt(s: string, q: nat, t: nat)
    requires q <= t <= |s| && WsLen(s[q..]) == t - q && StartsWith(s[t..], "}}")
    ensures Closes(s, q) == Some(t + 2)
  {
    assert s[t..t + 2] == s[t..][..2];
  }

  /** The first try of the leading `\s*`, taking the whole run, succeeds. */
  lemma LeadTaken(s: string, key: string, p: nat, t: nat)
    requires |s| >= 2 && s[..2] == "{{" && p == 2 + WsLen(s[2..]) && p <= |s|
    requires StartsWith(s[p..], key) && p + |key| <= |s| && Closes(s, p + |key|) == Some(t + 2)
    ensures KeyMatch(s, key) == Some(t + 2)
  {
  }


  lemma PlaceholderMatches(key: string, rest: string)
    requires key == [] || key[0] !in PyWhitespace
    ensures KeyMatch("{{" + key + "}}" + rest, key) == Some(|key| + 4)
  {
    assert Placeholder(key, ("", "")) == "{{" + key + "}}";
    PaddedMatches(key, ("", ""), rest);
  }

  /** A leading whitespace run adds its length to the run that follows it. */
  lemma {:induction false} LeadAppend(w: string, t: string)
    requires AllSpace(w)
    ensures Lead(w + t, PyWhitespace) == |w| + Lead(t, PyWhitespace)
    decreases |w|
  {
    if |w| > 0 {
      assert (w + t)[1..] == w[1..] + t;
      LeadAppend(w[1..], t);
    } else {
      assert w + t == t;
    }
  }

  lemma {:induction false} SubstituteLiteral(lit: string, rest: string, key: string, value: string)
    requires NoOpenBrace(lit)
    ensures Substitute(lit + rest, key, value) == lit + Substitute(rest, key, value)
    decreases |lit|
  {
    if |lit| > 0 {
      var s := lit + rest;
      assert s[0] == lit[0];
      NoOpenFirst(s, key);
      CopyFirst(s, key, value);
      assert s[1..] == lit[1..] + rest;
      assert NoOpenBrace(lit[1..]) by {
        forall i | 0 <= i < |lit| - 1 ensures lit[1..][i] != '{' {
          assert lit[1..][i] == lit[i + 1];
        }
      }
      SubstituteLiteral(lit[1..], rest, key, value);
      assert [lit[0]] + lit[1..] == lit;
      Regroup(lit[0], lit[1..], lit, Substitute(rest, key, value));
    } else {
      assert lit + rest == rest;
    }
  }

  /** Positions before `k` that start no placeholder are copied unchanged. */
  lemma {:induction false} CopyPrefix(s: string, k: nat, key: string, value: string)
    requires k <= |s|
    requires forall i :: 0 <= i < k ==> KeyMatch(s[i..], key).None?
    ensures Substitute(s, key, value) == s[..k] + Substitute(s[k..], key, value)
    decreases k
  {
    if k > 0 {
      var t := s[1..];
      assert s[0..] == s;
      forall i | 0 <= i < k - 1 ensures KeyMatch(t[i..], key).None? {
        assert t[i..] == s[i + 1..];
      }
      CopyFirst(s, key, value);
      CopyPrefix(t, k - 1, key, value);
      assert t[k - 1..] == s[k..];
      var x := Substitute(s[k..], key, value);
      Regroup(s[0], t[..k - 1], s[..k], x);
    }
  }

  lemma NoOpenFirst(s: string, key: string)
    requires |s| > 0 && s[0] != '{'
    ensures KeyMatch(s, key).None?
  {
    assert |s| >= 2 ==> s[..2][0] == s[0];
  }

  lemma CopyFirst(s: string, key: string, value: string)
    requires |s| > 0 && KeyMatch(s, key).None?
    ensures Substitute(s, key, value) == [s[0]] + Substitute(s[1..], key, value)
  {
  }

  lemma Regroup(c: char, a: string, b: string, x: string)
    requires [c] + a == b
    ensures [c] + (a + x) == b + x
  {
  }

  /**
   * A single pass can also assemble a new placeholder out of the text around a
   * replaced one: rendering `{{ {{k}}k}}` with k = "" leaves `{{ k}}`, itself a
   * placeholder for `k`.
   */
  lemma RenderCanLeavePlaceholder(key: string)
    requires IsWord(key)
    ensures RenderSpec("{{ " + ("{{" + key + "}}") + (key + "}}"), [(key, "")]) == Ok("{{ " + (key + "}}"))
    ensures KeyMatch("{{ " + (key + "}}"), key).Some?
  {
    var s := "{{ " + ("{{" + key + "}}") + (key + "}}");
    var inner := "{{" + key + "}}" + (key + "}}");
    var left := "{{ " + (key + "}}");
    RenderOne(s, key, "");
    OuterPrefixKept(key, s);
    DropOuterOpen(key, s);
    InnerReplaced(key);
    assert Substitute(s, key, "") == left;
    OneSpaceMatches(key);
  }

  lemma DropOuterOpen(key: string, s: string)
    requires s == "{{ " + ("{{" + key + "}}") + (key + "}}")
    ensures s[3..] == "{{" + key + "}}" + (key + "}}")
  {
    var a := "{{ ";
    var b := "{{" + key + "}}";
    var c := key + "}}";
    assert a + b + c == a + (b + c);
    assert (a + (b + c))[|a|..] == b + c;
  }

  lemma RenderOne(template: string, key: string, value: string)
    requires NoBackslash(value)
    ensures RenderSpec(template, [(key, value)]) == Ok(Substitute(template, key, value))
  {
    assert [(key, value)][..0] == [];
    ParsePlain(value);
    SubstituteWithLiteral(template, key, value);
  }

  /** The inner `{{key}}` is replaced by the empty value; the `key}}` after it stays. */
  lemma InnerReplaced(key: string)
    requires IsWord(key)
    ensures Substitute("{{" + key + "}}" + (key + "}}"), key, "") == key + "}}"
  {
    var t := key + "}}";
    WordNotSpace(key[0]);
    SubstitutePlaceholder(key, "", t);
    assert forall i :: 0 <= i < |t| ==> t[i] != '{' by {
      forall i | 0 <= i < |t| ensures t[i] != '{' {
        if i < |key| { assert t[i] == key[i]; }
      }
    }
    assert "" + t == t;
  }

  /** The first three characters, `{{ `, start no placeholder for `key` and are copied. */
  lemma OuterPrefixKept(key: string, s: string)
    requires IsWord(key)
    requires s == "{{ " + ("{{" + key + "}}") + (key + "}}")
    ensures Substitute(s, key, "") == "{{ " + Substitute(s[3..], key, "")
  {
    OuterOpenFails(key, s);
    NoOpenAt(s[1..], key);
    NoOpenAt(s[2..], key);
    forall i | 0 <= i < 3 ensures KeyMatch(s[i..], key).None? {
      if i == 0 { assert s[0..] == s; }
    }
    CopyPrefix(s, 3, key, "");
    assert s[..3] == "{{ ";
  }

  /** `{{ {{...`: neither one nor zero leading spaces can be followed by a word. */
  lemma OuterOpenFails(key: string, s: string)
    requires IsWord(key)
    requires |s| >= 5 && s[..5] == "{{ {{"
    ensures KeyMatch(s, key).None?
  {
    assert s[..2] == "{{";
    assert s[2] == ' ' && s[3] == '{' by { assert s[2] == s[..5][2] && s[3] == s[..5][3]; }
    Strings.LeadIs(s[2..], PyWhitespace, 1);
    assert WsLen(s[2..]) == 1;
    assert WordChar(key[0]);
    assert !StartsWith(s[3..], key) by {
      if |key| <= |s[3..]| { assert s[3..][..|key|][0] == s[3]; }
    }
    assert !StartsWith(s[2..], key) by {
      if |key| <= |s[2..]| { assert s[2..][..|key|][0] == s[2]; }
    }
    assert TryLead(s, key, 2).None?;
    assert TryLead(s, key, 3).None?;
  }

  lemma WordNotSpace(c: char)
    requires WordChar(c)
    ensures c !in PyWhitespace
  {
  }

  /** `{{ key}}` is a placeholder for `key`. */
  lemma OneSpaceMatches(key: string)
    requires IsWord(key)
    ensures KeyMatch("{{ " + (key + "}}"), key).Some?
  {
    var w := "{{ " + (key + "}}");
    assert w[..2] == "{{";
    Strings.LeadIs(w[2..], PyWhitespace, 1);
    assert w[3..][..|key|] == key;
    var q := 3 + |key|;
    assert w[q] == '}';
    assert WsLen(w[q..]) == 0;
    assert w[q..q + 2] == "}}";
  }

  /** Text that does not start with `{{` starts no placeholder. */
  lemma NoOpenAt(s: string, key: string)
    requires |s| >= 2 && (s[0] != '{' || s[1] != '{')
    ensures KeyMatch(s, key).None?
  {
    assert s[..2][0] == s[0] && s[..2][1] == s[1];
  }

  /** `{{ {{a}}a}}` with a = "" renders to `{{ a}}`, a placeholder for `a`. */
  lemma RenderCanLeavePlaceholderA()
    ensures RenderSpec("{{ {{a}}a}}", [("a", "")]) == Ok("{{ a}}")
  {
    SpelledA();
    RenderCanLeavePlaceholder("a");
  }

  lemma SpelledA()
    ensures "{{ " + ("{{" + "a" + "}}") + ("a" + "}}") == "{{ {{a}}a}}"
    ensures "{{ " + ("a" + "}}") == "{{ a}}"
  {
  }

  // ---------------------------------------------------------------------------
  // Versions

  /** The number of the version after `versions` (whose first entry is the latest). */
  function NextVersionNumber(versions: seq<PromptVersion>): (n: int)
    ensures |versions| == 0 ==> n == 1
    ensures |versions| > 0 && ParseInt(Replace(versions[0].version, "v", "")).None? ==> n == |versions| + 1
  {
    if |versions| == 0 then 1
    else match ParseInt(Replace(versions[0].version, "v", ""))
      case Some(n) => n + 1
      case None => |versions| + 1
  }

  /** "v<n>": removing its "v" and parsing gives `n` back. */
  function VersionName(n: int): (name: string)
    ensures |name| > 1 && name[0] == 'v'
    ensures ParseInt(Replace(name, "v", "")) == Some(n)
  {
    StripVersionPrefix(n);
    ParseIntToString(n);
    "v" + IntToString(n)
  }

  /** Removing `v` from "v<digits>" leaves the digits. */
  lemma StripVersionPrefix(n: int)
    ensures Replace("v" + IntToString(n), "v", "") == IntToString(n)
  {
    var d := IntToString(n);
    var name := "v" + d;
    assert name[..1] == "v";
    assert name[1..] == d;
    NoVeeInNumber(n);
    assert Replace(d, "v", "") == d;
  }

  lemma NoVeeInNumber(n: int)
    ensures !Contains(IntToString(n), "v")
  {
    var d := IntToString(n);
    forall j | 0 <= j < |d| ensures d[j] != 'v' {
      if n < 0 && j > 0 {
        assert d[j] == NatToString(-n)[j - 1];
      }
    }
    forall i | 0 <= i <= |d| - 1 ensures !OccursAt(d, "v", i) {
      assert d[i..i + 1][0] == d[i];
    }
  }

  /** A prompt whose latest version is "v<n>" gets "v<n+1>" next. */
  lemma NextAfterNumbered(v: PromptVersion, rest: seq<PromptVersion>, n: int)
    requires v.version == VersionName(n)
    ensures NextVersionNumber([v] + rest) == n + 1
  {
  }

  function NewVersion(number: int, template: string, author: string, now: string): (v: PromptVersion)
    ensures v.variables == ExtractVariables(template)
  {
    PromptVersion(VersionName(number), template, ExtractVariables(template), author, now)
  }

  /** The prompt `create_prompt` stores: a single version "v1", which is also the latest. */
  function NewPrompt(req: CreatePromptRequest, now: string): (p: Prompt)
    ensures p.versions == [p.latestVersion] && p.latestVersion.version == "v1"
    ensures p.id == req.slug && p.latestVersion.template == req.template
    ensures p.name == req.name && p.status == req.status && p.author == req.author && p.updatedAt == now
  {
    var v1 := NewVersion(1, req.template, req.author, now);
    Prompt(req.slug, req.name, v1, [v1], req.status, now, req.author)
  }

  /** The prompt after `create_version`: the new version in front, as latest, with a fresh timestamp. */
  function WithNewVersion(p: Prompt, req: CreateVersionRequest, now: string): (q: Prompt)
    ensures q.versions == [q.latestVersion] + p.versions
    ensures q.latestVersion.version == VersionName(NextVersionNumber(p.versions))
    ensures q.id == p.id && q.name == p.name && q.status == p.status && q.author == p.author
    ensures q.updatedAt == now
  {
    var v := NewVersion(NextVersionNumber(p.versions), req.template, req.author, now);
    p.(versions := [v] + p.versions, latestVersion := v, updatedAt := now)
  }

  /** Index of the first prompt with the given id. */
  function IndexOfId(ps: seq<Prompt>, id: string): (r: Option<nat>)
    ensures r.Some? ==> r.value < |ps| && ps[r.value].id == id &&
                        forall j :: 0 <= j < r.value ==> ps[j].id != id
    ensures r.None? ==> forall j :: 0 <= j < |ps| ==> ps[j].id != id
  {
    if |ps| == 0 then None
    else if ps[0].id == id then Some(0)
    else match IndexOfId(ps[1..], id)
      case Some(k) => Some(k + 1)
      case None => None
  }

  class PromptsService {
    var prompts: seq<Prompt>

    constructor()
      ensures prompts == []
    {
      prompts := [];
    }

    /** `create_prompt`: refuses a slug already in use, else appends the new prompt. */
    method CreatePrompt(req: CreatePromptRequest, now: string) returns (r: Result<Prompt, string>)
      modifies this
      ensures (exists j :: 0 <= j < |old(prompts)| && old(prompts)[j].id == req.slug) <==> r.Err?
      ensures r.Err? ==> r.error == "Prompt with slug '" + req.slug + "' already exists" &&
                         prompts == old(prompts)
      ensures r.Ok? ==> r.value == NewPrompt(req, now) && prompts == old(prompts) + [r.value]
    {
      for i := 0 to |prompts|
        invariant forall j :: 0 <= j < i ==> prompts[j].id != req.slug
      {
        if prompts[i].id == req.slug {
          return Err("Prompt with slug '" + req.slug + "' already exists");
        }
      }
      var p := NewPrompt(req, now);
      prompts := prompts + [p];
      r := Ok(p);
    }

    /** `create_version`: on the first prompt with the slug, prepends the next version. */
    method CreateVersion(slug: string, req: CreateVersionRequest, now: string) returns (r: Result<Prompt, string>)
      modifies this
      ensures IndexOfId(old(prompts), slug).None? <==> r.Err?
      ensures r.Err? ==> r.error == "Prompt not found" && prompts == old(prompts)
      ensures r.Ok? ==>
        var idx := IndexOfId(old(prompts), slug).value;
        r.value == WithNewVersion(old(prompts)[idx], req, now) &&
        prompts == old(prompts)[idx := r.value]
    {
      var target: int := -1;
      var i := 0;
      while i < |prompts|
        invariant 0 <= i <= |prompts|
        invariant forall j :: 0 <= j < i ==> prompts[j].id != slug
      {
        if prompts[i].id == slug {
          target := i;
          break;
        }
        i := i + 1;
      }
      if target == -1 {
        return Err("Prompt not found");
      }
      assert IndexOfId(prompts, slug) == Some(target as nat);
      var updated := WithNewVersion(prompts[target], req, now);
      prompts := prompts[target := updated];
      r := Ok(updated);
    }
  }

  /** Creating a prompt and then a version of it yields "v2" in front of "v1". */
  lemma SecondVersion(req: CreatePromptRequest, vreq: CreateVersionRequest, now1: string, now2: string)
    ensures var q := WithNewVersion(NewPrompt(req, now1), vreq, now2);
            q.latestVersion.version == "v2" && |q.versions| == 2 && q.versions[1].version == "v1"
  {
    var p := NewPrompt(req, now1);
    NextAfterNumbered(p.versions[0], [], 1);
    assert [p.versions[0]] + [] == p.versions;
  }
}
