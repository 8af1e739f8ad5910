/** The parts of Python's `str` that the modelled code relies on:
    `split(sep)`, `sep.join(xs)`, `replace`/`re.sub` with a literal pattern,
    whitespace `split()`, `strip()`, `startswith`/`endswith`, `str(int)`,
    `int(text)` and `shlex.split`. */
module Strings {
  import opened Errors

  /** Number of occurrences of `c` in `s`. */
  function Count(s: string, c: char): nat
    decreases |s|
  {
    if s == [] then 0 else (if s[0] == c then 1 else 0) + Count(s[1..], c)
  }

  // ---------------------------------------------------------------------
  // str.split(sep) and sep.join(xs)

  /** Python `s.split(sep)` for a one-character separator: always at least
      one piece, one more piece than there are separators, and no piece
      contains the separator. */
  function Split(s: string, sep: char): (r: seq<string>)
    ensures |r| == Count(s, sep) + 1
    ensures forall k :: 0 <= k < |r| ==> sep !in r[k]
    decreases |s|
  {
    if s == [] then [""]
    else
      var rest := Split(s[1..], sep);
      if s[0] == sep then [""] + rest
      else [[s[0]] + rest[0]] + rest[1..]
  }

  /** Python `sep.join(xs)`. */
  function Join(sep: string, xs: seq<string>): string
    decreases |xs|
  {
    if |xs| == 0 then ""
    else if |xs| == 1 then xs[0]
    else xs[0] + sep + Join(sep, xs[1..])
  }

  /** A separator-free text splits into itself alone. */
  lemma {:induction false} SplitNoSep(s: string, sep: char)
    requires sep !in s
    ensures Split(s, sep) == [s]
    decreases |s|
  {
    if s != [] {
      assert s == [s[0]] + s[1..];
      assert s[0] != sep && sep !in s[1..];
      SplitNoSep(s[1..], sep);
    }
  }

  /** Splitting `a + sep + b` with a separator-free `a` yields `a` first. */
  lemma {:induction false} SplitAfterPiece(a: string, sep: char, b: string)
    requires sep !in a
    ensures Split(a + [sep] + b, sep) == [a] + Split(b, sep)
    decreases |a|
  {
    if a == [] {
      assert a + [sep] + b == [sep] + b;
      assert ([sep] + b)[1..] == b;
    } else {
      SplitAfterPiece(a[1..], sep, b);
      assert (a + [sep] + b)[1..] == a[1..] + [sep] + b;
      assert [a[0]] + a[1..] == a;
    }
  }

  /** Splitting undoes joining, when no piece contains the separator. */
  lemma {:induction false} SplitJoin(xs: seq<string>, sep: char)
    requires |xs| > 0
    requires forall k :: 0 <= k < |xs| ==> sep !in xs[k]
    ensures Split(Join([sep], xs), sep) == xs
    decreases |xs|
  {
    if |xs| == 1 {
      SplitNoSep(xs[0], sep);
    } else {
      SplitJoin(xs[1..], sep);
      SplitAfterPiece(xs[0], sep, Join([sep], xs[1..]));
      assert [xs[0]] + xs[1..] == xs;
    }
  }

  /** Joining undoes splitting, for every text. */
  lemma {:induction false} JoinSplit(s: string, sep: char)
    ensures Join([sep], Split(s, sep)) == s
    decreases |s|
  {
    if s != [] {
      JoinSplit(s[1..], sep);
      var rest := Split(s[1..], sep);
      if s[0] == sep {
        assert Split(s, sep) == [""] + rest;
        assert ([""] + rest)[1..] == rest;
        assert s == [sep] + s[1..];
      } else {
        var r := [[s[0]] + rest[0]] + rest[1..];
        assert Split(s, sep) == r;
        assert r[1..] == rest[1..];
        if |rest| == 1 {
          assert rest == [rest[0]];
        } else {
          assert Join([sep], rest) == rest[0] + [sep] + Join([sep], rest[1..]);
        }
      }
    }
  }

  /** Python `[x for x in xs if x != '']`. */
  function NonEmpty(xs: seq<string>): (r: seq<string>)
    ensures |r| <= |xs|
    ensures forall k :: 0 <= k < |r| ==> r[k] != ""
    decreases |xs|
  {
    if xs == [] then []
    else if xs[0] == "" then NonEmpty(xs[1..])
    else [xs[0]] + NonEmpty(xs[1..])
  }

  /** Filtering keeps exactly the non-empty members. */
  lemma {:induction false} NonEmptyMembers(xs: seq<string>, x: string)
    ensures x in NonEmpty(xs) <==> x in xs && x != ""
    decreases |xs|
  {
    if xs != [] {
      NonEmptyMembers(xs[1..], x);
      assert xs == [xs[0]] + xs[1..];
    }
  }

  /** Filtering leaves a list without empty members unchanged. */
  lemma {:induction false} NonEmptyKeepsAll(xs: seq<string>)
    requires forall k :: 0 <= k < |xs| ==> xs[k] != ""
    ensures NonEmpty(xs) == xs
    decreases |xs|
  {
    if xs != [] {
      NonEmptyKeepsAll(xs[1..]);
      assert [xs[0]] + xs[1..] == xs;
    }
  }

  /** A text that contains `c` counts it at least once. */
  lemma {:induction false} CountPositive(s: string, c: char)
    requires c in s
    ensures Count(s, c) > 0
    decreases |s|
  {
    if s[0] != c {
      assert c in s[1..] by {
        var k :| 0 <= k < |s| && s[k] == c;
        assert s[1..][k - 1] == c;
      }
      CountPositive(s[1..], c);
    }
  }

  // ---------------------------------------------------------------------
  // Literal replace-all (str.replace, and re.sub with a pattern that has no
  // regular-expression operators and a replacement without backslashes)

  /** True when `pat` occurs in `s` at position `i`. */
  predicate OccursAt(s: string, pat: string, i: nat) {
    i + |pat| <= |s| && s[i..i + |pat|] == pat
  }

  /** Replace every occurrence of `pat`, scanning left to right without
      overlaps, by `v`. */
  function ReplaceAll(s: string, pat: string, v: string): string
    requires |pat| > 0
    decreases |s|
  {
    if |s| < |pat| then s
    else if s[..|pat|] == pat then v + ReplaceAll(s[|pat|..], pat, v)
    else [s[0]] + ReplaceAll(s[1..], pat, v)
  }

  /** A text starting with the pattern has it replaced at the front. */
  lemma ReplaceAtFront(pat: string, rest: string, v: string)
    requires |pat| > 0
    ensures ReplaceAll(pat + rest, pat, v) == v + ReplaceAll(rest, pat, v)
  {
    assert (pat + rest)[..|pat|] == pat;
    assert (pat + rest)[|pat|..] == rest;
  }

  /** Text free of the pattern's first character is copied unchanged, and
      the scan resumes right after it. */
  lemma {:induction false} ReplaceSkips(a: string, rest: string, pat: string, v: string)
    requires |pat| > 0 && pat[0] !in a
    ensures ReplaceAll(a + rest, pat, v) == a + ReplaceAll(rest, pat, v)
    decreases |a|
  {
    if a != [] {
      var s := a + rest;
      assert s[0] == a[0];
      assert s[1..] == a[1..] + rest;
      assert [a[0]] + a[1..] == a;
      assert pat[0] !in a[1..];
      ReplaceSkips(a[1..], rest, pat, v);
      if |s| < |pat| {
        assert |rest| < |pat|;
        assert ReplaceAll(rest, pat, v) == rest;
        assert ReplaceAll(s, pat, v) == s;
      } else {
        assert s[..|pat|][0] == a[0];
        assert s[..|pat|] != pat;
        assert ReplaceAll(s, pat, v) == [a[0]] + ReplaceAll(a[1..] + rest, pat, v);
      }
    } else {
      assert a + rest == rest;
    }
  }

  /** Text free of the pattern's first character is never touched. */
  lemma ReplaceUntouched(s: string, pat: string, v: string)
    requires |pat| > 0 && pat[0] !in s
    ensures ReplaceAll(s, pat, v) == s
  {
    ReplaceSkips(s, "", pat, v);
    assert s + "" == s;
  }

  /** A leading character that does not start an occurrence is kept. */
  lemma ReplaceKeepsHead(c: char, rest: string, pat: string, v: string)
    requires |pat| > 0
    requires !OccursAt([c] + rest, pat, 0)
    ensures ReplaceAll([c] + rest, pat, v) == [c] + ReplaceAll(rest, pat, v)
  {
    assert ([c] + rest)[1..] == rest;
  }

  /** If neither the text nor the replacement holds `c`, neither does the
      result. */
  lemma {:induction false} ReplaceKeepsOut(s: string, pat: string, v: string, c: char)
    requires |pat| > 0 && c !in s && c !in v
    ensures c !in ReplaceAll(s, pat, v)
    decreases |s|
  {
    if |s| >= |pat| {
      if s[..|pat|] == pat {
        ReplaceKeepsOut(s[|pat|..], pat, v, c);
      } else {
        ReplaceKeepsOut(s[1..], pat, v, c);
      }
    }
  }

  /** Replacing a one-character pattern by a text without it removes that
      character. */
  lemma {:induction false} ReplaceCharRemoves(s: string, c: char, v: string)
    requires c !in v
    ensures c !in ReplaceAll(s, [c], v)
    decreases |s|
  {
    if |s| >= 1 {
      if s[..1] == [c] {
        ReplaceCharRemoves(s[1..], c, v);
      } else {
        assert s[0] != c by { assert s[..1] == [s[0]]; }
        ReplaceCharRemoves(s[1..], c, v);
      }
    }
  }

  // ---------------------------------------------------------------------
  // Prefixes and suffixes

  predicate StartsWith(s: string, p: string) {
    |p| <= |s| && s[..|p|] == p
  }

  predicate EndsWith(s: string, p: string) {
    |p| <= |s| && s[|s| - |p|..] == p
  }

  // ---------------------------------------------------------------------
  // Whitespace split (str.split() with no argument)

  /** Python's `str.isspace` on one character: the ASCII controls
      \t, \n, \x0b, \x0c, \r and \x1c-\x1f, the space, and the Unicode
      separators \x85, \xa0, \u1680, \u2000-\u200a, \u2028, \u2029,
      \u202f, \u205f and \u3000. */
  predicate IsSpace(c: char) {
    || ('\t' <= c <= '\r') || ('\U{1C}' <= c <= ' ')
    || c == '\U{85}' || c == '\U{A0}' || c == '\U{1680}'
    || ('\U{2000}' <= c <= '\U{200A}') || c == '\U{2028}' || c == '\U{2029}'
    || c == '\U{202F}' || c == '\U{205F}' || c == '\U{3000}'
  }

  /** A word for `str.split()`: non-empty, without whitespace. */
  predicate IsWord(w: string) {
    w != "" && forall k :: 0 <= k < |w| ==> !IsSpace(w[k])
  }

  /** Python `s.split()`: maximal runs of non-whitespace, in order. */
  function Words(s: string): seq<string> {
    WordsFrom(s, "")
  }

  /** `Words` with the characters of an unfinished word in `cur`. */
  function WordsFrom(s: string, cur: string): seq<string>
    decreases |s|
  {
    if s == [] then (if cur == "" then [] else [cur])
    else if IsSpace(s[0]) then (if cur == "" then [] else [cur]) + WordsFrom(s[1..], "")
    else WordsFrom(s[1..], cur + [s[0]])
  }

  /** The string that `xs` would give with one space after each member. */
  function Spaced(xs: seq<string>): string
    decreases |xs|
  {
    if xs == [] then "" else xs[0] + " " + Spaced(xs[1..])
  }

  lemma {:induction false} SpacedAppend(xs: seq<string>, ys: seq<string>)
    ensures Spaced(xs + ys) == Spaced(xs) + Spaced(ys)
    decreases |xs|
  {
    if xs != [] {
      assert (xs + ys)[0] == xs[0];
      assert (xs + ys)[1..] == xs[1..] + ys;
      SpacedAppend(xs[1..], ys);
    } else {
      assert xs + ys == ys;
    }
  }

  lemma {:induction false} WordsFromNoSpace(w: string, rest: string, cur: string)
    requires forall k :: 0 <= k < |w| ==> !IsSpace(w[k])
    ensures WordsFrom(w + rest, cur) == WordsFrom(rest, cur + w)
    decreases |w|
  {
    if w != [] {
      assert (w + rest)[0] == w[0];
      assert (w + rest)[1..] == w[1..] + rest;
      WordsFromNoSpace(w[1..], rest, cur + [w[0]]);
      assert cur + [w[0]] + w[1..] == cur + w;
    } else {
      assert w + rest == rest;
      assert cur + w == cur;
    }
  }

  /** Splitting on whitespace recovers words written one space apart. */
  lemma {:induction false} WordsOfSpaced(xs: seq<string>)
    requires forall k :: 0 <= k < |xs| ==> IsWord(xs[k])
    ensures Words(Spaced(xs)) == xs
    decreases |xs|
  {
    if xs != [] {
      WordsOfSpaced(xs[1..]);
      var rest := Spaced(xs[1..]);
      assert xs[0] + " " + rest == xs[0] + (" " + rest);
      WordsFromNoSpace(xs[0], " " + rest, "");
      assert "" + xs[0] == xs[0];
      assert (" " + rest)[1..] == rest;
      assert WordsFrom(" " + rest, xs[0]) == [xs[0]] + WordsFrom(rest, "");
      assert [xs[0]] + xs[1..] == xs;
    }
  }

  /** Text without whitespace (possibly empty). */
  predicate NoSpace(s: string) {
    forall k :: 0 <= k < |s| ==> !IsSpace(s[k])
  }

  lemma NoSpaceAppend(a: string, b: string)
    requires NoSpace(a) && NoSpace(b)
    ensures NoSpace(a + b)
  {
    assert forall k :: |a| <= k < |a + b| ==> (a + b)[k] == b[k - |a|];
  }

  /** `str(i)` has no whitespace. */
  lemma IntToStringNoSpace(i: int)
    ensures NoSpace(IntToString(i))
  {
    var t := NatToString(if i < 0 then -i else i);
    assert NoSpace(t);
    if i < 0 {
      assert NoSpace("-");
      NoSpaceAppend("-", t);
    }
  }

  /** One word followed by one space. */
  lemma SpacedOne(x: string)
    ensures Spaced([x]) == x + " "
  {
    assert [x][1..] == [];
  }

  /** `'{}'.format(x)` of an optional string. */
  function FormatOption(x: Option<string>): string {
    if x.Some? then x.value else "None"
  }

  /** Text that is only whitespace (or nothing) has no words. */
  lemma NoWordsInEmpty()
    ensures Words("") == []
  {
  }

  // ---------------------------------------------------------------------
  // shlex.split(s)

  /** The whitespace of `shlex`: narrower than `str.isspace`. */
  predicate ShlexSpace(c: char) {
    c == ' ' || c == '\t' || c == '\r' || c == '\n'
  }

  predicate IsQuote(c: char) {
    c == '\'' || c == '"'
  }

  /** Where the POSIX `shlex` lexer is: between tokens, inside a token,
      inside a quote, or just after a backslash (outside quotes, or inside
      double quotes). */
  datatype LexState = Between | InToken | InQuote(q: char) | Escaped(inDouble: bool)

  /** Python `shlex.split(s)`: POSIX mode, whitespace-split, no comments.
      Quotes group text and are removed, a backslash outside quotes takes
      the next character literally, and an unclosed quote or a final
      backslash raises ValueError. */
  function ShlexSplit(s: string): Result<seq<string>> {
    ShlexFrom(s, Between, "", false, [])
  }

  /** The lexer run over `s` from state `st`, with the token read so far,
      whether it held a quote, and the tokens finished before it. */
  function ShlexFrom(s: string, st: LexState, token: string, quoted: bool, acc: seq<string>): Result<seq<string>>
    decreases |s|
  {
    if s == [] then
      match st
      case Between => Ok(acc)
      case InToken => Ok(if token != "" || quoted then acc + [token] else acc)
      case InQuote(_) => Err(ValueError)
      case Escaped(_) => Err(ValueError)
    else
      var c := s[0];
      match st
      case Between =>
        if ShlexSpace(c) then ShlexFrom(s[1..], Between, "", false, acc)
        else if c == '\\' then ShlexFrom(s[1..], Escaped(false), token, quoted, acc)
        else if IsQuote(c) then ShlexFrom(s[1..], InQuote(c), token, quoted, acc)
        else ShlexFrom(s[1..], InToken, token + [c], quoted, acc)
      case InToken =>
        if ShlexSpace(c) then
          ShlexFrom(s[1..], Between, "", false, if token != "" || quoted then acc + [token] else acc)
        else if IsQuote(c) then ShlexFrom(s[1..], InQuote(c), token, quoted, acc)
        else if c == '\\' then ShlexFrom(s[1..], Escaped(false), token, quoted, acc)
        else ShlexFrom(s[1..], InToken, token + [c], quoted, acc)
      case InQuote(q) =>
        if c == q then ShlexFrom(s[1..], InToken, token, true, acc)
        else if c == '\\' && q == '"' then ShlexFrom(s[1..], Escaped(true), token, true, acc)
        else ShlexFrom(s[1..], InQuote(q), token + [c], true, acc)
      case Escaped(inDouble) =>
        var kept := if inDouble && c != '\\' && c != '"' then "\\" else "";
        ShlexFrom(s[1..], if inDouble then InQuote('"') else InToken, token + kept + [c], quoted, acc)
  }

  /** No quote and no backslash. */
  predicate NoShellMeta(s: string) {
    forall k :: 0 <= k < |s| ==> !IsQuote(s[k]) && s[k] != '\\'
  }

  /** Text on which `shlex.split` and `str.split` agree: no quote, no
      backslash, and only whitespace that `shlex` also knows. */
  predicate ShellPlain(s: string) {
    forall k :: 0 <= k < |s| ==> !IsQuote(s[k]) && s[k] != '\\' && (IsSpace(s[k]) ==> ShlexSpace(s[k]))
  }

  lemma NoShellMetaAppend(a: string, b: string)
    requires NoShellMeta(a) && NoShellMeta(b)
    ensures NoShellMeta(a + b)
  {
    assert forall k :: |a| <= k < |a + b| ==> (a + b)[k] == b[k - |a|];
  }

  /** `str(i)` has no quote or backslash. */
  lemma IntToStringNoShellMeta(i: int)
    ensures NoShellMeta(IntToString(i))
  {
    var t := NatToString(if i < 0 then -i else i);
    assert NoShellMeta(t);
    if i < 0 {
      assert NoShellMeta("-");
      NoShellMetaAppend("-", t);
    }
  }

  /** Words with neither quotes nor backslashes, written one space apart,
      are plain text. */
  lemma {:induction false} SpacedShellPlain(xs: seq<string>)
    requires forall k :: 0 <= k < |xs| ==> IsWord(xs[k]) && NoShellMeta(xs[k])
    ensures ShellPlain(Spaced(xs))
    decreases |xs|
  {
    if xs != [] {
      SpacedShellPlain(xs[1..]);
      var w, rest := xs[0], Spaced(xs[1..]);
      assert Spaced(xs) == w + " " + rest;
      assert forall k :: 0 <= k < |w| ==> (w + " " + rest)[k] == w[k];
      assert (w + " " + rest)[|w|] == ' ';
      assert forall k :: |w| < k < |w| + 1 + |rest| ==> (w + " " + rest)[k] == rest[k - |w| - 1];
    }
  }

  /** On plain text the lexer, started between tokens or inside a
      non-empty token, finds the whitespace-separated words. */
  lemma {:induction false} ShlexFromPlain(s: string, st: LexState, token: string, acc: seq<string>)
    requires ShellPlain(s)
    requires (st == Between && token == "") || (st == InToken && token != "")
    ensures ShlexFrom(s, st, token, false, acc) == Ok(acc + WordsFrom(s, token))
    decreases |s|
  {
    if s != [] {
      assert ShellPlain(s[1..]) by {
        assert forall k :: 0 <= k < |s[1..]| ==> s[1..][k] == s[k + 1];
      }
      var c := s[0];
      assert !IsQuote(c) && c != '\\' && (IsSpace(c) ==> ShlexSpace(c));
      if IsSpace(c) {
        ShlexFromPlain(s[1..], Between, "", if token != "" then acc + [token] else acc);
        if token != "" {
          assert acc + [token] + WordsFrom(s[1..], "") == acc + ([token] + WordsFrom(s[1..], ""));
        } else {
          assert [] + WordsFrom(s[1..], "") == WordsFrom(s[1..], "");
        }
      } else {
        assert !ShlexSpace(c);
        ShlexFromPlain(s[1..], InToken, token + [c], acc);
      }
    } else if st == Between {
      assert acc + [] == acc;
    }
  }

  /** `shlex.split` and `str.split()` give the same tokens on plain text. */
  lemma ShlexSplitPlain(s: string)
    requires ShellPlain(s)
    ensures ShlexSplit(s) == Ok(Words(s))
  {
    ShlexFromPlain(s, Between, "", []);
    assert [] + WordsFrom(s, "") == Words(s);
  }

  /** Where the two differ: `shlex` removes quotes and groups the quoted
      text across a space ... */
  lemma ShlexRemovesQuotes()
    ensures ShlexSplit("a'b c'") == Ok(["ab c"])
  {
    var q := '\'';
    assert [] + ["ab c"] == ["ab c"];
    assert ShlexFrom("", InToken, "ab c", true, []) == Ok(["ab c"]);
    assert ShlexFrom("'", InQuote(q), "ab c", true, []) == Ok(["ab c"]);
    assert "c'"[1..] == "'" && "ab " + "c" == "ab c";
    assert ShlexFrom("c'", InQuote(q), "ab ", true, []) == Ok(["ab c"]);
    assert " c'"[1..] == "c'" && "ab" + " " == "ab ";
    assert ShlexFrom(" c'", InQuote(q), "ab", true, []) == Ok(["ab c"]);
    assert "b c'"[1..] == " c'" && "a" + "b" == "ab";
    assert ShlexFrom("b c'", InQuote(q), "a", false, []) == Ok(["ab c"]);
    assert ShlexFrom("'b c'", InToken, "a", false, []) == Ok(["ab c"]);
    assert "a'b c'"[1..] == "'b c'" && "" + "a" == "a";
  }

  /** ... where `str.split()` keeps them and splits at the space ... */
  lemma WordsKeepQuotes()
    ensures Words("a'b c'") == ["a'b", "c'"]
  {
    assert WordsFrom("", "c'") == ["c'"];
    assert "c" + "'" == "c'";
    assert WordsFrom("'", "c") == ["c'"];
    assert "" + "c" == "c";
    assert WordsFrom("c'", "") == ["c'"];
    assert WordsFrom(" c'", "a'b") == ["a'b", "c'"];
    assert "a'" + "b" == "a'b";
    assert WordsFrom("b c'", "a'") == ["a'b", "c'"];
    assert "'b c'"[1..] == "b c'" && "a" + "'" == "a'";
    assert WordsFrom("'b c'", "a") == ["a'b", "c'"];
    assert "a'b c'"[1..] == "'b c'" && "" + "a" == "a";
  }

  /** ... and an unclosed quote raises ValueError. */
  lemma ShlexUnclosedQuote()
    ensures ShlexSplit("'a") == Err(ValueError)
  {
    assert ShlexFrom("a", InQuote('\''), "", false, []) == Err(ValueError);
  }

  // ---------------------------------------------------------------------
  // strip()

  function StripLeft(s: string): (r: string)
    ensures |r| <= |s|
    decreases |s|
  {
    if s != [] && IsSpace(s[0]) then StripLeft(s[1..]) else s
  }

  function StripRight(s: string): (r: string)
    ensures |r| <= |s|
    decreases |s|
  {
    if s != [] && IsSpace(s[|s| - 1]) then StripRight(s[..|s| - 1]) else s
  }

  /** Python `s.strip()`: the `str.isspace` characters removed at both ends. */
  function Strip(s: string): string {
    StripRight(StripLeft(s))
  }

  // ---------------------------------------------------------------------
  // str(int) and int(text)

  predicate IsDigit(c: char) {
    '0' <= c <= '9'
  }

  function DigitChar(d: nat): (c: char)
    requires d < 10
    ensures IsDigit(c) && c as int - '0' as int == d
  {
    ('0' as int + d) as char
  }

  /** Decimal digits of `n`, most significant first, without leading zeros. */
  function NatToString(n: nat): (r: string)
    ensures |r| > 0
    ensures forall k :: 0 <= k < |r| ==> IsDigit(r[k])
    decreases n
  {
    if n < 10 then [DigitChar(n)] else NatToString(n / 10) + [DigitChar(n % 10)]
  }

  /** Python `str(i)`. */
  function IntToString(i: int): string {
    if i < 0 then "-" + NatToString(-i) else NatToString(i)
  }

  /** The number a run of decimal digits denotes. */
  function DigitsValue(s: string): nat
    requires forall k :: 0 <= k < |s| ==> IsDigit(s[k])
    decreases |s|
  {
    if s == [] then 0
    else DigitsValue(s[..|s| - 1]) * 10 + DigitOf(s[|s| - 1])
  }

  function DigitOf(c: char): nat
    requires IsDigit(c)
  {
    c as int - '0' as int
  }

  predicate AllDigits(s: string) {
    s != "" && forall k :: 0 <= k < |s| ==> IsDigit(s[k])
  }

  /** Python `int(text.strip())` for decimal text with an optional sign;
      None where Python raises ValueError. */
  function ParseInt(text: string): Option<int> {
    var t := Strip(text);
    if t != "" && (t[0] == '-' || t[0] == '+') then
      if AllDigits(t[1..]) then
        var m: int := DigitsValue(t[1..]);
        Some(if t[0] == '-' then -m else m)
      else None
    else if AllDigits(t) then Some(DigitsValue(t))
    else None
  }

  lemma {:induction false} DigitsOfNat(n: nat)
    ensures DigitsValue(NatToString(n)) == n
    decreases n
  {
    var s := NatToString(n);
    if n >= 10 {
      DigitsOfNat(n / 10);
      assert s[..|s| - 1] == NatToString(n / 10);
    }
  }

  lemma StripNoSpace(s: string)
    requires s != "" && !IsSpace(s[0]) && !IsSpace(s[|s| - 1])
    ensures Strip(s) == s
  {
  }

  /** A trailing newline is stripped away. */
  lemma StripNewline(s: string)
    requires s != "" && !IsSpace(s[0]) && !IsSpace(s[|s| - 1])
    ensures Strip(s + "\n") == s
  {
    var sn := s + "\n";
    assert StripLeft(sn) == sn;
    assert sn[..|sn| - 1] == s;
    assert StripRight(sn) == StripRight(s);
    StripNoSpace(s);
  }

  lemma ParseDigits(m: nat)
    ensures ParseInt(NatToString(m)) == Some(m)
  {
    var d := NatToString(m);
    StripNoSpace(d);
    DigitsOfNat(m);
  }

  lemma ParseNegative(m: nat)
    requires m > 0
    ensures ParseInt("-" + NatToString(m)) == Some(-(m as int))
  {
    var d := NatToString(m);
    var s := "-" + d;
    StripNoSpace(s);
    assert s[1..] == d;
    DigitsOfNat(m);
  }

  /** `int()` reads back what `str()` wrote, also with a trailing newline
      (the form in which a pid file holds a process id). */
  lemma IntRoundTrip(n: int)
    ensures ParseInt(IntToString(n)) == Some(n)
    ensures ParseInt(IntToString(n) + "\n") == Some(n)
  {
    var s := IntToString(n);
    if n < 0 {
      ParseNegative(-n);
    } else {
      ParseDigits(n);
    }
    assert s[0] == '-' || IsDigit(s[0]);
    StripNewline(s);
  }
}
