/** Provisioning specifications and the `$TOKEN` placeholder rendering of
    build arguments (upgrade_testing/provisioning/_provisionconfig.py). */
module ProvisionConfig {
  import opened Errors
  import opened Strings
  import opened Paths

  // ---------------------------------------------------------------------
  // Python's ordering of str values: lexicographic by code point, a proper
  // prefix before its extensions.

  predicate Less(a: string, b: string)
    decreases |a|
  {
    if a == [] then b != []
    else if b == [] then false
    else if a[0] != b[0] then a[0] < b[0]
    else Less(a[1..], b[1..])
  }

  lemma {:induction false} LessAsymmetric(a: string, b: string)
    ensures Less(a, b) ==> !Less(b, a)
    decreases |a|
  {
    if a != [] && b != [] && a[0] == b[0] {
      LessAsymmetric(a[1..], b[1..]);
    }
  }

  lemma {:induction false} LessTransitive(a: string, b: string, c: string)
    requires Less(a, b) && Less(b, c)
    ensures Less(a, c)
    decreases |a|
  {
    if a != [] && a[0] == b[0] && b[0] == c[0] {
      LessTransitive(a[1..], b[1..], c[1..]);
    }
  }

  lemma {:induction false} LessTotal(a: string, b: string)
    requires a != b
    ensures Less(a, b) || Less(b, a)
    decreases |a|
  {
    if a != [] && b != [] && a[0] == b[0] {
      assert a == [a[0]] + a[1..] && b == [b[0]] + b[1..];
      LessTotal(a[1..], b[1..]);
    }
  }

  /** A proper prefix sorts before its extension. */
  lemma {:induction false} PrefixLess(a: string, b: string)
    requires StartsWith(b, a) && a != b
    ensures Less(a, b)
    decreases |a|
  {
    if a != [] {
      assert b[0] == a[0];
      assert b[1..][..|a| - 1] == a[1..];
      assert a == [a[0]] + a[1..] && b == [b[0]] + b[1..];
      PrefixLess(a[1..], b[1..]);
    }
  }

  lemma NotLessTransitive(a: string, b: string, c: string)
    requires !Less(a, b) && !Less(b, c)
    ensures !Less(a, c)
  {
    if Less(a, c) {
      if b != c {
        LessTotal(b, c);
        LessTransitive(a, c, b);
      }
    }
  }

  // ---------------------------------------------------------------------
  // list.sort(reverse=True) on the token names

  /** Every element is at least as large as every later one. */
  predicate Descending(s: seq<string>) {
    forall i, j :: 0 <= i < j < |s| ==> !Less(s[i], s[j])
  }

  function Insert(x: string, s: seq<string>): (r: seq<string>)
    ensures multiset(r) == multiset(s) + multiset{x}
    decreases |s|
  {
    if s == [] then [x]
    else if !Less(x, s[0]) then [x] + s
    else
      assert s == [s[0]] + s[1..];
      [s[0]] + Insert(x, s[1..])
  }

  /** The names in descending order.  Token names are dictionary keys and
      hence distinct, so every correct sort gives this same order. */
  function SortDescending(xs: seq<string>): (r: seq<string>)
    ensures multiset(r) == multiset(xs)
    decreases |xs|
  {
    if xs == [] then []
    else
      assert xs == [xs[0]] + xs[1..];
      Insert(xs[0], SortDescending(xs[1..]))
  }

  lemma {:induction false} InsertDescending(x: string, s: seq<string>)
    requires Descending(s)
    ensures Descending(Insert(x, s))
    decreases |s|
  {
    if s != [] {
      if !Less(x, s[0]) {
        var r := [x] + s;
        forall i, j | 0 <= i < j < |r| ensures !Less(r[i], r[j]) {
          if i == 0 {
            if j > 1 {
              NotLessTransitive(x, s[0], s[j - 1]);
            }
          }
        }
      } else {
        InsertDescending(x, s[1..]);
        var t := Insert(x, s[1..]);
        var r := [s[0]] + t;
        forall j | 0 <= j < |t| ensures !Less(s[0], t[j]) {
          assert t[j] in multiset(t);
          if t[j] == x {
            LessAsymmetric(x, s[0]);
          } else {
            assert t[j] in multiset(s[1..]);
            var m :| 0 <= m < |s[1..]| && s[1..][m] == t[j];
            assert s[m + 1] == t[j];
          }
        }
        forall i, j | 0 <= i < j < |r| ensures !Less(r[i], r[j]) {
          if i > 0 {
            assert r[i] == t[i - 1] && r[j] == t[j - 1];
          }
        }
      }
    }
  }

  lemma {:induction false} SortDescendingSorted(xs: seq<string>)
    ensures Descending(SortDescending(xs))
    decreases |xs|
  {
    if xs != [] {
      SortDescendingSorted(xs[1..]);
      InsertDescending(xs[0], SortDescending(xs[1..]));
    }
  }

  // ---------------------------------------------------------------------
  // The token lookup: a dictionary from token name to the replacement text
  // (the source stores a function returning the text; only its value
  // matters).  The sequence keeps the dictionary's insertion order.

  datatype Entry = Entry(token: string, value: string)

  function Keys(lookup: seq<Entry>): (ks: seq<string>)
    ensures |ks| == |lookup|
    ensures forall i :: 0 <= i < |lookup| ==> ks[i] == lookup[i].token
    decreases |lookup|
  {
    if lookup == [] then [] else [lookup[0].token] + Keys(lookup[1..])
  }

  /** `token_lookup[token]()`; the empty text for a name that is not a key
      (the source only asks for keys). */
  function ValueOf(lookup: seq<Entry>, token: string): string
    decreases |lookup|
  {
    if lookup == [] then ""
    else if lookup[0].token == token then lookup[0].value
    else ValueOf(lookup[1..], token)
  }

  /** The order in which `_replace_placeholders` visits the tokens. */
  function TokenOrder(lookup: seq<Entry>): seq<string> {
    SortDescending(Keys(lookup))
  }

  /** The successive replace-all passes, one per token of `order`. */
  function ApplyReplacements(s: string, order: seq<string>, lookup: seq<Entry>): string
    decreases |order|
  {
    if order == [] then s
    else ApplyReplacements(ReplaceAll(s, "$" + order[0], ValueOf(lookup, order[0])), order[1..], lookup)
  }

  /** What `_replace_placeholders(s, lookup)` returns. */
  function Render(s: string, lookup: seq<Entry>): string {
    ApplyReplacements(s, TokenOrder(lookup), lookup)
  }

  /** `_replace_placeholders`: sort the token names in reverse order, then
      replace every `$name` by its value, one name at a time. */
  method ReplacePlaceholders(original: string, lookup: seq<Entry>) returns (r: string)
    ensures r == Render(original, lookup)
    ensures lookup == [] ==> r == original
    ensures '$' !in original ==> r == original
  {
    var tokens := SortDescending(Keys(lookup));
    r := original;
    for i := 0 to |tokens|
      invariant ApplyReplacements(r, tokens[i..], lookup) == Render(original, lookup)
    {
      assert tokens[i..][1..] == tokens[i + 1..];
      r := ReplaceAll(r, "$" + tokens[i], ValueOf(lookup, tokens[i]));
    }
    assert tokens[|tokens|..] == [];
    if '$' !in original {
      UntouchedWithoutDollar(original, tokens, lookup);
    }
  }

  /** Text without `$` comes out exactly as it went in. */
  lemma {:induction false} UntouchedWithoutDollar(s: string, order: seq<string>, lookup: seq<Entry>)
    requires '$' !in s
    ensures ApplyReplacements(s, order, lookup) == s
    decreases |order|
  {
    if order != [] {
      ReplaceUntouched(s, "$" + order[0], ValueOf(lookup, order[0]));
      UntouchedWithoutDollar(s, order[1..], lookup);
    }
  }

  // ---------------------------------------------------------------------
  // What rendering does to a text made of literal pieces and `$name`
  // references.

  predicate WordChar(c: char) {
    'a' <= c <= 'z' || 'A' <= c <= 'Z' || '0' <= c <= '9' || c == '_'
  }

  /** A token name: a non-empty run of word characters. */
  predicate IsToken(t: string) {
    t != "" && forall k :: 0 <= k < |t| ==> WordChar(t[k])
  }

  /** The lookups the model reasons about: word-character token names (so
      that the regular expression `\$name` is a literal match) and values
      without `$`.  Backslashes in values are not excluded: the model
      copies them literally, where `re.sub` would read them as escapes. */
  predicate PlainLookup(lookup: seq<Entry>) {
    forall i :: 0 <= i < |lookup| ==> IsToken(lookup[i].token) && '$' !in lookup[i].value
  }

  datatype Part = Lit(text: string) | Ref(name: string)

  function PartText(p: Part): string {
    match p
    case Lit(t) => t
    case Ref(n) => "$" + n
  }

  function Flatten(ps: seq<Part>): string
    decreases |ps|
  {
    if ps == [] then "" else PartText(ps[0]) + Flatten(ps[1..])
  }

  /** Literal pieces hold no `$`; a reference is `$` and word characters,
      and what follows it (if anything) starts with a non-word character,
      so the reference's name is the whole word after the `$`. */
  predicate WellFormedParts(ps: seq<Part>) {
    && (forall i :: 0 <= i < |ps| ==>
          match ps[i]
          case Lit(t) => '$' !in t
          case Ref(n) => forall k :: 0 <= k < |n| ==> WordChar(n[k]))
    && (forall i :: 0 <= i < |ps| - 1 && ps[i].Ref? ==>
          ps[i + 1].Lit? && ps[i + 1].text != "" && !WordChar(ps[i + 1].text[0]))
  }

  /** One pass for token `t`: references whose name starts with `t` become
      literal text. */
  function ResolvePart(p: Part, t: string, v: string): Part {
    if p.Ref? && StartsWith(p.name, t) then Lit(v + p.name[|t|..]) else p
  }

  function ResolveAll(ps: seq<Part>, t: string, v: string): (r: seq<Part>)
    ensures |r| == |ps|
    ensures forall i :: 0 <= i < |ps| ==> r[i] == ResolvePart(ps[i], t, v)
    decreases |ps|
  {
    if ps == [] then [] else [ResolvePart(ps[0], t, v)] + ResolveAll(ps[1..], t, v)
  }

  lemma WellFormedTail(ps: seq<Part>)
    requires ps != [] && WellFormedParts(ps)
    ensures WellFormedParts(ps[1..])
  {
    forall i | 0 <= i < |ps| - 2 && ps[1..][i].Ref?
      ensures ps[1..][i + 1].Lit? && ps[1..][i + 1].text != "" && !WordChar(ps[1..][i + 1].text[0])
    {
      assert ps[1..][i] == ps[i + 1];
    }
  }

  lemma FlattenLitHead(ps: seq<Part>)
    requires ps != [] && ps[0].Lit? && ps[0].text != ""
    ensures Flatten(ps) != "" && Flatten(ps)[0] == ps[0].text[0]
  {
  }

  /** A reference not starting with `t` is not an occurrence of `$t`. */
  lemma RefNotOccurrence(n: string, rest: seq<Part>, t: string)
    requires IsToken(t) && !StartsWith(n, t)
    requires rest != [] ==> rest[0].Lit? && rest[0].text != "" && !WordChar(rest[0].text[0])
    ensures !OccursAt("$" + n + Flatten(rest), "$" + t, 0)
  {
    var s := "$" + n + Flatten(rest);
    var pat := "$" + t;
    if |t| <= |n| {
      assert n[..|t|] != t;
      var k :| 0 <= k < |t| && n[k] != t[k];
      assert s[k + 1] == n[k] && pat[k + 1] == t[k];
      assert |s| >= |pat| ==> s[..|pat|][k + 1] != pat[k + 1];
    } else if |s| >= |pat| {
      FlattenLitHead(rest);
      assert s[|n| + 1] == rest[0].text[0] && pat[|n| + 1] == t[|n|];
      assert s[..|pat|][|n| + 1] != pat[|n| + 1];
    }
  }

  /** The pass for `$t` on a reference that starts with `t`. */
  lemma ReplaceMatchingRef(n: string, rest: string, t: string, v: string)
    requires StartsWith(n, t) && '$' !in n
    ensures ReplaceAll("$" + n + rest, "$" + t, v) == v + n[|t|..] + ReplaceAll(rest, "$" + t, v)
  {
    var pat := "$" + t;
    assert "$" + n + rest == pat + (n[|t|..] + rest);
    ReplaceAtFront(pat, n[|t|..] + rest, v);
    assert '$' !in n[|t|..] by {
      forall c | c in n[|t|..] ensures c in n { }
    }
    ReplaceSkips(n[|t|..], rest, pat, v);
  }

  /** The pass for `$t` on a reference that is not an occurrence. */
  lemma ReplaceOtherRef(n: string, rest: string, t: string, v: string)
    requires '$' !in n && !OccursAt("$" + n + rest, "$" + t, 0)
    ensures ReplaceAll("$" + n + rest, "$" + t, v) == "$" + n + ReplaceAll(rest, "$" + t, v)
  {
    var pat := "$" + t;
    assert "$" + n + rest == ['$'] + (n + rest);
    ReplaceKeepsHead('$', n + rest, pat, v);
    ReplaceSkips(n, rest, pat, v);
  }

  /** The pass for `$t` on the first piece. */
  lemma ReplaceOnHead(ps: seq<Part>, t: string, v: string)
    requires ps != [] && WellFormedParts(ps) && IsToken(t) && '$' !in v
    ensures ReplaceAll(Flatten(ps), "$" + t, v)
            == PartText(ResolvePart(ps[0], t, v)) + ReplaceAll(Flatten(ps[1..]), "$" + t, v)
  {
    var pat := "$" + t;
    var rest := Flatten(ps[1..]);
    assert Flatten(ps) == PartText(ps[0]) + rest;
    match ps[0]
    case Lit(u) =>
      ReplaceSkips(u, rest, pat, v);
    case Ref(n) =>
      assert '$' !in n;
      if StartsWith(n, t) {
        ReplaceMatchingRef(n, rest, t, v);
      } else {
        assert |ps| > 1 ==> ps[1].Lit? && ps[1].text != "" && !WordChar(ps[1].text[0]);
        RefNotOccurrence(n, ps[1..], t);
        ReplaceOtherRef(n, rest, t, v);
      }
  }

  /** A pass keeps the pieces well formed: literal pieces never change. */
  lemma ResolveWellFormed(ps: seq<Part>, t: string, v: string)
    requires WellFormedParts(ps) && IsToken(t) && '$' !in v
    ensures WellFormedParts(ResolveAll(ps, t, v))
  {
    var r := ResolveAll(ps, t, v);
    forall i | 0 <= i < |r| - 1 && r[i].Ref?
      ensures r[i + 1].Lit? && r[i + 1].text != "" && !WordChar(r[i + 1].text[0])
    {
      assert ps[i].Ref? && r[i + 1] == ps[i + 1];
    }
  }

  /** One replace-all pass for `$t` turns exactly the references starting
      with `t` into text. */
  lemma {:induction false} ReplaceOnParts(ps: seq<Part>, t: string, v: string)
    requires WellFormedParts(ps) && IsToken(t) && '$' !in v
    ensures ReplaceAll(Flatten(ps), "$" + t, v) == Flatten(ResolveAll(ps, t, v))
    decreases |ps|
  {
    if ps == [] {
      assert ReplaceAll("", "$" + t, v) == "";
    } else {
      WellFormedTail(ps);
      ReplaceOnParts(ps[1..], t, v);
      ReplaceOnHead(ps, t, v);
      var r := ResolveAll(ps, t, v);
      assert r == [ResolvePart(ps[0], t, v)] + ResolveAll(ps[1..], t, v);
    }
  }

  /** The passes of `order` applied to the pieces. */
  function ResolveSeq(ps: seq<Part>, order: seq<string>, lookup: seq<Entry>): (r: seq<Part>)
    ensures |r| == |ps|
    decreases |order|
  {
    if order == [] then ps
    else ResolveSeq(ResolveAll(ps, order[0], ValueOf(lookup, order[0])), order[1..], lookup)
  }

  lemma {:induction false} ApplyOnParts(ps: seq<Part>, order: seq<string>, lookup: seq<Entry>)
    requires WellFormedParts(ps) && PlainLookup(lookup)
    requires forall k :: 0 <= k < |order| ==> IsToken(order[k])
    ensures ApplyReplacements(Flatten(ps), order, lookup) == Flatten(ResolveSeq(ps, order, lookup))
    decreases |order|
  {
    if order != [] {
      ValueHasNoDollar(lookup, order[0]);
      ReplaceOnParts(ps, order[0], ValueOf(lookup, order[0]));
      ResolveWellFormed(ps, order[0], ValueOf(lookup, order[0]));
      ApplyOnParts(ResolveAll(ps, order[0], ValueOf(lookup, order[0])), order[1..], lookup);
    }
  }

  lemma {:induction false} ValueHasNoDollar(lookup: seq<Entry>, t: string)
    requires PlainLookup(lookup)
    ensures '$' !in ValueOf(lookup, t)
    decreases |lookup|
  {
    if lookup != [] && lookup[0].token != t {
      ValueHasNoDollar(lookup[1..], t);
    }
  }

  /** The first name in `order` that begins the reference name `n`. */
  function FirstPrefix(n: string, order: seq<string>): (r: Option<string>)
    ensures r.Some? ==> r.value in order && StartsWith(n, r.value)
    ensures r.None? <==> forall k :: 0 <= k < |order| ==> !StartsWith(n, order[k])
    decreases |order|
  {
    if order == [] then None
    else if StartsWith(n, order[0]) then Some(order[0])
    else FirstPrefix(n, order[1..])
  }

  /** What a piece becomes after all the passes of `order`. */
  function Expand(p: Part, order: seq<string>, lookup: seq<Entry>): Part {
    match p
    case Lit(t) => p
    case Ref(n) =>
      match FirstPrefix(n, order)
      case None => p
      case Some(k) => Lit(ValueOf(lookup, k) + n[|k|..])
  }

  function ExpandAll(ps: seq<Part>, order: seq<string>, lookup: seq<Entry>): (r: seq<Part>)
    ensures |r| == |ps|
    ensures forall i :: 0 <= i < |ps| ==> r[i] == Expand(ps[i], order, lookup)
    decreases |ps|
  {
    if ps == [] then [] else [Expand(ps[0], order, lookup)] + ExpandAll(ps[1..], order, lookup)
  }

  lemma {:induction false} ResolveSeqIsExpand(ps: seq<Part>, order: seq<string>, lookup: seq<Entry>)
    ensures ResolveSeq(ps, order, lookup) == ExpandAll(ps, order, lookup)
    decreases |order|
  {
    if order != [] {
      var t := order[0];
      var ps' := ResolveAll(ps, t, ValueOf(lookup, t));
      ResolveSeqIsExpand(ps', order[1..], lookup);
      forall i | 0 <= i < |ps| ensures Expand(ps'[i], order[1..], lookup) == Expand(ps[i], order, lookup) {
      }
    }
  }

  /** Rendering a text of pieces replaces each reference independently. */
  lemma RenderParts(ps: seq<Part>, lookup: seq<Entry>)
    requires WellFormedParts(ps) && PlainLookup(lookup)
    ensures Render(Flatten(ps), lookup) == Flatten(ExpandAll(ps, TokenOrder(lookup), lookup))
  {
    var order := TokenOrder(lookup);
    forall k | 0 <= k < |order| ensures IsToken(order[k]) {
      assert order[k] in multiset(Keys(lookup));
      var i :| 0 <= i < |Keys(lookup)| && Keys(lookup)[i] == order[k];
    }
    ApplyOnParts(ps, order, lookup);
    ResolveSeqIsExpand(ps, order, lookup);
  }

  /** In descending order the first name that begins `n` is the longest
      such name: a token that extends another is replaced first. */
  lemma {:induction false} FirstPrefixIsLongest(n: string, order: seq<string>)
    requires Descending(order)
    ensures FirstPrefix(n, order).Some? ==>
              forall k :: 0 <= k < |order| && StartsWith(n, order[k]) ==>
                |order[k]| <= |FirstPrefix(n, order).value|
    decreases |order|
  {
    if order != [] {
      if StartsWith(n, order[0]) {
        forall k | 0 <= k < |order| && StartsWith(n, order[k]) ensures |order[k]| <= |order[0]| {
          if |order[k]| > |order[0]| {
            assert order[k][..|order[0]|] == n[..|order[0]|];
            PrefixLess(order[0], order[k]);
          }
        }
      } else {
        assert Descending(order[1..]);
        FirstPrefixIsLongest(n, order[1..]);
        forall k | 0 <= k < |order| && StartsWith(n, order[k])
          ensures k > 0 && order[k] == order[1..][k - 1]
        {
        }
      }
    }
  }

  /** The membership of the sorted order is that of the keys. */
  lemma InTokenOrder(lookup: seq<Entry>, t: string)
    ensures t in TokenOrder(lookup) <==> t in Keys(lookup)
  {
    assert t in multiset(TokenOrder(lookup)) <==> t in multiset(Keys(lookup));
  }

  /** A reference whose whole name is a key is replaced by that key's
      value. */
  lemma KnownReference(lookup: seq<Entry>, n: string)
    requires n in Keys(lookup)
    ensures Expand(Ref(n), TokenOrder(lookup), lookup) == Lit(ValueOf(lookup, n))
  {
    var order := TokenOrder(lookup);
    InTokenOrder(lookup, n);
    var i :| 0 <= i < |order| && order[i] == n;
    assert StartsWith(n, order[i]);
    var f := FirstPrefix(n, order);
    assert f.Some?;
    var k := f.value;
    assert |k| == |n| by {
      SortDescendingSorted(Keys(lookup));
      FirstPrefixIsLongest(n, order);
      assert |order[i]| <= |k|;
      assert StartsWith(n, k);
    }
    assert k == n by {
      assert StartsWith(n, k);
    }
    assert n[|n|..] == "";
  }

  /** A reference that no key begins stays as it was. */
  lemma UnknownReference(lookup: seq<Entry>, n: string)
    requires forall k :: 0 <= k < |lookup| ==> !StartsWith(n, lookup[k].token)
    ensures Expand(Ref(n), TokenOrder(lookup), lookup) == Ref(n)
  {
    var order := TokenOrder(lookup);
    forall k | 0 <= k < |order| ensures !StartsWith(n, order[k]) {
      InTokenOrder(lookup, order[k]);
    }
  }

  // ---------------------------------------------------------------------
  // The unit-test examples

  lemma FlattenThree(a: Part, b: Part, c: Part)
    ensures Flatten([a, b, c]) == PartText(a) + PartText(b) + PartText(c)
  {
    assert [a, b, c][1..] == [b, c];
    assert [b, c][1..] == [c];
    assert [c][1..] == [];
    assert Flatten([c]) == PartText(c) + "" == PartText(c);
  }

  lemma FlattenFive(a: Part, b: Part, c: Part, d: Part, e: Part)
    ensures Flatten([a, b, c, d, e]) == PartText(a) + PartText(b) + PartText(c) + PartText(d) + PartText(e)
  {
    assert [a, b, c, d, e][1..] == [b, c, d, e];
    assert [b, c, d, e][1..] == [c, d, e];
    FlattenThree(c, d, e);
  }

  /** Rendering `$a<mid>$b` expands the two references on their own. */
  /** The name of a reference: word characters only. */
  predicate RefName(n: string) {
    forall k :: 0 <= k < |n| ==> WordChar(n[k])
  }

  /** Literal text that may follow a reference. */
  predicate Gap(m: string) {
    m != "" && '$' !in m && !WordChar(m[0])
  }

  lemma RenderRefTextRef(a: string, mid: string, b: string, lookup: seq<Entry>)
    requires RefName(a) && Gap(mid) && RefName(b) && PlainLookup(lookup)
    ensures Render("$" + a + mid + "$" + b, lookup)
            == PartText(Expand(Ref(a), TokenOrder(lookup), lookup)) + mid
               + PartText(Expand(Ref(b), TokenOrder(lookup), lookup))
  {
    var ps := [Ref(a), Lit(mid), Ref(b)];
    assert WellFormedParts(ps) by {
      forall i | 0 <= i < |ps| - 1 && ps[i].Ref? ensures ps[i + 1] == Lit(mid) { }
    }
    FlattenThree(ps[0], ps[1], ps[2]);
    assert Flatten(ps) == "$" + a + mid + "$" + b;
    RenderParts(ps, lookup);
    var e := ExpandAll(ps, TokenOrder(lookup), lookup);
    assert e == [e[0], e[1], e[2]];
    FlattenThree(e[0], e[1], e[2]);
  }

  /** Rendering `$a<m1>$b<m2>$c` expands the three references on their own. */
  lemma RenderThreeRefs(a: string, m1: string, b: string, m2: string, c: string, lookup: seq<Entry>)
    requires RefName(a) && Gap(m1) && RefName(b) && Gap(m2) && RefName(c) && PlainLookup(lookup)
    ensures Render("$" + a + m1 + "$" + b + m2 + "$" + c, lookup)
            == PartText(Expand(Ref(a), TokenOrder(lookup), lookup)) + m1
               + PartText(Expand(Ref(b), TokenOrder(lookup), lookup)) + m2
               + PartText(Expand(Ref(c), TokenOrder(lookup), lookup))
  {
    var ps := [Ref(a), Lit(m1), Ref(b), Lit(m2), Ref(c)];
    assert WellFormedParts(ps) by {
      forall i | 0 <= i < |ps| - 1 && ps[i].Ref?
        ensures ps[i + 1] == if i == 0 then Lit(m1) else Lit(m2)
      {
      }
    }
    FlattenFive(ps[0], ps[1], ps[2], ps[3], ps[4]);
    assert Flatten(ps) == "$" + a + m1 + "$" + b + m2 + "$" + c;
    RenderParts(ps, lookup);
    var e := ExpandAll(ps, TokenOrder(lookup), lookup);
    assert e == [e[0], e[1], e[2], e[3], e[4]];
    FlattenFive(e[0], e[1], e[2], e[3], e[4]);
  }

  lemma RenderTwoKnown(a: string, mid: string, b: string, lookup: seq<Entry>)
    requires RefName(a) && Gap(mid) && RefName(b) && PlainLookup(lookup)
    requires a in Keys(lookup) && b in Keys(lookup)
    ensures Render("$" + a + mid + "$" + b, lookup) == ValueOf(lookup, a) + mid + ValueOf(lookup, b)
  {
    RenderRefTextRef(a, mid, b, lookup);
    KnownReference(lookup, a);
    KnownReference(lookup, b);
  }

  lemma RenderKnownUnknown(a: string, mid: string, b: string, lookup: seq<Entry>)
    requires RefName(a) && Gap(mid) && RefName(b) && PlainLookup(lookup)
    requires a in Keys(lookup)
    requires forall k :: 0 <= k < |lookup| ==> !StartsWith(b, lookup[k].token)
    ensures Render("$" + a + mid + "$" + b, lookup) == ValueOf(lookup, a) + mid + "$" + b
  {
    RenderRefTextRef(a, mid, b, lookup);
    KnownReference(lookup, a);
    UnknownReference(lookup, b);
  }

  lemma RenderThreeKnown(a: string, m1: string, b: string, m2: string, c: string, lookup: seq<Entry>)
    requires RefName(a) && Gap(m1) && RefName(b) && Gap(m2) && RefName(c) && PlainLookup(lookup)
    requires a in Keys(lookup) && b in Keys(lookup) && c in Keys(lookup)
    ensures Render("$" + a + m1 + "$" + b + m2 + "$" + c, lookup)
            == ValueOf(lookup, a) + m1 + ValueOf(lookup, b) + m2 + ValueOf(lookup, c)
  {
    RenderThreeRefs(a, m1, b, m2, c, lookup);
    KnownReference(lookup, a);
    KnownReference(lookup, b);
    KnownReference(lookup, c);
  }

  lemma MultipleTokensText()
    ensures "$FOO and $BAR" == "$" + "FOO" + " and " + "$" + "BAR"
    ensures "123" + " and " + "abc" == "123 and abc"
    ensures "123" + " and " + "$" + "BAR" == "123 and $BAR"
  {
  }

  /** test_provisionconfig.py: two tokens, both defined. */
  lemma ExampleMultipleTokens(s: string, lookup: seq<Entry>)
    requires s == "$FOO and $BAR"
    requires lookup == [Entry("FOO", "123"), Entry("BAR", "abc")]
    ensures Render(s, lookup) == "123 and abc"
  {
    assert Keys(lookup) == ["FOO", "BAR"];
    MultipleTokensText();
    RenderTwoKnown("FOO", " and ", "BAR", lookup);
  }

  /** A reference no key matches stays in the text. */
  lemma ExampleUnknownToken(s: string, lookup: seq<Entry>)
    requires s == "$FOO and $BAR"
    requires lookup == [Entry("FOO", "123")]
    ensures Render(s, lookup) == "123 and $BAR"
  {
    assert Keys(lookup) == ["FOO"];
    assert "BAR"[..3][0] != "FOO"[0];
    MultipleTokensText();
    RenderKnownUnknown("FOO", " and ", "BAR", lookup);
  }

  lemma SuperstringText()
    ensures "$FOOBAR and $FOO and $BAR" == "$" + "FOOBAR" + " and " + "$" + "FOO" + " and " + "$" + "BAR"
    ensures "baz" + " and " + "foo" + " and " + "bar" == "baz and foo and bar"
  {
  }

  lemma SuperstringLookup(lookup: seq<Entry>)
    requires lookup == [Entry("FOO", "foo"), Entry("BAR", "bar"), Entry("FOOBAR", "baz")]
    ensures PlainLookup(lookup)
    ensures "FOOBAR" in Keys(lookup) && "FOO" in Keys(lookup) && "BAR" in Keys(lookup)
    ensures ValueOf(lookup, "FOOBAR") == "baz" && ValueOf(lookup, "FOO") == "foo"
    ensures ValueOf(lookup, "BAR") == "bar"
  {
    assert Keys(lookup) == ["FOO", "BAR", "FOOBAR"];
    assert |"FOO"| != |"FOOBAR"| && |"BAR"| != |"FOOBAR"| && "FOO"[0] != "BAR"[0];
    assert ValueOf(lookup[1..][1..], "FOOBAR") == "baz";
    assert ValueOf(lookup[1..], "FOOBAR") == "baz";
  }

  /** A token that extends another is replaced before it. */
  lemma ExampleSuperstringFirst(s: string, lookup: seq<Entry>)
    requires s == "$FOOBAR and $FOO and $BAR"
    requires lookup == [Entry("FOO", "foo"), Entry("BAR", "bar"), Entry("FOOBAR", "baz")]
    ensures Render(s, lookup) == "baz and foo and bar"
  {
    SuperstringLookup(lookup);
    SuperstringText();
    RenderThreeKnown("FOOBAR", " and ", "FOO", " and ", "BAR", lookup);
  }

  lemma FullTokenWordText()
    ensures "$FOOA and $FOOB" == "$" + "FOOA" + " and " + "$" + "FOOB"
    ensures "A" + " and " + "B" == "A and B"
  {
  }

  lemma FullTokenWordLookup(lookup: seq<Entry>)
    requires lookup == [Entry("FOO", "FAIL"), Entry("FOOA", "A"), Entry("FOOB", "B")]
    ensures PlainLookup(lookup)
    ensures "FOOA" in Keys(lookup) && "FOOB" in Keys(lookup)
    ensures ValueOf(lookup, "FOOA") == "A" && ValueOf(lookup, "FOOB") == "B"
  {
    assert Keys(lookup) == ["FOO", "FOOA", "FOOB"];
    assert "FOOA"[3] != "FOOB"[3] && |"FOO"| != |"FOOB"|;
    assert ValueOf(lookup[1..][1..], "FOOB") == "B";
    assert ValueOf(lookup[1..], "FOOB") == "B";
  }

  /** A defined prefix of a token does not spoil the token's own value. */
  lemma ExampleFullTokenWord(s: string, lookup: seq<Entry>)
    requires s == "$FOOA and $FOOB"
    requires lookup == [Entry("FOO", "FAIL"), Entry("FOOA", "A"), Entry("FOOB", "B")]
    ensures Render(s, lookup) == "A and B"
  {
    FullTokenWordLookup(lookup);
    FullTokenWordText();
    RenderTwoKnown("FOOA", " and ", "FOOB", lookup);
  }

  // ---------------------------------------------------------------------
  // _render_build_args

  /** A YAML scalar: a string, or anything else (number, boolean, null). */
  datatype Scalar = Text(text: string) | NonText

  /** The `build_args` value of a provisioning stanza. */
  datatype BuildArgs = ArgList(items: seq<Scalar>) | NotAList

  /** The lookup built by `_render_build_args`. */
  function ProfileLookup(profilePath: string): (l: seq<Entry>)
    ensures Keys(l) == ["PROFILE_PATH"] && ValueOf(l, "PROFILE_PATH") == profilePath
  {
    [Entry("PROFILE_PATH", profilePath)]
  }

  predicate AllText(items: seq<Scalar>) {
    forall i :: 0 <= i < |items| ==> items[i].Text?
  }

  /** What `_render_build_args` returns: TypeError for a non-list, then
      ValueError for a list holding a non-string, otherwise every argument
      rendered with `$PROFILE_PATH` standing for `profilePath`. */
  function BuildArgsRendered(buildArgs: BuildArgs, profilePath: string): Result<seq<string>> {
    if buildArgs.NotAList? then Err(TypeError)
    else if !AllText(buildArgs.items) then Err(ValueError)
    else Ok(seq(|buildArgs.items|, i requires 0 <= i < |buildArgs.items| =>
                  Render(buildArgs.items[i].text, ProfileLookup(profilePath))))
  }

  /** `_render_build_args`: the loop appends one rendered argument per
      item, so the result is exactly `BuildArgsRendered`; it fails only on
      a non-list or a non-string item, and every list of strings renders. */
  method RenderBuildArgs(buildArgs: BuildArgs, profilePath: string) returns (r: Result<seq<string>>)
    ensures r == BuildArgsRendered(buildArgs, profilePath)
    ensures buildArgs.NotAList? <==> r == Err(TypeError)
    ensures buildArgs.ArgList? && !AllText(buildArgs.items) <==> r == Err(ValueError)
    ensures r.Ok? <==> buildArgs.ArgList? && AllText(buildArgs.items)
    ensures r.Ok? ==> |r.value| == |buildArgs.items|
    ensures r.Ok? ==> forall i :: 0 <= i < |r.value| ==>
              r.value[i] == Render(buildArgs.items[i].text, ProfileLookup(profilePath))
  {
    if buildArgs.NotAList? {
      return Err(TypeError);
    }
    var items := buildArgs.items;
    if !AllText(items) {
      return Err(ValueError);
    }
    var lookup := ProfileLookup(profilePath);
    var newArgs: seq<string> := [];
    for i := 0 to |items|
      invariant |newArgs| == i
      invariant forall k :: 0 <= k < i ==> newArgs[k] == Render(items[k].text, lookup)
    {
      var arg := ReplacePlaceholders(items[i].text, lookup);
      newArgs := newArgs + [arg];
    }
    assert newArgs == BuildArgsRendered(buildArgs, profilePath).value;
    return Ok(newArgs);
  }

  /** test_provisionconfig.py: an empty argument list renders to an empty
      list. */
  lemma EmptyBuildArgs(profilePath: string)
    ensures BuildArgsRendered(ArgList([]), profilePath) == Ok([])
  {
    assert BuildArgsRendered(ArgList([]), profilePath).value == [];
  }

  /** `PROFILE_PATH` is a token name. */
  lemma ProfilePathIsToken()
    ensures IsToken("PROFILE_PATH")
  {
    var t := "PROFILE_PATH";
    forall k | 0 <= k < |t| ensures WordChar(t[k]) {
      assert t[k] in "ABCDEFGHIJKLMNOPQRSTUVWXYZ_";
    }
  }

  /** The pieces of `$PROFILE_PATH` followed by `rest`. */
  lemma ProfilePathParts(rest: string) returns (ps: seq<Part>)
    requires '$' !in rest
    requires rest != "" ==> !WordChar(rest[0])
    ensures WellFormedParts(ps) && Flatten(ps) == "$PROFILE_PATH" + rest
    ensures rest == "" ==> ps == [Ref("PROFILE_PATH")]
    ensures rest != "" ==> ps == [Ref("PROFILE_PATH"), Lit(rest)]
  {
    var name := "PROFILE_PATH";
    ProfilePathIsToken();
    assert "$PROFILE_PATH" == "$" + name;
    ps := if rest == "" then [Ref(name)] else [Ref(name), Lit(rest)];
    if rest == "" {
      assert Flatten(ps) == "$" + name + Flatten([]);
    } else {
      assert ps[1..] == [Lit(rest)] && ps[1..][1..] == [];
    }
  }

  /** `$PROFILE_PATH` followed by text that cannot continue the name is
      replaced by the profile path. */
  lemma RenderProfilePath(profilePath: string, rest: string)
    requires '$' !in profilePath && '$' !in rest
    requires rest != "" ==> !WordChar(rest[0])
    ensures Render("$PROFILE_PATH" + rest, ProfileLookup(profilePath)) == profilePath + rest
  {
    var lookup := ProfileLookup(profilePath);
    var ps := ProfilePathParts(rest);
    ProfilePathIsToken();
    assert PlainLookup(lookup);
    RenderParts(ps, lookup);
    KnownReference(lookup, "PROFILE_PATH");
    var e := ExpandAll(ps, TokenOrder(lookup), lookup);
    if rest == "" {
      assert e == [Lit(profilePath)];
      assert Flatten(e) == profilePath + Flatten([]);
    } else {
      assert e == [Lit(profilePath), Lit(rest)];
      assert e[1..] == [Lit(rest)] && e[1..][1..] == [];
    }
  }

  /** test_provisionconfig.py: each argument is rendered on its own. */
  lemma ExampleProfilePathArgs()
    ensures Render("$PROFILE_PATH here", ProfileLookup("/tmp")) == "/tmp here"
    ensures Render("$PROFILE_PATH there", ProfileLookup("/tmp")) == "/tmp there"
  {
    assert "$PROFILE_PATH here" == "$PROFILE_PATH" + " here";
    assert "$PROFILE_PATH there" == "$PROFILE_PATH" + " there";
    RenderProfilePath("/tmp", " here");
    RenderProfilePath("/tmp", " there");
  }

  // ---------------------------------------------------------------------
  // Provisioning specifications

  /** The provisioning stanza as read from YAML; None for an absent key. */
  datatype ProvisionConfig = ProvisionConfig(
    backend: Option<string>,
    releases: Option<seq<string>>,
    arch: Option<string>,
    imageName: Option<string>,
    buildArgs: Option<BuildArgs>,
    distribution: Option<string>)

  /** `dict.get(key, default)`. */
  function GetOr<T>(o: Option<T>, default: T): T {
    if o.Some? then o.value else default
  }

  /** The two specification classes of `get_specification_type`. */
  datatype SpecKind = LxcKind | QemuKind

  /** `get_specification_type`: `lxc` and `qemu` are known, any other name
      re-raises the KeyError of the dictionary lookup. */
  function SpecificationType(name: string): (r: Result<SpecKind>)
    ensures r == Ok(LxcKind) <==> name == "lxc"
    ensures r == Ok(QemuKind) <==> name == "qemu"
    ensures r.Err? <==> name != "lxc" && name != "qemu"
    ensures r.Err? ==> r.error == KeyError
  {
    if name == "lxc" then Ok(LxcKind)
    else if name == "qemu" then Ok(QemuKind)
    else Err(KeyError)
  }

  /** A constructed specification.  Both constructors evaluate
      `releases[0]`, so a constructed specification has a release. */
  datatype Specification =
    | LxcSpecification(distribution: string, releases: seq<string>, arch: string, path: string)
    | QemuSpecification(releases: seq<string>, arch: string, imageName: string,
                        buildArgs: seq<string>, path: string)

  predicate ValidSpecification(spec: Specification) {
    |spec.releases| > 0
  }

  /** `initial_state`: the first release. */
  function InitialState(spec: Specification): (r: string)
    requires ValidSpecification(spec)
    ensures r == spec.releases[0] && r in spec.releases
  {
    spec.releases[0]
  }

  /** `final_state`: the last release (`releases[-1]`). */
  function FinalState(spec: Specification): (r: string)
    requires ValidSpecification(spec)
    ensures r == spec.releases[|spec.releases| - 1] && r in spec.releases
  {
    spec.releases[|spec.releases| - 1]
  }

  /** With a single release the initial and the final state agree. */
  lemma SingleReleaseStates(spec: Specification)
    requires |spec.releases| == 1
    ensures InitialState(spec) == FinalState(spec)
  {
  }

  /** The image name used when the stanza gives none: the release and the
      architecture, joined by `-`, between `autopkgtest-` and `-cloud.img`. */
  function DefaultImageName(initial: string, arch: string): (r: string)
    ensures StartsWith(r, "autopkgtest-") && EndsWith(r, "-cloud.img")
    ensures |r| == |"autopkgtest-"| + |initial| + 1 + |arch| + |"-cloud.img"|
    ensures r[|"autopkgtest-"|..|r| - |"-cloud.img"|] == initial + "-" + arch
  {
    var r := "autopkgtest-" + initial + "-" + arch + "-cloud.img";
    assert r[|"autopkgtest-"|..|r| - |"-cloud.img"|] == initial + "-" + arch;
    r
  }

  /** The directory that `$PROFILE_PATH` stands for: that of the absolute
      spec path, with `cwd` the current directory. */
  function ProvisionConfigDirectory(cwd: string, path: string): string {
    DirName(AbsPath(cwd, path))
  }

  /** For an absolute spec path made of proper names, the directory is
      the path without its last component, whatever `cwd` is. */
  lemma DirectoryOfAbsolutePath(cwd: string, comps: seq<string>)
    requires |comps| >= 2 && ProperNames(comps)
    ensures ProvisionConfigDirectory(cwd, "/" + Join("/", comps)) == "/" + Join("/", comps[..|comps| - 1])
  {
    var p := "/" + Join("/", comps);
    assert StartsWith(p, "/");
    NormPathProper(comps);
    assert AbsPath(cwd, p) == p;
    DirNameProper(comps);
  }

  lemma TestPathProper(comps: seq<string>)
    requires comps == ["test", "path", "test.yaml"]
    ensures |comps| >= 2 && ProperNames(comps)
  {
    assert CleanComponent(comps[0]) && '/' !in comps[0];
    assert CleanComponent(comps[1]) && '/' !in comps[1];
    assert CleanComponent(comps[2]) && '/' !in comps[2];
  }

  lemma TestPathJoin(path: string, comps: seq<string>)
    requires path == "/test/path/test.yaml"
    requires comps == ["test", "path", "test.yaml"]
    ensures path == "/" + Join("/", comps)
  {
    var tail := comps[1..];
    assert tail == ["path", "test.yaml"] && tail[1..] == ["test.yaml"];
    assert Join("/", tail[1..]) == "test.yaml";
    assert Join("/", tail) == "path/test.yaml";
    assert Join("/", comps) == "test" + "/" + "path/test.yaml";
  }

  lemma TestPathHead(comps: seq<string>)
    requires comps == ["test", "path", "test.yaml"]
    ensures "/" + Join("/", comps[..|comps| - 1]) == "/test/path"
  {
    assert comps[..2] == ["test", "path"] && comps[..2][1..] == ["path"];
  }

  /** test_provisionconfig.py: the spec at `/test/path/test.yaml` renders
      `$PROFILE_PATH` as `/test/path`. */
  lemma ExampleSpecDirectory(cwd: string, path: string)
    requires path == "/test/path/test.yaml"
    ensures ProvisionConfigDirectory(cwd, path) == "/test/path"
    ensures Render("$PROFILE_PATH", ProfileLookup(ProvisionConfigDirectory(cwd, path))) == "/test/path"
  {
    var comps := ["test", "path", "test.yaml"];
    TestPathProper(comps);
    TestPathJoin(path, comps);
    TestPathHead(comps);
    DirectoryOfAbsolutePath(cwd, comps);
    assert "$PROFILE_PATH" == "$PROFILE_PATH" + "";
    RenderProfilePath("/test/path", "");
  }

  /** `LXCProvisionSpecification(config, path)`: distribution defaults to
      `ubuntu`; `releases` and `arch` are required (KeyError, in that
      order); the backend is built with `initial_state`, so an empty
      release list raises IndexError. */
  function NewLxcSpecification(config: ProvisionConfig, path: string): (r: Result<Specification>)
    ensures config.releases.None? ==> r == Err(KeyError)
    ensures config.releases.Some? && config.arch.None? ==> r == Err(KeyError)
    ensures config.releases.Some? && config.arch.Some? && config.releases.value == [] ==> r == Err(IndexError)
    ensures r.Ok? <==> config.releases.Some? && config.arch.Some? && config.releases.value != []
    ensures r.Ok? ==> r.value.LxcSpecification? && ValidSpecification(r.value)
                      && r.value.releases == config.releases.value
                      && r.value.arch == config.arch.value
                      && r.value.distribution == GetOr(config.distribution, "ubuntu")
                      && r.value.path == path
  {
    var distribution := GetOr(config.distribution, "ubuntu");
    if config.releases.None? then Err(KeyError)
    else if config.arch.None? then Err(KeyError)
    else if config.releases.value == [] then Err(IndexError)
    else Ok(LxcSpecification(distribution, config.releases.value, config.arch.value, path))
  }

  /** `QemuProvisionSpecification(config, path)`, with `cwd` the current
      directory.  The default image name is formatted before `get` is
      called, so an empty release list raises IndexError even when
      `image_name` is given; the build arguments are rendered last. */
  function NewQemuSpecification(config: ProvisionConfig, path: string, cwd: string)
    : (r: Result<Specification>)
    ensures config.releases.None? ==> r == Err(KeyError)
    ensures config.releases == Some([]) ==> r == Err(IndexError)
    ensures (config.releases.Some? && config.releases.value != []
             && GetOr(config.buildArgs, ArgList([])).NotAList?) ==> r == Err(TypeError)
    ensures (config.releases.Some? && config.releases.value != []
             && GetOr(config.buildArgs, ArgList([])).ArgList?
             && !AllText(GetOr(config.buildArgs, ArgList([])).items)) ==> r == Err(ValueError)
    ensures r.Ok? <==>
              && config.releases.Some? && config.releases.value != []
              && GetOr(config.buildArgs, ArgList([])).ArgList?
              && AllText(GetOr(config.buildArgs, ArgList([])).items)
    ensures r.Ok? ==>
              var releases := config.releases.value;
              var arch := GetOr(config.arch, "amd64");
              var items := GetOr(config.buildArgs, ArgList([])).items;
              && r.value.QemuSpecification? && ValidSpecification(r.value)
              && r.value.releases == releases
              && r.value.arch == arch
              && r.value.imageName == GetOr(config.imageName, DefaultImageName(releases[0], arch))
              && r.value.path == path
              && |r.value.buildArgs| == |items|
              && forall i :: 0 <= i < |items| ==>
                   r.value.buildArgs[i] == Render(items[i].text, ProfileLookup(ProvisionConfigDirectory(cwd, path)))
  {
    if config.releases.None? then Err(KeyError)
    else
      var releases := config.releases.value;
      var arch := GetOr(config.arch, "amd64");
      if releases == [] then Err(IndexError)
      else
        var imageName := GetOr(config.imageName, DefaultImageName(releases[0], arch));
        var directory := ProvisionConfigDirectory(cwd, path);
        var buildArgs := BuildArgsRendered(GetOr(config.buildArgs, ArgList([])), directory);
        if buildArgs.Err? then Err(buildArgs.error)
        else Ok(QemuSpecification(releases, arch, imageName, buildArgs.value, path))
  }

  /** `from_provisionspec`: the stanza's `backend` names the class, whose
      constructor then decides the outcome. */
  function FromProvisionSpec(config: ProvisionConfig, path: string, cwd: string)
    : (r: Result<Specification>)
    ensures config.backend.None? ==> r == Err(KeyError)
    ensures config.backend.Some? && SpecificationType(config.backend.value).Err? ==> r == Err(KeyError)
    ensures config.backend == Some("lxc") ==> r == NewLxcSpecification(config, path)
    ensures config.backend == Some("qemu") ==> r == NewQemuSpecification(config, path, cwd)
    ensures r.Ok? ==> ValidSpecification(r.value) && r.value.path == path
    ensures r.Ok? ==> (r.value.LxcSpecification? <==> config.backend == Some("lxc"))
  {
    if config.backend.None? then Err(KeyError)
    else
      var kind := SpecificationType(config.backend.value);
      if kind.Err? then Err(kind.error)
      else if kind.value == LxcKind then NewLxcSpecification(config, path)
      else NewQemuSpecification(config, path, cwd)
  }

  /** `from_testspec`: the same, on the `provisioning` stanza of a test
      definition, whose absence is a KeyError. */
  function FromTestSpec(provisioning: Option<ProvisionConfig>, path: string, cwd: string)
    : (r: Result<Specification>)
    ensures provisioning.None? ==> r == Err(KeyError)
    ensures provisioning.Some? ==> r == FromProvisionSpec(provisioning.value, path, cwd)
    ensures provisioning.Some? && provisioning.value.backend.None? ==> r == Err(KeyError)
    ensures r.Ok? ==> ValidSpecification(r.value) && r.value.path == path
  {
    if provisioning.None? then Err(KeyError)
    else FromProvisionSpec(provisioning.value, path, cwd)
  }
}
