/**
 * The template renderer of the scaffolder: `replacePlaceholders`
 * (index.js:19-25), three successive global literal replacements.
 */
module Render {
  import opened Text
  import opened Names

  const NameToken: string := "{{name}}"
  const CamelCaseToken: string := "{{nameCamelCase}}"
  const AppNameToken: string := "{{appName}}"

  /**
   * `content.replace(/pat/g, rep)` for a pattern without metacharacters:
   * matches are found left to right, do not overlap, and the inserted text is
   * never scanned again.
   */
  function ReplaceAll(s: string, pat: string, rep: string): (r: string)
    requires pat != []
    ensures !Contains(s, pat) ==> r == s
    ensures rep == pat ==> r == s
    decreases |s|
  {
    if s == [] then []
    else if pat <= s then rep + ReplaceAll(s[|pat|..], pat, rep)
    else [s[0]] + ReplaceAll(s[1..], pat, rep)
  }

  /**
   * JavaScript reads `$&`, `$$`, ... in a replacement string as patterns;
   * the model covers values without `$`, where the replacement is literal.
   */
  predicate NoDollar(s: string) { '$' !in s }

  /**
   * `replacePlaceholders(content, name, appName)`: `{{name}}` first, then
   * `{{nameCamelCase}}` with the camel-cased `name`, then `{{appName}}`.
   * Content without any `{{` comes back unchanged.
   */
  function ReplacePlaceholders(content: string, name: string, appName: string): (r: string)
    requires CaseMappable(name)
    requires NoDollar(name) && NoDollar(appName)
    ensures !Contains(content, "{{") ==> r == content
  {
    var nameCamelCase := ToCamelCase(name);
    var step1 := ReplaceAll(content, NameToken, name);
    var step2 := ReplaceAll(step1, CamelCaseToken, nameCamelCase);
    var step3 := ReplaceAll(step2, AppNameToken, appName);
    if !Contains(content, "{{") then
      NoTokenWithoutBraces(content);
      step3
    else
      step3
  }

  /** A string without `{{` contains none of the three tokens. */
  lemma NoTokenWithoutBraces(s: string)
    requires !Contains(s, "{{")
    ensures !Contains(s, NameToken) && !Contains(s, CamelCaseToken) && !Contains(s, AppNameToken)
  {
    ContainsPrefixOf(s, "{{", "name}}");
    ContainsPrefixOf(s, "{{", "nameCamelCase}}");
    ContainsPrefixOf(s, "{{", "appName}}");
  }

  // ---------------------------------------------------------------------
  // Templates as pieces: literal text interleaved with placeholders.
  // ---------------------------------------------------------------------

  datatype Placeholder = Name | NameCamelCase | AppName

  /** A template is literal text interleaved with placeholder tokens. */
  datatype Piece = Literal(text: string) | Token(placeholder: Placeholder)

  function TokenText(k: Placeholder): string
  {
    match k
    case Name => NameToken
    case NameCamelCase => CamelCaseToken
    case AppName => AppNameToken
  }

  function PieceSource(p: Piece): string
  {
    match p
    case Literal(s) => s
    case Token(k) => TokenText(k)
  }

  /** The template text the pieces spell, tokens written out. */
  function Source(t: seq<Piece>): string
  {
    if t == [] then [] else PieceSource(t[0]) + Source(t[1..])
  }

  function Value(k: Placeholder, name: string, camel: string, app: string): string
  {
    match k
    case Name => name
    case NameCamelCase => camel
    case AppName => app
  }

  /** The intended rendering: each token replaced by its value, text kept. */
  function PieceValue(p: Piece, name: string, camel: string, app: string): string
  {
    match p
    case Literal(s) => s
    case Token(k) => Value(k, name, camel, app)
  }

  function Fill(t: seq<Piece>, name: string, camel: string, app: string): string
  {
    if t == [] then []
    else
      PieceValue(t[0], name, camel, app) + Fill(t[1..], name, camel, app)
  }

  /** No two adjacent opening braces. */
  predicate NoDoubleBrace(s: string)
  {
    forall i :: 0 <= i < |s| - 1 ==> !(s[i] == '{' && s[i + 1] == '{')
  }

  /**
   * Text that cannot take part in a token match: no `{{` inside, and no `{`
   * at the end that a following `{` could pair with.
   */
  predicate Plain(s: string)
  {
    NoDoubleBrace(s) && (s == [] || s[|s| - 1] != '{')
  }

  predicate PlainLiterals(t: seq<Piece>)
  {
    forall i :: 0 <= i < |t| ==> t[i].Literal? ==> Plain(t[i].text)
  }

  function SubstPiece(p: Piece, k: Placeholder, v: string): Piece
  {
    if p == Token(k) then Literal(v) else p
  }

  /** The pieces after every `k` token has become the literal `v`. */
  function Subst(t: seq<Piece>, k: Placeholder, v: string): seq<Piece>
  {
    if t == [] then [] else [SubstPiece(t[0], k, v)] + Subst(t[1..], k, v)
  }

  /** `{{` never occurs where there is no pair of adjacent braces. */
  lemma {:induction false} NoDoubleBraceNotContains(s: string)
    ensures NoDoubleBrace(s) <==> !Contains(s, "{{")
  {
    if |s| >= 2 {
      NoDoubleBraceNotContains(s[1..]);
      assert "{{" <= s <==> s[0] == '{' && s[1] == '{';
      assert NoDoubleBrace(s) <==> !(s[0] == '{' && s[1] == '{') && NoDoubleBrace(s[1..]) by {
        assert forall i :: 0 <= i < |s[1..]| ==> s[1..][i] == s[i + 1];
      }
    } else if s != [] {
      assert !Contains(s[1..], "{{");
    }
  }

  /** Text without any opening brace is plain. */
  lemma NoBracePlain(s: string)
    requires '{' !in s
    ensures Plain(s)
  {
  }

  lemma PlainConcat(a: string, b: string)
    requires Plain(a) && Plain(b)
    ensures Plain(a + b)
  {
    var s := a + b;
    forall i | 0 <= i < |s| - 1
      ensures !(s[i] == '{' && s[i + 1] == '{')
    {
      if i + 1 < |a| {
        assert s[i] == a[i] && s[i + 1] == a[i + 1];
      } else if i + 1 == |a| {
        assert s[i] == a[|a| - 1];
      } else {
        assert s[i] == b[i - |a|] && s[i + 1] == b[i + 1 - |a|];
      }
    }
  }

  /** No match where the text and the pattern differ at some position. */
  lemma NoMatchAt(s: string, pat: string, rep: string, j: nat)
    requires j < |s| && j < |pat| && s[j] != pat[j]
    ensures ReplaceAll(s, pat, rep) == [s[0]] + ReplaceAll(s[1..], pat, rep)
  {
  }

  /** Text none of whose positions starts a match is passed over. */
  lemma {:induction false} PassUnmatched(pre: string, rest: string, pat: string, rep: string)
    requires pat != []
    requires forall i :: 0 <= i < |pre| ==> !(pat <= pre[i..] + rest)
    ensures ReplaceAll(pre + rest, pat, rep) == pre + ReplaceAll(rest, pat, rep)
  {
    if pre == [] {
      assert pre + rest == rest;
    } else {
      assert pre[0..] == pre;
      assert (pre + rest)[1..] == pre[1..] + rest;
      forall i | 0 <= i < |pre[1..]|
        ensures !(pat <= pre[1..][i..] + rest)
      {
        assert pre[1..][i..] == pre[i + 1..];
      }
      PassUnmatched(pre[1..], rest, pat, rep);
    }
  }

  lemma PlainTail(t: string)
    requires Plain(t) && t != []
    ensures Plain(t[1..])
  {
    assert forall i :: 0 <= i < |t[1..]| ==> t[1..][i] == t[i + 1];
  }

  /** Plain text is passed over by a replacement of a `{{`-token. */
  lemma {:induction false} PassPlain(t: string, rest: string, pat: string, rep: string)
    requires Plain(t) && |pat| >= 2 && pat[0] == '{' && pat[1] == '{'
    ensures ReplaceAll(t + rest, pat, rep) == t + ReplaceAll(rest, pat, rep)
  {
    if t == [] {
      assert t + rest == rest;
    } else {
      var s := t + rest;
      var j := if t[0] != '{' then 0 else 1;
      assert j < |t| && s[j] == t[j];
      NoMatchAt(s, pat, rep, j);
      assert s[1..] == t[1..] + rest;
      PlainTail(t);
      PassPlain(t[1..], rest, pat, rep);
      ConcatAssoc([t[0]], t[1..], ReplaceAll(rest, pat, rep));
      assert [t[0]] + t[1..] == t;
    }
  }

  /** A token in front is replaced. */
  lemma MatchToken(pat: string, rest: string, rep: string)
    requires pat != []
    ensures ReplaceAll(pat + rest, pat, rep) == rep + ReplaceAll(rest, pat, rep)
  {
    assert pat <= pat + rest;
    assert (pat + rest)[|pat|..] == rest;
  }

  /**
   * Text that differs from the pattern at some position `j >= 1` and whose
   * remainder after the first character is plain is passed over whole.
   */
  lemma SkipMismatch(tok: string, rest: string, pat: string, rep: string, j: nat)
    requires 1 <= j < |tok| && j < |pat| && pat[j] != tok[j]
    requires |pat| >= 2 && pat[0] == '{' && pat[1] == '{' && Plain(tok[1..])
    ensures ReplaceAll(tok + rest, pat, rep) == tok + ReplaceAll(rest, pat, rep)
  {
    var s := tok + rest;
    assert s[j] == tok[j];
    assert s[0] == tok[0];
    assert s[1..] == tok[1..] + rest;
    PassPlain(tok[1..], rest, pat, rep);
    ConcatAssoc([tok[0]], tok[1..], ReplaceAll(rest, pat, rep));
    assert [tok[0]] + tok[1..] == tok;
  }

  /** The tokens part ways at index 6 ({{name}} / {{nameCamelCase}}) or 2. */
  lemma TokensDiffer()
    ensures NameToken[6] != CamelCaseToken[6]
    ensures NameToken[2] != AppNameToken[2] && CamelCaseToken[2] != AppNameToken[2]
  {
  }

  lemma TokenTailsPlain()
    ensures Plain(NameToken[1..]) && Plain(CamelCaseToken[1..]) && Plain(AppNameToken[1..])
  {
  }

  /** A token of another placeholder in front is passed over whole. */
  lemma SkipOtherToken(k: Placeholder, other: Placeholder, rest: string, rep: string)
    requires k != other
    ensures ReplaceAll(TokenText(other) + rest, TokenText(k), rep)
         == TokenText(other) + ReplaceAll(rest, TokenText(k), rep)
  {
    var pat, tok := TokenText(k), TokenText(other);
    TokensDiffer();
    TokenTailsPlain();
    var j := if k != AppName && other != AppName then 6 else 2;
    SkipMismatch(tok, rest, pat, rep, j);
  }

  /** One piece in front of the rest: replacing over it is replacing in it. */
  lemma ReplacePiece(p: Piece, rest: string, k: Placeholder, v: string)
    requires p.Literal? ==> Plain(p.text)
    ensures ReplaceAll(PieceSource(p) + rest, TokenText(k), v)
         == PieceSource(SubstPiece(p, k, v)) + ReplaceAll(rest, TokenText(k), v)
  {
    match p
    case Literal(s) =>
      PassPlain(s, rest, TokenText(k), v);
    case Token(other) =>
      if other == k {
        MatchToken(TokenText(k), rest, v);
      } else {
        SkipOtherToken(k, other, rest, v);
      }
  }

  /**
   * One replacement step over a template with plain literals and a plain
   * value turns exactly the `k` tokens into the value.
   */
  lemma {:induction false} ReplaceAllPieces(t: seq<Piece>, k: Placeholder, v: string)
    requires PlainLiterals(t) && Plain(v)
    ensures ReplaceAll(Source(t), TokenText(k), v) == Source(Subst(t, k, v))
    ensures PlainLiterals(Subst(t, k, v))
  {
    if t != [] {
      ReplaceAllPieces(t[1..], k, v);
      ReplacePiece(t[0], Source(t[1..]), k, v);
      var u := Subst(t, k, v);
      assert u[0] == SubstPiece(t[0], k, v) && u[1..] == Subst(t[1..], k, v);
      assert PlainLiterals(u) by {
        assert forall i :: 1 <= i < |u| ==> u[i] == u[1..][i - 1];
      }
    }
  }

  /** Substituting all three placeholders spells the intended rendering. */
  lemma SubstCons(t: seq<Piece>, k: Placeholder, v: string)
    requires t != []
    ensures Subst(t, k, v) == [SubstPiece(t[0], k, v)] + Subst(t[1..], k, v)
  {
  }

  lemma {:induction false} SubstAllIsFill(t: seq<Piece>, name: string, camel: string, app: string)
    ensures Source(Subst(Subst(Subst(t, Name, name), NameCamelCase, camel), AppName, app))
         == Fill(t, name, camel, app)
  {
    if t != [] {
      SubstAllIsFill(t[1..], name, camel, app);
      var t1 := Subst(t, Name, name);
      var t2 := Subst(t1, NameCamelCase, camel);
      var p1 := SubstPiece(t[0], Name, name);
      var p2 := SubstPiece(p1, NameCamelCase, camel);
      var p3 := SubstPiece(p2, AppName, app);
      SubstCons(t, Name, name);
      assert t1[0] == p1 && t1[1..] == Subst(t[1..], Name, name);
      SubstCons(t1, NameCamelCase, camel);
      assert t2[0] == p2 && t2[1..] == Subst(Subst(t[1..], Name, name), NameCamelCase, camel);
      SubstCons(t2, AppName, app);
      SourceCons(p3, Subst(t2[1..], AppName, app));
      assert PieceSource(p3) == PieceValue(t[0], name, camel, app);
    }
  }

  lemma PlainCamelCase(name: string)
    requires CaseMappable(name) && Plain(name)
    ensures Plain(ToCamelCase(name))
  {
    var r := ToCamelCase(name);
    if name != [] {
      assert r[0] == '{' <==> name[0] == '{';
      forall i | 0 <= i < |r| - 1
        ensures !(r[i] == '{' && r[i + 1] == '{')
      {
        assert r[i + 1] == name[i + 1];
        if i == 0 {
          assert !(name[0] == '{' && name[1] == '{');
        } else {
          assert r[i] == name[i];
        }
      }
    }
  }

  lemma PlainCapitalized(name: string)
    requires CaseMappable(name) && Plain(name)
    ensures Plain(CapitalizeFirstLetter(name))
  {
    var r := CapitalizeFirstLetter(name);
    if name != [] {
      assert r[0] == '{' <==> name[0] == '{';
      forall i | 0 <= i < |r| - 1
        ensures !(r[i] == '{' && r[i + 1] == '{')
      {
        assert r[i + 1] == name[i + 1];
        if i == 0 {
          assert !(name[0] == '{' && name[1] == '{');
        } else {
          assert r[i] == name[i];
        }
      }
    }
  }

  /**
   * The renderer does what a template engine would: on a template whose
   * literal text is plain, with plain values, every token becomes its value
   * and all other text is kept.
   */
  lemma RenderFillsTemplate(t: seq<Piece>, name: string, app: string)
    requires PlainLiterals(t) && Plain(name) && Plain(app)
    requires CaseMappable(name) && NoDollar(name) && NoDollar(app)
    ensures ReplacePlaceholders(Source(t), name, app) == Fill(t, name, ToCamelCase(name), app)
  {
    var camel := ToCamelCase(name);
    PlainCamelCase(name);
    var t1 := Subst(t, Name, name);
    ReplaceAllPieces(t, Name, name);
    var t2 := Subst(t1, NameCamelCase, camel);
    ReplaceAllPieces(t1, NameCamelCase, camel);
    ReplaceAllPieces(t2, AppName, app);
    SubstAllIsFill(t, name, camel, app);
  }

  lemma {:induction false} FillPlain(t: seq<Piece>, name: string, camel: string, app: string)
    requires PlainLiterals(t) && Plain(name) && Plain(camel) && Plain(app)
    ensures Plain(Fill(t, name, camel, app))
  {
    if t != [] {
      PlainLiteralsTail(t);
      FillPlain(t[1..], name, camel, app);
      var head := PieceValue(t[0], name, camel, app);
      assert Plain(head) by {
        match t[0]
        case Literal(_) =>
        case Token(k) => assert head == Value(k, name, camel, app);
      }
      PlainConcat(head, Fill(t[1..], name, camel, app));
    }
  }

  lemma PlainLiteralsTail(t: seq<Piece>)
    requires PlainLiterals(t) && t != []
    ensures PlainLiterals(t[1..]) && (t[0].Literal? ==> Plain(t[0].text))
  {
    assert forall i :: 0 <= i < |t[1..]| ==> t[1..][i] == t[i + 1];
  }

  /**
   * Under the same conditions no placeholder token, and no `{{` at all,
   * survives rendering.
   */
  lemma RenderLeavesNoToken(t: seq<Piece>, name: string, app: string)
    requires PlainLiterals(t) && Plain(name) && Plain(app)
    requires CaseMappable(name) && NoDollar(name) && NoDollar(app)
    ensures var r := ReplacePlaceholders(Source(t), name, app);
      !Contains(r, "{{") && !Contains(r, NameToken) && !Contains(r, CamelCaseToken) && !Contains(r, AppNameToken)
  {
    var r := ReplacePlaceholders(Source(t), name, app);
    RenderFillsTemplate(t, name, app);
    PlainCamelCase(name);
    FillPlain(t, name, ToCamelCase(name), app);
    NoDoubleBraceNotContains(r);
    NoTokenWithoutBraces(r);
  }

  /** The `{{name}}` pass alone turns `{{n{{name}}e}}` into `{{name}}` for the value `am`. */
  lemma FirstStepSpellsToken(content: string, name: string)
    requires content == "{{n" + NameToken + "e}}" && name == "am"
    ensures ReplaceAll(content, NameToken, name) == NameToken
  {
    var tail := NameToken + "e}}";
    assert |NameToken| == 8 && |tail| == 11 && |content| == 14;
    var s1 := content[1..];
    var s2 := s1[1..];
    assert s2[1..] == tail;
    NoMatchAt(content, NameToken, name, 3);
    NoMatchAt(s1, NameToken, name, 1);
    NoMatchAt(s2, NameToken, name, 0);
    MatchToken(NameToken, "e}}", name);
    assert Plain("e}}");
    PassPlain("e}}", [], NameToken, name);
    ConcatEmpty("e}}");
    var c0, c1, c2 := content[0], s1[0], s2[0];
    assert c0 == '{' && c1 == '{' && c2 == 'n';
    assert [c0] + ([c1] + ([c2] + (name + "e}}"))) == NameToken;
  }

  /**
   * Values free of `{{` do not by themselves keep tokens out of the result:
   * replacing the inner token of `{{n{{name}}e}}` by `am` spells a new one.
   */
  lemma TokenCanReappear(content: string, name: string, app: string)
    requires content == "{{n" + NameToken + "e}}" && name == "am" && app == "x"
    ensures !Contains(name, "{{") && !Contains(app, "{{")
    ensures ReplacePlaceholders(content, name, app) == NameToken
    ensures Contains(ReplacePlaceholders(content, name, app), NameToken)
  {
    NoDoubleBraceNotContains(name);
    NoDoubleBraceNotContains(app);
    FirstStepSpellsToken(content, name);
    assert ToCamelCase(name) == name;
    ConcatEmpty(NameToken);
    SkipOtherToken(NameCamelCase, Name, [], name);
    SkipOtherToken(AppName, Name, [], app);
    assert NameToken <= NameToken;
  }

  // ---------------------------------------------------------------------
  // templates/serviceImpl.java, lines 1 and 12 (with its line break).
  // ---------------------------------------------------------------------

  lemma SourceCons(p: Piece, t: seq<Piece>)
    ensures Source([p] + t) == PieceSource(p) + Source(t)
  {
    assert ([p] + t)[1..] == t;
  }

  lemma FillCons(p: Piece, t: seq<Piece>, name: string, camel: string, app: string)
    ensures Fill([p] + t, name, camel, app)
         == PieceValue(p, name, camel, app) + Fill(t, name, camel, app)
  {
    assert ([p] + t)[1..] == t;
  }

  lemma PlainLiteralsCons(p: Piece, t: seq<Piece>)
    requires (p.Literal? ==> Plain(p.text)) && PlainLiterals(t)
    ensures PlainLiterals([p] + t)
  {
    var u := [p] + t;
    assert forall i :: 1 <= i < |u| ==> u[i] == t[i - 1];
  }

  /** A line with one token between plain text: the token becomes its value. */
  lemma RenderOneToken(pre: string, k: Placeholder, post: string, name: string, app: string)
    requires Plain(pre) && Plain(post) && Plain(name) && Plain(app)
    requires CaseMappable(name) && NoDollar(name) && NoDollar(app)
    ensures ReplacePlaceholders(pre + TokenText(k) + post, name, app)
         == pre + Value(k, name, ToCamelCase(name), app) + post
  {
    var camel := ToCamelCase(name);
    var t2 := [Literal(post)] + [];
    var t1 := [Token(k)] + t2;
    var t := [Literal(pre)] + t1;
    SourceCons(Literal(post), []);
    SourceCons(Token(k), t2);
    SourceCons(Literal(pre), t1);
    FillCons(Literal(post), [], name, camel, app);
    FillCons(Token(k), t2, name, camel, app);
    FillCons(Literal(pre), t1, name, camel, app);
    PlainLiteralsCons(Literal(post), []);
    PlainLiteralsCons(Token(k), t2);
    PlainLiteralsCons(Literal(pre), t1);
    ConcatEmpty(post);
    ConcatAssoc(pre, TokenText(k), post);
    ConcatAssoc(pre, Value(k, name, camel, app), post);
    RenderFillsTemplate(t, name, app);
  }

  /** A line with two tokens between plain text. */
  lemma RenderTwoTokens(pre: string, k1: Placeholder, mid: string, k2: Placeholder, post: string,
                        name: string, app: string)
    requires Plain(pre) && Plain(mid) && Plain(post) && Plain(name) && Plain(app)
    requires CaseMappable(name) && NoDollar(name) && NoDollar(app)
    ensures var camel := ToCamelCase(name);
      ReplacePlaceholders(pre + TokenText(k1) + mid + TokenText(k2) + post, name, app)
        == pre + Value(k1, name, camel, app) + mid + Value(k2, name, camel, app) + post
  {
    var camel := ToCamelCase(name);
    var t4 := [Literal(post)] + [];
    var t3 := [Token(k2)] + t4;
    var t2 := [Literal(mid)] + t3;
    var t1 := [Token(k1)] + t2;
    var t := [Literal(pre)] + t1;
    SourceCons(Literal(post), []);
    SourceCons(Token(k2), t4);
    SourceCons(Literal(mid), t3);
    SourceCons(Token(k1), t2);
    SourceCons(Literal(pre), t1);
    FillCons(Literal(post), [], name, camel, app);
    FillCons(Token(k2), t4, name, camel, app);
    FillCons(Literal(mid), t3, name, camel, app);
    FillCons(Token(k1), t2, name, camel, app);
    FillCons(Literal(pre), t1, name, camel, app);
    PlainLiteralsCons(Literal(post), []);
    PlainLiteralsCons(Token(k2), t4);
    PlainLiteralsCons(Literal(mid), t3);
    PlainLiteralsCons(Token(k1), t2);
    PlainLiteralsCons(Literal(pre), t1);
    ConcatEmpty(post);
    var tok2, val2 := TokenText(k2), Value(k2, name, camel, app);
    var tok1, val1 := TokenText(k1), Value(k1, name, camel, app);
    ConcatAssoc(mid, tok2, post);
    ConcatAssoc(tok1, mid + tok2, post);
    ConcatAssoc(tok1, mid, tok2);
    ConcatAssoc(pre, tok1 + mid + tok2, post);
    ConcatAssoc(pre, tok1 + mid, tok2);
    ConcatAssoc(pre, tok1, mid);
    ConcatAssoc(val1, mid, val2);
    ConcatAssoc(mid, val2, post);
    ConcatAssoc(val1, mid + val2, post);
    ConcatAssoc(pre, val1 + mid + val2, post);
    ConcatAssoc(pre, val1 + mid, val2);
    ConcatAssoc(pre, val1, mid);
    RenderFillsTemplate(t, name, app);
  }

  lemma PackageLineTextPlain()
    ensures Plain("package ") && Plain(".service.impl;")
  {
  }

  lemma ClassLineTextPlain()
    ensures Plain("public class ") && Plain("ServiceImpl implements ") && Plain("Service {\n")
  {
  }
}
