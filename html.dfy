/** `escapeHtml` of the generator: five global replacements, `&` first. */
module Html {
  import opened Text

  /** The five characters the escaper rewrites. */
  predicate Reserved(c: char) {
    c == '&' || c == '<' || c == '>' || c == '"' || c == '\''
  }

  ghost predicate NoReserved(s: string) {
    forall i :: 0 <= i < |s| ==> !Reserved(s[i])
  }

  /** Text that can neither open or close a tag nor end a quoted attribute value. */
  ghost predicate MarkupSafe(s: string) {
    '<' !in s && '>' !in s && '"' !in s && '\'' !in s
  }

  /** The characters of the entities the later steps introduce. */
  lemma EntityCharacters()
    ensures '<' !in "&lt;" && '<' !in "&gt;" && '<' !in "&quot;" && '<' !in "&#039;"
    ensures '>' !in "&gt;" && '>' !in "&quot;" && '>' !in "&#039;"
    ensures '"' !in "&quot;" && '"' !in "&#039;"
    ensures '\'' !in "&#039;"
  {
    assert "&lt;" == ['&', 'l', 't', ';'];
    assert "&gt;" == ['&', 'g', 't', ';'];
    assert "&quot;" == ['&', 'q', 'u', 'o', 't', ';'];
    assert "&#039;" == ['&', '#', '0', '3', '9', ';'];
  }

  /** The replacement chain, in the order the source applies it. */
  function EscapeHtml(s: string): (r: string)
    ensures MarkupSafe(r)
    ensures NoReserved(s) ==> r == s
  {
    var amp := ReplaceAll(s, '&', "&amp;");
    var lt := ReplaceAll(amp, '<', "&lt;");
    var gt := ReplaceAll(lt, '>', "&gt;");
    var quot := ReplaceAll(gt, '"', "&quot;");
    EntityCharacters();
    ReplaceAllExcludes(lt, '>', "&gt;", '<');
    ReplaceAllExcludes(gt, '"', "&quot;", '<');
    ReplaceAllExcludes(quot, '\'', "&#039;", '<');
    ReplaceAllExcludes(gt, '"', "&quot;", '>');
    ReplaceAllExcludes(quot, '\'', "&#039;", '>');
    ReplaceAllExcludes(quot, '\'', "&#039;", '"');
    ReplaceAll(quot, '\'', "&#039;")
  }

  /** The entity one character stands for, or the character itself. */
  function EscapeChar(c: char): (r: string)
    ensures Reserved(c) <==> r != [c]
  {
    match c
    case '&' => "&amp;"
    case '<' => "&lt;"
    case '>' => "&gt;"
    case '"' => "&quot;"
    case '\'' => "&#039;"
    case _ => [c]
  }

  /** Escaping as a per-character map, the reference the chain is compared with. */
  function EscapeEach(s: string): string {
    if s == [] then [] else EscapeChar(s[0]) + EscapeEach(s[1..])
  }

  /** Decodes the five entities the escaper produces, left to right. */
  function Unescape(s: string): string
    decreases |s|
  {
    if s == [] then []
    else if "&amp;" <= s then "&" + Unescape(s[5..])
    else if "&lt;" <= s then "<" + Unescape(s[4..])
    else if "&gt;" <= s then ">" + Unescape(s[4..])
    else if "&quot;" <= s then "\"" + Unescape(s[6..])
    else if "&#039;" <= s then "'" + Unescape(s[6..])
    else [s[0]] + Unescape(s[1..])
  }

  lemma EscapeHtmlAppend(a: string, b: string)
    ensures EscapeHtml(a + b) == EscapeHtml(a) + EscapeHtml(b)
  {
    var amp, amp' := ReplaceAll(a, '&', "&amp;"), ReplaceAll(b, '&', "&amp;");
    ReplaceAllAppend(a, b, '&', "&amp;");
    var lt, lt' := ReplaceAll(amp, '<', "&lt;"), ReplaceAll(amp', '<', "&lt;");
    ReplaceAllAppend(amp, amp', '<', "&lt;");
    var gt, gt' := ReplaceAll(lt, '>', "&gt;"), ReplaceAll(lt', '>', "&gt;");
    ReplaceAllAppend(lt, lt', '>', "&gt;");
    var quot, quot' := ReplaceAll(gt, '"', "&quot;"), ReplaceAll(gt', '"', "&quot;");
    ReplaceAllAppend(gt, gt', '"', "&quot;");
    ReplaceAllAppend(quot, quot', '\'', "&#039;");
  }

  lemma ReplaceAllOne(c: char, target: char, replacement: string)
    ensures ReplaceAll([c], target, replacement) == if c == target then replacement else [c]
  {
    assert [c][1..] == [];
  }

  /** On one character the chain yields exactly that character's entity:
      no later step touches an entity an earlier step introduced. */
  lemma EscapeHtmlChar(c: char)
    ensures EscapeHtml([c]) == EscapeChar(c)
  {
    if !Reserved(c) {
      assert NoReserved([c]);
    } else {
      // the steps before c's own leave [c] alone, c's step yields its entity,
      // and the entity holds none of the characters the later steps replace
      ReplaceAllOne(c, '&', "&amp;");
      if c != '&' { ReplaceAllOne(c, '<', "&lt;"); }
      if c != '&' && c != '<' { ReplaceAllOne(c, '>', "&gt;"); }
      if c == '"' || c == '\'' { ReplaceAllOne(c, '"', "&quot;"); }
      if c == '\'' { ReplaceAllOne(c, '\'', "&#039;"); }
      var e := EscapeChar(c);
      assert c != '\'' ==> '\'' !in e;
      assert c != '"' && c != '\'' ==> '"' !in e;
      assert c == '&' || c == '<' ==> '>' !in e;
      assert c == '&' ==> '<' !in e;
    }
  }

  /** The five sequential replacements equal the per-character map. */
  lemma {:induction false} EscapeHtmlIsPerCharacter(s: string)
    ensures EscapeHtml(s) == EscapeEach(s)
  {
    if s != [] {
      assert s == [s[0]] + s[1..];
      EscapeHtmlAppend([s[0]], s[1..]);
      EscapeHtmlChar(s[0]);
      EscapeHtmlIsPerCharacter(s[1..]);
    }
  }

  lemma UnescapeEntity(c: char, t: string)
    ensures Unescape(EscapeChar(c) + t) == [c] + Unescape(t)
  {
    var s := EscapeChar(c) + t;
    if !Reserved(c) {
      assert s[0] == c && s[1..] == t;
    } else {
      assert s[1] == EscapeChar(c)[1];
      assert s[|EscapeChar(c)|..] == t;
    }
  }

  lemma {:induction false} UnescapeEscapeEach(s: string)
    ensures Unescape(EscapeEach(s)) == s
  {
    if s != [] {
      UnescapeEntity(s[0], EscapeEach(s[1..]));
      UnescapeEscapeEach(s[1..]);
    }
  }

  /** Escaping loses nothing: decoding the five entities gives the input
      back, so distinct inputs never escape to the same text. */
  lemma EscapeHtmlRoundTrip(s: string)
    ensures Unescape(EscapeHtml(s)) == s
  {
    EscapeHtmlIsPerCharacter(s);
    UnescapeEscapeEach(s);
  }

  lemma {:induction false} EscapeEachGrows(s: string)
    ensures |EscapeEach(s)| >= |s|
    ensures NoReserved(s) || (|EscapeEach(s)| > |s| && '&' in EscapeEach(s))
  {
    if s != [] {
      EscapeEachGrows(s[1..]);
      var head := EscapeChar(s[0]);
      assert EscapeEach(s) == head + EscapeEach(s[1..]);
      if Reserved(s[0]) {
        assert head[0] == '&';
        assert EscapeEach(s)[0] == '&';
      } else if !NoReserved(s) {
        var i :| 0 <= i < |s| && Reserved(s[i]);
        assert s[1..][i - 1] == s[i];
        assert '&' in EscapeEach(s[1..]);
      }
    }
  }

  /** The escaper leaves a string unchanged exactly when it holds none of
      the five reserved characters. */
  lemma EscapeHtmlFixedPoint(s: string)
    ensures EscapeHtml(s) == s <==> NoReserved(s)
  {
    EscapeHtmlIsPerCharacter(s);
    EscapeEachGrows(s);
  }

  /** Not idempotent: escaping twice equals escaping once only for text
      that had nothing to escape; otherwise the `&` of each entity is
      escaped again. */
  lemma EscapeHtmlTwice(s: string)
    ensures EscapeHtml(EscapeHtml(s)) == EscapeHtml(s) <==> NoReserved(s)
  {
    var e := EscapeHtml(s);
    EscapeHtmlFixedPoint(e);
    if !NoReserved(s) {
      EscapeHtmlIsPerCharacter(s);
      EscapeEachGrows(s);
      var i :| 0 <= i < |e| && e[i] == '&';
      assert Reserved(e[i]);
    }
  }

  lemma EscapeHtmlOfAmpEntity(e: string)
    requires e == "&amp;"
    ensures EscapeHtml(e) == "&amp;amp;"
  {
    var rest := e[1..];
    assert e + rest == "&amp;amp;";
    assert e == ['&'] + rest;
    EscapeHtmlFixedPoint(rest);
    assert NoReserved(rest);
    EscapeHtmlChar('&');
    EscapeHtmlAppend(['&'], rest);
    assert EscapeHtml(e) == e + rest;
  }

  /** The concrete case: `&` escapes to `&amp;`, which escapes to `&amp;amp;`. */
  lemma EscapeHtmlAmpersandTwice(s: string)
    requires s == "&"
    ensures EscapeHtml(s) == "&amp;"
    ensures EscapeHtml(EscapeHtml(s)) == "&amp;amp;"
  {
    EscapeHtmlChar('&');
    assert s == ['&'];
    EscapeHtmlOfAmpEntity(EscapeHtml(s));
  }
}
