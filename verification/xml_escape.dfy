/** `escapeXml` of utils/export.ts:132-142: the five characters that XML
    reserves are written as the predefined entities of section 4.6 of the
    XML 1.0 recommendation, everything else is copied. */
module XmlEscape {
  import opened Base

  /** The characters the regular expression `/[<>&'"]/g` matches. */
  predicate Reserved(c: char) {
    c == '<' || c == '>' || c == '&' || c == '\'' || c == '"'
  }

  /** The characters that may not appear in escaped text: `&` stays, as the
      first character of an entity. */
  predicate Markup(c: char) {
    c == '<' || c == '>' || c == '\'' || c == '"'
  }

  /** The replacement callback (utils/export.ts:133-141). */
  function EscapeChar(c: char): (r: string)
    ensures |r| >= 1
    ensures Reserved(c) <==> |r| > 1
    ensures !Reserved(c) ==> r == [c]
    ensures forall i :: 0 <= i < |r| ==> !Markup(r[i])
    ensures r[0] == if Reserved(c) then '&' else c
  {
    match c
    case '<' => "&lt;"
    case '>' => "&gt;"
    case '&' => "&amp;"
    case '\'' => "&apos;"
    case '"' => "&quot;"
    case _ => [c]
  }

  /** `escapeXml(unsafe)`: every character replaced by its escape. */
  function EscapeXml(s: string): string
    decreases |s|
  {
    if s == [] then [] else EscapeChar(s[0]) + EscapeXml(s[1..])
  }

  /** The escaped text never holds `<`, `>`, `'` or `"`. */
  lemma {:induction false} EscapeXmlHasNoMarkup(s: string)
    ensures forall i :: 0 <= i < |EscapeXml(s)| ==> !Markup(EscapeXml(s)[i])
    decreases |s|
  {
    if s != [] {
      EscapeXmlHasNoMarkup(s[1..]);
      var e, rest := EscapeChar(s[0]), EscapeXml(s[1..]);
      assert forall i :: |e| <= i < |e + rest| ==> (e + rest)[i] == rest[i - |e|];
    }
  }

  /** Escaping never shortens the text, and leaves it unchanged exactly
      when it holds none of the five reserved characters. */
  lemma {:induction false} EscapeXmlIdentity(s: string)
    ensures |EscapeXml(s)| >= |s|
    ensures |EscapeXml(s)| == |s| <==> forall i :: 0 <= i < |s| ==> !Reserved(s[i])
    ensures EscapeXml(s) == s <==> forall i :: 0 <= i < |s| ==> !Reserved(s[i])
    decreases |s|
  {
    if s != [] {
      EscapeXmlIdentity(s[1..]);
      assert forall i :: 1 <= i < |s| ==> s[i] == s[1..][i - 1];
      assert s == [s[0]] + s[1..];
    }
  }

  /** Escaping works character by character, so it distributes over
      concatenation. */
  lemma {:induction false} EscapeXmlAppend(a: string, b: string)
    ensures EscapeXml(a + b) == EscapeXml(a) + EscapeXml(b)
    decreases |a|
  {
    if a != [] {
      assert (a + b)[1..] == a[1..] + b;
      EscapeXmlAppend(a[1..], b);
    } else {
      assert a + b == b;
    }
  }

  /** Entity replacement as an XML processor performs it for the five
      predefined entities: each `&lt;`, `&gt;`, `&amp;`, `&apos;` and
      `&quot;` read left to right becomes its character, every other
      character is copied. */
  function Unescape(s: string): (r: string)
    ensures |r| <= |s|
    decreases |s|
  {
    if s == [] then []
    else if StartsWith(s, "&lt;") then "<" + Unescape(s[4..])
    else if StartsWith(s, "&gt;") then ">" + Unescape(s[4..])
    else if StartsWith(s, "&amp;") then "&" + Unescape(s[5..])
    else if StartsWith(s, "&apos;") then "'" + Unescape(s[6..])
    else if StartsWith(s, "&quot;") then "\"" + Unescape(s[6..])
    else [s[0]] + Unescape(s[1..])
  }

  /** Reading one escaped character back yields that character. */
  lemma UnescapeChar(c: char, t: string)
    ensures Unescape(EscapeChar(c) + t) == [c] + Unescape(t)
  {
    match c
    case '<' => UnescapeLt(t);
    case '>' => UnescapeGt(t);
    case '&' => UnescapeAmp(t);
    case '\'' => UnescapeApos(t);
    case '"' => UnescapeQuot(t);
    case _ => UnescapeOther(c, t);
  }

  lemma UnescapeLt(t: string)
    ensures Unescape("&lt;" + t) == "<" + Unescape(t)
  {
    var s := "&lt;" + t;
    assert s[..4] == "&lt;" && s[4..] == t;
  }

  lemma UnescapeGt(t: string)
    ensures Unescape("&gt;" + t) == ">" + Unescape(t)
  {
    var s := "&gt;" + t;
    assert s[1] == 'g';
    assert s[..4] == "&gt;" && s[4..] == t;
  }

  lemma UnescapeAmp(t: string)
    ensures Unescape("&amp;" + t) == "&" + Unescape(t)
  {
    var s := "&amp;" + t;
    assert s[1] == 'a';
    assert s[..5] == "&amp;" && s[5..] == t;
  }

  lemma UnescapeApos(t: string)
    ensures Unescape("&apos;" + t) == "'" + Unescape(t)
  {
    var s := "&apos;" + t;
    assert s[..6] == "&apos;" && s[6..] == t;
    assert s[1] == 'a' && s[2] == 'p';
    assert !StartsWith(s, "&lt;") by { assert s[..4][1] != "&lt;"[1]; }
    assert !StartsWith(s, "&gt;") by { assert s[..4][1] != "&gt;"[1]; }
    assert !StartsWith(s, "&amp;") by { assert s[..5][2] != "&amp;"[2]; }
  }

  lemma UnescapeQuot(t: string)
    ensures Unescape("&quot;" + t) == "\"" + Unescape(t)
  {
    var s := "&quot;" + t;
    assert s[..6] == "&quot;" && s[6..] == t;
    assert s[1] == 'q';
    assert !StartsWith(s, "&lt;") by { assert s[..4][1] != "&lt;"[1]; }
    assert !StartsWith(s, "&gt;") by { assert s[..4][1] != "&gt;"[1]; }
    assert !StartsWith(s, "&amp;") by { assert s[..5][1] != "&amp;"[1]; }
    assert !StartsWith(s, "&apos;") by { assert s[..6][1] != "&apos;"[1]; }
  }

  lemma UnescapeOther(c: char, t: string)
    requires !Reserved(c)
    ensures Unescape([c] + t) == [c] + Unescape(t)
  {
    var s := [c] + t;
    assert s[0] == c && s[1..] == t;
    assert !StartsWith(s, "&lt;") && !StartsWith(s, "&gt;") by {
      assert |s| >= 4 ==> s[..4][0] == c;
    }
    assert !StartsWith(s, "&amp;") by { assert |s| >= 5 ==> s[..5][0] == c; }
    assert !StartsWith(s, "&apos;") && !StartsWith(s, "&quot;") by {
      assert |s| >= 6 ==> s[..6][0] == c;
    }
  }

  /** Replacing the five entities in the output of `escapeXml` gives back
      the original text: escaping loses nothing. */
  lemma {:induction false} UnescapeEscape(s: string)
    ensures Unescape(EscapeXml(s)) == s
    decreases |s|
  {
    if s != [] {
      UnescapeEscape(s[1..]);
      UnescapeChar(s[0], EscapeXml(s[1..]));
      assert [s[0]] + s[1..] == s;
    }
  }

  /** Hence two texts with the same escape are the same text. */
  lemma EscapeXmlInjective(a: string, b: string)
    ensures EscapeXml(a) == EscapeXml(b) <==> a == b
  {
    UnescapeEscape(a);
    UnescapeEscape(b);
  }

  /** The number of `<` characters: one per tag in a well-formed page. */
  function Tags(s: string): nat
    decreases |s|
  {
    if s == [] then 0 else Tags(s[..|s| - 1]) + (if s[|s| - 1] == '<' then 1 else 0)
  }

  lemma {:induction false} TagsAppend(a: string, b: string)
    ensures Tags(a + b) == Tags(a) + Tags(b)
    decreases |b|
  {
    if b == [] {
      assert a + b == a;
    } else {
      assert (a + b)[..|a + b| - 1] == a + b[..|b| - 1];
      TagsAppend(a, b[..|b| - 1]);
    }
  }

  /** Escaped text opens no tag. */
  lemma {:induction false} EscapedHasNoTags(s: string)
    ensures Tags(EscapeXml(s)) == 0
  {
    EscapeXmlHasNoMarkup(s);
    NoLessThanNoTags(EscapeXml(s));
  }

  lemma {:induction false} NoLessThanNoTags(s: string)
    requires forall i :: 0 <= i < |s| ==> s[i] != '<'
    ensures Tags(s) == 0
    decreases |s|
  {
    if s != [] {
      NoLessThanNoTags(s[..|s| - 1]);
    }
  }
}
