/** Writing text into libvirt XML and reading it back, both by chains of replacements. */
module XmlText {
  import opened Basics

  // --- The string operations --------------------------------------------------------------

  predicate StartsWith(text: string, pattern: string) {
    |pattern| <= |text| && text[..|pattern|] == pattern
  }

  /** Replace the occurrences of a pattern, leftmost first and without overlap. */
  function Replace(text: string, pattern: string, replacement: string): string
    requires pattern != ""
  {
    if text == "" then ""
    else if StartsWith(text, pattern) then replacement + Replace(text[|pattern|..], pattern, replacement)
    else [text[0]] + Replace(text[1..], pattern, replacement)
  }

  /** The position of the first occurrence of a pattern. */
  function Find(text: string, pattern: string): (at: Option<nat>)
    ensures at.Some? ==> at.value + |pattern| <= |text|
  {
    if StartsWith(text, pattern) then Some(0)
    else if text == "" then None
    else
      var rest := Find(text[1..], pattern);
      if rest.Some? then Some(rest.value + 1) else None
  }

  lemma {:induction false} FindIsFirst(text: string, pattern: string, at: nat)
    requires at <= |text| && StartsWith(text[at..], pattern)
    requires forall i | 0 <= i < at :: !StartsWith(text[i..], pattern)
    ensures Find(text, pattern) == Some(at)
  {
    assert text[0..] == text;
    if at > 0 {
      assert forall i | 0 <= i <= at - 1 :: text[1..][i..] == text[i + 1..];
      FindIsFirst(text[1..], pattern, at - 1);
    }
  }

  // --- xml_escape and xml_tag ----------------------------------------------------------------

  function XmlEscape(value: string): string {
    var amp := Replace(value, "&", "&amp;");
    var lt := Replace(amp, "<", "&lt;");
    var gt := Replace(lt, ">", "&gt;");
    var quot := Replace(gt, "\"", "&quot;");
    Replace(quot, "'", "&apos;")
  }

  function Unescape(text: string): string {
    var lt := Replace(text, "&lt;", "<");
    var gt := Replace(lt, "&gt;", ">");
    var quot := Replace(gt, "&quot;", "\"");
    var apos := Replace(quot, "&apos;", "'");
    Replace(apos, "&amp;", "&")
  }

  function StartMarker(tag: string): string {
    "<" + tag + ">"
  }

  function EndMarker(tag: string): string {
    "</" + tag + ">"
  }

  /** The text between the first start marker and the next end marker. */
  function TagText(xml: string, tag: string): Option<string> {
    var found := Find(xml, StartMarker(tag));
    if found.None? then None
    else
      var start := found.value + |StartMarker(tag)|;
      var end := Find(xml[start..], EndMarker(tag));
      if end.None? then None else Some(xml[start..start + end.value])
  }

  function XmlTag(xml: string, tag: string): Option<string> {
    var text := TagText(xml, tag);
    if text.None? then None else Some(Unescape(text.value))
  }

  // --- Texts as sequences of tokens -------------------------------------------------------------

  predicate Special(c: char) {
    c in "&<>\"'"
  }

  function Entity(c: char): string
    requires Special(c)
  {
    match c
    case '&' => "&amp;"
    case '<' => "&lt;"
    case '>' => "&gt;"
    case '"' => "&quot;"
    case _ => "&apos;"
  }

  /** A text in which the characters of `entities` are written as entities, the others plainly. */
  function Encoded(s: string, entities: set<char>): string
    requires forall c <- entities :: Special(c)
  {
    if s == "" then "" else Token(s[0], entities) + Encoded(s[1..], entities)
  }

  function Token(c: char, entities: set<char>): string
    requires forall e <- entities :: Special(e)
  {
    if c in entities then Entity(c) else [c]
  }

  /** Text in which the pattern cannot begin is passed over. */
  lemma {:induction false} ReplacePasses(plain: string, rest: string, pattern: string, replacement: string)
    requires pattern != "" && pattern[0] !in plain
    ensures Replace(plain + rest, pattern, replacement) == plain + Replace(rest, pattern, replacement)
  {
    if plain == "" {
      assert plain + rest == rest;
    } else {
      ReplacePasses(plain[1..], rest, pattern, replacement);
      NoMatch(plain, rest, pattern, 0);
      assert (plain + rest)[1..] == plain[1..] + rest;
      assert plain == [plain[0]] + plain[1..];
    }
  }

  lemma EntityShape(c: char)
    requires Special(c)
    ensures |Entity(c)| >= 4 && Entity(c)[0] == '&' && '&' !in Entity(c)[1..]
  {
  }

  lemma EntitiesDiffer(c: char, d: char)
    requires Special(c) && Special(d) && c != d
    ensures |Entity(c)| >= 4 && |Entity(d)| >= 4
    ensures Entity(c)[1] != Entity(d)[1] || Entity(c)[2] != Entity(d)[2]
  {
  }

  lemma {:induction false} NoMatch(token: string, rest: string, pattern: string, k: nat)
    requires k < |token| && k < |pattern| && token[k] != pattern[k]
    ensures !StartsWith(token + rest, pattern)
  {
    assert |pattern| <= |token + rest| ==> (token + rest)[..|pattern|][k] == token[k];
  }

  /** A token that begins like the pattern but differs from it is passed over. */
  lemma {:induction false} TokenPasses(token: string, rest: string, pattern: string, replacement: string, k: nat)
    requires k < |token| && k < |pattern| && token[k] != pattern[k] && pattern[0] !in token[1..]
    ensures Replace(token + rest, pattern, replacement) == token + Replace(rest, pattern, replacement)
  {
    NoMatch(token, rest, pattern, k);
    ReplacePasses(token[1..], rest, pattern, replacement);
    assert (token + rest)[1..] == token[1..] + rest;
    assert token == [token[0]] + token[1..];
  }

  /** The pattern itself is replaced. */
  lemma {:induction false} PatternReplaced(rest: string, pattern: string, replacement: string)
    requires pattern != ""
    ensures Replace(pattern + rest, pattern, replacement) == replacement + Replace(rest, pattern, replacement)
  {
    assert (pattern + rest)[..|pattern|] == pattern;
    assert (pattern + rest)[|pattern|..] == rest;
  }

  /** An entity that is not the pattern is passed over. */
  lemma EntityPasses(c: char, d: char, rest: string, replacement: string)
    requires Special(c) && Special(d) && c != d && Entity(d) != ""
    ensures Replace(Entity(c) + rest, Entity(d), replacement) == Entity(c) + Replace(rest, Entity(d), replacement)
  {
    EntityShape(c);
    EntityShape(d);
    EntitiesDiffer(c, d);
    var k := if Entity(c)[1] != Entity(d)[1] then 1 else 2;
    TokenPasses(Entity(c), rest, Entity(d), replacement, k);
  }

  /** Replacing a plain character by its entity, none of whose characters is replaced. */
  lemma {:induction false} EscapeOne(s: string, entities: set<char>, c: char)
    requires (forall e <- entities :: Special(e)) && Special(c) && c !in entities
    requires c == '&' ==> entities == {}
    ensures Replace(Encoded(s, entities), [c], Entity(c)) == Encoded(s, entities + {c})
  {
    if s != "" {
      EscapeOne(s[1..], entities, c);
      EscapeToken(s[0], Encoded(s[1..], entities), entities, c);
    }
  }

  lemma EscapeToken(head: char, rest: string, entities: set<char>, c: char)
    requires (forall e <- entities :: Special(e)) && Special(c) && c !in entities
    requires c == '&' ==> entities == {}
    ensures Replace(Token(head, entities) + rest, [c], Entity(c))
            == Token(head, entities + {c}) + Replace(rest, [c], Entity(c))
  {
    if head == c {
      PatternReplaced(rest, [c], Entity(c));
    } else {
      assert c !in Token(head, entities);
      ReplacePasses(Token(head, entities), rest, [c], Entity(c));
    }
  }

  /** Replacing an entity by its plain character; only `&` brings in a character that
      starts entities, and it comes last. */
  lemma {:induction false} UnescapeOne(s: string, entities: set<char>, c: char)
    requires (forall e <- entities :: Special(e)) && c in entities && '&' in entities
    ensures Replace(Encoded(s, entities), Entity(c), [c]) == Encoded(s, entities - {c})
  {
    if s != "" {
      UnescapeOne(s[1..], entities, c);
      UnescapeToken(s[0], Encoded(s[1..], entities), entities, c);
    }
  }

  lemma UnescapeToken(head: char, rest: string, entities: set<char>, c: char)
    requires (forall e <- entities :: Special(e)) && c in entities && '&' in entities && Entity(c) != ""
    ensures Replace(Token(head, entities) + rest, Entity(c), [c])
            == Token(head, entities - {c}) + Replace(rest, Entity(c), [c])
  {
    if head == c {
      PatternReplaced(rest, Entity(c), [c]);
    } else if head in entities {
      EntityPasses(head, c, rest, [c]);
    } else {
      EntityShape(c);
      ReplacePasses([head], rest, Entity(c), [c]);
    }
  }

  lemma {:induction false} EncodedWithNone(s: string)
    ensures Encoded(s, {}) == s
  {
    if s != "" {
      EncodedWithNone(s[1..]);
      assert s == [s[0]] + s[1..];
    }
  }

  const ALL: set<char> := {'&', '<', '>', '"', '\''}

  const NO_APOS: set<char> := ALL - {'\''}
  const NO_QUOT: set<char> := NO_APOS - {'"'}
  const NO_GT: set<char> := NO_QUOT - {'>'}

  lemma EscapeEncodesAll(s: string)
    ensures XmlEscape(s) == Encoded(s, ALL)
  {
    EncodedWithNone(s);
    EscapeStep(s, {}, '&', {'&'});
    EscapeStep(s, {'&'}, '<', NO_GT);
    EscapeStep(s, NO_GT, '>', NO_QUOT);
    EscapeStep(s, NO_QUOT, '"', NO_APOS);
    EscapeStep(s, NO_APOS, '\'', ALL);
  }

  lemma EscapeStep(s: string, entities: set<char>, c: char, more: set<char>)
    requires (forall e <- entities :: Special(e)) && Special(c) && c !in entities
    requires more == entities + {c} && (c == '&' ==> entities == {})
    ensures forall e <- more :: Special(e)
    ensures Replace(Encoded(s, entities), [c], Entity(c)) == Encoded(s, more)
  {
    EscapeOne(s, entities, c);
  }

  lemma {:induction false} EncodedConcat(s: string, t: string, entities: set<char>)
    requires forall e <- entities :: Special(e)
    ensures Encoded(s + t, entities) == Encoded(s, entities) + Encoded(t, entities)
  {
    if s == "" {
      assert s + t == t;
    } else {
      assert (s + t)[1..] == s[1..] + t;
      EncodedConcat(s[1..], t, entities);
    }
  }

  /** Texts are escaped piece by piece, however they are cut. */
  lemma EscapeConcat(s: string, t: string)
    ensures XmlEscape(s + t) == XmlEscape(s) + XmlEscape(t)
  {
    EscapeEncodesAll(s + t);
    EscapeEncodesAll(s);
    EscapeEncodesAll(t);
    EncodedConcat(s, t, ALL);
  }

  /** The five markup characters are written as the predefined entities of XML, all others as
      themselves. */
  lemma EscapeCharacter(c: char)
    ensures XmlEscape([c]) ==
            if c == '&' then "&amp;" else if c == '<' then "&lt;" else if c == '>' then "&gt;"
            else if c == '"' then "&quot;" else if c == '\'' then "&apos;" else [c]
  {
    EscapeEncodesAll([c]);
    assert Encoded([c], ALL) == Token(c, ALL) + Encoded([c][1..], ALL);
    assert [c][1..] == "";
  }

  lemma UnescapeDecodesAll(s: string)
    ensures Unescape(Encoded(s, ALL)) == s
  {
    UnescapeStep(s, ALL, '<', {'&', '>', '"', '\''});
    UnescapeStep(s, {'&', '>', '"', '\''}, '>', {'&', '"', '\''});
    UnescapeStep(s, {'&', '"', '\''}, '"', {'&', '\''});
    UnescapeStep(s, {'&', '\''}, '\'', {'&'});
    UnescapeStep(s, {'&'}, '&', {});
    EncodedWithNone(s);
  }

  lemma UnescapeStep(s: string, entities: set<char>, c: char, fewer: set<char>)
    requires (forall e <- entities :: Special(e)) && c in entities && '&' in entities
    requires fewer == entities - {c}
    ensures Entity(c) != "" && forall e <- fewer :: Special(e)
    ensures Replace(Encoded(s, entities), Entity(c), [c]) == Encoded(s, fewer)
  {
    UnescapeOne(s, entities, c);
  }

  lemma {:induction false} EncodedHasNoMarkup(s: string)
    ensures forall c <- Encoded(s, ALL) :: c !in "<>\"'"
  {
    if s != "" {
      EncodedHasNoMarkup(s[1..]);
      assert forall c <- Token(s[0], ALL) :: c !in "<>\"'";
    }
  }

  /** Escaped text holds no character that could end an element or a quoted attribute. */
  lemma EscapedTextIsInert(s: string)
    ensures forall c <- XmlEscape(s) :: c !in "<>\"'"
  {
    EscapeEncodesAll(s);
    EncodedHasNoMarkup(s);
  }

  /** The two chains of replacements are inverse on every string. */
  lemma UnescapeEscape(s: string)
    ensures Unescape(XmlEscape(s)) == s
  {
    EscapeEncodesAll(s);
    UnescapeDecodesAll(s);
  }

  /** In text without `<`, an end marker is found where it was put. */
  lemma EndMarkerFound(text: string, endMarker: string, after: string)
    requires '<' !in text && endMarker != "" && endMarker[0] == '<'
    ensures Find(text + (endMarker + after), endMarker) == Some(|text|)
  {
    var rest := text + (endMarker + after);
    assert rest[|text|..] == endMarker + after;
    assert StartsWith(rest[|text|..], endMarker);
    forall i | 0 <= i < |text| ensures !StartsWith(rest[i..], endMarker) {
      assert rest[i..] == text[i..] + (endMarker + after);
      assert text[i] in text;
      NoMatch(text[i..], endMarker + after, endMarker, 0);
    }
    FindIsFirst(rest, endMarker, |text|);
  }

  /** A text with an element of the given content in it. */
  function WithElement(before: string, tag: string, content: string, after: string): string {
    before + (StartMarker(tag) + (content + (EndMarker(tag) + after)))
  }

  /** No start marker of the tag occurs earlier. */
  predicate FirstElement(before: string, xml: string, tag: string)
    requires |before| <= |xml|
  {
    forall i | 0 <= i < |before| :: !StartsWith(xml[i..], StartMarker(tag))
  }

  lemma SplitElement(before: string, startMarker: string, content: string, tail: string)
    ensures var xml := before + (startMarker + (content + tail));
            var start := |before| + |startMarker|;
            && |xml| == start + |content| + |tail|
            && xml[start..] == content + tail
            && xml[start..start + |content|] == content
  {
  }

  /** What lies between the markers of an element is its content. */
  lemma TagContent(before: string, tag: string, content: string, after: string)
    requires '<' !in content
    requires FirstElement(before, WithElement(before, tag, content, after), tag)
    ensures TagText(WithElement(before, tag, content, after), tag) == Some(content)
  {
    var xml, start := WithElement(before, tag, content, after), |before| + |StartMarker(tag)|;
    SplitElement(before, StartMarker(tag), content, EndMarker(tag) + after);
    StartMarkerFound(before, tag, content, after);
    EndMarkerFound(content, EndMarker(tag), after);
  }

  lemma StartMarkerFound(before: string, tag: string, content: string, after: string)
    requires FirstElement(before, WithElement(before, tag, content, after), tag)
    ensures Find(WithElement(before, tag, content, after), StartMarker(tag)) == Some(|before|)
  {
    var xml := WithElement(before, tag, content, after);
    assert xml[|before|..] == StartMarker(tag) + (content + (EndMarker(tag) + after));
    FindIsFirst(xml, StartMarker(tag), |before|);
  }

  /** Reading an element gives back exactly the text that was written into it, for every text. */
  lemma TagRoundTrip(before: string, tag: string, s: string, after: string)
    requires FirstElement(before, WithElement(before, tag, XmlEscape(s), after), tag)
    ensures XmlTag(WithElement(before, tag, XmlEscape(s), after), tag) == Some(s)
  {
    EscapedTextIsInert(s);
    TagContent(before, tag, XmlEscape(s), after);
    UnescapeEscape(s);
  }
}
