/**
The XML of the S3 client: escaping by five ordered global replacements, unescaping by five more, the reader of
`<Key>` elements, and the batches of a bulk delete.
*/
module S3Xml {
  import opened Prelude

  const DELETE_BATCH_MAX := 1000

  /** `replace(/pattern/g, sub)` for a literal pattern: leftmost matches, left to right. */
  function Replace(s: string, pattern: string, sub: string): string
    requires pattern != ""
  {
    if s == "" then ""
    else if pattern <= s then sub + Replace(s[|pattern|..], pattern, sub)
    else [s[0]] + Replace(s[1..], pattern, sub)
  }

  function XmlEscape(s: string): string {
    var s1 := Replace(s, "&", "&amp;");
    var s2 := Replace(s1, "<", "&lt;");
    var s3 := Replace(s2, ">", "&gt;");
    var s4 := Replace(s3, "\"", "&quot;");
    Replace(s4, "'", "&apos;")
  }

  function XmlUnescape(s: string): string {
    var s1 := Replace(s, "&lt;", "<");
    var s2 := Replace(s1, "&gt;", ">");
    var s3 := Replace(s2, "&quot;", "\"");
    var s4 := Replace(s3, "&apos;", "'");
    Replace(s4, "&amp;", "&")
  }

  // ------------------------------------------------- strings token sub token

  /** Each character written by `token`. */
  function Encode(token: char -> string, s: string): string {
    if s == "" then "" else token(s[0]) + Encode(token, s[1..])
  }

  /** The replacement turns each `f` token into the `g` token, whatever follows it. */
  ghost predicate Turns(f: char -> string, g: char -> string, pattern: string, sub: string)
    requires pattern != ""
  {
    forall c, rest :: Replace(f(c) + rest, pattern, sub) == g(c) + Replace(rest, pattern, sub)
  }

  lemma {:induction false} ReplaceEncoded(f: char -> string, g: char -> string, pattern: string, sub: string, s: string)
    requires pattern != "" && Turns(f, g, pattern, sub)
    ensures Replace(Encode(f, s), pattern, sub) == Encode(g, s)
  {
    if s != "" {
      ReplaceEncoded(f, g, pattern, sub, s[1..]);
      assert Replace(f(s[0]) + Encode(f, s[1..]), pattern, sub) == g(s[0]) + Replace(Encode(f, s[1..]), pattern, sub);
    }
  }

  /** A run without the pattern's first character passes through. */
  lemma {:induction false} PassesThrough(t: string, rest: string, pattern: string, sub: string)
    requires pattern != "" && forall i :: 0 <= i < |t| ==> t[i] != pattern[0]
    ensures Replace(t + rest, pattern, sub) == t + Replace(rest, pattern, sub)
  {
    if t == "" {
      assert t + rest == rest;
    } else {
      assert (t + rest)[1..] == t[1..] + rest;
      PassesThrough(t[1..], rest, pattern, sub);
      assert t == [t[0]] + t[1..];
    }
  }

  /** So does a token that begins like the pattern and then differs from it. */
  lemma PassesEntity(t: string, rest: string, pattern: string, sub: string)
    requires 0 < |pattern| && 0 < |t| && t[0] == pattern[0] && (forall i :: 1 <= i < |t| ==> t[i] != pattern[0])
    requires exists i :: 0 <= i < |t| && i < |pattern| && t[i] != pattern[i]
    ensures Replace(t + rest, pattern, sub) == t + Replace(rest, pattern, sub)
  {
    var i :| 0 <= i < |t| && i < |pattern| && t[i] != pattern[i];
    assert (t + rest)[i] != pattern[i];
    assert (t + rest)[1..] == t[1..] + rest;
    PassesThrough(t[1..], rest, pattern, sub);
  }

  lemma Replaced(rest: string, pattern: string, sub: string)
    requires pattern != ""
    ensures Replace(pattern + rest, pattern, sub) == sub + Replace(rest, pattern, sub)
  {
    assert (pattern + rest)[|pattern|..] == rest;
  }

  /** The five characters and their entities. */
  const SPECIAL := {'&', '<', '>', '"', '\''}

  function Entity(c: char): string
    requires c in SPECIAL
  {
    match c
    case '&' => "&amp;"
    case '<' => "&lt;"
    case '>' => "&gt;"
    case '"' => "&quot;"
    case _ => "&apos;"
  }

  /** The spelling of `c` when the characters of `escaped` are written as entities. */
  function Token(escaped: set<char>, c: char): string {
    if c in SPECIAL && c in escaped then Entity(c) else [c]
  }

  function Spelling(escaped: set<char>): char -> string { c => Token(escaped, c) }

  /** Escaping one more character, none of whose kind is in any entity written so far. */
  lemma EscapesOne(escaped: set<char>, c: char)
    requires c in SPECIAL && c !in escaped && (c == '&' ==> escaped == {})
    ensures Turns(Spelling(escaped), Spelling(escaped + {c}), [c], Entity(c))
  {
    hide Replace;
    forall d, rest
      ensures Replace(Spelling(escaped)(d) + rest, [c], Entity(c))
           == Spelling(escaped + {c})(d) + Replace(rest, [c], Entity(c))
    {
      if d == c {
        Replaced(rest, [c], Entity(c));
      } else {
        PassesThrough(Token(escaped, d), rest, [c], Entity(c));
      }
    }
  }

  /** Undoing one entity; the ampersand's own goes last. */
  lemma UnescapesOne(escaped: set<char>, c: char)
    requires c in SPECIAL && c !in escaped && (c == '&' ==> escaped == {})
    requires c != '&' ==> '&' in escaped
    ensures Turns(Spelling(escaped + {c}), Spelling(escaped), Entity(c), [c])
  {
    hide Replace;
    forall d, rest
      ensures Replace(Spelling(escaped + {c})(d) + rest, Entity(c), [c])
           == Spelling(escaped)(d) + Replace(rest, Entity(c), [c])
    {
      if d == c {
        Replaced(rest, Entity(c), [c]);
      } else if d in SPECIAL && d in escaped {
        EntitiesDiffer(c, d);
        PassesEntity(Entity(d), rest, Entity(c), [c]);
      } else {
        PassesThrough([d], rest, Entity(c), [c]);
      }
    }
  }

  lemma EntitiesDiffer(c: char, d: char)
    requires c in SPECIAL && d in SPECIAL && c != d
    ensures Entity(c)[0] == Entity(d)[0] == '&' && forall i :: 1 <= i < |Entity(d)| ==> Entity(d)[i] != '&'
    ensures exists i :: 0 <= i < |Entity(d)| && i < |Entity(c)| && Entity(d)[i] != Entity(c)[i]
  {
    if Entity(d)[1] == Entity(c)[1] {
      assert Entity(d)[2] != Entity(c)[2];
    } else {
      assert Entity(d)[1] != Entity(c)[1];
    }
  }

  lemma {:induction false} PlainSpelling(s: string)
    ensures Encode(Spelling({}), s) == s
  {
    if s != "" {
      PlainSpelling(s[1..]);
      assert s == [s[0]] + s[1..];
    }
  }

  lemma EscapeStep(before: set<char>, after: set<char>, c: char, s: string)
    requires after == before + {c} && c in SPECIAL && c !in before && (c == '&' ==> before == {})
    ensures Replace(Encode(Spelling(before), s), [c], Entity(c)) == Encode(Spelling(after), s)
  {
    EscapesOne(before, c);
    ReplaceEncoded(Spelling(before), Spelling(after), [c], Entity(c), s);
  }

  lemma UnescapeStep(before: set<char>, after: set<char>, c: char, s: string)
    requires before == after + {c} && c in SPECIAL && c !in after && (if c == '&' then after == {} else '&' in after)
    ensures Replace(Encode(Spelling(before), s), Entity(c), [c]) == Encode(Spelling(after), s)
  {
    UnescapesOne(after, c);
    ReplaceEncoded(Spelling(before), Spelling(after), Entity(c), [c], s);
  }

  /** Escaping writes each of the five characters as its entity and every other character as itself. */
  lemma EscapeSpells(s: string)
    ensures XmlEscape(s) == Encode(Spelling(SPECIAL), s)
  {
    hide Replace, Encode, Spelling;
    PlainSpelling(s);
    EscapeStep({}, {'&'}, '&', s);
    EscapeStep({'&'}, {'&', '<'}, '<', s);
    EscapeStep({'&', '<'}, {'&', '<', '>'}, '>', s);
    EscapeStep({'&', '<', '>'}, {'&', '<', '>', '"'}, '"', s);
    EscapeStep({'&', '<', '>', '"'}, SPECIAL, '\'', s);
  }

  /** For every string, unescape undoes escape. */
  lemma EscapeRoundTrip(s: string)
    ensures XmlUnescape(XmlEscape(s)) == s
  {
    hide Replace, Encode, Spelling, XmlEscape;
    EscapeSpells(s);
    UnescapeStep(SPECIAL, {'&', '>', '"', '\''}, '<', s);
    UnescapeStep({'&', '>', '"', '\''}, {'&', '"', '\''}, '>', s);
    UnescapeStep({'&', '"', '\''}, {'&', '\''}, '"', s);
    UnescapeStep({'&', '\''}, {'&'}, '\'', s);
    UnescapeStep({'&'}, {}, '&', s);
    PlainSpelling(s);
  }

  lemma {:induction false} EscapedIsText(s: string)
    ensures forall i :: 0 <= i < |XmlEscape(s)| ==> XmlEscape(s)[i] != '<'
  {
    EscapeSpells(s);
    NoBracket(s);
  }

  lemma {:induction false} NoBracket(s: string)
    ensures forall i :: 0 <= i < |Encode(Spelling(SPECIAL), s)| ==> Encode(Spelling(SPECIAL), s)[i] != '<'
  {
    if s != "" {
      NoBracket(s[1..]);
      var t := Token(SPECIAL, s[0]);
      assert forall i :: 0 <= i < |t| ==> t[i] != '<';
    }
  }

  // ------------------------------------------------------- reading the elements

  /** The longest run without a `<`: what `[^<]*` takes, since a `<` must follow. */
  function TextRun(s: string): (r: string)
    ensures r <= s && (forall c <- r :: c != '<') && (r < s ==> s[|r|] == '<')
  {
    if s == "" || s[0] == '<' then "" else [s[0]] + TextRun(s[1..])
  }

  const OPEN := "<Key>"
  const CLOSE := "</Key>"

  /** `xmlTextAll(xml, 'Key')`: the text of each element found scanning left to right, unescaped. */
  function TextAll(s: string): seq<string>
    decreases |s|
  {
    if s == "" then []
    else if OPEN <= s && CLOSE <= s[|OPEN| + |TextRun(s[|OPEN|..])|..] then
      var text := TextRun(s[|OPEN|..]);
      [XmlUnescape(text)] + TextAll(s[|OPEN| + |text| + |CLOSE|..])
    else TextAll(s[1..])
  }

  predicate NoK(t: string) { forall i :: 0 <= i < |t| ==> t[i] != 'K' }

  /** Text in which no element can begin is skipped. */
  lemma {:induction false} SkipsOver(t: string, rest: string)
    requires NoK(t)
    requires rest == "" || rest[0] != 'K'
    ensures TextAll(t + rest) == TextAll(rest)
  {
    if t == "" {
      assert t + rest == rest;
    } else {
      var s := t + rest;
      assert !(OPEN <= s) by {
        assert |s| > 1 ==> s[1] == if |t| > 1 then t[1] else rest[0];
        assert OPEN[1] == 'K';
      }
      assert s[1..] == t[1..] + rest;
      SkipsOver(t[1..], rest);
    }
  }

  lemma {:induction false} RunIs(t: string, rest: string)
    requires forall i :: 0 <= i < |t| ==> t[i] != '<'
    requires rest != "" && rest[0] == '<'
    ensures TextRun(t + rest) == t
  {
    if t == "" {
      assert t + rest == rest;
    } else {
      assert (t + rest)[1..] == t[1..] + rest;
      RunIs(t[1..], rest);
    }
  }

  lemma ReadsOne(key: string, rest: string)
    ensures TextAll(OPEN + XmlEscape(key) + CLOSE + rest) == [key] + TextAll(rest)
  {
    hide XmlEscape, XmlUnescape, TextRun;
    var e := XmlEscape(key);
    var s := OPEN + e + CLOSE + rest;
    EscapedIsText(key);
    EscapeRoundTrip(key);
    assert s[|OPEN|..] == e + (CLOSE + rest);
    RunIs(e, CLOSE + rest);
    assert s[|OPEN| + |e|..] == CLOSE + rest;
    assert s[|OPEN| + |e| + |CLOSE|..] == rest;
  }

  // ------------------------------------------------------------- bulk deletes

  /** The Object elements of some keys, and what follows them. */
  function Objects(keys: seq<string>, tail: string): string {
    if keys == [] then tail else
      "<Object>" + (OPEN + XmlEscape(keys[0]) + CLOSE + ("</Object>" + Objects(keys[1..], tail)))
  }

  const PROLOG := "<?xml version=\"1.0\" encoding=\"UTF-8\"?>"
  const ROOT := "<Delete xmlns="
  const NAMESPACE := "\"http://s3.amazonaws.com/doc/2006-03-01/\">"
  const QUIET := "<Quiet>true</Quiet>"

  function DeleteBody(keys: seq<string>): string {
    PROLOG + (ROOT + (NAMESPACE + (QUIET + Objects(keys, "</Delete>"))))
  }

  lemma {:induction false} ReadsObjects(keys: seq<string>, tail: string)
    requires tail != "" && tail[0] == '<' && TextAll(tail) == []
    ensures TextAll(Objects(keys, tail)) == keys
    ensures Objects(keys, tail) != "" && Objects(keys, tail)[0] == '<'
  {
    hide XmlEscape, TextAll;
    if keys != [] {
      var rest := Objects(keys[1..], tail);
      ReadsObjects(keys[1..], tail);
      SkipsOver("</Object>", rest);
      ReadsOne(keys[0], "</Object>" + rest);
      SkipsOver("<Object>", OPEN + XmlEscape(keys[0]) + CLOSE + ("</Object>" + rest));
    }
  }

  lemma EndHasNone()
    ensures TextAll("</Delete>") == []
  {
    SkipsOver("</Delete>", "");
    assert "</Delete>" + "" == "</Delete>";
  }

  /** Reading the Key elements of a Delete body gives its keys back, whatever characters they hold. */
  lemma BodyReadsBack(keys: seq<string>)
    ensures TextAll(DeleteBody(keys)) == keys
  {
    hide Objects, TextAll;
    EndHasNone();
    var objects := Objects(keys, "</Delete>");
    ReadsObjects(keys, "</Delete>");
    SkipsOver(QUIET, objects);
    SkipsOver(NAMESPACE, QUIET + objects);
    SkipsOver(ROOT, NAMESPACE + (QUIET + objects));
    SkipsOver(PROLOG, ROOT + (NAMESPACE + (QUIET + objects)));
  }

  /** The store's answer to one request: whether it succeeded, and its body. */
  datatype Answer = Answer(ok: bool, xml: string)

  function Chunk(keys: seq<string>, i: nat): seq<string> {
    keys[Min(i, |keys|)..Min(i + DELETE_BATCH_MAX, |keys|)]
  }

  /**
  `deleteObjects`: one request per thousand keys, until one fails or reports a key it could not delete. Read back in
  order, the bodies sent are a prefix of the keys, and all of them when nothing failed.
  */
  method DeleteObjects(keys: seq<string>, answer: nat -> Answer) returns (bodies: seq<string>, deleted: bool)
    ensures forall b :: 0 <= b < |bodies| ==> 0 < |TextAll(bodies[b])| <= 1000
    ensures forall b :: 0 <= b < |bodies| - 1 ==> |TextAll(bodies[b])| == 1000
    ensures Concat(ReadBack(bodies)) <= keys
    ensures deleted ==> Concat(ReadBack(bodies)) == keys
    ensures deleted <==> forall b :: 0 <= b < |bodies| ==> answer(b).ok && TextAll(answer(b).xml) == []
  {
    hide TextAll, DeleteBody, Concat, ReadBack, Chunk;
    bodies := [];
    var i: nat := 0;
    NothingRead(keys);
    while i < |keys|
      invariant 0 <= i && Concat(ReadBack(bodies)) == keys[..Min(i, |keys|)]
      invariant forall b :: 0 <= b < |bodies| ==> 0 < |TextAll(bodies[b])| <= DELETE_BATCH_MAX
      invariant forall b :: 0 <= b < |bodies| && (b < |bodies| - 1 || i <= |keys|) ==> |TextAll(bodies[b])| == 1000
      invariant forall b :: 0 <= b < |bodies| ==> answer(b).ok && TextAll(answer(b).xml) == []
    {
      var body := DeleteBody(Chunk(keys, i));
      NextBatch(keys, i, bodies);
      bodies := bodies + [body];
      var res := answer(|bodies| - 1);
      if !res.ok || TextAll(res.xml) != [] { return bodies, false; }
      i := i + DELETE_BATCH_MAX;
    }
    assert keys[..Min(i, |keys|)] == keys;
    deleted := true;
  }

  lemma NothingRead(keys: seq<string>)
    ensures Concat(ReadBack([])) == keys[..0]
  {}

  lemma NextBatch(keys: seq<string>, i: nat, bodies: seq<string>)
    requires i < |keys| && Concat(ReadBack(bodies)) == keys[..i]
    ensures var body := DeleteBody(Chunk(keys, i));
      && 0 < |TextAll(body)| <= DELETE_BATCH_MAX && (i + DELETE_BATCH_MAX <= |keys| ==> |TextAll(body)| == 1000)
      && Concat(ReadBack(bodies + [body])) == keys[..Min(i + DELETE_BATCH_MAX, |keys|)]
  {
    hide TextAll, DeleteBody, Concat, ReadBack;
    var chunk := Chunk(keys, i);
    BodyReadsBack(chunk);
    ReadBackMore(bodies, DeleteBody(chunk));
    assert keys[..i] + chunk == keys[..Min(i + DELETE_BATCH_MAX, |keys|)];
  }

  function ReadBack(bodies: seq<string>): seq<seq<string>> {
    seq(|bodies|, b requires 0 <= b < |bodies| => TextAll(bodies[b]))
  }

  lemma ReadBackMore(bodies: seq<string>, body: string)
    ensures Concat(ReadBack(bodies + [body])) == Concat(ReadBack(bodies)) + TextAll(body)
  {
    assert ReadBack(bodies + [body]) == ReadBack(bodies) + [TextAll(body)];
    ConcatAppend(ReadBack(bodies), [TextAll(body)]);
    assert Concat([TextAll(body)]) == TextAll(body) + Concat([]);
  }
}
