/** The HTML escaper and the template tag that applies it to every interpolated value. */
module Html {

  // ---- escaping ---------------------------------------------------------------------------------------------

  /** `text.replaceAll(c, by)` for a single character c. */
  function ReplaceAll(text: string, c: char, entity: string): string {
    if text == "" then ""
    else (if text[0] == c then entity else [text[0]]) + ReplaceAll(text[1..], c, entity)
  }

  function EscapeHtml(value: string): string {
    ReplaceAll(ReplaceAll(ReplaceAll(ReplaceAll(ReplaceAll(
      value, '&', "&amp;"), '<', "&lt;"), '>', "&gt;"), '"', "&quot;"), '\'', "&#39;")
  }

  function Entity(c: char): string {
    match c
    case '&' => "&amp;"
    case '<' => "&lt;"
    case '>' => "&gt;"
    case '"' => "&quot;"
    case '\'' => "&#39;"
    case _ => [c]
  }

  /** Every character on its own, once. */
  function EscapeEach(value: string): string {
    if value == "" then "" else Entity(value[0]) + EscapeEach(value[1..])
  }

  lemma {:induction false} ReplaceJoins(a: string, b: string, c: char, entity: string)
    ensures ReplaceAll(a + b, c, entity) == ReplaceAll(a, c, entity) + ReplaceAll(b, c, entity)
  {
    if a == "" {
      assert a + b == b;
    } else {
      assert (a + b)[1..] == a[1..] + b;
      ReplaceJoins(a[1..], b, c, entity);
    }
  }

  lemma {:induction false} ReplaceAbsent(text: string, c: char, entity: string)
    requires c !in text
    ensures ReplaceAll(text, c, entity) == text
  {
    if text != "" {
      ReplaceAbsent(text[1..], c, entity);
    }
  }

  lemma ReplaceOne(c: char, d: char, entity: string)
    ensures ReplaceAll([c], d, entity) == if c == d then entity else [c]
  {
    assert [c][1..] == "";
  }

  lemma EscapeJoins(a: string, b: string)
    ensures EscapeHtml(a + b) == EscapeHtml(a) + EscapeHtml(b)
  {
    var a1, b1 := ReplaceAll(a, '&', "&amp;"), ReplaceAll(b, '&', "&amp;");
    var a2, b2 := ReplaceAll(a1, '<', "&lt;"), ReplaceAll(b1, '<', "&lt;");
    var a3, b3 := ReplaceAll(a2, '>', "&gt;"), ReplaceAll(b2, '>', "&gt;");
    var a4, b4 := ReplaceAll(a3, '"', "&quot;"), ReplaceAll(b3, '"', "&quot;");
    hide ReplaceAll;
    ReplaceJoins(a, b, '&', "&amp;");
    ReplaceJoins(a1, b1, '<', "&lt;");
    ReplaceJoins(a2, b2, '>', "&gt;");
    ReplaceJoins(a3, b3, '"', "&quot;");
    ReplaceJoins(a4, b4, '\'', "&#39;");
  }

  /** Nothing an earlier replacement wrote is taken for something to replace. */
  lemma EscapeOne(c: char)
    ensures EscapeHtml([c]) == Entity(c)
  {
    var s1 := ReplaceAll([c], '&', "&amp;");
    var s2 := ReplaceAll(s1, '<', "&lt;");
    var s3 := ReplaceAll(s2, '>', "&gt;");
    var s4 := ReplaceAll(s3, '"', "&quot;");
    hide ReplaceAll;
    ReplaceOne(c, '&', "&amp;");
    if c == '&' { ReplaceAbsent(s1, '<', "&lt;"); } else { ReplaceOne(c, '<', "&lt;"); }
    if c == '&' || c == '<' { ReplaceAbsent(s2, '>', "&gt;"); } else { ReplaceOne(c, '>', "&gt;"); }
    if c == '&' || c == '<' || c == '>' { ReplaceAbsent(s3, '"', "&quot;"); } else { ReplaceOne(c, '"', "&quot;"); }
    if c == '&' || c == '<' || c == '>' || c == '"' {
      ReplaceAbsent(s4, '\'', "&#39;");
    } else {
      ReplaceOne(c, '\'', "&#39;");
    }
  }

  /** The five passes over the whole text are one pass over its characters. */
  lemma {:induction false} FivePassesAreOne(value: string)
    ensures EscapeHtml(value) == EscapeEach(value)
  {
    if value != "" {
      assert value == [value[0]] + value[1..];
      EscapeOne(value[0]);
      FivePassesAreOne(value[1..]);
      hide EscapeHtml;
      EscapeJoins([value[0]], value[1..]);
    }
  }

  // ---- reading back -----------------------------------------------------------------------------------------

  /** What a browser shows for text with these five entities. */
  function Decode(text: string): string {
    if text == "" then ""
    else if "&amp;" <= text then "&" + Decode(text[5..])
    else if "&lt;" <= text then "<" + Decode(text[4..])
    else if "&gt;" <= text then ">" + Decode(text[4..])
    else if "&quot;" <= text then "\"" + Decode(text[6..])
    else if "&#39;" <= text then "'" + Decode(text[5..])
    else [text[0]] + Decode(text[1..])
  }

  lemma DecodeOne(c: char, rest: string)
    ensures Decode(Entity(c) + rest) == [c] + Decode(rest)
  {
    var text := Entity(c) + rest;
    assert text[|Entity(c)|..] == rest;
    if c == '&' || c == '<' || c == '>' || c == '"' || c == '\'' {
      assert text[1] == Entity(c)[1] && text[2] == Entity(c)[2];
    } else {
      assert text[0] == c;
    }
  }

  lemma {:induction false} EscapeEachDecodes(value: string)
    ensures Decode(EscapeEach(value)) == value
  {
    if value != "" {
      EscapeEachDecodes(value[1..]);
      DecodeOne(value[0], EscapeEach(value[1..]));
    }
  }

  /** Escaped text reads back as what was escaped, so two different texts never look alike. */
  lemma EscapedReadsBack(value: string)
    ensures Decode(EscapeHtml(value)) == value
  {
    FivePassesAreOne(value);
    EscapeEachDecodes(value);
  }

  // ---- what cannot come out ---------------------------------------------------------------------------------

  /** The characters that open or close a tag or an attribute value. */
  predicate Markup(c: char) {
    c == '<' || c == '>' || c == '"' || c == '\''
  }

  function Count(text: string, c: char): nat {
    if text == "" then 0 else (if text[0] == c then 1 else 0) + Count(text[1..], c)
  }

  lemma {:induction false} CountJoins(a: string, b: string, c: char)
    ensures Count(a + b, c) == Count(a, c) + Count(b, c)
  {
    if a == "" {
      assert a + b == b;
    } else {
      assert (a + b)[1..] == a[1..] + b;
      CountJoins(a[1..], b, c);
    }
  }

  lemma {:induction false} CountAbsent(text: string, c: char)
    ensures Count(text, c) == 0 <==> c !in text
  {
    if text != "" {
      CountAbsent(text[1..], c);
    }
  }

  lemma {:induction false} EscapedHasNoMarkup(value: string, c: char)
    requires Markup(c)
    ensures c !in EscapeHtml(value) && Count(EscapeHtml(value), c) == 0
  {
    FivePassesAreOne(value);
    EachHasNoMarkup(value, c);
    CountAbsent(EscapeHtml(value), c);
  }

  lemma {:induction false} EachHasNoMarkup(value: string, c: char)
    requires Markup(c)
    ensures c !in EscapeEach(value)
  {
    if value != "" {
      EachHasNoMarkup(value[1..], c);
      assert c !in Entity(value[0]);
    }
  }

  // ---- the template tag -------------------------------------------------------------------------------------

  /** What can be interpolated: null or undefined, markup known to be safe, an array, anything else as its string. */
  datatype Value = Nothing | Safe(markup: string) | Array(items: seq<Value>) | Plain(text: string)

  function Stringify(value: Value): string {
    match value
    case Nothing => ""
    case Safe(markup) => markup
    case Array(items) => StringifyAll(items)
    case Plain(text) => EscapeHtml(text)
  }

  /** `values.map(stringify).join("")`. */
  function StringifyAll(values: seq<Value>): string {
    if values == [] then "" else Stringify(values[0]) + StringifyAll(values[1..])
  }

  function StringAt(strings: seq<string>, i: nat): string {
    if i < |strings| then strings[i] else ""
  }

  /** Strings and values in turn, up to the string after value n. */
  function Rendered(strings: seq<string>, values: seq<Value>, n: nat): string
    requires n <= |values|
  {
    if n == 0 then StringAt(strings, 0)
    else Rendered(strings, values, n - 1) + (Stringify(values[n - 1]) + StringAt(strings, n))
  }

  /**
   * What may stand for a value: nothing for null or undefined, safe markup as it is, for anything else a text without
   * markup characters that reads as it, and for an array texts for its items in their order.
   */
  ghost predicate Shows(text: string, value: Value)
    decreases value, 0
  {
    match value
    case Nothing => text == ""
    case Safe(markup) => text == markup
    case Plain(plain) => Decode(text) == plain && forall c :: c in text ==> !Markup(c)
    case Array(items) => ShowsInOrder(text, items)
  }

  ghost predicate ShowsInOrder(text: string, values: seq<Value>)
    decreases values, 1
  {
    if values == [] then text == ""
    else exists n :: 0 <= n <= |text| && Shows(text[..n], values[0]) && ShowsInOrder(text[n..], values[1..])
  }

  lemma {:induction false} StringifyShows(value: Value)
    ensures Shows(Stringify(value), value)
    decreases value, 0
  {
    match value
    case Nothing =>
    case Safe(_) =>
    case Plain(text) =>
      EscapedReadsBack(text);
      forall c | c in EscapeHtml(text) ensures !Markup(c) {
        if Markup(c) { EscapedHasNoMarkup(text, c); }
      }
    case Array(items) => StringifyAllShows(items);
  }

  lemma {:induction false} StringifyAllShows(values: seq<Value>)
    ensures ShowsInOrder(StringifyAll(values), values)
    decreases values, 1
  {
    if values != [] {
      var first := Stringify(values[0]);
      var text := StringifyAll(values);
      StringifyShows(values[0]);
      StringifyAllShows(values[1..]);
      assert text[..|first|] == first && text[|first|..] == StringifyAll(values[1..]);
    }
  }

  /** The first string, the first text, the second string, and so on to the last string. */
  ghost function Woven(strings: seq<string>, texts: seq<string>): string
    requires |strings| == |texts| + 1
  {
    if texts == [] then strings[0] else strings[0] + (texts[0] + Woven(strings[1..], texts[1..]))
  }

  ghost predicate ShowEach(texts: seq<string>, values: seq<Value>) {
    |texts| == |values| && forall i :: 0 <= i < |values| ==> Shows(texts[i], values[i])
  }

  lemma {:induction false} WovenNext(strings: seq<string>, texts: seq<string>, string': string, text: string)
    requires |strings| == |texts| + 1
    ensures Woven(strings + [string'], texts + [text]) == Woven(strings, texts) + (text + string')
  {
    var strings', texts' := strings + [string'], texts + [text];
    if texts == [] {
      assert strings'[1..] == [string'] && texts'[1..] == [] && strings == [strings[0]];
    } else {
      assert strings'[1..] == strings[1..] + [string'] && texts'[1..] == texts[1..] + [text];
      WovenNext(strings[1..], texts[1..], string', text);
    }
  }

  /** As a tag is called, with one string more than values: each string in its place, between two what shows the value. */
  method Template(strings: seq<string>, values: seq<Value>) returns (out: Value)
    ensures out == Safe(Rendered(strings, values, |values|))
    ensures |strings| == |values| + 1 ==>
              exists texts :: ShowEach(texts, values) && out == Safe(Woven(strings, texts))
  {
    var text := StringAt(strings, 0);
    ghost var texts: seq<string> := [];
    for i := 0 to |values|
      invariant text == Rendered(strings, values, i) && ShowEach(texts, values[..i])
      invariant |strings| == |values| + 1 ==> text == Woven(strings[..i + 1], texts)
    {
      StringifyShows(values[i]);
      if |strings| == |values| + 1 {
        WovenNext(strings[..i + 1], texts, strings[i + 1], Stringify(values[i]));
        assert strings[..i + 1] + [strings[i + 1]] == strings[..i + 2];
      }
      texts := texts + [Stringify(values[i])];
      text := text + (Stringify(values[i]) + StringAt(strings, i + 1));
    }
    assert values[..|values|] == values && (|strings| == |values| + 1 ==> strings[..|values| + 1] == strings);
    return Safe(text);
  }

  /** A character among the pieces of safe markup in a value, at any depth. */
  function SafeCount(value: Value, c: char): nat {
    match value
    case Nothing => 0
    case Safe(markup) => Count(markup, c)
    case Array(items) => SafeCountAll(items, c)
    case Plain(_) => 0
  }

  function SafeCountAll(values: seq<Value>, c: char): nat {
    if values == [] then 0 else SafeCount(values[0], c) + SafeCountAll(values[1..], c)
  }

  /** A character among the first n + 1 strings. */
  function StaticCount(strings: seq<string>, n: nat, c: char): nat {
    Count(StringAt(strings, n), c) + if n == 0 then 0 else StaticCount(strings, n - 1, c)
  }

  lemma {:induction false} StringifyAddsNoMarkup(value: Value, c: char)
    requires Markup(c)
    ensures Count(Stringify(value), c) == SafeCount(value, c)
    decreases value, 0
  {
    match value
    case Nothing =>
    case Safe(markup) =>
    case Array(items) => StringifyAllAddsNoMarkup(items, c);
    case Plain(text) => EscapedHasNoMarkup(text, c);
  }

  lemma {:induction false} StringifyAllAddsNoMarkup(values: seq<Value>, c: char)
    requires Markup(c)
    ensures Count(StringifyAll(values), c) == SafeCountAll(values, c)
    decreases values, 1
  {
    if values != [] {
      StringifyAddsNoMarkup(values[0], c);
      StringifyAllAddsNoMarkup(values[1..], c);
      CountJoins(Stringify(values[0]), StringifyAll(values[1..]), c);
    }
  }

  lemma {:induction false} SafeCountNext(values: seq<Value>, n: nat, c: char)
    requires n < |values|
    ensures SafeCountAll(values[..n + 1], c) == SafeCountAll(values[..n], c) + SafeCount(values[n], c)
  {
    if n > 0 {
      assert values[..n + 1][1..] == values[1..][..n] && values[..n][1..] == values[1..][..n - 1];
      SafeCountNext(values[1..], n - 1, c);
    } else {
      assert values[..1][1..] == [];
    }
  }

  lemma RenderedNext(strings: seq<string>, values: seq<Value>, n: nat)
    requires n < |values|
    ensures Rendered(strings, values, n + 1) ==
            Rendered(strings, values, n) + (Stringify(values[n]) + StringAt(strings, n + 1))
  {
    hide Stringify, StringAt;
  }

  lemma StaticCountNext(strings: seq<string>, n: nat, c: char)
    ensures StaticCount(strings, n + 1, c) == Count(StringAt(strings, n + 1), c) + StaticCount(strings, n, c)
  {
    hide Count, StringAt;
  }

  lemma CountNext(strings: seq<string>, values: seq<Value>, n: nat, c: char)
    requires Markup(c) && n < |values|
    ensures Count(Rendered(strings, values, n + 1), c) ==
            Count(Rendered(strings, values, n), c) + SafeCount(values[n], c) + Count(StringAt(strings, n + 1), c)
  {
    hide *;
    var next := Stringify(values[n]) + StringAt(strings, n + 1);
    RenderedNext(strings, values, n);
    StringifyAddsNoMarkup(values[n], c);
    CountJoins(Stringify(values[n]), StringAt(strings, n + 1), c);
    CountJoins(Rendered(strings, values, n), next, c);
  }

  lemma FirstString(strings: seq<string>, values: seq<Value>, c: char)
    ensures Count(Rendered(strings, values, 0), c) == StaticCount(strings, 0, c) && SafeCountAll(values[..0], c) == 0
  {
    assert values[..0] == [];
    hide Count, StringAt;
  }

  /** Each markup character of the result stands in a static string or in a piece of safe markup; no value adds one. */
  lemma {:induction false} MarkupComesFromTheTemplate(strings: seq<string>, values: seq<Value>, n: nat, c: char)
    requires Markup(c) && n <= |values|
    ensures Count(Rendered(strings, values, n), c) == StaticCount(strings, n, c) + SafeCountAll(values[..n], c)
  {
    hide *;
    if n > 0 {
      MarkupComesFromTheTemplate(strings, values, n - 1, c);
      CountNext(strings, values, n - 1, c);
      StaticCountNext(strings, n - 1, c);
      SafeCountNext(values, n - 1, c);
    } else {
      FirstString(strings, values, c);
    }
  }
}
