/** The few JavaScript string operations the modelled code rests on. */
module Text {

  /** `text.indexOf(c)`: the first position holding `c`, or -1. */
  function IndexOf(text: string, c: char): (i: int)
    ensures -1 <= i < |text|
    ensures i >= 0 ==> text[i] == c && c !in text[..i]
    ensures i == -1 <==> c !in text
  {
    if text == "" then -1
    else if text[0] == c then 0
    else
      var rest := IndexOf(text[1..], c);
      assert text == [text[0]] + text[1..];
      if rest == -1 then -1
      else
        assert text[..rest + 1] == [text[0]] + text[1..][..rest];
        rest + 1
  }

  /** `text.split(sep)` for a one-character separator: never empty. */
  function Split(text: string, sep: char): (parts: seq<string>)
    ensures |parts| > 0
    ensures forall part :: part in parts ==> sep !in part
  {
    if text == "" then [""]
    else
      var rest := Split(text[1..], sep);
      if text[0] == sep then [""] + rest
      else [[text[0]] + rest[0]] + rest[1..]
  }

  /** `parts.filter(Boolean)`: the empty strings go, the order stays. */
  function DropEmpty(parts: seq<string>): (kept: seq<string>)
    ensures forall part :: part in kept <==> part in parts && part != ""
  {
    if parts == [] then []
    else if parts[0] == "" then DropEmpty(parts[1..])
    else [parts[0]] + DropEmpty(parts[1..])
  }

  /** `text.split(" ").filter(Boolean)`. */
  function Words(text: string): (words: seq<string>)
    ensures forall word :: word in words ==> word != "" && ' ' !in word
  {
    DropEmpty(Split(text, ' '))
  }

  /** `parts.join(sep)`. */
  function Join(parts: seq<string>, sep: char): string {
    if parts == [] then ""
    else if |parts| == 1 then parts[0]
    else parts[0] + [sep] + Join(parts[1..], sep)
  }

  lemma {:induction false} SplitOne(word: string, sep: char)
    requires sep !in word
    ensures Split(word, sep) == [word]
  {
    if word != "" {
      assert word == [word[0]] + word[1..];
      SplitOne(word[1..], sep);
    }
  }

  lemma {:induction false} SplitAtFirst(word: string, sep: char, tail: string)
    requires sep !in word
    ensures Split(word + [sep] + tail, sep) == [word] + Split(tail, sep)
  {
    var text := word + [sep] + tail;
    if word == "" {
      assert text[1..] == tail;
    } else {
      assert word == [word[0]] + word[1..];
      assert text[1..] == word[1..] + [sep] + tail;
      SplitAtFirst(word[1..], sep, tail);
    }
  }

  /** Splitting undoes joining, for any list of non-empty, space-free words. */
  lemma {:induction false} WordsOfJoin(words: seq<string>)
    requires forall word :: word in words ==> word != "" && ' ' !in word
    ensures Words(Join(words, ' ')) == words
  {
    if words == [] {
      assert Split("", ' ') == [""];
    } else if |words| == 1 {
      assert words[0] in words;
      SplitOne(words[0], ' ');
      assert DropEmpty([words[0]]) == [words[0]] + DropEmpty([words[0]][1..]);
      assert words == [words[0]];
    } else {
      assert words[0] in words;
      SplitAtFirst(words[0], ' ', Join(words[1..], ' '));
      var parts := [words[0]] + Split(Join(words[1..], ' '), ' ');
      assert parts[1..] == Split(Join(words[1..], ' '), ' ');
      WordsOfJoin(words[1..]);
      assert words == [words[0]] + words[1..];
    }
  }

  /** A joined list of words is empty exactly when the list is. */
  lemma {:induction false} JoinIsEmpty(words: seq<string>)
    requires forall word :: word in words ==> word != ""
    ensures Join(words, ' ') == "" <==> words == []
  {
    if |words| >= 1 {
      assert words[0] in words;
    }
  }

  /** Splitting loses nothing. */
  lemma {:induction false} JoinOfSplit(text: string, sep: char)
    ensures Join(Split(text, sep), sep) == text
  {
    if text != "" {
      JoinOfSplit(text[1..], sep);
      var rest := Split(text[1..], sep);
      if text[0] == sep {
        assert ([""] + rest)[1..] == rest;
      } else {
        var parts := [[text[0]] + rest[0]] + rest[1..];
        assert parts[1..] == rest[1..];
      }
    }
  }
}
