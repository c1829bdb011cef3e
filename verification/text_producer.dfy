/** Text generation: TextProducerInternal picks words from the catalog texts
    and shapes them into words, sentences and random strings; TextProducer
    adds the length limit and paragraphs. Guava's Splitter/Joiner and
    StringUtils.capitalize, which shape the sentence between its words and
    its final period, are one function-typed parameter. */
module TextProducers {
  import opened Wrappers
  import opened Chars
  import opened Random
  import opened Catalog
  import opened TextUtils

  const LOREM_IPSUM: string := "loremIpsum"
  const TEXT: string := "text"
  const ALPHABET: string := "alphabet"
  const WORD_COUNT_PRECISION_IN_SENTENCE: int := 6

  const DEFAULT_WORD_COUNT: int := 3
  const DEFAULT_WORD_COUNT_IN_SENTENCE: int := 3
  const DEFAULT_SENTENCE_COUNT: int := 3
  const SENTENCE_COUNT_PRECISION_MIN: int := 1
  const SENTENCE_COUNT_PRECISION_MAX: int := 3

  /** StringUtils.split(s, c): the runs between separators; adjacent
      separators give no empty token. */
  function Split(s: string, c: char): (r: seq<string>)
    ensures forall i :: 0 <= i < |r| ==> r[i] != [] && c !in r[i]
  {
    SplitFrom(s, c, [])
  }

  function SplitFrom(s: string, c: char, token: string): (r: seq<string>)
    requires c !in token
    ensures forall i :: 0 <= i < |r| ==> r[i] != [] && c !in r[i]
    decreases |s|
  {
    if s == [] then (if token == [] then [] else [token])
    else if s[0] == c then (if token == [] then [] else [token]) + SplitFrom(s[1..], c, [])
    else SplitFrom(s[1..], c, token + [s[0]])
  }

  /** A text without the separator is one token. */
  lemma {:induction false} SplitNoSeparator(s: string, c: char, token: string)
    requires c !in s && c !in token && token + s != []
    ensures SplitFrom(s, c, token) == [token + s]
    decreases |s|
  {
    if s != [] {
      assert s[0] != c && c !in s[1..] && c !in token + [s[0]];
      SplitNoSeparator(s[1..], c, token + [s[0]]);
      assert SplitFrom(s, c, token) == SplitFrom(s[1..], c, token + [s[0]]);
      assert (token + [s[0]]) + s[1..] == token + s;
    } else {
      assert token + s == token;
    }
  }

  /** replaceChars(s, "., ", ""): every '.', ',' and ' ' deleted. */
  function DeleteChars(s: string): (r: string)
    ensures '.' !in r && ',' !in r && ' ' !in r
    ensures |r| <= |s|
  {
    if s == [] then []
    else (if s[0] in "., " then [] else [s[0]]) + DeleteChars(s[1..])
  }

  /** uncapitalize: the first character lower-cased. */
  function Uncapitalize(s: string): (r: string)
    ensures |r| == |s| && (s != [] ==> r[0] == ToLowerChar(s[0]) && r[1..] == s[1..])
  {
    if s == [] then s else [ToLowerChar(s[0])] + s[1..]
  }

  /** One word as cleanWords leaves it. */
  function CleanWord(w: string): string {
    Uncapitalize(DeleteChars(w))
  }

  /** A cleaned word holds no '.', ',' or space, and starts in lower case
      when it starts with a letter. */
  lemma CleanWordShape(w: string)
    ensures var r := CleanWord(w);
            '.' !in r && ',' !in r && ' ' !in r
            && (r != [] && IsLetter(r[0]) ==> IsLower(r[0]))
  {
    var d := DeleteChars(w);
    var r := CleanWord(w);
    forall i | 0 <= i < |r| ensures r[i] != '.' && r[i] != ',' && r[i] != ' ' {
      if i > 0 {
        assert r[i] == d[i];
      }
    }
  }

  function CleanAll(words: seq<string>): (r: seq<string>)
    ensures |r| == |words| && forall i :: 0 <= i < |words| ==> r[i] == CleanWord(words[i])
  {
    seq(|words|, i requires 0 <= i < |words| => CleanWord(words[i]))
  }

  /** The cleaned words of a non-empty pick joined by spaces hold exactly
      one space per gap, so the words can be counted. */
  lemma CleanWordsSpaces(raw: seq<string>)
    requires raw != []
    ensures Occurrences(JoinWithSpace(CleanAll(raw)), ' ') == |raw| - 1
  {
    var cleaned := CleanAll(raw);
    forall i | 0 <= i < |cleaned| ensures ' ' !in cleaned[i] {
      CleanWordShape(raw[i]);
    }
    JoinWithSpaceSpaces(cleaned);
  }

  /** StringUtils.removeEnd(s, ","). */
  function RemoveTrailingComma(s: string): string {
    if s != [] && s[|s| - 1] == ',' then s[..|s| - 1] else s
  }

  /** The end of sentence(): one trailing ',' removed, then a '.' added
      unless the text already ends with one. */
  function FinishSentence(s: string): (r: string)
    ensures r != [] && r[|r| - 1] == '.'
  {
    var t := RemoveTrailingComma(s);
    if t != [] && t[|t| - 1] == '.' then t else t + "."
  }

  /** A finished sentence is the text without its trailing ',' plus at most
      a '.', and finishing it again changes nothing. */
  lemma FinishSentenceSpec(s: string)
    ensures var t := RemoveTrailingComma(s);
            var r := FinishSentence(s);
            r[..|t|] == t && |t| <= |r| <= |t| + 1
            && (s != [] && s[|s| - 1] == ',' ==> t == s[..|s| - 1])
            && FinishSentence(r) == r
  {
  }

  /** StringUtils.left(s, n): the first n characters, "" for negative n. */
  function Left(s: string, n: int): (r: string)
    ensures n < 0 ==> r == ""
    ensures 0 <= n ==> |r| == if |s| < n then |s| else n
    ensures r == s[..|r|]
  {
    if n < 0 then "" else if |s| <= n then s else s[..n]
  }

  class TextProducerInternal {
    const rng: RandomSource
    const loremIpsum: string
    const text: string
    const words: seq<string>
    const latinWords: seq<string>
    const alphabet: string
    const maxAlphabetIndex: int
    /** Splitter.on(". ") over the words, capitalize each part,
        Joiner.on(". ") and capitalize the whole. */
    const capitalizeSentences: string -> string

    /** What the constructor derives from the catalog strings. */
    ghost predicate Valid() {
      words == Split(text, ' ') && latinWords == Split(loremIpsum, ' ')
      && maxAlphabetIndex == |alphabet| - 1
    }

    /** The constructor over the three catalog strings already looked up. */
    constructor(rng: RandomSource, loremIpsum: string, text: string, alphabet: string, capitalizeSentences: string -> string)
      ensures this.rng == rng && this.loremIpsum == loremIpsum && this.text == text
      ensures words == Split(text, ' ') && latinWords == Split(loremIpsum, ' ')
      ensures this.alphabet == alphabet && maxAlphabetIndex == |alphabet| - 1
      ensures this.capitalizeSentences == capitalizeSentences
      ensures Valid()
    {
      this.rng := rng;
      this.loremIpsum := loremIpsum;
      this.text := text;
      words := Split(text, ' ');
      latinWords := Split(loremIpsum, ' ');
      this.alphabet := alphabet;
      maxAlphabetIndex := |alphabet| - 1;
      this.capitalizeSentences := capitalizeSentences;
    }

    /** randomString(n): n characters, each the alphabet's character at
        randomInt(maxAlphabetIndex). A negative n fails when the builder is
        sized; an empty alphabet makes the draw range empty. */
    method RandomString(charsCount: int) returns (r: Result<string>)
      requires Valid()
      modifies rng
      ensures charsCount < 0 ==> r == Failure(NegativeArraySize)
      ensures charsCount > 0 && alphabet == [] ==> r == Failure(BadRange)
      ensures charsCount >= 0 && (charsCount == 0 || alphabet != []) ==>
                r.Success? && |r.value| == charsCount
                && forall i :: 0 <= i < charsCount ==> r.value[i] in alphabet
    {
      if charsCount < 0 {
        return Failure(NegativeArraySize);
      }
      if charsCount > 0 && maxAlphabetIndex < 0 {
        return Failure(BadRange);
      }
      var sb: string := "";
      for i := 0 to charsCount
        invariant |sb| == i
        invariant forall j :: 0 <= j < i ==> sb[j] in alphabet
      {
        var k := rng.RandomInt(maxAlphabetIndex);
        sb := sb + [alphabet[k]];
      }
      r := Success(sb);
    }

    /** readRawWords: a draw n in [count, count + precision], then n distinct
        picks from the list; more picks than words fail. */
    method ReadRawWords(from: seq<string>, count: int, precision: int) returns (r: Result<seq<string>>)
      requires precision >= 0
      modifies rng
      ensures count + precision < 0 || count > |from| ==> r.Failure?
      ensures r.Success? ==>
                count <= |r.value| <= count + precision && multiset(r.value) <= multiset(from)
    {
      var n := rng.RandomBetween(count, count + precision);
      r := rng.RandomElements(from, n);
    }

    /** cleanWords(list, count): exactly `count` picked words, each cleaned,
        joined with spaces. */
    method CleanWords(from: seq<string>, count: int) returns (r: Result<string>, ghost raw: seq<string>)
      modifies rng
      ensures count < 0 || count > |from| ==> r.Failure?
      ensures r.Success? ==>
                |raw| == count && multiset(raw) <= multiset(from)
                && r.value == JoinWithSpace(CleanAll(raw))
    {
      var picked := ReadRawWords(from, count, 0);
      if picked.Failure? {
        return Failure(picked.error), [];
      }
      raw := picked.value;
      var result: seq<string> := [];
      for i := 0 to |picked.value|
        invariant |result| == i
        invariant forall j :: 0 <= j < i ==> result[j] == CleanWord(picked.value[j])
      {
        result := result + [CleanWord(picked.value[i])];
      }
      assert result == CleanAll(raw);
      r := Success(JoinWithSpace(result));
    }

    /** sentence(list, wordCount): between wordCount and wordCount + 6 picked
        words joined with spaces, shaped into capitalised sentences, then
        finished with a period. */
    method Sentence(from: seq<string>, wordCount: int) returns (r: Result<string>, ghost raw: seq<string>)
      modifies rng
      ensures wordCount + WORD_COUNT_PRECISION_IN_SENTENCE < 0 || wordCount > |from| ==> r.Failure?
      ensures r.Success? ==>
                wordCount <= |raw| <= wordCount + WORD_COUNT_PRECISION_IN_SENTENCE
                && multiset(raw) <= multiset(from)
                && r.value == FinishSentence(capitalizeSentences(JoinWithSpace(raw)))
      ensures r.Success? ==> r.value != [] && r.value[|r.value| - 1] == '.'
    {
      var picked := ReadRawWords(from, wordCount, WORD_COUNT_PRECISION_IN_SENTENCE);
      if picked.Failure? {
        return Failure(picked.error), [];
      }
      raw := picked.value;
      var randomWords := JoinWithSpace(picked.value);
      r := Success(FinishSentence(capitalizeSentences(randomWords)));
    }
  }

  /** Loads the three catalog strings the internal producer is built from;
      a missing or non-string entry fails as the constructor's getString does. */
  method NewTextProducerInternal(dataMaster: DataMaster, rng: RandomSource, capitalizeSentences: string -> string)
    returns (r: Result<TextProducerInternal>)
    ensures GetString(dataMaster.dataSource, LOREM_IPSUM).Failure? ==> r.Failure?
    ensures GetString(dataMaster.dataSource, TEXT).Failure? ==> r.Failure?
    ensures GetString(dataMaster.dataSource, ALPHABET).Failure? ==> r.Failure?
    ensures r.Success? ==>
              r.value.rng == rng
              && r.value.loremIpsum == GetString(dataMaster.dataSource, LOREM_IPSUM).value
              && r.value.text == GetString(dataMaster.dataSource, TEXT).value
              && r.value.alphabet == GetString(dataMaster.dataSource, ALPHABET).value
              && r.value.words == Split(r.value.text, ' ')
              && r.value.capitalizeSentences == capitalizeSentences && r.value.Valid()
  {
    var loremIpsum :- GetString(dataMaster.dataSource, LOREM_IPSUM);
    var text :- GetString(dataMaster.dataSource, TEXT);
    var alphabet :- GetString(dataMaster.dataSource, ALPHABET);
    var internal := new TextProducerInternal(rng, loremIpsum, text, alphabet, capitalizeSentences);
    r := Success(internal);
  }

  class TextProducer {
    const internal: TextProducerInternal
    const rng: RandomSource
    /** The length results are cut to; 0 or less means no limit. */
    var limit: int

    constructor(internal: TextProducerInternal, rng: RandomSource)
      ensures this.internal == internal && this.rng == rng && limit == 0
    {
      this.internal := internal;
      this.rng := rng;
      limit := 0;
    }

    /** limitedTo: sets the limit and hands back the same producer. */
    method LimitedTo(limit: int) returns (r: TextProducer)
      modifies this
      ensures this.limit == limit && r == this
    {
      this.limit := limit;
      r := this;
    }

    /** result(s): s cut to the limit when there is one. */
    function Result(s: string): (r: string)
      reads this
      ensures limit <= 0 ==> r == s
      ensures limit > 0 ==> |r| == (if |s| < limit then |s| else limit) && r == s[..|r|]
    {
      if limit > 0 then Left(s, limit) else s
    }

    /** Cutting twice to the same limit changes nothing more. */
    lemma ResultIdempotent(s: string)
      ensures Result(Result(s)) == Result(s)
    {
    }

    /** word(count): result of cleanWords(count) over the text's words. */
    method Word(count: int) returns (r: Result<string>, ghost raw: seq<string>)
      modifies internal.rng
      ensures count < 0 || count > |internal.words| ==> r.Failure?
      ensures r.Success? ==>
                |raw| == count && multiset(raw) <= multiset(internal.words)
                && r.value == Result(JoinWithSpace(CleanAll(raw)))
    {
      var cleaned;
      cleaned, raw := internal.CleanWords(internal.words, count);
      if cleaned.Failure? {
        return Failure(cleaned.error), raw;
      }
      r := Success(Result(cleaned.value));
    }

    /** word(): word(3). */
    method DefaultWord() returns (r: Result<string>, ghost raw: seq<string>)
      modifies internal.rng
      ensures DEFAULT_WORD_COUNT > |internal.words| ==> r.Failure?
      ensures r.Success? ==> |raw| == DEFAULT_WORD_COUNT && r.value == Result(JoinWithSpace(CleanAll(raw)))
    {
      r, raw := Word(DEFAULT_WORD_COUNT);
    }

    /** sentence(wordCount): result of the internal sentence over the
        text's words. */
    method Sentence(wordCount: int) returns (r: Result<string>, ghost whole: string)
      modifies internal.rng
      ensures wordCount > |internal.words| ==> r.Failure?
      ensures r.Success? ==> whole != [] && whole[|whole| - 1] == '.' && r.value == Result(whole)
    {
      var s, raw := internal.Sentence(internal.words, wordCount);
      if s.Failure? {
        return Failure(s.error), "";
      }
      whole := s.value;
      r := Success(Result(s.value));
    }

    /** sentences(n): n sentences of three words or more each; a negative n
        fails when the list is sized. */
    method Sentences(sentenceCount: int) returns (r: Result<seq<string>>)
      modifies internal.rng
      ensures sentenceCount < 0 ==>
                r == Failure(IllegalArgument("Illegal Capacity: " + IntToString(sentenceCount)))
      ensures sentenceCount > 0 && DEFAULT_WORD_COUNT_IN_SENTENCE > |internal.words| ==> r.Failure?
      ensures r.Success? ==> |r.value| == sentenceCount
      ensures r.Success? && limit <= 0 ==>
                forall i :: 0 <= i < |r.value| ==> r.value[i] != [] && r.value[i][|r.value[i]| - 1] == '.'
    {
      if sentenceCount < 0 {
        return Failure(IllegalArgument("Illegal Capacity: " + IntToString(sentenceCount)));
      }
      var sentences: seq<string> := [];
      for i := 0 to sentenceCount
        invariant |sentences| == i
        invariant DEFAULT_WORD_COUNT_IN_SENTENCE > |internal.words| ==> i == 0
        invariant limit <= 0 ==>
                    forall j :: 0 <= j < i ==> sentences[j] != [] && sentences[j][|sentences[j]| - 1] == '.'
      {
        var s, whole := Sentence(DEFAULT_WORD_COUNT_IN_SENTENCE);
        if s.Failure? {
          return Failure(s.error);
        }
        sentences := sentences + [s.value];
      }
      r := Success(sentences);
    }

    /** paragraph(k): k plus 1..3 sentences joined with spaces, then cut to
        the limit. */
    method Paragraph(sentenceCount: int) returns (r: Result<string>, ghost sentences: seq<string>)
      modifies internal.rng, rng
      ensures sentenceCount + SENTENCE_COUNT_PRECISION_MAX < 0 ==> r.Failure?
      ensures r.Success? ==>
                sentenceCount + SENTENCE_COUNT_PRECISION_MIN <= |sentences| <= sentenceCount + SENTENCE_COUNT_PRECISION_MAX
                && r.value == Result(JoinWithSpace(sentences))
    {
      var extra := rng.RandomBetween(SENTENCE_COUNT_PRECISION_MIN, SENTENCE_COUNT_PRECISION_MAX);
      var list := Sentences(sentenceCount + extra);
      if list.Failure? {
        return Failure(list.error), [];
      }
      sentences := list.value;
      r := Success(Result(JoinWithSpace(list.value)));
    }

    /** randomString(n): the internal random string; the limit does not apply. */
    method RandomString(charsCount: int) returns (r: Result<string>)
      requires internal.Valid()
      modifies internal.rng
      ensures charsCount < 0 ==> r == Failure(NegativeArraySize)
      ensures charsCount >= 0 && (charsCount == 0 || internal.alphabet != []) ==>
                r.Success? && |r.value| == charsCount
                && forall i :: 0 <= i < charsCount ==> r.value[i] in internal.alphabet
    {
      r := internal.RandomString(charsCount);
    }
  }
}
