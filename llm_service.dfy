/**
 * The placeholder summary `generateIngredientSummary` (`llmService.ts`) builds from an
 * ingredient's content and title; the simulated one-second delay is not modelled.
 */
module LlmService {
  import opened JsText

  const UntitledPrefix: string := "This appears to be "
  const TitledSuffix: string := "\" appears to be "
  const EmptySentence: string := "an empty ingredient. Consider adding some content to get a meaningful summary."
  const DetailedSentence: string := "a detailed ingredient with substantial content. The key points include: "
  const BriefSentence: string := "a brief ingredient. It contains: "
  const Ellipsis: string := "..."
  /** Content longer than this many UTF-16 code units is cut to them. */
  const ExcerptLength: nat := 100

  /** `title ? `"${title}" appears to be ` : "This appears to be "`. */
  function SummaryPrefix(title: string): string {
    if title != "" then "\"" + title + TitledSuffix else UntitledPrefix
  }

  function GenerateIngredientSummary(content: string, title: string): string {
    var prefix := SummaryPrefix(title);
    if content == "" || IsBlank(content) then prefix + EmptySentence
    else if Utf16Length(content) > ExcerptLength then prefix + (DetailedSentence + Utf16Prefix(content, ExcerptLength) + Ellipsis)
    else prefix + (BriefSentence + content)
  }

  /** Blank content (the empty string included) gets the fixed sentence after the prefix. */
  lemma SummaryOfBlank(content: string, title: string)
    requires IsBlank(content)
    ensures GenerateIngredientSummary(content, title) == SummaryPrefix(title) + EmptySentence
  {
  }

  /** Content longer than 100 code units is quoted by a prefix of it holding its first 100
      code units (99 when the 100th is the first half of a surrogate pair), and an
      ellipsis. */
  lemma SummaryOfLong(content: string, title: string)
    requires !IsBlank(content) && Utf16Length(content) > ExcerptLength
    ensures var r := GenerateIngredientSummary(content, title); var prefix := SummaryPrefix(title);
      var excerpt := Utf16Prefix(content, ExcerptLength);
      && EndsWith(r, excerpt + Ellipsis)
      && r[|prefix| + |DetailedSentence|..][..|excerpt|] == excerpt
      && excerpt == content[..|excerpt|] && |excerpt| < |content|
      && (Utf16Length(excerpt) == ExcerptLength
          || (Utf16Length(excerpt) == ExcerptLength - 1 && CodeUnits(content[|excerpt|]) == 2))
  {
    assert content != "";
    var excerpt := Utf16Prefix(content, ExcerptLength);
    Utf16PrefixOfLong(content, ExcerptLength);
    QuotedAfter(SummaryPrefix(title), DetailedSentence, excerpt, Ellipsis);
  }

  /** A text quoted after a prefix and a sentence sits right after them and, with what
      follows it, ends the whole. */
  lemma QuotedAfter(prefix: string, sentence: string, quoted: string, tail: string)
    ensures var r := prefix + (sentence + quoted + tail);
      EndsWith(r, quoted + tail) && r[|prefix| + |sentence|..][..|quoted|] == quoted
  {
    var r := prefix + (sentence + quoted + tail);
    assert r == (prefix + sentence) + (quoted + tail);
    EndsWithAppend(prefix + sentence, quoted + tail, quoted + tail);
    assert r[|prefix| + |sentence|..] == quoted + tail;
  }

  /** Content of at most 100 code units is quoted whole at the end, and can be read back
      from the summary. */
  lemma SummaryOfShort(content: string, title: string)
    requires !IsBlank(content) && Utf16Length(content) <= ExcerptLength
    ensures var r := GenerateIngredientSummary(content, title); var prefix := SummaryPrefix(title);
      EndsWith(r, content) && r[|prefix| + |BriefSentence|..] == content
  {
    assert content != "";
    ShortSummary(content, title);
    QuotedAtEnd(SummaryPrefix(title), BriefSentence, content);
  }

  lemma ShortSummary(content: string, title: string)
    requires content != "" && !IsBlank(content) && Utf16Length(content) <= ExcerptLength
    ensures GenerateIngredientSummary(content, title) == SummaryPrefix(title) + (BriefSentence + content)
  {
  }

  /** A text quoted last after a prefix and a sentence ends the whole and starts right
      after them. */
  lemma QuotedAtEnd(prefix: string, sentence: string, quoted: string)
    ensures EndsWith(prefix + (sentence + quoted), quoted)
    ensures (prefix + (sentence + quoted))[|prefix| + |sentence|..] == quoted
  {
    assert prefix + (sentence + quoted) == (prefix + sentence) + quoted;
    EndsWithAppend(prefix + sentence, quoted, quoted);
  }

  /** Every summary opens with the prefix. */
  lemma SummaryStartsWithPrefix(content: string, title: string)
    ensures StartsWith(GenerateIngredientSummary(content, title), SummaryPrefix(title))
  {
    var prefix := SummaryPrefix(title);
    var r := GenerateIngredientSummary(content, title);
    assert r[..|prefix|] == prefix;
  }

  /** The two prefixes: a titled one quotes the title, an untitled one is fixed. */
  lemma SummaryPrefixSpec(title: string)
    ensures title != "" ==> SummaryPrefix(title)[1..|title| + 1] == title && SummaryPrefix(title)[0] == '"'
    ensures title == "" ==> SummaryPrefix(title) == UntitledPrefix
  {
    if title != "" {
      assert SummaryPrefix(title) == ("\"" + title) + TitledSuffix;
      assert ("\"" + title)[1..] == title;
    }
  }

  /** A summary is never longer than its prefix, the longest sentence, the excerpt and the
      ellipsis together, whatever the length of the content. */
  lemma GenerateIngredientSummaryBounded(content: string, title: string)
    ensures |GenerateIngredientSummary(content, title)|
      <= |SummaryPrefix(title)| + |DetailedSentence| + ExcerptLength + |Ellipsis|
  {
    assert |BriefSentence| < |DetailedSentence| && |EmptySentence| <= |DetailedSentence| + ExcerptLength;
  }
}
