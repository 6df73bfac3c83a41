/**
 * Text generation (`generate_piece`): the language-model backend is asked for a
 * piece of the given kind; its answer is kept, trimmed, when it is long enough,
 * and otherwise a fixed template naming the sub-topic stands in, so generation
 * never fails.
 */
module Content {
  import opened Wrappers
  import opened Text

  /** Answers shorter than this many characters, once trimmed, are rejected. */
  const MinLength: nat := 60

  /** The hashtag every fallback text carries. */
  const LearningTag: string := "#EnglishLearning"

  /**
   * The template's text between the sub-topic and its hashtags. The emoji is
   * written as the four characters the source file itself holds at that point
   * (U+00F0 U+0178 U+02DC U+017D, a UTF-8 emoji read back as Windows-1252),
   * because that is the string the program builds.
   */
  const FallbackPrompt: string := ": What does it mean to you? Comment your own example! \U{F0}\U{178}\U{2DC}\U{17D} "

  /** The hashtag closing every fallback text. */
  const ReelsTag: string := " #EnglishReels"

  /** The template's text after the sub-topic. */
  const FallbackTail: string := FallbackPrompt + (LearningTag + ReelsTag)

  /** The text used when the backend fails or answers too briefly. */
  function FallbackText(kind: string, subTopic: string): (t: string)
    ensures |t| >= MinLength
    ensures Contains(t, subTopic)
    ensures Contains(t, LearningTag)
    ensures '#' in t
  {
    var head := kind + " about ";
    TemplateParts(head, subTopic, FallbackPrompt, LearningTag, ReelsTag);
    head + subTopic + FallbackTail
  }

  /** Where the parts of a template sit in the text built from them. */
  lemma TemplateParts(head: string, sub: string, prompt: string, tag: string, rest: string)
    requires tag != []
    ensures var t := head + sub + (prompt + (tag + rest));
      Contains(t, sub) && Contains(t, tag) && tag[0] in t && |t| >= |prompt| + |tag|
  {
    var t := head + sub + (prompt + (tag + rest));
    assert t[|head|..][..|sub|] == sub;
    ContainsAt(t, sub, |head|);
    var k := |head| + |sub| + |prompt|;
    assert t[k..][..|tag|] == tag;
    ContainsAt(t, tag, k);
    assert t[k] == tag[0];
  }

  /** A string with one non-blank character is not blank. */
  lemma NotAllSpace(s: string, k: nat)
    requires k < |s| && !IsSpace(s[k])
    ensures !AllSpace(s)
  {
  }

  /** The backend's answer is usable when, trimmed, it is at least `MinLength` long. */
  predicate Usable(answer: Option<string>) {
    answer.Some? && |Strip(answer.value)| >= MinLength
  }

  /**
   * `generate_piece(kind, theme, sub_topic)` given the backend's answer (`None`
   * when the call raised). A usable answer is returned trimmed; anything else
   * gives the template. The theme only shapes the prompt, which is not modelled.
   */
  function GeneratePiece(kind: string, theme: string, subTopic: string, answer: Option<string>): (text: string)
    ensures |text| >= MinLength
    ensures Usable(answer) ==> text == Strip(answer.value)
    ensures !Usable(answer) ==> Contains(text, subTopic) && Contains(text, LearningTag)
    ensures !AllSpace(text)
  {
    if answer.Some? && |Strip(answer.value)| >= MinLength then
      var r := Strip(answer.value);
      assert !AllSpace(r) by { NotAllSpace(r, 0); }
      r
    else
      var t := FallbackText(kind, subTopic);
      assert !AllSpace(t) by { var k :| 0 <= k < |t| && t[k] == '#'; NotAllSpace(t, k); }
      t
  }
}
