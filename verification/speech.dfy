/**
 * The hashtag filter in front of speech synthesis and reel captions
 * (`create_tts`, `create_reel_video`): lines holding a `#` are not spoken.
 */
module Speech {
  import opened Text

  /** `a` is `b` with some elements left out, the rest in their original order. */
  predicate IsSubsequence(a: seq<string>, b: seq<string>)
    decreases |b|
  {
    if a == [] then true
    else if b == [] then false
    else (a[0] == b[0] && IsSubsequence(a[1..], b[1..])) || IsSubsequence(a, b[1..])
  }

  /**
   * `[line for line in lines if "#" not in line]`: exactly the lines without a
   * `#` survive, in their original order.
   */
  function WithoutHashtagLines(lines: seq<string>): (kept: seq<string>)
    ensures forall l :: l in kept <==> l in lines && '#' !in l
    ensures IsSubsequence(kept, lines)
  {
    if lines == [] then []
    else if '#' in lines[0] then WithoutHashtagLines(lines[1..])
    else [lines[0]] + WithoutHashtagLines(lines[1..])
  }

  /** Each line without a `#` survives as often as it occurs; no line with one survives. */
  lemma {:induction false} WithoutHashtagLinesCounts(lines: seq<string>)
    ensures forall l :: multiset(WithoutHashtagLines(lines))[l] == if '#' in l then 0 else multiset(lines)[l]
  {
    if lines != [] {
      WithoutHashtagLinesCounts(lines[1..]);
      assert lines == [lines[0]] + lines[1..];
    }
  }

  /** The text `create_tts` hands to the speech service: the hashtag-free lines, newline-joined. */
  function SpokenText(text: string): (spoken: string)
    ensures '#' !in spoken
  {
    var kept := WithoutHashtagLines(SplitLines(text));
    JoinAvoids("\n", kept, '#');
    Join("\n", kept)
  }

  /** Blank text stays blank once its hashtag lines are dropped. */
  lemma SpokenTextOfSpace(text: string)
    ensures AllSpace(text) ==> AllSpace(SpokenText(text))
  {
    if !AllSpace(text) {
      return;
    }
    var lines := SplitLines(text);
    LinesOfSpace(text);
    var kept := WithoutHashtagLines(lines);
    forall i | 0 <= i < |kept| ensures AllSpace(kept[i]) {
      assert kept[i] in kept;
      var j :| 0 <= j < |lines| && lines[j] == kept[i];
    }
    JoinOfSpace("\n", kept);
  }

  /**
   * The caption text of a reel: the spoken text trimmed, or the raw script when
   * that comes out empty. Only the raw fallback can carry a `#`, and the result
   * is blank exactly when the script is.
   */
  function ReelSpokenText(script: string): (t: string)
    ensures Strip(SpokenText(script)) != [] ==> t == Strip(SpokenText(script))
    ensures Strip(SpokenText(script)) == [] ==> t == script
    ensures '#' in t ==> t == script
    ensures AllSpace(t) <==> AllSpace(script)
  {
    var spoken := Strip(SpokenText(script));
    SpokenTextOfSpace(script);
    if spoken == [] then script else spoken
  }
}
