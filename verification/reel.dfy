/**
 * Reel assembly (`create_reel_video`): the hashtag-free script is cut into
 * caption chunks of ten words, each chunk becomes a card of fixed length, the
 * cards are played one after the other, and a voice-over, when there is one,
 * stretches or trims the reel to the longer of the two tracks. Durations are in
 * tenths of a second.
 */
module Reel {
  import opened Wrappers
  import opened Text
  import opened Chunker
  import opened Speech

  /** Each caption card is on screen for 3.5 s. */
  const CardTenths: nat := 35

  /** One caption card: its text and how long it is shown. */
  datatype Card = Card(caption: string, tenths: nat)

  /**
   * What `create_reel_video` writes: its cards in order, the length of the cards
   * played back to back, the length of the voice-over as attached (if any), and
   * the length of the written reel.
   */
  datatype ReelPlan = ReelPlan(cards: seq<Card>, videoTenths: nat, audioTenths: Option<nat>, finalTenths: nat)

  /** Length of cards played one after the other (`concatenate_videoclips`). */
  function Played(cards: seq<Card>): nat {
    if cards == [] then 0 else cards[0].tenths + Played(cards[1..])
  }

  /** Cards of one fixed length play for that length times their number. */
  lemma {:induction false} PlayedUniform(cards: seq<Card>, tenths: nat)
    requires forall k :: 0 <= k < |cards| ==> cards[k].tenths == tenths
    ensures Played(cards) == tenths * |cards|
  {
    if cards != [] {
      PlayedUniform(cards[1..], tenths);
    }
  }

  /** The caption chunks of a reel script. */
  function ReelChunks(script: string): seq<string> {
    JoinEach(Groups(Words(ReelSpokenText(script)), ReelMaxWords))
  }

  function Max(a: nat, b: nat): (m: nat)
    ensures m >= a && m >= b && (m == a || m == b)
  {
    if a >= b then a else b
  }

  /**
   * The timing of a reel: every card lasts 3.5 s and the cards play back to
   * back; without a voice-over the reel is as long as its cards; with one, it
   * is as long as the longer track, and the voice-over is set to that length.
   */
  predicate Timed(plan: ReelPlan, audio: Option<nat>) {
    && (forall k :: 0 <= k < |plan.cards| ==> plan.cards[k].tenths == CardTenths)
    && plan.videoTenths == CardTenths * |plan.cards|
    && match audio
       case None => plan.finalTenths == plan.videoTenths && plan.audioTenths == None
       case Some(a) =>
         && plan.finalTenths >= plan.videoTenths
         && plan.finalTenths >= a
         && (plan.finalTenths == plan.videoTenths || plan.finalTenths == a)
         && plan.audioTenths == Some(plan.finalTenths)
  }

  /**
   * `plan` is the reel of `script` with voice-over `audio`: one card per
   * caption chunk of the script, in order, timed as above.
   */
  predicate ReelOf(plan: ReelPlan, script: string, audio: Option<nat>) {
    && |plan.cards| == |ReelChunks(script)|
    && (forall k :: 0 <= k < |plan.cards| ==> plan.cards[k].caption == ReelChunks(script)[k])
    && Timed(plan, audio)
  }

  /**
   * The rendering part of `create_reel_video` for a non-empty chunk list: one
   * 3.5 s card per chunk, in chunk order, played back to back; with a
   * voice-over, both tracks are set to the longer of the two.
   */
  method AssembleReel(chunks: seq<string>, audio: Option<nat>) returns (plan: ReelPlan)
    ensures |plan.cards| == |chunks|
    ensures forall k :: 0 <= k < |chunks| ==> plan.cards[k] == Card(chunks[k], CardTenths)
    ensures Timed(plan, audio)
  {
    var cards: seq<Card> := [];
    for k := 0 to |chunks|
      invariant |cards| == k
      invariant forall j :: 0 <= j < k ==> cards[j] == Card(chunks[j], CardTenths)
    {
      cards := cards + [Card(chunks[k], CardTenths)];
    }
    var video := Played(cards);
    PlayedUniform(cards, CardTenths);
    match audio {
      case None =>
        plan := ReelPlan(cards, video, None, video);
      case Some(a) =>
        var final := Max(video, a);
        plan := ReelPlan(cards, video, Some(final), final);
    }
  }

  /**
   * `create_reel_video(script, audio_file, output_file)`. `audio` is the length
   * of the voice-over when its file exists; `written` is whether moviepy renders
   * and writes the file. A blank script leaves no chunk and fails, as does a
   * failed write; otherwise the reel is assembled from the script's caption
   * chunks.
   */
  method CreateReelVideo(script: string, audio: Option<nat>, written: bool) returns (plan: Option<ReelPlan>)
    ensures plan.Some? <==> written && !AllSpace(script)
    ensures plan.Some? ==> ReelOf(plan.value, script, audio)
  {
    var spoken := ReelSpokenText(script);
    var chunks := SplitScriptIntoChunks(spoken, ReelMaxWords);
    if chunks == [] {
      return None;
    }
    if !written {
      return None;
    }
    var assembled := AssembleReel(chunks, audio);
    plan := Some(assembled);
  }

  /**
   * A reel has `ceil(w / 10)` cards for the `w` words of its caption text, and
   * every card shows between one and ten of them, in order.
   */
  lemma ReelCards(script: string)
    ensures var w := |Words(ReelSpokenText(script))|;
      && w <= |ReelChunks(script)| * ReelMaxWords
      && (w > 0 ==> (|ReelChunks(script)| - 1) * ReelMaxWords < w)
    ensures forall k :: 0 <= k < |ReelChunks(script)| ==> 1 <= |Words(ReelChunks(script)[k])| <= ReelMaxWords
    ensures Concat(WordsOfEach(ReelChunks(script))) == Words(ReelSpokenText(script))
  {
    var words := Words(ReelSpokenText(script));
    var groups := Groups(words, ReelMaxWords);
    GroupsCount(words, ReelMaxWords);
    GroupsPartition(words, ReelMaxWords);
    ChunksOfText(ReelSpokenText(script), ReelMaxWords, ReelChunks(script));
    forall k | 0 <= k < |ReelChunks(script)| ensures 1 <= |Words(ReelChunks(script)[k])| <= ReelMaxWords {
      assert WordsOfEach(ReelChunks(script))[k] == groups[k];
    }
  }
}
