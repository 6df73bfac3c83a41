/**
 * Caption chunking for reels (`split_script_into_chunks`): the script's words,
 * taken `maxWords` at a time, each group re-joined with single spaces.
 */
module Chunker {
  import opened Text

  /** The chunk size the reel assembler asks for. */
  const ReelMaxWords: nat := 10

  /** Reference grouping: consecutive runs of `maxWords` words, the last run possibly shorter. */
  function Groups(words: seq<string>, maxWords: nat): seq<seq<string>>
    requires maxWords > 0
    decreases |words|
  {
    if words == [] then []
    else if |words| <= maxWords then [words]
    else [words[..maxWords]] + Groups(words[maxWords..], maxWords)
  }

  /** Flattening: the groups one after the other. */
  function Concat(groups: seq<seq<string>>): seq<string> {
    if groups == [] then [] else groups[0] + Concat(groups[1..])
  }

  /** `" ".join(group)` for every group, in order. */
  function JoinEach(groups: seq<seq<string>>): seq<string> {
    seq(|groups|, k requires 0 <= k < |groups| => Join(" ", groups[k]))
  }

  /** `str.split()` of every chunk, in order. */
  function WordsOfEach(chunks: seq<string>): seq<seq<string>> {
    seq(|chunks|, k requires 0 <= k < |chunks| => Words(chunks[k]))
  }

  /** The words still to be chunked once the loop index has reached `i`. */
  function From(words: seq<string>, i: nat): seq<string> {
    if i <= |words| then words[i..] else []
  }

  /**
   * The grouping loses nothing and reorders nothing, every group but the last is
   * full, and the last holds between 1 and `maxWords` words.
   */
  lemma {:induction false} GroupsPartition(words: seq<string>, maxWords: nat)
    requires maxWords > 0
    ensures Concat(Groups(words, maxWords)) == words
    ensures forall k :: 0 <= k < |Groups(words, maxWords)| - 1 ==> |Groups(words, maxWords)[k]| == maxWords
    ensures forall k :: 0 <= k < |Groups(words, maxWords)| ==> 1 <= |Groups(words, maxWords)[k]| <= maxWords
    ensures Groups(words, maxWords) == [] <==> words == []
    decreases |words|
  {
    var gs := Groups(words, maxWords);
    if words == [] {
    } else if |words| <= maxWords {
      assert gs == [words];
      assert Concat(gs) == words + Concat([]);
    } else {
      var rest := Groups(words[maxWords..], maxWords);
      GroupsPartition(words[maxWords..], maxWords);
      assert gs == [words[..maxWords]] + rest;
      assert gs[1..] == rest;
      assert Concat(gs) == words[..maxWords] + Concat(rest);
      assert words[..maxWords] + words[maxWords..] == words;
    }
  }

  /**
   * There are `ceil(|words| / maxWords)` groups: `n` groups hold more than
   * `(n - 1) * maxWords` words and at most `n * maxWords`.
   */
  lemma {:induction false} GroupsCount(words: seq<string>, maxWords: nat)
    requires maxWords > 0
    ensures |words| <= |Groups(words, maxWords)| * maxWords
    ensures words != [] ==> (|Groups(words, maxWords)| - 1) * maxWords < |words|
    decreases |words|
  {
    if |words| > maxWords {
      var n := |Groups(words[maxWords..], maxWords)|;
      GroupsCount(words[maxWords..], maxWords);
      assert |Groups(words, maxWords)| == n + 1;
      assert (n + 1) * maxWords == n * maxWords + maxWords;
    }
  }

  /** Every member of every group is a member of `words`. */
  lemma {:induction false} GroupsDrawFrom(words: seq<string>, maxWords: nat)
    requires maxWords > 0
    ensures forall g, w :: g in Groups(words, maxWords) && w in g ==> w in words
    decreases |words|
  {
    if |words| > maxWords {
      GroupsDrawFrom(words[maxWords..], maxWords);
      assert Groups(words, maxWords) == [words[..maxWords]] + Groups(words[maxWords..], maxWords);
    }
  }

  /** Splitting the single-space join of a group of words gives the group back. */
  lemma WordsOfJoinGroup(g: seq<string>)
    requires forall w :: w in g ==> IsWord(w)
    ensures Words(Join(" ", g)) == g
  {
    assert forall i :: 0 <= i < |g| ==> IsWord(g[i]) by {
      assert forall i :: 0 <= i < |g| ==> g[i] in g;
    }
    WordsOfJoin(g);
  }

  /** Splitting the single-space joins of word groups gives the groups back. */
  lemma WordsOfJoinEach(groups: seq<seq<string>>)
    requires forall g, w :: g in groups && w in g ==> IsWord(w)
    ensures WordsOfEach(JoinEach(groups)) == groups
  {
    forall k | 0 <= k < |groups| ensures Words(Join(" ", groups[k])) == groups[k] {
      assert groups[k] in groups;
      WordsOfJoinGroup(groups[k]);
    }
  }

  lemma JoinEachCons(g: seq<string>, gs: seq<seq<string>>)
    ensures JoinEach([g] + gs) == [Join(" ", g)] + JoinEach(gs)
  {
  }

  /** One step of the chunking loop: the group starting at index `i`. */
  lemma GroupsFrom(words: seq<string>, i: nat, maxWords: nat)
    requires maxWords > 0 && i < |words|
    ensures var j := if i + maxWords < |words| then i + maxWords else |words|;
      JoinEach(Groups(From(words, i), maxWords))
        == [Join(" ", words[i..j])] + JoinEach(Groups(From(words, i + maxWords), maxWords))
  {
    var rest := words[i..];
    if |rest| <= maxWords {
      assert From(words, i + maxWords) == [];
      assert Groups(From(words, i + maxWords), maxWords) == [];
      assert words[i..|words|] == words[i..];
      assert Groups(rest, maxWords) == [words[i..]] + [];
      JoinEachCons(words[i..], []);
    } else {
      assert rest[..maxWords] == words[i..i + maxWords];
      assert rest[maxWords..] == From(words, i + maxWords);
      assert Groups(rest, maxWords) == [words[i..i + maxWords]] + Groups(From(words, i + maxWords), maxWords);
      JoinEachCons(words[i..i + maxWords], Groups(From(words, i + maxWords), maxWords));
    }
  }

  /** The words of the chunks of a text are the groups of its words. */
  lemma ChunkWords(text: string, maxWords: nat)
    requires maxWords > 0
    ensures WordsOfEach(JoinEach(Groups(Words(text), maxWords))) == Groups(Words(text), maxWords)
  {
    var words := Words(text);
    WordsAreWords(text);
    GroupsDrawFrom(words, maxWords);
    WordsOfJoinEach(Groups(words, maxWords));
  }

  /** Flattening the chunks' words gives back the text's words, in order. */
  lemma ChunksFlatten(text: string, maxWords: nat)
    requires maxWords > 0
    ensures Concat(WordsOfEach(JoinEach(Groups(Words(text), maxWords)))) == Words(text)
  {
    GroupsPartition(Words(text), maxWords);
    ChunkWords(text, maxWords);
  }

  /** What the chunking loop's result means for the text it was given. */
  lemma ChunksOfText(text: string, maxWords: nat, chunks: seq<string>)
    requires maxWords > 0
    requires chunks == JoinEach(Groups(Words(text), maxWords))
    ensures WordsOfEach(chunks) == Groups(Words(text), maxWords)
    ensures Concat(WordsOfEach(chunks)) == Words(text)
    ensures chunks == [] <==> AllSpace(text)
  {
    ChunkWords(text, maxWords);
    ChunksFlatten(text, maxWords);
    GroupsPartition(Words(text), maxWords);
  }

  /**
   * `split_script_into_chunks(text, max_words)`: the loop over
   * `range(0, len(words), max_words)` that appends one joined group per step.
   * Splitting each chunk gives back its group of the text's words (so each chunk
   * is its words single-spaced, and `GroupsPartition` bounds its size);
   * flattening those gives back the text's words in order; a blank text has no
   * chunks.
   */
  method SplitScriptIntoChunks(text: string, maxWords: nat) returns (chunks: seq<string>)
    requires maxWords > 0
    ensures chunks == JoinEach(Groups(Words(text), maxWords))
    ensures WordsOfEach(chunks) == Groups(Words(text), maxWords)
    ensures Concat(WordsOfEach(chunks)) == Words(text)
    ensures chunks == [] <==> AllSpace(text)
  {
    var words := Words(text);
    chunks := ChunkLoop(words, maxWords);
    ChunksOfText(text, maxWords, chunks);
  }

  /** The loop of `split_script_into_chunks`, over the already split words. */
  method ChunkLoop(words: seq<string>, maxWords: nat) returns (chunks: seq<string>)
    requires maxWords > 0
    ensures chunks == JoinEach(Groups(words, maxWords))
  {
    chunks := [];
    var i := 0;
    while i < |words|
      invariant JoinEach(Groups(words, maxWords)) == chunks + JoinEach(Groups(From(words, i), maxWords))
    {
      var j := if i + maxWords < |words| then i + maxWords else |words|;
      GroupsFrom(words, i, maxWords);
      SeqAssoc(chunks, [Join(" ", words[i..j])], JoinEach(Groups(From(words, i + maxWords), maxWords)));
      chunks := chunks + [Join(" ", words[i..j])];
      i := i + maxWords;
    }
    assert From(words, i) == [];
  }
}
