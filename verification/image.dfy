/**
 * Still images (`create_image`): a 1080 x 1080 card with an optional title and
 * the text wrapped at 24 characters, drawn line by line down the card until the
 * cursor passes the bottom limit. Only where each piece of text lands is
 * modelled; fonts, colours and pixels are not.
 */
module Image {
  import opened Wrappers
  import opened Text

  /** Where the cursor starts, how far the title and each body line move it, and where drawing stops. */
  const TopY: int := 60
  const TitleAdvance: int := 140
  const LineAdvance: int := 70
  const BottomY: int := 980

  /** One piece of text drawn at height `y` (all text is drawn at x = 60). */
  datatype Placed = Placed(y: int, text: string)

  /** What is drawn on a card: its title, if any, and its body lines from the top. */
  datatype Layout = Layout(title: Option<Placed>, body: seq<Placed>)

  /**
   * `textwrap.wrap(line, width=24) or [""]`: the wrapped pieces of one line, or
   * a single empty line when wrapping yields none. `wrap` stands for
   * `textwrap.wrap` at width 24.
   */
  function WrapOrBlank(line: string, wrap: string -> seq<string>): (pieces: seq<string>)
    ensures pieces != []
    ensures wrap(line) != [] ==> pieces == wrap(line)
  {
    if wrap(line) == [] then [""] else wrap(line)
  }

  /** The wrapped lines of a text's lines, in order. */
  function WrappedLines(lines: seq<string>, wrap: string -> seq<string>): (wrapped: seq<string>)
    ensures |wrapped| >= |lines|
  {
    if lines == [] then [] else WrapOrBlank(lines[0], wrap) + WrappedLines(lines[1..], wrap)
  }

  /** Wrapping a text is wrapping its first lines, then its last. */
  lemma {:induction false} WrappedLinesAppend(a: seq<string>, b: seq<string>, wrap: string -> seq<string>)
    ensures WrappedLines(a + b, wrap) == WrappedLines(a, wrap) + WrappedLines(b, wrap)
  {
    if a != [] {
      var first := WrapOrBlank(a[0], wrap);
      assert WrappedLines(a + b, wrap) == first + WrappedLines(a[1..] + b, wrap) by {
        assert (a + b)[0] == a[0] && (a + b)[1..] == a[1..] + b;
      }
      WrappedLinesAppend(a[1..], b, wrap);
      SeqAssoc(first, WrappedLines(a[1..], wrap), WrappedLines(b, wrap));
    } else {
      assert a + b == b;
    }
  }

  /** Lines that wrap to nothing each stay on the card as one empty line. */
  lemma {:induction false} BlankLinesKept(lines: seq<string>, wrap: string -> seq<string>)
    requires forall i :: 0 <= i < |lines| ==> wrap(lines[i]) == []
    ensures |WrappedLines(lines, wrap)| == |lines|
    ensures forall k :: 0 <= k < |lines| ==> WrappedLines(lines, wrap)[k] == ""
  {
    if lines != [] {
      BlankLinesKept(lines[1..], wrap);
    }
  }

  /**
   * The loop `for line in text.splitlines(): wrapped.extend(...)`, collecting
   * the wrapped lines in order.
   */
  method WrapAll(lines: seq<string>, wrap: string -> seq<string>) returns (wrapped: seq<string>)
    ensures wrapped == WrappedLines(lines, wrap)
  {
    wrapped := [];
    for i := 0 to |lines|
      invariant wrapped == WrappedLines(lines[..i], wrap)
    {
      WrappedLinesAppend(lines[..i], [lines[i]], wrap);
      assert lines[..i + 1] == lines[..i] + [lines[i]];
      wrapped := wrapped + WrapOrBlank(lines[i], wrap);
    }
    assert lines[..|lines|] == lines;
  }

  /** A title is drawn when one is given and it is not empty. */
  predicate HasTitle(title: Option<string>) {
    title.Some? && title.value != []
  }

  /** Where the first body line is drawn. */
  function BodyStart(title: Option<string>): (y: int)
    ensures TopY <= y <= BottomY
  {
    if HasTitle(title) then TopY + TitleAdvance else TopY
  }

  /**
   * How many body lines fit from `start`: the first is always drawn, and each
   * further one while the cursor has not passed `BottomY`.
   */
  function Capacity(start: int): (n: nat)
    requires start <= BottomY
    ensures start + LineAdvance * (n - 1) <= BottomY < start + LineAdvance * n
  {
    (BottomY - start) / LineAdvance + 1
  }

  function Min(a: nat, b: nat): nat {
    if a <= b then a else b
  }

  /** A card holds 14 body lines without a title and 12 below one. */
  lemma CapacityOfCard()
    ensures Capacity(BodyStart(None)) == 14
    ensures Capacity(TopY + TitleAdvance) == 12
  {
  }

  /**
   * The drawing loop of `create_image`: wrapped line `i` goes at `start + 70 i`,
   * and the loop stops once the cursor has passed `BottomY`.
   */
  method DrawLines(wrapped: seq<string>, start: int) returns (body: seq<Placed>)
    requires start <= BottomY
    ensures |body| == Min(|wrapped|, Capacity(start))
    ensures forall k :: 0 <= k < |body| ==> body[k] == Placed(start + LineAdvance * k, wrapped[k])
  {
    var y := start;
    body := [];
    var i := 0;
    while i < |wrapped|
      invariant 0 <= i <= |wrapped|
      invariant y == start + LineAdvance * i <= BottomY
      invariant |body| == i
      invariant forall k :: 0 <= k < i ==> body[k] == Placed(start + LineAdvance * k, wrapped[k])
    {
      body := body + [Placed(y, wrapped[i])];
      y := y + LineAdvance;
      i := i + 1;
      if y > BottomY {
        break;
      }
    }
  }

  /**
   * `layout` is the card of `text` under `title`: the title at the top when
   * there is a non-empty one, and the first `min(|wrapped|, Capacity(start))`
   * wrapped lines of the text, in order, 70 apart from `start`.
   */
  predicate LaidOut(layout: Layout, text: string, title: Option<string>, wrap: string -> seq<string>) {
    var wrapped := WrappedLines(SplitLines(text), wrap);
    var start := BodyStart(title);
    && layout.title == (if HasTitle(title) then Some(Placed(TopY, title.value)) else None)
    && |layout.body| == Min(|wrapped|, Capacity(start))
    && forall k :: 0 <= k < |layout.body| ==> layout.body[k] == Placed(start + LineAdvance * k, wrapped[k])
  }

  /**
   * `create_image(text, filename, title)`, given the `wrap` of the text's lines
   * and whether saving the picture succeeds. The body lines drawn are the first
   * `min(|wrapped|, Capacity(start))` wrapped lines, 70 apart from `start`: 14
   * at most without a title, 12 at most with one, none below `BottomY`.
   */
  method CreateImage(text: string, title: Option<string>, wrap: string -> seq<string>, saved: bool)
    returns (layout: Option<Layout>)
    ensures layout.Some? <==> saved
    ensures layout.Some? ==> LaidOut(layout.value, text, title, wrap)
    ensures layout.Some? ==> forall p :: p in layout.value.body ==> p.y <= BottomY
    ensures layout.Some? ==> |layout.value.body| <= 14 && (HasTitle(title) ==> |layout.value.body| <= 12)
  {
    var y := TopY;
    var titleAt: Option<Placed> := None;
    if title.Some? && title.value != [] {
      titleAt := Some(Placed(y, title.value));
      y := y + TitleAdvance;
    }
    var wrapped := WrapAll(SplitLines(text), wrap);
    var body := DrawLines(wrapped, y);
    CapacityOfCard();
    forall p | p in body ensures p.y <= BottomY {
      var k :| 0 <= k < |body| && body[k] == p;
    }
    if !saved {
      return None;
    }
    layout := Some(Layout(titleAt, body));
  }
}
