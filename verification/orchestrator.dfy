/**
 * The daily run (`main`): resolve today's topic, generate seven texts, voice and
 * render the two reels, render the static image and the four carousel slides,
 * then upload and post reel 1, reel 2, the static image and the carousel, in
 * that order, pausing after every reel or static post whose upload succeeded.
 *
 * Every outside service is an input (`Env`), and the run is recorded as a trace
 * of events. Only a failed schedule stops the run; every other failure skips
 * what depends on it.
 */
module Orchestrator {
  import opened Wrappers
  import opened Text
  import Schedule
  import Content
  import Speech
  import Reel
  import Image
  import Publisher

  /** The media files a run produces. */
  datatype Asset = Reel1Video | Reel2Video | PostImage | SlideImage(number: nat)

  /** The four posts, in the order the run makes them. */
  datatype Slot = Reel1 | Reel2 | Static | Carousel

  /** The pause after a reel or static post (`time.sleep(120)`), in seconds. */
  const CooldownSeconds: nat := 120

  /**
   * What the outside world answers. `answers(k)` is the language model's answer
   * to the `k`-th text request (`None` when it raised); `voiceOver(a)` the length
   * in tenths of a second of the speech synthesized for reel `a` (`None` when
   * synthesis failed); `rendered(a)` whether writing file `a` succeeds;
   * `hosted(a)` the URL the upload of `a` returns; `replies(s)` the Graph API's
   * answers to the requests of post `s`; `wrap` is `textwrap.wrap` at width 24.
   */
  datatype Env = Env(
    answers: nat -> Option<string>,
    voiceOver: Asset -> Option<nat>,
    rendered: Asset -> bool,
    hosted: Asset -> Option<string>,
    replies: Slot -> seq<Publisher.Reply>,
    wrap: string -> seq<string>,
    graph: Publisher.GraphConfig)

  /** One step of the run, as it happened. */
  datatype Event =
    | ScheduleFailed(error: Schedule.ScheduleError)
    | TopicChosen(topic: Schedule.Topic)
    | Synthesized(asset: Asset, spoken: string, ok: bool)
    | ReelWritten(asset: Asset, plan: Option<Reel.ReelPlan>)
    | ImageWritten(asset: Asset, layout: Option<Image.Layout>)
    | Uploaded(asset: Asset, url: Option<string>)
    | Posted(slot: Slot, caption: string, media: seq<string>, sent: seq<Publisher.Request>, published: bool)
    | Cooldown(seconds: nat)

  // ----- what a trace says -----

  /** The posts made, in order. */
  function PostedSlots(trace: seq<Event>): seq<Slot> {
    if trace == [] then []
    else (if trace[0].Posted? then [trace[0].slot] else []) + PostedSlots(trace[1..])
  }

  /** The files uploaded, in order. */
  function UploadedAssets(trace: seq<Event>): seq<Asset> {
    if trace == [] then []
    else (if trace[0].Uploaded? then [trace[0].asset] else []) + UploadedAssets(trace[1..])
  }

  lemma {:induction false} PostedSlotsAppend(a: seq<Event>, b: seq<Event>)
    ensures PostedSlots(a + b) == PostedSlots(a) + PostedSlots(b)
  {
    if a == [] {
      assert a + b == b;
    } else {
      var h := if a[0].Posted? then [a[0].slot] else [];
      assert (a + b)[0] == a[0] && (a + b)[1..] == a[1..] + b;
      assert PostedSlots(a + b) == h + PostedSlots(a[1..] + b);
      PostedSlotsAppend(a[1..], b);
      SeqAssoc(h, PostedSlots(a[1..]), PostedSlots(b));
    }
  }

  lemma {:induction false} UploadedAssetsAppend(a: seq<Event>, b: seq<Event>)
    ensures UploadedAssets(a + b) == UploadedAssets(a) + UploadedAssets(b)
  {
    if a == [] {
      assert a + b == b;
    } else {
      var h := if a[0].Uploaded? then [a[0].asset] else [];
      assert (a + b)[0] == a[0] && (a + b)[1..] == a[1..] + b;
      assert UploadedAssets(a + b) == h + UploadedAssets(a[1..] + b);
      UploadedAssetsAppend(a[1..], b);
      SeqAssoc(h, UploadedAssets(a[1..]), UploadedAssets(b));
    }
  }

  /** A reel or static post, as opposed to the carousel. */
  predicate SinglePost(e: Event) {
    e.Posted? && e.slot != Carousel
  }

  /**
   * The pacing rule: every reel or static post is followed at once by a
   * 120-second pause, and every pause follows such a post. The carousel, last,
   * gets none.
   */
  predicate CooledDown(trace: seq<Event>) {
    && (forall i :: 0 <= i < |trace| && SinglePost(trace[i]) ==>
          i + 1 < |trace| && trace[i + 1] == Cooldown(CooldownSeconds))
    && (forall i :: 0 <= i < |trace| && trace[i].Cooldown? ==> i > 0 && SinglePost(trace[i - 1]))
  }

  lemma CooledDownAppend(a: seq<Event>, b: seq<Event>)
    requires CooledDown(a) && CooledDown(b)
    ensures CooledDown(a + b)
  {
    var t := a + b;
    forall i | 0 <= i < |t| && SinglePost(t[i])
      ensures i + 1 < |t| && t[i + 1] == Cooldown(CooldownSeconds)
    {
      if i < |a| {
        assert SinglePost(a[i]);
      } else {
        assert SinglePost(b[i - |a|]);
      }
    }
    forall i | 0 <= i < |t| && t[i].Cooldown? ensures i > 0 && SinglePost(t[i - 1]) {
      if i < |a| {
        assert a[i].Cooldown?;
      } else {
        assert b[i - |a|].Cooldown?;
      }
    }
  }

  /** No upload, post or pause happens in these events. */
  predicate Quiet(events: seq<Event>) {
    forall i :: 0 <= i < |events| ==> !events[i].Uploaded? && !events[i].Posted? && !events[i].Cooldown?
  }

  lemma QuietAppend(a: seq<Event>, b: seq<Event>)
    requires Quiet(a) && Quiet(b)
    ensures Quiet(a + b)
  {
    forall i | 0 <= i < |a + b| ensures !(a + b)[i].Uploaded? && !(a + b)[i].Posted? && !(a + b)[i].Cooldown? {
      if i >= |a| {
        assert (a + b)[i] == b[i - |a|];
      }
    }
  }

  lemma {:induction false} QuietTrace(events: seq<Event>)
    requires Quiet(events)
    ensures PostedSlots(events) == [] && UploadedAssets(events) == [] && CooledDown(events)
  {
    if events != [] {
      QuietTrace(events[1..]);
    }
  }

  // ----- the texts of a run -----

  /** The decimal digit of `d`, for `d` below ten. */
  function Digit(d: nat): string
    requires d < 10
  {
    [(('0' as int) + d) as char]
  }

  /** The kind of the `k`-th text requested: two reel scripts, the static caption, four slides. */
  function Kind(k: nat): string
    requires k < 7
  {
    if k == 0 then "20-second Reel script"
    else if k == 1 then "another 20-second Reel script"
    else if k == 2 then "Static post caption with poll-style CTA"
    else "Carousel slide " + Digit(k - 2)
  }

  /** The `k`-th text of the run. */
  function Piece(k: nat, topic: Schedule.Topic, env: Env): string
    requires k < 7
  {
    Content.GeneratePiece(Kind(k), topic.theme, topic.subTopic, env.answers(k))
  }

  /** The carousel's fixed caption. */
  function CarouselCaption(topic: Schedule.Topic): string {
    "Today's " + topic.theme + " carousel on " + topic.subTopic
    + "! Save this and comment your score \U{F0}\U{178}\U{2018}\U{2021} #EnglishLearning #EnglishTips"
  }

  /** Title of the static image, and of slide `i`. */
  function PostTitle(topic: Schedule.Topic): string {
    topic.theme + ": " + topic.subTopic
  }

  function SlideTitle(theme: string, i: nat): string
    requires i < 10
  {
    theme + " - Slide " + Digit(i)
  }

  /** The caption each post carries: a reel its script, the static post its caption. */
  function CaptionFor(slot: Slot, topic: Schedule.Topic, env: Env): string {
    match slot
    case Reel1 => Piece(0, topic, env)
    case Reel2 => Piece(1, topic, env)
    case Static => Piece(2, topic, env)
    case Carousel => CarouselCaption(topic)
  }

  /** The URL an upload returned, as a list of zero or one. */
  function Hosted(asset: Asset, env: Env): seq<string> {
    if env.hosted(asset).Some? then [env.hosted(asset).value] else []
  }

  /** The media each post links to. */
  function MediaFor(slot: Slot, env: Env): seq<string> {
    match slot
    case Reel1 => Hosted(Reel1Video, env)
    case Reel2 => Hosted(Reel2Video, env)
    case Static => Hosted(PostImage, env)
    case Carousel =>
      Hosted(SlideImage(1), env) + Hosted(SlideImage(2), env) + Hosted(SlideImage(3), env) + Hosted(SlideImage(4), env)
  }

  /**
   * The requests a post sent carry its caption and its media: a reel is one
   * `VIDEO` create of its single URL with the caption, the static post one
   * image create; the carousel creates one caption-less child per URL, in order,
   * stops at the first child without an id, and otherwise creates the parent
   * from the children's ids, comma-joined, with the caption. When the (parent)
   * create gets an id back, the publish of that id follows and decides whether
   * the post is published; otherwise it is not.
   */
  predicate SentFor(slot: Slot, caption: string, media: seq<string>, sent: seq<Publisher.Request>, published: bool,
                    replies: seq<Publisher.Reply>, cfg: Publisher.GraphConfig)
  {
    match slot
    case Carousel =>
      && (forall k :: 0 <= k < |sent| && k < |media| ==> sent[k] == Publisher.ChildCreate(cfg, media[k]))
      && (Publisher.FirstMissing(replies, |media|) < |media| ==>
            |sent| == Publisher.FirstMissing(replies, |media|) + 1)
      && (Publisher.FirstMissing(replies, |media|) == |media| ==>
            && |media| < |sent| <= |media| + 2
            && sent[|media|] == Publisher.ParentCreate(cfg, caption, Join(",", Publisher.ChildIds(replies, |media|)))
            && (|sent| == |media| + 2 <==> Publisher.ReplyAt(replies, |media|).id.Some?))
      && (Publisher.FirstMissing(replies, |media|) < |media| ==> !published)
      && (Publisher.FirstMissing(replies, |media|) == |media| ==>
            Publisher.PublishTail(cfg, sent, replies, published, |media|))
    case _ =>
      && |media| == 1 && 1 <= |sent| <= 2
      && sent[0] == SingleCreate(slot, cfg, media[0], caption)
      && (|sent| == 2 <==> Publisher.ReplyAt(replies, 0).id.Some?)
      && Publisher.PublishTail(cfg, sent, replies, published, 0)
  }

  /** The create request of a reel (`VIDEO`) or of the static image. */
  function SingleCreate(slot: Slot, cfg: Publisher.GraphConfig, url: string, caption: string): Publisher.Request {
    if slot == Static then Publisher.ImageCreate(cfg, url, caption) else Publisher.VideoCreate(cfg, url, caption)
  }

  /**
   * `e` is post `slot` made with `caption` and `media`: requests that carry
   * both, and a well-sequenced exchange.
   */
  predicate PostOf(e: Event, slot: Slot, caption: string, media: seq<string>, env: Env) {
    && e.Posted? && e.slot == slot && e.caption == caption && e.media == media
    && SentFor(slot, caption, media, e.sent, e.published, env.replies(slot), env.graph)
    && Publisher.WellSequenced(env.graph, e.sent, env.replies(slot), e.published)
  }

  /** A post event made the right call: its own caption and its own media. */
  predicate PostedAs(e: Event, topic: Schedule.Topic, env: Env)
    requires e.Posted?
  {
    PostOf(e, e.slot, CaptionFor(e.slot, topic, env), MediaFor(e.slot, env), env)
  }

  /**
   * Post `i` comes right after the uploads that returned its media: one upload
   * per URL, in the order of the URLs.
   */
  predicate AfterUploads(trace: seq<Event>, i: nat)
    requires i < |trace| && trace[i].Posted?
  {
    && |trace[i].media| <= i
    && forall k :: 0 <= k < |trace[i].media| ==> UploadOf(trace[i - |trace[i].media| + k], trace[i].media[k])
  }

  /** `e` is an upload that returned `url`. */
  predicate UploadOf(e: Event, url: string) {
    e.Uploaded? && e.url == Some(url)
  }

  /** Every post comes right after the uploads of its media. */
  predicate UploadsFirst(trace: seq<Event>) {
    forall i: nat {:trigger AfterUploads(trace, i)} :: i < |trace| && trace[i].Posted? ==> AfterUploads(trace, i)
  }

  predicate PostsFaithful(trace: seq<Event>, topic: Schedule.Topic, env: Env) {
    forall i {:trigger PostedAs(trace[i], topic, env)} :: 0 <= i < |trace| && trace[i].Posted? ==> PostedAs(trace[i], topic, env)
  }

  // ----- what a run should do -----

  /** All four slides were written and uploaded. */
  predicate SlidesRendered(env: Env) {
    forall i :: 1 <= i <= 4 ==> env.rendered(SlideImage(i))
  }

  predicate SlidesHosted(env: Env) {
    forall i :: 1 <= i <= 4 ==> env.hosted(SlideImage(i)).Some?
  }

  /**
   * The posts a run makes: each reel and the static image when its file was
   * written and its upload returned a URL, and the carousel when all four
   * slides were written and all four uploads returned a URL. Generated texts
   * are never blank, so a reel fails only when its file cannot be written.
   */
  function PlannedSlots(env: Env): seq<Slot> {
    (if env.rendered(Reel1Video) && env.hosted(Reel1Video).Some? then [Reel1] else [])
    + (if env.rendered(Reel2Video) && env.hosted(Reel2Video).Some? then [Reel2] else [])
    + (if env.rendered(PostImage) && env.hosted(PostImage).Some? then [Static] else [])
    + (if SlidesRendered(env) && SlidesHosted(env) then [Carousel] else [])
  }

  /** The uploads a run makes: every written file, the slides only when all four were written. */
  function PlannedUploads(env: Env): seq<Asset> {
    (if env.rendered(Reel1Video) then [Reel1Video] else [])
    + (if env.rendered(Reel2Video) then [Reel2Video] else [])
    + (if env.rendered(PostImage) then [PostImage] else [])
    + (if SlidesRendered(env) then [SlideImage(1), SlideImage(2), SlideImage(3), SlideImage(4)] else [])
  }

  // ----- the steps of a run -----

  /**
   * `create_tts` for one reel: the script without its hashtag lines is sent to
   * the speech service; the voice-over is there when synthesis succeeded.
   */
  method MakeVoice(asset: Asset, script: string, env: Env) returns (audio: Option<nat>, events: seq<Event>)
    ensures audio == env.voiceOver(asset)
    ensures events == [Synthesized(asset, Speech.SpokenText(script), audio.Some?)]
    ensures '#' !in events[0].spoken
  {
    audio := env.voiceOver(asset);
    events := [Synthesized(asset, Speech.SpokenText(script), audio.Some?)];
  }

  /**
   * `e` records reel `asset` made from `script` with voice-over `audio`: the
   * file is written exactly when it can be and the script is not blank, and
   * then it is the script's reel.
   */
  predicate ReelMade(e: Event, asset: Asset, script: string, audio: Option<nat>, env: Env) {
    && e.ReelWritten? && e.asset == asset
    && (e.plan.Some? <==> env.rendered(asset) && !AllSpace(script))
    && (e.plan.Some? ==> Reel.ReelOf(e.plan.value, script, audio))
  }

  /**
   * `e` records card `asset` drawn from `text` under `title`: the file is
   * written exactly when it can be, and then it shows that title and text.
   */
  predicate ImageMade(e: Event, asset: Asset, text: string, title: string, env: Env) {
    && e.ImageWritten? && e.asset == asset
    && (e.layout.Some? <==> env.rendered(asset))
    && (e.layout.Some? ==> Image.LaidOut(e.layout.value, text, Some(title), env.wrap))
  }

  /** `create_reel_video` for one reel, with the voice-over if there is one. */
  method MakeReel(asset: Asset, script: string, audio: Option<nat>, env: Env) returns (ok: bool, events: seq<Event>)
    ensures |events| == 1 && ReelMade(events[0], asset, script, audio, env)
    ensures ok <==> events[0].plan.Some?
    ensures ok <==> env.rendered(asset) && !AllSpace(script)
    ensures Quiet(events)
  {
    var plan := Reel.CreateReelVideo(script, audio, env.rendered(asset));
    events := [ReelWritten(asset, plan)];
    ok := plan.Some?;
  }

  /** `create_image` for one card. */
  method MakeImage(asset: Asset, text: string, title: string, env: Env) returns (ok: bool, events: seq<Event>)
    ensures |events| == 1 && ImageMade(events[0], asset, text, title, env)
    ensures ok == env.rendered(asset)
    ensures Quiet(events)
  {
    var layout := Image.CreateImage(text, Some(title), env.wrap, env.rendered(asset));
    events := [ImageWritten(asset, layout)];
    ok := layout.Some?;
  }

  /** One media step of a run, with the text (and title) it works from. */
  datatype Step =
    | Voice(asset: Asset, script: string)
    | Film(asset: Asset, script: string)
    | Draw(asset: Asset, text: string, title: string)

  /**
   * `e` records `step`: the voice-over of the script without its hashtag
   * lines, the reel made from the script with the asset's voice-over, or the
   * card drawn from the text under the title.
   */
  predicate Made(e: Event, step: Step, env: Env) {
    match step
    case Voice(asset, script) => e == Synthesized(asset, Speech.SpokenText(script), env.voiceOver(asset).Some?)
    case Film(asset, script) => ReelMade(e, asset, script, env.voiceOver(asset), env)
    case Draw(asset, text, title) => ImageMade(e, asset, text, title, env)
  }

  /** `events` records `steps`, one event per step, in order. */
  predicate Follows(events: seq<Event>, steps: seq<Step>, env: Env) {
    && |events| == |steps|
    && forall i {:trigger Made(events[i], steps[i], env)} :: 0 <= i < |steps| ==> Made(events[i], steps[i], env)
  }

  lemma FollowsOne(e: Event, step: Step, env: Env)
    requires Made(e, step, env)
    ensures Follows([e], [step], env)
  {
  }

  /** Steps done one after the other are recorded one after the other. */
  lemma FollowsAppend(a: seq<Event>, b: seq<Event>, sa: seq<Step>, sb: seq<Step>, env: Env)
    requires Follows(a, sa, env) && Follows(b, sb, env)
    ensures Follows(a + b, sa + sb, env)
  {
    forall i | 0 <= i < |sa + sb| ensures Made((a + b)[i], (sa + sb)[i], env) {
      if i < |sa| {
        assert Made(a[i], sa[i], env);
      } else {
        assert Made(b[i - |sa|], sb[i - |sa|], env);
      }
    }
  }

  /** Both voice-overs, then both reels, each from its own script. */
  function ReelSteps(script1: string, script2: string): seq<Step> {
    [Voice(Reel1Video, script1)] + [Voice(Reel2Video, script2)] + [Film(Reel1Video, script1)] + [Film(Reel2Video, script2)]
  }

  /** Slide `i`, for `i` from 1 to 4, is drawn from the `i`-th slide text under its own title. */
  function SlideSteps(slideTexts: seq<string>, theme: string): (steps: seq<Step>)
    requires |slideTexts| == 4
    ensures |steps| == 4
  {
    seq(4, k requires 0 <= k < 4 => Draw(SlideImage(k + 1), slideTexts[k], SlideTitle(theme, k + 1)))
  }

  /** The static image from the caption under the post title, then the four slides. */
  function ImageSteps(caption: string, slideTexts: seq<string>, topic: Schedule.Topic): seq<Step>
    requires |slideTexts| == 4
  {
    [Draw(PostImage, caption, PostTitle(topic))] + SlideSteps(slideTexts, topic.theme)
  }

  /** The slide files kept after slides 1 to `n`: each one whose file was written, in order. */
  function KeptSlides(n: nat, env: Env): (files: seq<Asset>)
    ensures |files| <= n
  {
    if n == 0 then [] else KeptSlides(n - 1, env) + (if env.rendered(SlideImage(n)) then [SlideImage(n)] else [])
  }

  /** All `n` slide files are kept exactly when all were written, and then they are slides 1 to `n`. */
  lemma {:induction false} KeptSlidesAll(n: nat, env: Env)
    ensures |KeptSlides(n, env)| == n <==> forall j :: 1 <= j <= n ==> env.rendered(SlideImage(j))
    ensures |KeptSlides(n, env)| == n ==> forall k :: 0 <= k < n ==> KeptSlides(n, env)[k] == SlideImage(k + 1)
  {
    if n > 0 {
      KeptSlidesAll(n - 1, env);
    }
  }

  /**
   * The slide loop: slide `i` is rendered from the `i`-th slide text, and its
   * file is kept when it was written.
   */
  method MakeSlides(slideTexts: seq<string>, theme: string, env: Env) returns (files: seq<Asset>, events: seq<Event>)
    requires |slideTexts| == 4
    ensures Follows(events, SlideSteps(slideTexts, theme), env)
    ensures files == KeptSlides(4, env)
    ensures Quiet(events)
  {
    files := [];
    events := [];
    for i := 1 to 5
      invariant files == KeptSlides(i - 1, env)
      invariant |events| == i - 1
      invariant forall k :: 0 <= k < i - 1 ==> Made(events[k], SlideSteps(slideTexts, theme)[k], env)
      invariant Quiet(events)
    {
      var ok, more := MakeImage(SlideImage(i), slideTexts[i - 1], SlideTitle(theme, i), env);
      QuietAppend(events, more);
      events := events + more;
      if ok {
        files := files + [SlideImage(i)];
      }
    }
  }

  /** The files the slide loop keeps: all four in order when all were written, fewer otherwise. */
  lemma KeptSlidesShape(env: Env)
    ensures |KeptSlides(4, env)| == 4 <==> SlidesRendered(env)
    ensures |KeptSlides(4, env)| == 4 ==> KeptSlides(4, env) == [SlideImage(1), SlideImage(2), SlideImage(3), SlideImage(4)]
  {
    KeptSlidesAll(4, env);
  }

  /** The file each reel or static post shows. */
  function AssetOf(slot: Slot): Asset
    requires slot != Carousel
  {
    if slot == Reel1 then Reel1Video else if slot == Reel2 then Reel2Video else PostImage
  }

  /**
   * Upload and post one reel or the static image, with its own caption: nothing
   * when its file is missing; an upload; and when the upload returned a URL,
   * the post and the pause, whatever the post's outcome.
   */
  method PostSingle(slot: Slot, file: bool, topic: Schedule.Topic, env: Env) returns (events: seq<Event>)
    requires slot != Carousel
    ensures !file ==> events == []
    ensures file ==> |events| >= 1 && events[0] == Uploaded(AssetOf(slot), env.hosted(AssetOf(slot)))
    ensures file ==> |events| == if env.hosted(AssetOf(slot)).Some? then 3 else 1
    ensures UploadedAssets(events) == if file then [AssetOf(slot)] else []
    ensures PostedSlots(events) == if file && env.hosted(AssetOf(slot)).Some? then [slot] else []
    ensures CooledDown(events)
    ensures PostsFaithful(events, topic, env)
    ensures UploadsFirst(events)
  {
    if !file {
      return [];
    }
    var asset := AssetOf(slot);
    var url := env.hosted(asset);
    if url.None? {
      events := [Uploaded(asset, url)];
      assert UploadedAssets(events) == [asset] + UploadedAssets([]);
      return;
    }
    var post := PublishSingle(slot, url.value, topic, env);
    events := [Uploaded(asset, url), post, Cooldown(CooldownSeconds)];
    SingleTrace(Uploaded(asset, url), post);
    SingleUploadFirst(Uploaded(asset, url), post);
    SingleFaithful(Uploaded(asset, url), post, topic, env);
  }

  /** An upload, the post of its URL, and the pause: the post is right after its upload. */
  lemma SingleUploadFirst(upload: Event, post: Event)
    requires post.Posted? && |post.media| == 1 && UploadOf(upload, post.media[0])
    ensures UploadsFirst([upload, post, Cooldown(CooldownSeconds)])
  {
    var events := [upload, post, Cooldown(CooldownSeconds)];
    assert events[1] == post && events[0] == upload;
    assert AfterUploads(events, 1);
  }

  /** The one post among an upload, the post and the pause makes the right call. */
  lemma SingleFaithful(upload: Event, post: Event, topic: Schedule.Topic, env: Env)
    requires upload.Uploaded? && post.Posted? && PostedAs(post, topic, env)
    ensures PostsFaithful([upload, post, Cooldown(CooldownSeconds)], topic, env)
  {
    var events := [upload, post, Cooldown(CooldownSeconds)];
    forall i | 0 <= i < 3 && events[i].Posted? ensures PostedAs(events[i], topic, env) {
      assert i == 1;
    }
  }

  /** `post_video_to_instagram` or `post_image_to_instagram` with the file's URL and the post's caption. */
  method PublishSingle(slot: Slot, url: string, topic: Schedule.Topic, env: Env) returns (post: Event)
    requires slot != Carousel && env.hosted(AssetOf(slot)) == Some(url)
    ensures post.Posted? && post.slot == slot && post.media == [url] && PostedAs(post, topic, env)
  {
    var caption := CaptionFor(slot, topic, env);
    var sent, published;
    if slot == Static {
      sent, published := Publisher.PostImageToInstagram(env.graph, url, caption, env.replies(slot));
    } else {
      sent, published := Publisher.PostVideoToInstagram(env.graph, url, caption, env.replies(slot));
    }
    post := Posted(slot, caption, [url], sent, published);
  }

  /** An upload, a reel or static post, and the pause: one upload, one post, paced. */
  lemma SingleTrace(upload: Event, post: Event)
    requires upload.Uploaded? && SinglePost(post)
    ensures UploadedAssets([upload, post, Cooldown(CooldownSeconds)]) == [upload.asset]
    ensures PostedSlots([upload, post, Cooldown(CooldownSeconds)]) == [post.slot]
    ensures CooledDown([upload, post, Cooldown(CooldownSeconds)])
  {
    var pause := [Cooldown(CooldownSeconds)];
    var tail := [post] + pause;
    var events := [upload] + tail;
    assert pause[1..] == [] && tail[1..] == pause && events[1..] == tail;
    assert UploadedAssets(pause[1..]) == [] && PostedSlots(pause[1..]) == [];
    assert UploadedAssets(pause) == [] + UploadedAssets(pause[1..]);
    assert PostedSlots(pause) == [] + PostedSlots(pause[1..]);
    assert UploadedAssets(tail) == [] + UploadedAssets(pause);
    assert PostedSlots(tail) == [post.slot] + PostedSlots(pause);
    assert UploadedAssets(events) == [upload.asset] + UploadedAssets(tail);
    assert PostedSlots(events) == [] + PostedSlots(tail);
    assert events == [upload, post, Cooldown(CooldownSeconds)];
  }

  /** The URLs the first `k` uploads of `files` returned, in order. */
  function Uploads(files: seq<Asset>, k: nat, env: Env): (urls: seq<string>)
    requires k <= |files|
    ensures |urls| <= k
  {
    if k == 0 then [] else Uploads(files, k - 1, env) + Hosted(files[k - 1], env)
  }

  /** All of the first `k` uploads returned a URL exactly when there are `k` URLs. */
  lemma {:induction false} UploadsComplete(files: seq<Asset>, k: nat, env: Env)
    requires k <= |files|
    ensures |Uploads(files, k, env)| == k <==> forall j :: 0 <= j < k ==> env.hosted(files[j]).Some?
  {
    if k > 0 {
      UploadsComplete(files, k - 1, env);
    }
  }

  /** A run of uploads, one per file in order. */
  lemma {:induction false} UploadTrace(events: seq<Event>, files: seq<Asset>, env: Env)
    requires |events| == |files|
    requires forall k :: 0 <= k < |files| ==> events[k] == Uploaded(files[k], env.hosted(files[k]))
    ensures UploadedAssets(events) == files && PostedSlots(events) == [] && CooledDown(events)
  {
    if events != [] {
      UploadTrace(events[1..], files[1..], env);
    }
  }

  /** `for f in carousel_files[:4]: u = upload_to_cloudinary(f)`, keeping the URLs that came back. */
  method UploadSlides(files: seq<Asset>, env: Env) returns (urls: seq<string>, events: seq<Event>)
    ensures urls == Uploads(files, |files|, env)
    ensures |events| == |files| && forall k :: 0 <= k < |files| ==> events[k] == Uploaded(files[k], env.hosted(files[k]))
  {
    urls := [];
    events := [];
    for k := 0 to |files|
      invariant urls == Uploads(files, k, env)
      invariant |events| == k && forall j :: 0 <= j < k ==> events[j] == Uploaded(files[j], env.hosted(files[j]))
    {
      var u := env.hosted(files[k]);
      events := events + [Uploaded(files[k], u)];
      if u.Some? {
        urls := urls + [u.value];
      }
    }
  }

  /** When every one of the first `k` uploads returned a URL, the `j`-th URL is the `j`-th file's. */
  lemma {:induction false} UploadsAll(files: seq<Asset>, k: nat, env: Env)
    requires k <= |files| && |Uploads(files, k, env)| == k
    ensures forall j :: 0 <= j < k ==> env.hosted(files[j]) == Some(Uploads(files, k, env)[j])
  {
    if k > 0 {
      var before := Uploads(files, k - 1, env);
      assert |before| <= k - 1 && |Hosted(files[k - 1], env)| <= 1;
      UploadsAll(files, k - 1, env);
      assert Uploads(files, k, env) == before + [env.hosted(files[k - 1]).value];
    }
  }

  /** The first four uploads' URLs, slide by slide, and when all four came back. */
  lemma FirstFourUploads(files: seq<Asset>, env: Env)
    requires |files| >= 4
    ensures Uploads(files[..4], 4, env)
      == Hosted(files[0], env) + Hosted(files[1], env) + Hosted(files[2], env) + Hosted(files[3], env)
    ensures |Uploads(files[..4], 4, env)| == 4 <==> forall k :: 0 <= k < 4 ==> env.hosted(files[k]).Some?
  {
    var first := files[..4];
    UploadsComplete(first, 4, env);
    assert Uploads(first, 1, env) == Hosted(files[0], env) by {
      assert Uploads(first, 0, env) == [];
    }
    assert Uploads(first, 2, env) == Hosted(files[0], env) + Hosted(files[1], env);
    assert Uploads(first, 3, env) == Hosted(files[0], env) + Hosted(files[1], env) + Hosted(files[2], env);
  }

  /**
   * `post_carousel_to_instagram` after the uploads: the carousel is posted from
   * the four URLs, and the post joins the upload events.
   */
  method PostAfterUploads(uploads: seq<Event>, urls: seq<string>, caption: string, env: Env) returns (events: seq<Event>)
    requires CooledDown(uploads) && forall i :: 0 <= i < |uploads| ==> !uploads[i].Posted?
    ensures UploadedAssets(events) == UploadedAssets(uploads)
    ensures PostedSlots(events) == PostedSlots(uploads) + [Carousel]
    ensures CooledDown(events)
    ensures |events| == |uploads| + 1 && events[..|uploads|] == uploads
    ensures forall i :: 0 <= i < |events| && events[i].Posted? ==> i == |uploads|
    ensures PostOf(events[|uploads|], Carousel, caption, urls, env)
  {
    var sent, published := Publisher.PostCarouselToInstagram(env.graph, urls, caption, env.replies(Carousel));
    var post := Posted(Carousel, caption, urls, sent, published);
    CarouselAppended(uploads, post);
    events := uploads + [post];
  }

  /** A carousel post after the uploads adds the carousel and nothing else. */
  lemma CarouselAppended(uploads: seq<Event>, post: Event)
    requires CooledDown(uploads) && post.Posted? && post.slot == Carousel
    ensures UploadedAssets(uploads + [post]) == UploadedAssets(uploads)
    ensures PostedSlots(uploads + [post]) == PostedSlots(uploads) + [Carousel]
    ensures CooledDown(uploads + [post])
  {
    PostedSlotsAppend(uploads, [post]);
    UploadedAssetsAppend(uploads, [post]);
    assert PostedSlots([post]) == [Carousel] + PostedSlots([]);
    assert UploadedAssets([post]) == [] + UploadedAssets([]);
    CooledDownAppend(uploads, [post]);
  }

  /**
   * The carousel step: with at least four slide files, upload the first four,
   * keep the URLs that came back, and post the carousel only when all four did.
   */
  method PostCarousel(files: seq<Asset>, caption: string, env: Env) returns (events: seq<Event>)
    ensures UploadedAssets(events) == if |files| >= 4 then files[..4] else []
    ensures PostedSlots(events) ==
      if |files| >= 4 && forall k :: 0 <= k < 4 ==> env.hosted(files[k]).Some? then [Carousel] else []
    ensures CooledDown(events)
    ensures forall i :: 0 <= i < |events| && events[i].Posted? ==>
      && |files| >= 4
      && PostOf(events[i], Carousel, caption,
                Hosted(files[0], env) + Hosted(files[1], env) + Hosted(files[2], env) + Hosted(files[3], env), env)
      && AfterUploads(events, i)
  {
    if |files| < 4 {
      return [];
    }
    var urls;
    urls, events := UploadSlides(files[..4], env);
    UploadTrace(events, files[..4], env);
    FirstFourUploads(files, env);
    if |urls| == 4 {
      var uploads := events;
      UploadsAll(files[..4], 4, env);
      events := PostAfterUploads(uploads, urls, caption, env);
      forall k | 0 <= k < 4 ensures UploadOf(events[k], urls[k]) {
        assert events[k] == uploads[k];
      }
      assert AfterUploads(events, 4);
    }
  }

  // ----- the run -----

  /** What a trace adds up to when two pieces of a run are put one after the other. */
  lemma Compose(a: seq<Event>, b: seq<Event>, topic: Schedule.Topic, env: Env)
    requires CooledDown(a) && CooledDown(b)
    requires PostsFaithful(a, topic, env) && PostsFaithful(b, topic, env)
    requires UploadsFirst(a) && UploadsFirst(b)
    ensures PostedSlots(a + b) == PostedSlots(a) + PostedSlots(b)
    ensures UploadedAssets(a + b) == UploadedAssets(a) + UploadedAssets(b)
    ensures CooledDown(a + b)
    ensures PostsFaithful(a + b, topic, env)
    ensures UploadsFirst(a + b)
  {
    PostedSlotsAppend(a, b);
    UploadedAssetsAppend(a, b);
    CooledDownAppend(a, b);
    forall i | 0 <= i < |a + b| && (a + b)[i].Posted? ensures PostedAs((a + b)[i], topic, env) {
      if i >= |a| {
        assert (a + b)[i] == b[i - |a|];
      }
    }
    UploadsFirstAppend(a, b);
  }

  lemma UploadsFirstAppend(a: seq<Event>, b: seq<Event>)
    requires UploadsFirst(a) && UploadsFirst(b)
    ensures UploadsFirst(a + b)
  {
    forall i: nat | i < |a + b| && (a + b)[i].Posted? ensures AfterUploads(a + b, i) {
      if i < |a| {
        AfterUploadsLeft(a, b, i);
      } else {
        AfterUploadsRight(a, b, i - |a|);
      }
    }
  }

  /** A post of `a` keeps its uploads when `b` follows. */
  lemma AfterUploadsLeft(a: seq<Event>, b: seq<Event>, i: nat)
    requires i < |a| && a[i].Posted? && AfterUploads(a, i)
    ensures (a + b)[i].Posted? && AfterUploads(a + b, i)
  {
    var t := a + b;
    var media := a[i].media;
    assert t[i] == a[i];
    forall k | 0 <= k < |media| ensures UploadOf(t[i - |media| + k], media[k]) {
      assert UploadOf(a[i - |media| + k], a[i].media[k]);
      assert t[i - |media| + k] == a[i - |media| + k];
    }
  }

  /** A post of `b` keeps its uploads when `a` comes first. */
  lemma AfterUploadsRight(a: seq<Event>, b: seq<Event>, i: nat)
    requires i < |b| && b[i].Posted? && AfterUploads(b, i)
    ensures (a + b)[|a| + i].Posted? && AfterUploads(a + b, |a| + i)
  {
    var t := a + b;
    var media := b[i].media;
    assert t[|a| + i] == b[i];
    forall k | 0 <= k < |media| ensures UploadOf(t[|a| + i - |media| + k], media[k]) {
      assert UploadOf(b[i - |media| + k], b[i].media[k]);
      assert t[|a| + i - |media| + k] == b[i - |media| + k];
    }
  }

  /** The two voice-overs and the two reels, from the two reel scripts. */
  method MakeReels(script1: string, script2: string, env: Env) returns (ok1: bool, ok2: bool, events: seq<Event>)
    ensures Follows(events, ReelSteps(script1, script2), env)
    ensures ok1 <==> env.rendered(Reel1Video) && !AllSpace(script1)
    ensures ok2 <==> env.rendered(Reel2Video) && !AllSpace(script2)
    ensures Quiet(events)
  {
    var audio1, audio2, voice1, voice2, reel1, reel2;
    audio1, voice1 := MakeVoice(Reel1Video, script1, env);
    audio2, voice2 := MakeVoice(Reel2Video, script2, env);
    ok1, reel1 := MakeReel(Reel1Video, script1, audio1, env);
    ok2, reel2 := MakeReel(Reel2Video, script2, audio2, env);
    FollowsOne(voice1[0], Voice(Reel1Video, script1), env);
    FollowsOne(voice2[0], Voice(Reel2Video, script2), env);
    FollowsOne(reel1[0], Film(Reel1Video, script1), env);
    FollowsOne(reel2[0], Film(Reel2Video, script2), env);
    FollowsAppend(voice1, voice2, [Voice(Reel1Video, script1)], [Voice(Reel2Video, script2)], env);
    FollowsAppend(voice1 + voice2, reel1, [Voice(Reel1Video, script1)] + [Voice(Reel2Video, script2)],
                  [Film(Reel1Video, script1)], env);
    FollowsAppend(voice1 + voice2 + reel1, reel2,
                  [Voice(Reel1Video, script1)] + [Voice(Reel2Video, script2)] + [Film(Reel1Video, script1)],
                  [Film(Reel2Video, script2)], env);
    QuietAppend(voice1, voice2);
    QuietAppend(voice1 + voice2, reel1);
    QuietAppend(voice1 + voice2 + reel1, reel2);
    events := voice1 + voice2 + reel1 + reel2;
  }

  /** The static image and the four slides, from the caption and the slide texts. */
  method MakeImages(caption: string, slideTexts: seq<string>, topic: Schedule.Topic, env: Env)
    returns (ok3: bool, files: seq<Asset>, events: seq<Event>)
    requires |slideTexts| == 4
    ensures Follows(events, ImageSteps(caption, slideTexts, topic), env)
    ensures ok3 == env.rendered(PostImage)
    ensures |files| <= 4 && (|files| == 4 <==> SlidesRendered(env))
    ensures |files| == 4 ==> files == [SlideImage(1), SlideImage(2), SlideImage(3), SlideImage(4)]
    ensures Quiet(events)
  {
    var post, slides;
    ok3, post := MakeImage(PostImage, caption, PostTitle(topic), env);
    files, slides := MakeSlides(slideTexts, topic.theme, env);
    KeptSlidesShape(env);
    FollowsOne(post[0], Draw(PostImage, caption, PostTitle(topic)), env);
    FollowsAppend(post, slides, [Draw(PostImage, caption, PostTitle(topic))], SlideSteps(slideTexts, topic.theme), env);
    QuietAppend(post, slides);
    events := post + slides;
  }

  /** The four slide texts of the run: the fourth to seventh generated texts, in order. */
  function Slides(topic: Schedule.Topic, env: Env): seq<string> {
    [Piece(3, topic, env), Piece(4, topic, env), Piece(5, topic, env), Piece(6, topic, env)]
  }

  /**
   * The nine media steps of a run: the reels from the two reel scripts with
   * their voice-overs, the static image from the static caption, and slide `i`
   * from the `i`-th slide text.
   */
  function ProductionSteps(topic: Schedule.Topic, env: Env): seq<Step> {
    ReelSteps(Piece(0, topic, env), Piece(1, topic, env)) + ImageSteps(Piece(2, topic, env), Slides(topic, env), topic)
  }

  /**
   * Producing the media: the seven `generate_piece` calls in order (two reel
   * scripts, the static caption, four slides), then the voice-overs, reels and
   * images. Nothing is uploaded or posted. Generated texts are never blank, so
   * a reel is written exactly when its file can be.
   */
  method Produce(topic: Schedule.Topic, env: Env)
    returns (ok1: bool, ok2: bool, ok3: bool, files: seq<Asset>, events: seq<Event>)
    ensures Follows(events, ProductionSteps(topic, env), env)
    ensures ok1 == env.rendered(Reel1Video) && ok2 == env.rendered(Reel2Video) && ok3 == env.rendered(PostImage)
    ensures |files| <= 4 && (|files| == 4 <==> SlidesRendered(env))
    ensures |files| == 4 ==> files == [SlideImage(1), SlideImage(2), SlideImage(3), SlideImage(4)]
    ensures Quiet(events)
  {
    var reel1 := Piece(0, topic, env);
    var reel2 := Piece(1, topic, env);
    var caption := Piece(2, topic, env);
    var slides := Slides(topic, env);
    var reels, images;
    ok1, ok2, reels := MakeReels(reel1, reel2, env);
    ok3, files, images := MakeImages(caption, slides, topic, env);
    FollowsAppend(reels, images, ReelSteps(reel1, reel2), ImageSteps(caption, slides, topic), env);
    QuietAppend(reels, images);
    events := reels + images;
  }

  /** The carousel of the run, from the slide files that were written. */
  method PostSlides(files: seq<Asset>, topic: Schedule.Topic, env: Env) returns (events: seq<Event>)
    requires |files| <= 4 && (|files| == 4 <==> SlidesRendered(env))
    requires |files| == 4 ==> files == [SlideImage(1), SlideImage(2), SlideImage(3), SlideImage(4)]
    ensures UploadedAssets(events) ==
      if SlidesRendered(env) then [SlideImage(1), SlideImage(2), SlideImage(3), SlideImage(4)] else []
    ensures PostedSlots(events) == if SlidesRendered(env) && SlidesHosted(env) then [Carousel] else []
    ensures CooledDown(events)
    ensures PostsFaithful(events, topic, env)
    ensures UploadsFirst(events)
  {
    events := PostCarousel(files, CarouselCaption(topic), env);
    if |files| == 4 {
      SlideFiles(files, env);
    }
  }

  /** The four slide files, in order: their uploads are the carousel's media. */
  lemma SlideFiles(files: seq<Asset>, env: Env)
    requires files == [SlideImage(1), SlideImage(2), SlideImage(3), SlideImage(4)]
    ensures files[..4] == files
    ensures (forall k :: 0 <= k < 4 ==> env.hosted(files[k]).Some?) <==> SlidesHosted(env)
    ensures Hosted(files[0], env) + Hosted(files[1], env) + Hosted(files[2], env) + Hosted(files[3], env)
      == MediaFor(Carousel, env)
  {
    if !SlidesHosted(env) {
      var i :| 1 <= i <= 4 && env.hosted(SlideImage(i)).None?;
      assert files[i - 1] == SlideImage(i);
    }
  }

  /** The reel and static posts, in order, from the files that were written. */
  method PostSingles(topic: Schedule.Topic, ok1: bool, ok2: bool, ok3: bool, env: Env) returns (events: seq<Event>)
    ensures PostedSlots(events) ==
      (if ok1 && env.hosted(Reel1Video).Some? then [Reel1] else [])
      + (if ok2 && env.hosted(Reel2Video).Some? then [Reel2] else [])
      + (if ok3 && env.hosted(PostImage).Some? then [Static] else [])
    ensures UploadedAssets(events) ==
      (if ok1 then [Reel1Video] else []) + (if ok2 then [Reel2Video] else []) + (if ok3 then [PostImage] else [])
    ensures CooledDown(events)
    ensures PostsFaithful(events, topic, env)
    ensures UploadsFirst(events)
  {
    var reel1 := PostSingle(Reel1, ok1, topic, env);
    var reel2 := PostSingle(Reel2, ok2, topic, env);
    var still := PostSingle(Static, ok3, topic, env);
    Compose3(reel1, reel2, still, topic, env);
    SinglesJoined(reel1, reel2, still, ok1, ok2, ok3, env);
    events := reel1 + reel2 + still;
  }

  /** What the three single posts' pieces upload and post, joined in order. */
  lemma SinglesJoined(reel1: seq<Event>, reel2: seq<Event>, still: seq<Event>, ok1: bool, ok2: bool, ok3: bool, env: Env)
    requires UploadedAssets(reel1) == (if ok1 then [AssetOf(Reel1)] else [])
    requires UploadedAssets(reel2) == (if ok2 then [AssetOf(Reel2)] else [])
    requires UploadedAssets(still) == (if ok3 then [AssetOf(Static)] else [])
    requires PostedSlots(reel1) == (if ok1 && env.hosted(AssetOf(Reel1)).Some? then [Reel1] else [])
    requires PostedSlots(reel2) == (if ok2 && env.hosted(AssetOf(Reel2)).Some? then [Reel2] else [])
    requires PostedSlots(still) == (if ok3 && env.hosted(AssetOf(Static)).Some? then [Static] else [])
    ensures PostedSlots(reel1 + reel2 + still) ==
      (if ok1 && env.hosted(Reel1Video).Some? then [Reel1] else [])
      + (if ok2 && env.hosted(Reel2Video).Some? then [Reel2] else [])
      + (if ok3 && env.hosted(PostImage).Some? then [Static] else [])
    ensures UploadedAssets(reel1 + reel2 + still) ==
      (if ok1 then [Reel1Video] else []) + (if ok2 then [Reel2Video] else []) + (if ok3 then [PostImage] else [])
  {
    PostedSlotsAppend(reel1, reel2);
    PostedSlotsAppend(reel1 + reel2, still);
    UploadedAssetsAppend(reel1, reel2);
    UploadedAssetsAppend(reel1 + reel2, still);
  }

  /** `Compose` for three pieces of a run. */
  lemma Compose3(a: seq<Event>, b: seq<Event>, c: seq<Event>, topic: Schedule.Topic, env: Env)
    requires CooledDown(a) && CooledDown(b) && CooledDown(c)
    requires PostsFaithful(a, topic, env) && PostsFaithful(b, topic, env) && PostsFaithful(c, topic, env)
    requires UploadsFirst(a) && UploadsFirst(b) && UploadsFirst(c)
    ensures PostedSlots(a + b + c) == PostedSlots(a) + PostedSlots(b) + PostedSlots(c)
    ensures UploadedAssets(a + b + c) == UploadedAssets(a) + UploadedAssets(b) + UploadedAssets(c)
    ensures CooledDown(a + b + c)
    ensures PostsFaithful(a + b + c, topic, env)
    ensures UploadsFirst(a + b + c)
  {
    Compose(a, b, topic, env);
    Compose(a + b, c, topic, env);
  }

  /** The four posts, in order, from what was produced. */
  method PostAll(topic: Schedule.Topic, ok1: bool, ok2: bool, ok3: bool, files: seq<Asset>, env: Env)
    returns (events: seq<Event>)
    requires ok1 == env.rendered(Reel1Video) && ok2 == env.rendered(Reel2Video) && ok3 == env.rendered(PostImage)
    requires |files| <= 4 && (|files| == 4 <==> SlidesRendered(env))
    requires |files| == 4 ==> files == [SlideImage(1), SlideImage(2), SlideImage(3), SlideImage(4)]
    ensures PostedSlots(events) == PlannedSlots(env)
    ensures UploadedAssets(events) == PlannedUploads(env)
    ensures CooledDown(events)
    ensures PostsFaithful(events, topic, env)
    ensures UploadsFirst(events)
  {
    var singles := PostSingles(topic, ok1, ok2, ok3, env);
    var carousel := PostSlides(files, topic, env);
    Compose(singles, carousel, topic, env);
    events := singles + carousel;
  }

  /**
   * The run once the topic is known: announce it, produce the media, post them.
   */
  method RunTopic(topic: Schedule.Topic, env: Env) returns (trace: seq<Event>)
    ensures trace != [] && trace[0] == TopicChosen(topic)
    ensures |trace| >= 10 && Follows(trace[1..10], ProductionSteps(topic, env), env)
    ensures PostedSlots(trace) == PlannedSlots(env)
    ensures UploadedAssets(trace) == PlannedUploads(env)
    ensures PostsFaithful(trace, topic, env)
    ensures UploadsFirst(trace)
    ensures CooledDown(trace)
  {
    var ok1, ok2, ok3, files, produced := Produce(topic, env);
    trace := AnnounceAndPost(topic, ok1, ok2, ok3, files, produced, env);
  }

  /** The topic announced, then the media already produced, then the posts. */
  method AnnounceAndPost(topic: Schedule.Topic, ok1: bool, ok2: bool, ok3: bool, files: seq<Asset>,
                         produced: seq<Event>, env: Env) returns (trace: seq<Event>)
    requires ok1 == env.rendered(Reel1Video) && ok2 == env.rendered(Reel2Video) && ok3 == env.rendered(PostImage)
    requires |files| <= 4 && (|files| == 4 <==> SlidesRendered(env))
    requires |files| == 4 ==> files == [SlideImage(1), SlideImage(2), SlideImage(3), SlideImage(4)]
    requires Quiet(produced)
    ensures |trace| > |produced| && trace[0] == TopicChosen(topic) && trace[1..|produced| + 1] == produced
    ensures PostedSlots(trace) == PlannedSlots(env)
    ensures UploadedAssets(trace) == PlannedUploads(env)
    ensures PostsFaithful(trace, topic, env)
    ensures UploadsFirst(trace)
    ensures CooledDown(trace)
  {
    var posts := PostAll(topic, ok1, ok2, ok3, files, env);
    var start := [TopicChosen(topic)] + produced;
    assert Quiet(start) by {
      QuietAppend([TopicChosen(topic)], produced);
    }
    QuietTrace(start);
    Compose(start, posts, topic, env);
    trace := start + posts;
    assert trace[1..|produced| + 1] == produced;
  }

  /**
   * `main()`: resolve today's topic; on a schedule error stop with nothing else
   * done; otherwise produce the media and post them. The posts made are exactly
   * the planned ones, in the order reel 1, reel 2, static, carousel; each carries
   * its own caption and media and keeps the create-then-publish protocol; each
   * reel or static post is followed by the pause and nothing else is.
   */
  method RunDaily(rows: seq<Schedule.Row>, weekday: Schedule.Weekday, env: Env) returns (trace: seq<Event>)
    ensures trace != []
    ensures match Schedule.ChosenRow(rows, weekday + 1)
      case Failure(e) => trace == [ScheduleFailed(e)]
      case Success(row) =>
        if Schedule.SubTopics(row.subTopics) == [] then trace == [ScheduleFailed(Schedule.NoSubTopics)]
        else trace[0].TopicChosen? && Schedule.TopicFrom(row, Success(trace[0].topic))
    ensures trace[0].TopicChosen? ==>
      && |trace| >= 10 && Follows(trace[1..10], ProductionSteps(trace[0].topic, env), env)
      && PostedSlots(trace) == PlannedSlots(env)
      && UploadedAssets(trace) == PlannedUploads(env)
      && PostsFaithful(trace, trace[0].topic, env)
      && UploadsFirst(trace)
    ensures CooledDown(trace)
  {
    var picked := Schedule.PickTodayThemeAndTopic(rows, weekday);
    if picked.Failure? {
      trace := [ScheduleFailed(picked.error)];
      assert !SinglePost(trace[0]);
      return;
    }
    trace := RunTopic(picked.value, env);
  }
}
