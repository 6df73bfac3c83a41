/**
 * Posting to Instagram through the Graph API (`post_video_to_instagram`,
 * `post_image_to_instagram`, `post_carousel_to_instagram`): every post is a
 * create request whose answer must carry an `id`, then a publish request naming
 * that id. A carousel first creates one child per image and stops at the first
 * child without an id. Every failure is caught and reported, never raised.
 *
 * The network is replaced by a script of replies: the `j`-th request a call
 * sends is answered by `replies[j]`, and a missing reply stands for a request
 * that raised.
 */
module Publisher {
  import opened Wrappers
  import opened Text

  /** The Graph API root every request goes to. */
  const GraphBase: string := "https://graph.facebook.com/v20.0"

  /** The access token and the Instagram business account posted as. */
  datatype GraphConfig = GraphConfig(accessToken: string, accountId: string)

  /** The two edges of the account that posting calls: creating a container, and publishing one. */
  datatype Edge = Media | MediaPublish

  /** One form-encoded POST: the edge it goes to and its fields. */
  datatype Request = Request(edge: Edge, data: map<string, string>)

  /**
   * The answer to one request: whether its HTTP status was a success (`r.ok`)
   * and the `id` its JSON body holds, if any. A request that raises, or whose
   * body is not JSON, reads as `Reply(false, None)`.
   */
  datatype Reply = Reply(ok: bool, id: Option<string>)

  /** The reply to the `j`-th request; a request the script does not answer raised. */
  function ReplyAt(replies: seq<Reply>, j: nat): Reply {
    if j < |replies| then replies[j] else Reply(false, None)
  }

  /** The URL a request to `edge` is posted to. */
  function EdgeUrl(cfg: GraphConfig, edge: Edge): string {
    GraphBase + "/" + cfg.accountId + (if edge == Media then "/media" else "/media_publish")
  }

  /** The create and publish edges are different URLs. */
  lemma EndpointsDiffer(cfg: GraphConfig)
    ensures EdgeUrl(cfg, Media) != EdgeUrl(cfg, MediaPublish)
  {
    assert |EdgeUrl(cfg, Media)| < |EdgeUrl(cfg, MediaPublish)|;
  }

  /** Creating a reel: `media_type=VIDEO`, the hosted video and the caption. */
  function VideoCreate(cfg: GraphConfig, videoUrl: string, caption: string): Request {
    Request(Media, map["access_token" := cfg.accessToken, "media_type" := "VIDEO",
                               "video_url" := videoUrl, "caption" := caption])
  }

  /** Creating a single-image post: the hosted image and the caption. */
  function ImageCreate(cfg: GraphConfig, imageUrl: string, caption: string): Request {
    Request(Media, map["access_token" := cfg.accessToken, "image_url" := imageUrl, "caption" := caption])
  }

  /** Creating one carousel child: the hosted image, no caption. */
  function ChildCreate(cfg: GraphConfig, imageUrl: string): Request {
    Request(Media, map["access_token" := cfg.accessToken, "image_url" := imageUrl])
  }

  /** Creating the carousel itself from its children's ids, comma-joined. */
  function ParentCreate(cfg: GraphConfig, caption: string, children: string): Request {
    Request(Media, map["access_token" := cfg.accessToken, "caption" := caption,
                               "media_type" := "CAROUSEL", "children" := children])
  }

  /** Publishing a created container. */
  function PublishRequest(cfg: GraphConfig, creationId: string): Request {
    Request(MediaPublish, map["access_token" := cfg.accessToken, "creation_id" := creationId])
  }

  /**
   * The protocol every posting call keeps: each request but the last was a
   * create answered with an id; a publish is only ever the last request and
   * names the id the request before it got back; the post is published exactly
   * when such a publish was sent and answered with a success status.
   */
  predicate WellSequenced(cfg: GraphConfig, sent: seq<Request>, replies: seq<Reply>, published: bool) {
    && (forall j :: 0 <= j < |sent| - 1 ==> ReplyAt(replies, j).id.Some? && sent[j].edge == Media)
    && (forall j :: 0 <= j < |sent| && sent[j].edge == MediaPublish ==>
          && j == |sent| - 1 && j > 0
          && sent[j] == PublishRequest(cfg, ReplyAt(replies, j - 1).id.value))
    && (published <==> |sent| > 0 && sent[|sent| - 1].edge == MediaPublish && ReplyAt(replies, |sent| - 1).ok)
  }

  /**
   * What follows the create sent as request number `at`, which is the last
   * create: when its answer carries an id, exactly one more request, the publish
   * of that id, and the post is published exactly when that publish succeeded;
   * otherwise nothing more, and the post is not published.
   */
  predicate PublishTail(cfg: GraphConfig, sent: seq<Request>, replies: seq<Reply>, published: bool, at: nat) {
    if ReplyAt(replies, at).id.Some? then
      && |sent| == at + 2
      && sent[at + 1] == PublishRequest(cfg, ReplyAt(replies, at).id.value)
      && published == ReplyAt(replies, at + 1).ok
    else
      |sent| == at + 1 && !published
  }

  /**
   * The create-then-publish tail shared by all three calls, starting at request
   * number `at`: send `create`; without an id in its answer stop; otherwise
   * publish that id and report whether the publish succeeded.
   */
  method CreateThenPublish(cfg: GraphConfig, create: Request, replies: seq<Reply>, at: nat)
    returns (sent: seq<Request>, published: bool)
    requires create.edge == Media
    ensures ReplyAt(replies, at).id.None? ==> sent == [create] && !published
    ensures ReplyAt(replies, at).id.Some? ==>
      && sent == [create, PublishRequest(cfg, ReplyAt(replies, at).id.value)]
      && published == ReplyAt(replies, at + 1).ok
  {
    var reply := ReplyAt(replies, at);
    if reply.id.None? {
      return [create], false;
    }
    var creationId := reply.id.value;
    sent := [create, PublishRequest(cfg, creationId)];
    published := ReplyAt(replies, at + 1).ok;
  }

  /**
   * `post_video_to_instagram(video_url, caption)`: the reel is created with
   * `media_type=VIDEO` and published only with the id the create returned.
   */
  method PostVideoToInstagram(cfg: GraphConfig, videoUrl: string, caption: string, replies: seq<Reply>)
    returns (sent: seq<Request>, published: bool)
    ensures 1 <= |sent| <= 2 && sent[0] == VideoCreate(cfg, videoUrl, caption)
    ensures sent[0].data["media_type"] == "VIDEO"
    ensures |sent| == 2 <==> ReplyAt(replies, 0).id.Some?
    ensures PublishTail(cfg, sent, replies, published, 0)
    ensures WellSequenced(cfg, sent, replies, published)
  {
    sent, published := CreateThenPublish(cfg, VideoCreate(cfg, videoUrl, caption), replies, 0);
  }

  /**
   * `post_image_to_instagram(image_url, caption)`: the same two phases for a
   * single image.
   */
  method PostImageToInstagram(cfg: GraphConfig, imageUrl: string, caption: string, replies: seq<Reply>)
    returns (sent: seq<Request>, published: bool)
    ensures 1 <= |sent| <= 2 && sent[0] == ImageCreate(cfg, imageUrl, caption)
    ensures |sent| == 2 <==> ReplyAt(replies, 0).id.Some?
    ensures PublishTail(cfg, sent, replies, published, 0)
    ensures WellSequenced(cfg, sent, replies, published)
  {
    sent, published := CreateThenPublish(cfg, ImageCreate(cfg, imageUrl, caption), replies, 0);
  }

  /**
   * The first of the first `n` replies that carries no id, or `n` when all of
   * them do.
   */
  function FirstMissing(replies: seq<Reply>, n: nat): (m: nat)
    ensures m <= n
    ensures forall k :: 0 <= k < m ==> ReplyAt(replies, k).id.Some?
    ensures m < n ==> ReplyAt(replies, m).id.None?
  {
    if n == 0 then 0
    else
      var m := FirstMissing(replies, n - 1);
      if m < n - 1 || ReplyAt(replies, n - 1).id.None? then m else n
  }

  /** The ids the first `n` replies returned, in order. */
  function ChildIds(replies: seq<Reply>, n: nat): (ids: seq<string>)
    requires forall k :: 0 <= k < n ==> ReplyAt(replies, k).id.Some?
    ensures |ids| == n
  {
    seq(n, k requires 0 <= k < n => ReplyAt(replies, k).id.value)
  }

  /**
   * The child loop of `post_carousel_to_instagram`: one caption-less create per
   * image, in order, stopping right after the first one answered without an id.
   * `ids` collects the ids returned so far.
   */
  method CreateChildren(cfg: GraphConfig, imageUrls: seq<string>, replies: seq<Reply>)
    returns (sent: seq<Request>, ids: seq<string>)
    ensures |sent| <= |imageUrls|
    ensures forall k :: 0 <= k < |sent| ==> sent[k] == ChildCreate(cfg, imageUrls[k])
    ensures FirstMissing(replies, |imageUrls|) < |imageUrls| ==> |sent| == FirstMissing(replies, |imageUrls|) + 1
    ensures FirstMissing(replies, |imageUrls|) == |imageUrls| ==>
      |sent| == |imageUrls| && ids == ChildIds(replies, |imageUrls|)
  {
    sent := [];
    ids := [];
    var k := 0;
    while k < |imageUrls|
      invariant 0 <= k <= |imageUrls|
      invariant |sent| == k && |ids| == k
      invariant forall j :: 0 <= j < k ==> sent[j] == ChildCreate(cfg, imageUrls[j])
      invariant forall j :: 0 <= j < k ==> ReplyAt(replies, j).id == Some(ids[j])
      invariant FirstMissing(replies, k) == k
    {
      sent := sent + [ChildCreate(cfg, imageUrls[k])];
      var reply := ReplyAt(replies, k);
      if reply.id.None? {
        FirstMissingStops(replies, k, |imageUrls|);
        return;
      }
      ids := ids + [reply.id.value];
      k := k + 1;
    }
  }

  /**
   * `post_carousel_to_instagram(image_urls, caption)`: one caption-less child
   * per image, in order; the first child without an id ends the call with
   * nothing more sent; otherwise the carousel is created from the children's
   * ids comma-joined, in image order, and published with the id it gets back.
   */
  method PostCarouselToInstagram(cfg: GraphConfig, imageUrls: seq<string>, caption: string, replies: seq<Reply>)
    returns (sent: seq<Request>, published: bool)
    ensures forall k :: 0 <= k < |sent| && k < |imageUrls| ==> sent[k] == ChildCreate(cfg, imageUrls[k])
    ensures FirstMissing(replies, |imageUrls|) < |imageUrls| ==>
      |sent| == FirstMissing(replies, |imageUrls|) + 1 && !published
    ensures FirstMissing(replies, |imageUrls|) == |imageUrls| ==>
      && |imageUrls| < |sent| <= |imageUrls| + 2
      && sent[|imageUrls|] == ParentCreate(cfg, caption, Join(",", ChildIds(replies, |imageUrls|)))
      && (|sent| == |imageUrls| + 2 <==> ReplyAt(replies, |imageUrls|).id.Some?)
    ensures FirstMissing(replies, |imageUrls|) < |imageUrls| ==> !published
    ensures FirstMissing(replies, |imageUrls|) == |imageUrls| ==> PublishTail(cfg, sent, replies, published, |imageUrls|)
    ensures WellSequenced(cfg, sent, replies, published)
  {
    var ids;
    sent, ids := CreateChildren(cfg, imageUrls, replies);
    var n := |imageUrls|;
    if FirstMissing(replies, n) < n {
      return sent, false;
    }
    var tail;
    tail, published := CreateThenPublish(cfg, ParentCreate(cfg, caption, Join(",", ids)), replies, n);
    sent := sent + tail;
    assert forall j :: 0 <= j < n ==> sent[j].edge == Media;
  }

  /** Once a reply without an id is met, the first missing id stays there. */
  lemma {:induction false} FirstMissingStops(replies: seq<Reply>, m: nat, n: nat)
    requires m < n
    requires FirstMissing(replies, m) == m && ReplyAt(replies, m).id.None?
    ensures FirstMissing(replies, n) == m
    decreases n
  {
    if n > m + 1 {
      FirstMissingStops(replies, m, n - 1);
    }
  }
}
