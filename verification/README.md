# Daily Instagram English-learning automation, modelled in Dafny

Once a day, `main.py` does the following:

- It picks a theme and a sub-topic from a weekly schedule.
- It asks a language model for seven texts: two reel scripts, one static-post caption and four carousel slides.
- It voices the reel scripts and renders two caption reels, one static image and four slide images.
- It uploads each written reel and the static image, and the slides only when all four were written.
- It posts reel 1, reel 2, the static image and the carousel to Instagram through the Graph API, in that order.
- It pauses 120 s after each reel or static post whose upload returned a URL, whether or not the publish succeeded, and never after the carousel.

This project models the decision logic between those external calls. It covers:

- schedule resolution;
- the length-or-template rule for generated text;
- the hashtag-line filter;
- caption chunking;
- the reel card plan and its timing;
- the image line layout and its clipping;
- the create-then-publish protocol of the three posting calls;
- the ordering, gating and pacing of the daily run.

Every outside service is an input. That covers the language model's answers, speech synthesis, whether each file can be written, the URL each upload returns, the Graph API's replies, and `textwrap.wrap`. A run is recorded as a trace of events.

The trace is tied to the texts and the requests as follows:

- `Orchestrator.ProductionSteps` lists the nine media steps of a run. Each `Step` names a file and the text (and title) it is made from.
- `Orchestrator.Made` says what an event records for a step: the voice-over of the script without its hashtag lines, the reel of the script with its voice-over, or the card of the text under its title.
- A post event carries the requests it sent. `Orchestrator.PostOf` ties them to the post's caption and media, and to the publish of the id the create returned.
- `Orchestrator.PostsFaithful` says every post of a trace is made with its own caption and media. `Orchestrator.UploadsFirst` says every post comes right after the uploads that returned its media, in the order of those URLs.

Modules, one per concern:

- `Text` covers the Python string builtins the program relies on: `strip`, `split()`, `split(',')`, `splitlines`, `join`.
- `Chunker` covers `split_script_into_chunks`.
- `Schedule` covers `pick_today_theme_and_topic`.
- `Content` covers `generate_piece`.
- `Speech` covers the hashtag filter in `create_tts` and `create_reel_video`.
- `Reel` covers `create_reel_video`.
- `Image` covers `create_image`.
- `Publisher` covers the three `post_*_to_instagram` calls.
- `Orchestrator` covers `main`.
- `Wrappers` holds `Option` and `Result`.

Loops in the program are methods with loop invariants, each proved against a recursive specification function:

| Loop | Method | Specification function |
|---|---|---|
| chunking | `Chunker.ChunkLoop` | `Groups` |
| row scan | `Schedule.PickTodayThemeAndTopic` | `Scan` |
| line wrapping | `Image.WrapAll` | `WrappedLines` |
| line drawing | `Image.DrawLines` | `Capacity` |
| carousel children | `Publisher.CreateChildren` | `FirstMissing` |
| slide rendering | `Orchestrator.MakeSlides` | `SlideSteps`, `KeptSlides` |
| slide uploads | `Orchestrator.UploadSlides` | `Uploads` |

Pure parts are functions and lemmas.

A request records the edge it goes to (`media` or `media_publish` under the account) and its form fields; `Publisher.EdgeUrl` renders the edge as the URL the program posts to.

A posting call is a method. It takes the script of replies the Graph API gives and returns two things:

- the log of requests it sends;
- whether the post was published.

## Model

| member | source | states |
|---|---|---|
| Text.LStrip | main.py:137 | `lstrip()` drops a whitespace prefix and keeps the rest: the result is a suffix, everything before it is whitespace, and it starts with a non-space character or is empty, exactly for blank text |
| Text.RStrip | main.py:137 | `rstrip()` drops a whitespace suffix and keeps the rest: the result is a prefix, everything after it is whitespace, and it ends with a non-space character or is empty, exactly for blank text |
| Text.Strip | main.py:137 | `strip()` is empty exactly when the text is all whitespace, and otherwise starts and ends with a non-space character |
| Text.StripSpan | main.py:137 | `strip()` is the stretch of the text between a whitespace prefix and a whitespace suffix; with `Strip`'s own ends, the longest such stretch |
| Text.StripIdempotent | main.py:137 | stripping a stripped text changes nothing |
| Text.StripTrimmed | main.py:98 | text with no surrounding whitespace is its own strip |
| Text.StripChars | main.py:98 | every character `strip()` keeps occurs in the input |
| Text.WordLen | main.py:171 | the leading run of non-space characters ends at the first space or at the end |
| Text.Words | main.py:171 | `split()` yields no word exactly when the text is all whitespace |
| Text.WordsAreWords | main.py:171 | every piece `split()` yields is non-empty and free of whitespace |
| Text.FirstWord | main.py:171 | text starting with a non-space character starts with a word |
| Text.WordsSkipSpace | main.py:171 | a leading space does not change `split()` |
| Text.WordsOfWordThen | main.py:171 | a word followed by whitespace or nothing is the first item `split()` yields |
| Text.WordsOfOne | main.py:174 | `split()` of a single word gives that word back |
| Text.WordsOfCons | main.py:174 | `split()` of a space-join yields its first word and then the split of the rest |
| Text.WordsOfJoin | main.py:174 | `" ".join` then `split()` gives back any list of words: the two are inverse on words |
| Text.WordsOfSpread | main.py:171 | words laid out between whitespace gaps, every inner gap non-empty, are split back into exactly those words |
| Text.SpreadOfWords | main.py:171 | every text is its `split()` words laid out between whitespace gaps, every inner gap non-empty; with `WordsOfSpread`, the words are exactly the maximal non-space runs of the text, in order |
| Text.Join | main.py:174 | `sep.join(parts)`: the parts in order with the separator between consecutive ones (a definition; `JoinSplit`, `WordsOfJoin` and `LinesOfJoin` prove what it inverts) |
| Text.Split | main.py:98 | `split(',')` yields at least one field, and no field holds a comma |
| Text.JoinSplit | main.py:98 | `','.join(s.split(','))` is `s`: splitting loses no character |
| Text.LineLen | main.py:160 | the first line ends at the first line-break character or at the end |
| Text.SplitLines | main.py:160 | `splitlines()` yields lines free of line breaks, and at least one line for non-empty text |
| Text.LineLenAt | main.py:160 | a run without line breaks followed by a break is exactly the first line |
| Text.LinesOfJoin | main.py:160 | `"\n".join(lines).splitlines()` gives back lines without breaks whose last is non-empty: the lines of a text are its pieces between breaks |
| Text.JoinAvoids | main.py:160 | a character in neither the separator nor any part is absent from the join |
| Text.JoinOfSpace | main.py:183 | joining blank lines with a newline gives blank text |
| Text.LinesOfSpace | main.py:182 | every line of blank text is blank |
| Chunker.GroupsPartition | main.py:170-176 | the groups flatten back to the word list in order, every group but the last holds exactly `max_words` words, each holds 1 to `max_words`, and there are none exactly for no words |
| Chunker.GroupsCount | main.py:173 | there are ceil(words / `max_words`) groups |
| Chunker.GroupsDrawFrom | main.py:174 | every word in a group is a word of the text |
| Chunker.WordsOfJoinGroup | main.py:174 | splitting a joined group of words gives the group back |
| Chunker.WordsOfJoinEach | main.py:174 | splitting every joined group gives back every group |
| Chunker.JoinEachCons | main.py:174-175 | joining a list of groups joins its first group, then the rest |
| Chunker.GroupsFrom | main.py:173-175 | one loop step from index `i` appends the join of `words[i:i+max_words]` and leaves the groups of the rest |
| Chunker.ChunkWords | main.py:171-175 | the words of each chunk are exactly its group of the text's words |
| Chunker.ChunksFlatten | main.py:171-175 | flattening the chunks' words gives back the text's words, in order |
| Chunker.ChunksOfText | main.py:170-176 | the chunk list splits back to the groups, flattens to the words, and is empty exactly for blank text |
| Chunker.ChunkLoop | main.py:172-176 | the range loop appends the joins of consecutive groups of `max_words` words |
| Chunker.SplitScriptIntoChunks | main.py:170-176 | the chunks are the groups of the text's words, single-spaced; they flatten back to the words in order; there are none exactly for blank text |
| Schedule.StrippedNonBlank | main.py:98 | the comprehension keeps at most one entry per field |
| Schedule.StrippedNonBlankShape | main.py:98 | kept entries are non-empty and trimmed; each is the strip of some field; the strip of every non-blank field is kept |
| Schedule.SubTopicsShape | main.py:98 | sub-topics are non-empty, trimmed and comma-free; every non-blank comma field is offered; there are none exactly when every field is blank |
| Schedule.SubTopics | main.py:98 | the sub-topics of a `SubTopics` field: its comma fields, stripped, the blank ones dropped (a definition; `SubTopicsShape` states its meaning) |
| Schedule.Scan | main.py:95-107 | the row loop from index `i`: the first row dated today, `rows[0]` when none is, and a failure at the first `Day` `int()` rejects (a definition; the lemmas below state its meaning) |
| Schedule.ChosenRow | main.py:95-107 | the chosen row is one of the rows, dated today or else the first; an empty file is `NoRows`; any other failure names a row whose `Day` is not a number, every earlier row having a well-formed day other than today |
| Schedule.ScanWithin | main.py:95-107 | the scan from any index chooses a row of the file dated today or else the first, or fails with `NoRows`, or names a row from that index on whose `Day` is not a number with every row between passed over |
| Schedule.ScanSkips | main.py:95-96 | rows with a well-formed day other than today are passed over |
| Schedule.FirstMatchChosen | main.py:95-100 | the first row dated today, with every earlier day well-formed, is chosen |
| Schedule.FallbackToFirst | main.py:102-107 | when every day is well-formed and none is today, the first row is chosen |
| Schedule.MalformedDayAborts | main.py:96 | a `Day` that `int()` rejects, met before any match, aborts the resolution naming that row |
| Schedule.ChooseTopic | main.py:99 | `random.choice` gives one of the row's sub-topics under its theme, or fails exactly when there is none |
| Schedule.PickTodayThemeAndTopic | main.py:87-107 | the loop with early return agrees with `ChosenRow` for weekday + 1: its failure is returned, otherwise a sub-topic of the chosen row under that row's theme |
| Content.FallbackText | main.py:145-148 | the template is at least 60 characters long and holds the sub-topic, `#EnglishLearning` and a `#` |
| Content.TemplateParts | main.py:145-148 | a text built from a head, the sub-topic, the prompt, the tag and a tail holds the sub-topic and the tag, the tag's first character, and is at least as long as prompt and tag together |
| Content.Usable | main.py:137-140 | an answer is usable when it came back and is at least 60 characters long once stripped (a definition) |
| Content.GeneratePiece | main.py:111-148 | a usable answer comes back exactly as stripped; otherwise the template holds the sub-topic and `#EnglishLearning`; the result is always at least 60 characters and never blank |
| Speech.WithoutHashtagLines | main.py:160 | a line is kept exactly when it is one of the input lines and holds no `#`; the kept lines keep their original order |
| Speech.WithoutHashtagLinesCounts | main.py:160 | every line without `#` is kept as many times as it occurs, and no line with `#` is kept: exactly the lines without `#` survive |
| Speech.SpokenText | main.py:160 | the text sent to speech synthesis holds no `#` |
| Speech.SpokenTextOfSpace | main.py:181-183 | blank text stays blank after filtering |
| Speech.ReelSpokenText | main.py:181-185 | the caption text is the filtered and stripped text when that is non-empty, and otherwise the raw script; only the raw script can carry a `#`; it is blank exactly when the script is |
| Reel.PlayedUniform | main.py:207 | cards of one length, played back to back, last that length times their number |
| Reel.Max | main.py:211 | `max` is at least both arguments and equal to one of them |
| Reel.Timed | main.py:194-214 | the timing of a reel: every card lasts 3.5 s, the cards play back to back, and with a voice-over both tracks last the longer of the two (a definition) |
| Reel.ReelChunks | main.py:181-187 | the caption chunks of a reel: the script's hashtag-free lines, stripped (or the raw script when that is blank), cut into groups of 10 words, each group single-spaced (a definition; `ReelCards` states its meaning) |
| Reel.ReelOf | main.py:181-214 | a reel plan is the reel of a script: one card per caption chunk of the script, in order, timed as above (a definition) |
| Reel.AssembleReel | main.py:192-214 | one 3.5 s card per chunk in chunk order; the video lasts the cards' total; with audio both tracks are set to the longer of the two |
| Reel.CreateReelVideo | main.py:179-228 | the reel is written exactly when the file can be written and the script is not blank; it is then the reel of the script with the given voice-over: one card per caption chunk, in order, timed as above |
| Reel.ReelCards | main.py:187-207 | a reel has ceil(w / 10) cards for the w words of its caption text; each card shows 1 to 10 of them; together they show all of them in order |
| Image.WrapOrBlank | main.py:249 | `wrap(line) or [""]` is never empty and is `wrap(line)` when that is not |
| Image.WrappedLines | main.py:248-249 | every input line gives at least one wrapped line |
| Image.WrappedLinesAppend | main.py:248-249 | wrapping two runs of lines is wrapping each in turn |
| Image.BlankLinesKept | main.py:249 | each line that wraps to nothing stays as one empty wrapped line |
| Image.WrapAll | main.py:247-249 | the `extend` loop collects the wrapped lines in order |
| Image.BodyStart | main.py:242-245 | the body starts at 60, or at 200 below a title |
| Image.Capacity | main.py:251-255 | the number of lines drawn from a start is exactly the number before the cursor passes 980 |
| Image.CapacityOfCard | main.py:242-255 | a card holds 14 body lines without a title and 12 with one |
| Image.DrawLines | main.py:251-255 | the drawing loop draws the first min(wrapped, capacity) wrapped lines, line k at start + 70 k |
| Image.LaidOut | main.py:241-255 | a card layout shows its text under its title: the title at 60 when one is given, then the first min(wrapped, capacity) wrapped lines of the text, 70 apart (a definition) |
| Image.CreateImage | main.py:232-262 | a card exists exactly when saving succeeds; it is then laid out from its text and title; its body lines are none below 980, at most 14, or 12 with a title |
| Publisher.EdgeUrl | main.py:289-302 | a request to the media edge goes to `{GRAPH_BASE}/{INSTA_ID}/media`, one to the media-publish edge to `{GRAPH_BASE}/{INSTA_ID}/media_publish` (a definition) |
| Publisher.EndpointsDiffer | main.py:289-302 | the media edge and the media-publish edge of the account are different URLs |
| Publisher.VideoCreate | main.py:289-296 | the reel create request: the media edge with the token, `media_type=VIDEO`, the video URL and the caption (a definition) |
| Publisher.ImageCreate | main.py:316-320 | the image create request: the media edge with the token, the image URL and the caption (a definition) |
| Publisher.ChildCreate | main.py:341-347 | a carousel child create: the media edge with the token and the image URL, no caption (a definition) |
| Publisher.ParentCreate | main.py:353-361 | the carousel parent create: the media edge with the token, the caption, `media_type=CAROUSEL` and the children's ids (a definition) |
| Publisher.PublishRequest | main.py:302-306 | the publish request: the media-publish edge with the token and the creation id (a definition) |
| Publisher.WellSequenced | main.py:296-308 | an exchange is well-sequenced: every request but the last went to the media edge after a reply with an id, a publish comes last and carries the preceding create's id, and the post is published exactly when a publish got an ok reply (a definition) |
| Publisher.PublishTail | main.py:296-308 | what follows the create sent as request number `at`: when its reply carries an id, exactly one more request, the publish of that id, and the post is published exactly when that publish reply is ok; otherwise nothing more and not published (a definition) |
| Publisher.CreateThenPublish | main.py:296-308 | without an id in the create reply only the create is sent; with one, the publish carries exactly that id, and the post is published when the publish reply is ok |
| Publisher.PostVideoToInstagram | main.py:287-311 | the create carries `media_type=VIDEO`, the URL and the caption; when the create returned an id, the second and last request publishes exactly that id and the post is published exactly when that publish reply is ok; without an id nothing more is sent and it is not published; the exchange is well-sequenced |
| Publisher.PostImageToInstagram | main.py:314-335 | the image create carries the URL and the caption; then, as for a reel, the publish of exactly the returned id, published exactly when its reply is ok, or nothing more and not published; the exchange is well-sequenced |
| Publisher.FirstMissing | main.py:343-351 | the index of the first child reply without an id: all before it have one |
| Publisher.ChildIds | main.py:351 | one id per child, in order |
| Publisher.CreateChildren | main.py:343-351 | one caption-less child create per URL, in order, stopping right after the first reply without an id; otherwise every child's id is collected in order |
| Publisher.FirstMissingStops | main.py:349-350 | once a child reply without an id is met, it stays the first missing one |
| Publisher.PostCarouselToInstagram | main.py:338-376 | a missing child id ends the call with no parent create, no publish and nothing published; otherwise the parent create carries the caption and the comma-joined child ids in URL order, and when it returned an id the last request publishes exactly that id, the post being published exactly when that publish reply is ok; the exchange is well-sequenced |
| Orchestrator.PostedSlotsAppend | main.py:417-451 | the posts of a trace split at any point are the posts of each part |
| Orchestrator.UploadedAssetsAppend | main.py:417-451 | likewise for the uploads |
| Orchestrator.CooledDownAppend | main.py:417-437 | two paced traces one after the other stay paced |
| Orchestrator.CooledDown | main.py:419-437 | the pacing rule: every reel or static post is followed at once by a 120 s pause and every pause follows one; the carousel gets none (a definition) |
| Orchestrator.Kind | main.py:392-398 | the kind of each of the seven texts: the two reel scripts, the static caption, carousel slides 1 to 4 (a definition) |
| Orchestrator.Piece | main.py:392-398 | the `k`-th generated text of the run: `generate_piece` of the `k`-th kind for the topic, on the `k`-th answer (a definition; `Content.GeneratePiece` states its meaning) |
| Orchestrator.CaptionFor | main.py:419-451 | the caption each post carries: reel 1 and reel 2 their own scripts, the static post its caption, the carousel the fixed carousel caption (a definition) |
| Orchestrator.MediaFor | main.py:419-451 | the media each post links to: the URL its file's upload returned, and for the carousel the four slides' URLs in slide order (a definition) |
| Orchestrator.SingleCreate | main.py:422-436 | the create a single post sends: a `VIDEO` create for a reel, an image create for the static post (a definition) |
| Orchestrator.SentFor | main.py:287-376 | the requests of a post carry its caption and media: one create of the single URL with the caption, or one child create per URL in order, stopping at the first without an id, then the parent create of the comma-joined ids with the caption; after an id comes back for the (parent) create, the next and last request publishes that id and the post is published exactly when that reply is ok; otherwise the post is not published (a definition) |
| Orchestrator.PostOf | main.py:287-376 | an event is a given post made with a given caption and media: its requests are as `SentFor` says and the exchange is well-sequenced (a definition) |
| Orchestrator.PostedAs | main.py:419-451 | a post event is made with its slot's own caption and media (a definition) |
| Orchestrator.PostsFaithful | main.py:417-451 | every post of a trace is made with its slot's own caption and media (a definition) |
| Orchestrator.UploadOf | main.py:420-445 | an event is an upload that returned a given URL (a definition) |
| Orchestrator.AfterUploads | main.py:420-451 | post `i` comes right after one upload per media URL, in the order of the URLs (a definition) |
| Orchestrator.UploadsFirst | main.py:417-451 | every post of a trace comes right after the uploads that returned its media (a definition) |
| Orchestrator.UploadsFirstAppend | main.py:417-451 | two traces whose posts each follow their uploads still do when joined |
| Orchestrator.AfterUploadsLeft | main.py:417-451 | a post of the first part keeps its uploads in front of it when a trace is appended |
| Orchestrator.AfterUploadsRight | main.py:417-451 | a post of the second part keeps its uploads in front of it when a trace is prepended |
| Orchestrator.PostTitle | main.py:409 | the static image's title, `"{theme}: {sub_topic}"` (a definition) |
| Orchestrator.SlideTitle | main.py:413 | slide `i`'s title, `"{theme} - Slide {i}"` (a definition) |
| Orchestrator.CarouselCaption | main.py:447-450 | the carousel's fixed caption naming the theme and the sub-topic (a definition) |
| Orchestrator.PlannedSlots | main.py:417-451 | the posts a run should make: each reel and the static image when written and hosted, the carousel when all four slides were written and hosted, in that order (a definition) |
| Orchestrator.PlannedUploads | main.py:417-446 | the uploads a run should make: every written reel and static file, and the four slides only when all four were written (a definition) |
| Orchestrator.QuietAppend | main.py:390-415 | two traces without uploads, posts or pauses stay so joined |
| Orchestrator.QuietTrace | main.py:390-415 | producing the media uploads nothing, posts nothing and pauses never |
| Orchestrator.MakeVoice | main.py:401-402 | speech is synthesized from the script's hashtag-free lines, which hold no `#` |
| Orchestrator.MakeReel | main.py:405-406 | one reel event for the asset: the file exists exactly when it can be written and the script is not blank, and it is then the reel of that script with the given voice-over |
| Orchestrator.MakeImage | main.py:409-413 | one image event for the asset: the file exists exactly when it can be written, and it then shows the given text under the given title |
| Orchestrator.FollowsAppend | main.py:400-415 | steps done one after the other are recorded one after the other: events following two step lists, joined, follow the joined list |
| Orchestrator.SlideSteps | main.py:411-413 | the four slide steps: slide `i` drawn from the `i`-th slide text under its own title |
| Orchestrator.MakeSlides | main.py:411-415 | slide `i` is drawn from the `i`-th text under `"{theme} - Slide {i}"`, in order; the kept files are the written slides, in order |
| Orchestrator.KeptSlides | main.py:411-415 | the slide files kept after the first `n` slides, at most `n` (a definition) |
| Orchestrator.KeptSlidesAll | main.py:411-415 | all `n` slide files are kept exactly when all were written, and then they are slides 1 to `n` in order |
| Orchestrator.KeptSlidesShape | main.py:411-415 | the slide loop keeps four files exactly when all four slides were written, and then slides 1 to 4 in order |
| Orchestrator.MakeReels | main.py:400-406 | voice-over 1, voice-over 2, reel 1, reel 2, in order: each voice-over from its script without hashtag lines, each reel from its own script with its own voice-over; each reel exists exactly when its file can be written and its script is not blank |
| Orchestrator.MakeImages | main.py:408-415 | the static image drawn from the caption under `"{theme}: {sub_topic}"`, then slides 1 to 4 from the slide texts under their titles; the static image exists exactly when written; all four slides are kept exactly when all four were written |
| Orchestrator.Produce | main.py:391-415 | the nine media steps, in order, each from its own generated text: the reels from the two reel scripts, the static image from the caption, slide `i` from the `i`-th slide text; each reel and the static image exist exactly when written, since generated text is never blank; nothing is uploaded or posted |
| Orchestrator.Slides | main.py:396-398 | the four slide texts are the fourth to seventh generated texts, in order (a definition) |
| Orchestrator.ProductionSteps | main.py:392-415 | the nine media steps of a run, in order: both voice-overs, both reels, the static image, the four slides, each from its generated text (a definition) |
| Orchestrator.Made | main.py:400-415 | what one media step records: the spoken text and voice-over outcome, the reel plan, or the image layout it was drawn from (a definition) |
| Orchestrator.PublishSingle | main.py:418-436 | a reel or static post sends a create carrying its own text as caption and its file's URL (`VIDEO` for a reel, an image create for the static post), then a publish exactly when the create returned an id, and keeps the create-then-publish protocol |
| Orchestrator.SingleUploadFirst | main.py:420-422 | the upload whose URL a single post links to, then that post, then the pause: the post comes right after its upload |
| Orchestrator.SingleFaithful | main.py:420-423 | the upload, a faithful post and the pause make a trace whose only post is faithful |
| Orchestrator.SingleTrace | main.py:420-423 | an upload, a post and the pause make one upload, one post and a paced trace |
| Orchestrator.PostSingle | main.py:419-437 | a missing file leaves no event; a written one is uploaded first; it is posted, with its own caption and that URL and the publish of the returned id, and then paused after, exactly when its upload returned a URL, whatever the publish outcome; the post comes right after its upload |
| Orchestrator.Uploads | main.py:441-445 | at most one URL per uploaded file |
| Orchestrator.UploadsComplete | main.py:441-446 | there are k URLs exactly when all k uploads returned one |
| Orchestrator.UploadTrace | main.py:442-445 | the slide uploads upload the files in order, post nothing and pause never |
| Orchestrator.UploadsAll | main.py:442-445 | when all `k` uploads returned a URL, URL `j` is what upload `j` returned |
| Orchestrator.UploadSlides | main.py:441-445 | the upload loop keeps the URLs that came back, in order |
| Orchestrator.FirstFourUploads | main.py:442-446 | the four slide URLs are the four uploads' results in order, and there are four exactly when all came back |
| Orchestrator.CarouselAppended | main.py:446-451 | the carousel post after the uploads adds one post, the carousel, and no upload or pause |
| Orchestrator.PostAfterUploads | main.py:446-451 | the carousel post is the one event added right after the uploads, which stay as they were: one child create per URL in order, then the parent create with the caption and the comma-joined child ids when all came back, then the publish of the returned id; no pause is added |
| Orchestrator.PostCarousel | main.py:440-451 | with four files the first four are uploaded; the carousel is posted exactly when all four URLs came back, right after those four uploads, from their URLs in order and with its caption, published as `PostOf` says; no pause follows |
| Orchestrator.Compose | main.py:417-451 | consecutive steps of a run add up: posts, uploads, pacing and post contents |
| Orchestrator.PostSlides | main.py:440-451 | the slides are uploaded exactly when all four were written; the carousel is posted exactly when also all four uploads returned a URL, right after those uploads and faithfully |
| Orchestrator.SlideFiles | main.py:440-446 | the four slide files in order: their uploads give the carousel's media, and all are hosted exactly when the four slides are |
| Orchestrator.SinglesJoined | main.py:418-437 | the uploads and posts of the three single posts, joined, are theirs in the order reel 1, reel 2, static |
| Orchestrator.PostSingles | main.py:418-437 | reel 1, reel 2 and the static image are uploaded when written and posted when also hosted, in that order, each post faithful, right after its upload, and paced |
| Orchestrator.Compose3 | main.py:417-437 | three consecutive pieces of a run add up: posts, uploads, pacing and post contents |
| Orchestrator.PostAll | main.py:417-451 | the posts made are exactly the planned ones in order; the uploads are exactly the planned ones; every post comes right after the uploads of its media, sends its own caption and media to the Graph API, publishes the id its create returned, and is paced |
| Orchestrator.AnnounceAndPost | main.py:384-451 | the topic is announced first, the media steps follow unchanged, and the posting then makes exactly the planned uploads and posts, each right after its uploads, faithful (its create and the publish of the returned id) and paced |
| Orchestrator.RunTopic | main.py:384-451 | with a topic, the run announces it, records the nine media steps from their generated texts, and then makes exactly the planned uploads and posts, each post right after the uploads of its media, sending its own caption and media and then the publish of the returned id, paced |
| Orchestrator.RunDaily | main.py:380-454 | a schedule failure ends the run with nothing else done; otherwise the topic is a sub-topic of the chosen row; the media are made from their generated texts; the posts are exactly the planned ones in the order reel 1, reel 2, static, carousel, each right after the uploads of its media and sending its own caption and media, then the publish of the returned id, in a well-sequenced exchange; a 120 s pause follows each reel or static post and nothing else |

## Left out

- Telegram notifications (`send_telegram`, main.py:75-83, and its calls in every handler and in `main`) are not modelled. They never change control flow.
- The Graph API, Cloudinary and Telegram HTTP transport is not modelled. Graph replies are scripted `Reply(ok, id)` values. A request that raises is `Reply(false, None)`, and so is a create reply whose body is not JSON. A publish reply is read only for its `ok` flag (main.py:307, 331 and 372).
- Cloudinary upload (main.py:266-280) is one abstract outcome per file, `hosted(asset)`: a URL or `None`.
- The language-model call and its prompt (main.py:112-136) are not modelled. Only the answer (`None` when the call raised) enters `generate_piece`. The theme only shapes the prompt.
- edge-tts and `asyncio.run` (main.py:152-161) are not modelled. Only whether synthesis succeeded, and the speech's length, are inputs. The speech text passed in is modelled.
- moviepy rendering, fades, codecs and frame rate (main.py:194-223) are not modelled. Durations are whole tenths of a second rather than floats. Any exception while writing the reel is the single input `written`.
- PIL drawing, fonts, colours and the border (main.py:234-240) are not modelled.
- `textwrap.wrap(line, width=24)` is the abstract function `wrap`. Its algorithm is not modelled.
- Image.CreateImage: any exception while creating or saving the image is the single input `saved`. Only the positions and texts drawn are modelled.
- `datetime.utcnow().weekday()` is the `weekday` parameter.
- `random.choice` is any member of the list, picked by `:|`.
- Reading the CSV file is not modelled; the rows are an input.
- A row without a `Day`, `Theme` or `SubTopics` column raises `KeyError` in the source. This is not modelled: every row has all three.
- `int()` parsing of `Day` is abstracted to `Option<int>` (`None` when `int()` raises). Its accepted syntax is not modelled.
- `time.sleep(120)` is a `Cooldown(120)` event in the trace, not real time.
- Import-time environment validation and client setup (main.py:24-71) are not modelled.
- daily_idea.py is not part of this model. It is a single call to another text service plus Telegram messages, with no decision logic of its own.
- Chunker.SplitScriptIntoChunks requires `maxWords > 0`.
  - With 0, Python's `range` raises `ValueError`.
  - A negative size gives an empty range.
  - Neither case is modelled. The program always passes 10.
- Content.FallbackText and Orchestrator.CarouselCaption: the emoji in the two fixed texts are modelled as the characters main.py actually holds at those points (a UTF-8 emoji read back as Windows-1252). Lengths count those characters.
- Orchestrator.RunDaily: the trace does not record the text-generation calls. Their results appear through the steps the media are made from (`ProductionSteps`) and through the captions in `PostsFaithful`.
