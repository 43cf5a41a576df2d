/** The YouTube transcript extractor (backend/services/youtube_transcript.py): the video id is
    cut out of the URL and the caption segments' texts are concatenated. */
module YouTube {
  import opened PyStrings
  import opened Outcomes

  /** One caption segment as the transcript service returns it; `text` is `None` when the
      segment has no `'text'` key. */
  datatype Segment = Segment(text: Option<string>)

  /** `youtube_url.split("=")[1]`, or `None` for the `IndexError` of a URL with no `=`. */
  function VideoId(url: string): (id: Option<string>)
    ensures id.None? <==> '=' !in url
    ensures id.Some? ==> '=' !in id.value
  {
    var fields := Split(url, '=');
    SplitFields(url, '=');
    if |fields| < 2 then None else Some(fields[1])
  }

  /** The video id is the text between the first and the second `=` (or the end of the URL). */
  lemma {:induction false} VideoIdBetween(url: string, before: string, id: string, rest: string)
    requires url == before + "=" + id + rest
    requires '=' !in before && '=' !in id
    requires rest == "" || rest[0] == '='
    ensures VideoId(url) == Some(id)
  {
    var tail := id + rest;
    assert url == before + ['='] + tail;
    SplitAfterFirst(url, before, tail);
    FirstField(id, rest);
    var fields := Split(url, '=');
    assert fields == [before] + Split(tail, '=');
    assert |fields| >= 2 && fields[1] == id;
  }

  /** Splitting at the first `=` leaves the fields of what follows it. */
  lemma SplitAfterFirst(url: string, before: string, tail: string)
    requires url == before + ['='] + tail && '=' !in before
    ensures Split(url, '=') == [before] + Split(tail, '=')
  {
    assert url == before + (['='] + tail);
    IndexOfAfter(before, ['='] + tail, '=');
    assert url[..|before|] == before;
    assert url[|before| + 1..] == tail;
    SplitAtSeparator(url, '=');
  }

  /** The first field is the text up to the first `=`. */
  lemma FirstField(id: string, rest: string)
    requires '=' !in id
    requires rest == "" || rest[0] == '='
    ensures Split(id + rest, '=')[0] == id
  {
    var tail := id + rest;
    IndexOfAfter(id, rest, '=');
    if rest == "" {
      assert tail == id;
      SplitNoSeparator(tail, '=');
    } else {
      SplitAtSeparator(tail, '=');
      assert tail[..|id|] == id;
    }
  }

  /** Every segment carries a text. */
  predicate AllHaveText(segments: seq<Segment>) {
    forall i :: 0 <= i < |segments| ==> segments[i].text.Some?
  }

  /** The segments' texts, in order, with no separator. */
  function Concat(segments: seq<Segment>): string
    requires AllHaveText(segments)
  {
    if segments == [] then ""
    else Concat(segments[..|segments| - 1]) + segments[|segments| - 1].text.value
  }

  /** Concatenation distributes over splitting the segment list. */
  lemma {:induction false} ConcatAppend(a: seq<Segment>, b: seq<Segment>)
    requires AllHaveText(a) && AllHaveText(b)
    ensures AllHaveText(a + b)
    ensures Concat(a + b) == Concat(a) + Concat(b)
  {
    if b == [] {
      assert a + b == a;
    } else {
      var b' := b[..|b| - 1];
      assert (a + b)[..|a + b| - 1] == a + b';
      ConcatAppend(a, b');
    }
  }

  /** Each segment's text sits in the transcript right after the texts of the segments before it. */
  lemma SegmentInPlace(segments: seq<Segment>, i: nat)
    requires AllHaveText(segments) && i < |segments|
    ensures var start := |Concat(segments[..i])|;
      var t := segments[i].text.value;
      start + |t| <= |Concat(segments)| && Concat(segments)[start..start + |t|] == t
  {
    assert segments == segments[..i] + [segments[i]] + segments[i + 1..];
    ConcatAppend(segments[..i], [segments[i]]);
    ConcatAppend(segments[..i] + [segments[i]], segments[i + 1..]);
    assert Concat([segments[i]]) == segments[i].text.value by {
      assert [segments[i]][..0] == [];
    }
  }

  /** What `extract_transcript` returns for `url` when the transcript service gives `fetch(id)`
      for a video id (`None` when it raises). */
  function Transcript(url: string, fetch: string -> Option<seq<Segment>>): (r: Option<string>)
    ensures '=' !in url ==> r == None
    ensures r.Some? <==> VideoId(url).Some? && fetch(VideoId(url).value).Some? && AllHaveText(fetch(VideoId(url).value).value)
    ensures r.Some? ==> r.value == Concat(fetch(VideoId(url).value).value)
  {
    match VideoId(url)
    case None => None
    case Some(id) =>
      match fetch(id)
      case None => None
      case Some(segments) => if AllHaveText(segments) then Some(Concat(segments)) else None
  }

  /** `extract_transcript` (youtube_transcript.py:11-21): every failure is caught and gives `None`. */
  method ExtractTranscript(youtubeUrl: string, fetch: string -> Option<seq<Segment>>) returns (r: Option<string>)
    ensures r == Transcript(youtubeUrl, fetch)
    ensures '=' !in youtubeUrl ==> r == None
  {
    var videoId := VideoId(youtubeUrl);
    if videoId.None? {
      return None;
    }
    var transcript := fetch(videoId.value);
    if transcript.None? {
      return None;
    }
    var segments := transcript.value;
    var transcriptText := "";
    var i := 0;
    while i < |segments|
      invariant 0 <= i <= |segments|
      invariant AllHaveText(segments[..i])
      invariant transcriptText == Concat(segments[..i])
    {
      if segments[i].text.None? {
        // `i['text']` raises KeyError, caught by the handler around the whole body.
        assert !AllHaveText(segments);
        return None;
      }
      assert segments[..i + 1][..i] == segments[..i];
      transcriptText := transcriptText + segments[i].text.value;
      i := i + 1;
    }
    assert segments[..i] == segments;
    r := Some(transcriptText);
  }

  /** A video with an empty caption track gives the empty transcript, not `None`. */
  lemma EmptyTrackGivesEmptyText(url: string, fetch: string -> Option<seq<Segment>>)
    requires '=' in url && fetch(VideoId(url).value) == Some([])
    ensures Transcript(url, fetch) == Some("")
  {
  }
}
