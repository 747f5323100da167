/** The YouTube agent (`python-agent/agent.py`): mapping search results to video
    cards, numbering them into a text summary, and choosing between a video reply and
    a plain assistant reply. The search API, the regex query extractor and the language
    model are parameters giving their answers. */
module Agent {
  import opened Text
  import opened AgentProtocol

  /** One search hit as the API returns it: `id.videoId`, `snippet.title`,
      `snippet.channelTitle`, `snippet.thumbnails.medium.url`. */
  datatype SearchItem = SearchItem(videoId: string, title: string, channelTitle: string, mediumThumbnail: string)

  /** What the search call gave: the response's `items` (absent when `None`), or an
      `HttpError`. */
  datatype SearchOutcome = Listed(items: Option<seq<SearchItem>>) | HttpFailure

  const WatchPrefix := "https://www.youtube.com/watch?v="

  /** The single card returned when no API key is configured. */
  const NotConfigured := Video("YouTube API key not configured", "", "", "")

  /** The card for one hit: its watch URL carries the video id after the fixed prefix;
      title, channel and thumbnail are copied. */
  function ToVideo(item: SearchItem): (v: Video)
    ensures StartsWith(v.url, WatchPrefix) && v.url[|WatchPrefix|..] == item.videoId
    ensures v.title == item.title && v.channel == item.channelTitle && v.thumbnail == item.mediumThumbnail
  {
    var url := WatchPrefix + item.videoId;
    assert url[..|WatchPrefix|] == WatchPrefix && url[|WatchPrefix|..] == item.videoId;
    Video(item.title, url, item.mediumThumbnail, item.channelTitle)
  }

  /** The cards for a list of hits, one per hit, in the same order. */
  function ToVideos(items: seq<SearchItem>): (vs: seq<Video>)
    ensures |vs| == |items|
    ensures forall k :: 0 <= k < |items| ==> vs[k] == ToVideo(items[k])
  {
    if items == [] then [] else [ToVideo(items[0])] + ToVideos(items[1..])
  }

  /** What `search_youtube_videos` returns. */
  function SearchResults(configured: bool, outcome: SearchOutcome): seq<Video> {
    if !configured then [NotConfigured]
    else match outcome
      case HttpFailure => []
      case Listed(items) => ToVideos(items.GetOr([]))
  }

  /** `search_youtube_videos`: without a key, the one placeholder card; after an HTTP
      error, nothing; otherwise one card per hit, built by the append loop. */
  method SearchYouTubeVideos(configured: bool, outcome: SearchOutcome) returns (videos: seq<Video>)
    ensures videos == SearchResults(configured, outcome)
  {
    if !configured {
      return [NotConfigured];
    }
    match outcome {
      case HttpFailure =>
        return [];
      case Listed(found) =>
        var items := found.GetOr([]);
        videos := [];
        var k := 0;
        while k < |items|
          invariant 0 <= k <= |items|
          invariant |videos| == k
          invariant forall j :: 0 <= j < k ==> videos[j] == ToVideo(items[j])
        {
          videos := videos + [ToVideo(items[k])];
          k := k + 1;
        }
    }
  }

  /** The opening line of the summary. */
  function Header(query: string): string {
    HeaderOpening + query + HeaderClosing
  }

  const HeaderOpening := "Here are some YouTube videos about '"
  const HeaderClosing := "':\n\n"

  /** The summary entry for the video numbered `n`. */
  function Entry(n: nat, v: Video): string {
    Decimal(n) + NumberDot + v.title + ByInfix + v.channel + UrlIndent + v.url + EntryEnd
  }

  const NumberDot := ". "
  const ByInfix := " by "
  const UrlIndent := "\n   "
  const EntryEnd := "\n\n"

  /** `entry(first, xs[0]) + entry(first + 1, xs[1]) + ...`: the items joined in order,
      numbered from `first` on. */
  function Numbered<T>(entry: (nat, T) -> string, xs: seq<T>, first: nat): string {
    if xs == [] then "" else entry(first, xs[0]) + Numbered(entry, xs[1..], first + 1)
  }

  /** The entries for `videos`, numbered from `first` on. */
  function Entries(videos: seq<Video>, first: nat): string {
    Numbered(Entry, videos, first)
  }

  /** Joining a concatenation joins each part, the second part's numbering continuing
      where the first stopped. */
  lemma {:induction false} NumberedAppend<T>(entry: (nat, T) -> string, a: seq<T>, b: seq<T>, first: nat)
    ensures Numbered(entry, a + b, first) == Numbered(entry, a, first) + Numbered(entry, b, first + |a|)
  {
    if a == [] {
      assert a + b == b;
    } else {
      var e := entry(first, a[0]);
      assert (a + b)[0] == a[0] && (a + b)[1..] == a[1..] + b;
      NumberedAppend(entry, a[1..], b, first + 1);
      calc {
        Numbered(entry, a + b, first);
        e + Numbered(entry, a[1..] + b, first + 1);
        e + (Numbered(entry, a[1..], first + 1) + Numbered(entry, b, first + |a|));
        (e + Numbered(entry, a[1..], first + 1)) + Numbered(entry, b, first + |a|);
        Numbered(entry, a, first) + Numbered(entry, b, first + |a|);
      }
    }
  }

  /** Entries for a concatenation are the entries of each part, the second part's
      numbering continuing where the first stopped. */
  lemma EntriesAppend(a: seq<Video>, b: seq<Video>, first: nat)
    ensures Entries(a + b, first) == Entries(a, first) + Entries(b, first + |a|)
  {
    NumberedAppend(Entry, a, b, first);
  }

  /** Adding a video at the end adds its entry, numbered after the others. */
  lemma EntriesSnoc(videos: seq<Video>, k: nat)
    requires k < |videos|
    ensures Entries(videos[..k + 1], 1) == Entries(videos[..k], 1) + Entry(k + 1, videos[k])
  {
    NumberedSnoc(Entry, videos, k);
  }

  lemma NumberedSnoc<T>(entry: (nat, T) -> string, xs: seq<T>, k: nat)
    requires k < |xs|
    ensures Numbered(entry, xs[..k + 1], 1) == Numbered(entry, xs[..k], 1) + entry(k + 1, xs[k])
  {
    assert xs[..k + 1] == xs[..k] + [xs[k]];
    NumberedAppend(entry, xs[..k], [xs[k]], 1);
    assert [xs[k]][1..] == [];
    assert Numbered(entry, [xs[k]], k + 1) == entry(k + 1, xs[k]) + "";
  }

  /** The `k`-th video (from 0) is the one numbered `k + 1`, with every video before it
      listed ahead of it and every video after it behind it. */
  lemma EntriesNumbered(videos: seq<Video>, k: nat)
    requires k < |videos|
    ensures Entries(videos, 1) ==
      Entries(videos[..k], 1) + Entry(k + 1, videos[k]) + Entries(videos[k + 1..], k + 2)
  {
    assert videos == videos[..k] + videos[k..];
    NumberedAppend(Entry, videos[..k], videos[k..], 1);
    assert videos[k..][1..] == videos[k + 1..];
  }

  /** The `+=` loop of `process_query`: the header, then one numbered entry per video
      in list order. */
  method FormatResults(query: string, videos: seq<Video>) returns (text: string)
    ensures text == Header(query) + Entries(videos, 1)
  {
    var header := Header(query);
    text := header;
    var k := 0;
    while k < |videos|
      invariant 0 <= k <= |videos|
      invariant text == header + Entries(videos[..k], 1)
    {
      EntriesSnoc(videos, k);
      text := text + Entry(k + 1, videos[k]);
      k := k + 1;
    }
    assert videos[..k] == videos;
  }

  /** The request the language model is given to summarise the results. */
  function SummaryPrompt(query: string, results: string): string {
    PromptOpening + query + PromptResults + results + PromptClosing
  }

  const PromptOpening := "The user asked about YouTube videos on '"
  const PromptResults := "'. Here are the results: "
  const PromptClosing := " Please provide a helpful, concise summary of these results and any additional context that might be useful."

  /** `process_query`. When a YouTube query is extracted and the search yields cards,
      the reply is of type "youtube_results", carries those cards unchanged and has the
      model's summary of the numbered list as text; otherwise (no YouTube query, or no
      cards) it is the model's answer to the raw query, of type "text". A missing query
      is "". */
  method ProcessQuery(query: Option<string>, extract: string -> Option<string>, configured: bool,
                      search: string -> SearchOutcome, assistant: string -> string)
    returns (reply: AgentReply)
    ensures var q := query.GetOr("");
      var yq := extract(q);
      if Filled(yq) && SearchResults(configured, search(yq.value)) != [] then
        var vs := SearchResults(configured, search(yq.value));
        reply == AgentReply(assistant(SummaryPrompt(yq.value, Header(yq.value) + Entries(vs, 1))),
                            "youtube_results", Some(vs), None)
      else
        reply == AgentReply(assistant(q), "text", None, None)
  {
    var q := query.GetOr("");
    var youtubeQuery := extract(q);
    if youtubeQuery.Some? && youtubeQuery.value != "" {
      var videos := SearchYouTubeVideos(configured, search(youtubeQuery.value));
      if videos != [] {
        var textResponse := FormatResults(youtubeQuery.value, videos);
        var enhanced := assistant(SummaryPrompt(youtubeQuery.value, textResponse));
        return AgentReply(enhanced, "youtube_results", Some(videos), None);
      }
    }
    reply := AgentReply(assistant(q), "text", None, None);
  }

  /** Without an API key a search still yields one card, the "not configured"
      placeholder, so every YouTube query gets a video reply listing it as number 1 with
      an empty channel and URL. */
  lemma UnconfiguredSearchListsPlaceholder(outcome: SearchOutcome)
    ensures SearchResults(false, outcome) == [NotConfigured]
    ensures Entries(SearchResults(false, outcome), 1) == "1" + NumberDot + NotConfigured.title + ByInfix + UrlIndent + EntryEnd
  {
    assert Decimal(1) == "1";
    assert [NotConfigured][1..] == [];
    assert Numbered(Entry, [NotConfigured], 1) == Entry(1, NotConfigured) + "";
  }
}
