/** `parse_video_data`: one item of the video API's trending response becomes one
    flat record. The two packages (trendscrap/data_fetch.py:9-87 and
    ytexplorer/data_fetch.py:7-71) carry the same function; this module models both. */
module VideoRecords {
  import opened Wrappers
  import opened Text

  /** One entry of `snippet.thumbnails`; the `url` key may be absent. */
  datatype Thumbnail = Thumbnail(url: Option<string>)

  datatype Snippet = Snippet(
    title: Option<string>,
    channelTitle: Option<string>,
    channelId: Option<string>,
    publishedAt: Option<string>,
    thumbnails: Option<map<string, Thumbnail>>,
    tags: Option<seq<string>>)

  datatype RegionRestriction = RegionRestriction(blocked: Option<seq<string>>)

  datatype ContentDetails = ContentDetails(regionRestriction: Option<RegionRestriction>)

  /** The counters, already read as numbers; the API omits the ones a channel disabled. */
  datatype Statistics = Statistics(
    likeCount: Option<nat>,
    dislikeCount: Option<nat>,
    viewCount: Option<nat>,
    commentCount: Option<nat>)

  /** One raw item: every key the normaliser reads may be missing. */
  datatype RawItem = RawItem(
    id: Option<string>,
    snippet: Option<Snippet>,
    contentDetails: Option<ContentDetails>,
    statistics: Option<Statistics>)

  /** One output row before the aggregator tags it. */
  datatype VideoRecord = VideoRecord(
    videoTitle: string,
    videoLink: string,
    videoId: string,
    channelLink: string,
    channelId: string,
    channelName: string,
    publishedAt: string,
    tags: Option<string>,
    likesCount: int,
    dislikesCount: int,
    viewsCount: int,
    commentsCount: int,
    blockedInCountries: Option<string>,
    videoThumbnailLink: Option<string>)

  /** The keys whose absence raises `KeyError`, in the order the code reads them. */
  datatype RequiredKey =
    | SnippetKey | TitleKey | ChannelTitleKey | ChannelIdKey | IdKey
    | PublishedAtKey | ThumbnailsKey | ContentDetailsKey | StatisticsKey

  const RequiredKeys: seq<RequiredKey> := [
    SnippetKey, TitleKey, ChannelTitleKey, ChannelIdKey, IdKey,
    PublishedAtKey, ThumbnailsKey, ContentDetailsKey, StatisticsKey]

  /** The key a `KeyError` names. */
  function KeyName(k: RequiredKey): string
  {
    match k
    case SnippetKey => "snippet"
    case TitleKey => "title"
    case ChannelTitleKey => "channelTitle"
    case ChannelIdKey => "channelId"
    case IdKey => "id"
    case PublishedAtKey => "publishedAt"
    case ThumbnailsKey => "thumbnails"
    case ContentDetailsKey => "contentDetails"
    case StatisticsKey => "statistics"
  }

  /** `KeyError(KeyName(key))`. */
  datatype ParseError = MissingKey(key: RequiredKey)

  predicate Has(item: RawItem, k: RequiredKey)
  {
    match k
    case SnippetKey => item.snippet.Some?
    case TitleKey => item.snippet.Some? && item.snippet.value.title.Some?
    case ChannelTitleKey => item.snippet.Some? && item.snippet.value.channelTitle.Some?
    case ChannelIdKey => item.snippet.Some? && item.snippet.value.channelId.Some?
    case IdKey => item.id.Some?
    case PublishedAtKey => item.snippet.Some? && item.snippet.value.publishedAt.Some?
    case ThumbnailsKey => item.snippet.Some? && item.snippet.value.thumbnails.Some?
    case ContentDetailsKey => item.contentDetails.Some?
    case StatisticsKey => item.statistics.Some?
  }

  /** Every key of `RequiredKeys` is present, spelled out field by field so that
      the solver reads each presence fact directly; `HasEveryRequiredKey` ties it
      to `Has` over `RequiredKeys`. */
  predicate HasRequiredKeys(item: RawItem)
  {
    && item.id.Some?
    && item.snippet.Some?
    && item.snippet.value.title.Some?
    && item.snippet.value.channelTitle.Some?
    && item.snippet.value.channelId.Some?
    && item.snippet.value.publishedAt.Some?
    && item.snippet.value.thumbnails.Some?
    && item.contentDetails.Some?
    && item.statistics.Some?
  }

  lemma HasEveryRequiredKey(item: RawItem)
    ensures HasRequiredKeys(item) <==> forall i :: 0 <= i < |RequiredKeys| ==> Has(item, RequiredKeys[i])
  {
    if forall i :: 0 <= i < |RequiredKeys| ==> Has(item, RequiredKeys[i]) {
      assert Has(item, RequiredKeys[0]) && Has(item, RequiredKeys[1]) && Has(item, RequiredKeys[2]);
      assert Has(item, RequiredKeys[3]) && Has(item, RequiredKeys[4]) && Has(item, RequiredKeys[5]);
      assert Has(item, RequiredKeys[6]) && Has(item, RequiredKeys[7]) && Has(item, RequiredKeys[8]);
    }
  }

  const VideoLinkPrefix := "https://www.youtube.com/watch?v="
  const ChannelLinkPrefix := "https://www.youtube.com/channel/"

  /** The preferred resolution, tried first inside the `try`. */
  const StandardResolution := "standard"

  /** The resolutions the `except KeyError` branch tries, in order. */
  const FallbackResolutions := ["high", "maxres", "medium", "default"]

  /** The `url` of one resolution, when both the resolution and its `url` key exist. */
  function UrlOf(thumbs: map<string, Thumbnail>, resolution: string): Option<string>
  {
    if resolution in thumbs then thumbs[resolution].url else None
  }

  /** The `url` of the first resolution in `resolutions` that has one. */
  function FirstUrl(thumbs: map<string, Thumbnail>, resolutions: seq<string>): Option<string>
  {
    if resolutions == [] then None
    else if UrlOf(thumbs, resolutions[0]).Some? then UrlOf(thumbs, resolutions[0])
    else FirstUrl(thumbs, resolutions[1..])
  }

  function SelectThumbnail(thumbs: map<string, Thumbnail>): Option<string>
  {
    if UrlOf(thumbs, StandardResolution).Some? then UrlOf(thumbs, StandardResolution)
    else FirstUrl(thumbs, FallbackResolutions)
  }

  /** A counter field: the API's number when the key is present, else the sentinel -1. */
  predicate CountFrom(count: int, raw: Option<nat>)
  {
    if raw.Some? then count == raw.value else count == -1
  }

  /** A comma-joined list column: present exactly when the list is. */
  predicate JoinedFrom(column: Option<string>, raw: Option<seq<string>>)
  {
    if raw.Some? then column == Some(Join(raw.value, ',')) else column == None
  }

  function BlockedList(details: ContentDetails): Option<seq<string>>
  {
    if details.regionRestriction.Some? then details.regionRestriction.value.blocked else None
  }

  /** What each field of a normalised record is, in terms of the raw item. */
  predicate Describes(item: RawItem, rec: VideoRecord)
    requires HasRequiredKeys(item)
  {
    var sn := item.snippet.value;
    var st := item.statistics.value;
    && rec.videoId == item.id.value
    && rec.videoLink == VideoLinkPrefix + item.id.value
    && rec.channelId == sn.channelId.value
    && rec.channelLink == ChannelLinkPrefix + sn.channelId.value
    && rec.videoTitle == sn.title.value
    && rec.channelName == sn.channelTitle.value
    && rec.publishedAt == sn.publishedAt.value
    && rec.videoThumbnailLink == SelectThumbnail(sn.thumbnails.value)
    && JoinedFrom(rec.tags, sn.tags)
    && JoinedFrom(rec.blockedInCountries, BlockedList(item.contentDetails.value))
    && CountFrom(rec.likesCount, st.likeCount)
    && CountFrom(rec.dislikesCount, st.dislikeCount)
    && CountFrom(rec.viewsCount, st.viewCount)
    && CountFrom(rec.commentsCount, st.commentCount)
  }

  /** `parse_video_data` as one expression: the first missing required key, in
      reading order, fails the whole item; otherwise every optional part falls
      back as the code does. */
  function Normalize(item: RawItem): (r: Result<VideoRecord, ParseError>)
    ensures r.Success? <==> HasRequiredKeys(item)
    ensures r.Success? ==> Describes(item, r.value)
    ensures r.Failure? ==>
      exists i :: 0 <= i < |RequiredKeys| && r.error == MissingKey(RequiredKeys[i])
        && !Has(item, RequiredKeys[i])
        && forall j :: 0 <= j < i ==> Has(item, RequiredKeys[j])
  {
    if item.snippet.None? then
      assert RequiredKeys[0] == SnippetKey;
      Failure(MissingKey(SnippetKey))
    else
      var sn := item.snippet.value;
      if sn.title.None? then
        assert RequiredKeys[1] == TitleKey;
        Failure(MissingKey(TitleKey))
      else if sn.channelTitle.None? then
        assert RequiredKeys[2] == ChannelTitleKey;
        Failure(MissingKey(ChannelTitleKey))
      else if sn.channelId.None? then
        assert RequiredKeys[3] == ChannelIdKey;
        Failure(MissingKey(ChannelIdKey))
      else if item.id.None? then
        assert RequiredKeys[4] == IdKey;
        Failure(MissingKey(IdKey))
      else if sn.publishedAt.None? then
        assert RequiredKeys[5] == PublishedAtKey;
        Failure(MissingKey(PublishedAtKey))
      else if sn.thumbnails.None? then
        assert RequiredKeys[6] == ThumbnailsKey;
        Failure(MissingKey(ThumbnailsKey))
      else if item.contentDetails.None? then
        assert RequiredKeys[7] == ContentDetailsKey;
        Failure(MissingKey(ContentDetailsKey))
      else if item.statistics.None? then
        assert RequiredKeys[8] == StatisticsKey;
        Failure(MissingKey(StatisticsKey))
      else
        var st := item.statistics.value;
        var blocked := BlockedList(item.contentDetails.value);
        Success(VideoRecord(
          sn.title.value,
          VideoLinkPrefix + item.id.value,
          item.id.value,
          ChannelLinkPrefix + sn.channelId.value,
          sn.channelId.value,
          sn.channelTitle.value,
          sn.publishedAt.value,
          if sn.tags.Some? then Some(Join(sn.tags.value, ',')) else None,
          if st.likeCount.Some? then st.likeCount.value else -1,
          if st.dislikeCount.Some? then st.dislikeCount.value else -1,
          if st.viewCount.Some? then st.viewCount.value else -1,
          if st.commentCount.Some? then st.commentCount.value else -1,
          if blocked.Some? then Some(Join(blocked.value, ',')) else None,
          SelectThumbnail(sn.thumbnails.value)))
  }

  /** `parse_video_data` in the code's own shape: locals that start from a default
      and are overwritten, and the thumbnail fallback as a loop with `break`. */
  method ParseVideoData(item: RawItem) returns (r: Result<VideoRecord, ParseError>)
    ensures r == Normalize(item)
  {
    if item.snippet.None? { return Failure(MissingKey(SnippetKey)); }
    var snippet := item.snippet.value;
    if snippet.title.None? { return Failure(MissingKey(TitleKey)); }
    var videoTitle := snippet.title.value;
    if snippet.channelTitle.None? { return Failure(MissingKey(ChannelTitleKey)); }
    var channelName := snippet.channelTitle.value;

    if snippet.channelId.None? { return Failure(MissingKey(ChannelIdKey)); }
    var channelId := snippet.channelId.value;
    var channelLink := ChannelLinkPrefix + channelId;

    if item.id.None? { return Failure(MissingKey(IdKey)); }
    var videoId := item.id.value;
    var videoLink := VideoLinkPrefix + videoId;

    if snippet.publishedAt.None? { return Failure(MissingKey(PublishedAtKey)); }
    var publishedAt := snippet.publishedAt.value;

    var thumbnailLink: Option<string>;
    if snippet.thumbnails.Some? && UrlOf(snippet.thumbnails.value, StandardResolution).Some? {
      thumbnailLink := UrlOf(snippet.thumbnails.value, StandardResolution);
    } else {
      // the `except KeyError` branch reads the thumbnails section again
      if snippet.thumbnails.None? { return Failure(MissingKey(ThumbnailsKey)); }
      var thumbs := snippet.thumbnails.value;
      thumbnailLink := None;
      var i := 0;
      while i < |FallbackResolutions|
        invariant 0 <= i <= |FallbackResolutions|
        invariant thumbnailLink.None?
        invariant FirstUrl(thumbs, FallbackResolutions) == FirstUrl(thumbs, FallbackResolutions[i..])
      {
        var resolution := FallbackResolutions[i];
        assert FallbackResolutions[i..][0] == resolution;
        assert FallbackResolutions[i..][1..] == FallbackResolutions[i + 1..];
        if resolution in thumbs && thumbs[resolution].url.Some? {
          thumbnailLink := thumbs[resolution].url;
          break;
        }
        i := i + 1;
      }
    }

    var tags: Option<string> := None;
    if snippet.tags.Some? {
      tags := Some(Join(snippet.tags.value, ','));
    }

    if item.contentDetails.None? { return Failure(MissingKey(ContentDetailsKey)); }
    var details := item.contentDetails.value;
    var blockedInCountries: Option<string> := None;
    if details.regionRestriction.Some? {
      if details.regionRestriction.value.blocked.Some? {
        blockedInCountries := Some(Join(details.regionRestriction.value.blocked.value, ','));
      }
    }

    if item.statistics.None? { return Failure(MissingKey(StatisticsKey)); }
    var stats := item.statistics.value;
    var likesCount: int := -1;
    if stats.likeCount.Some? { likesCount := stats.likeCount.value; }
    var dislikesCount: int := -1;
    if stats.dislikeCount.Some? { dislikesCount := stats.dislikeCount.value; }
    var viewsCount: int := -1;
    if stats.viewCount.Some? { viewsCount := stats.viewCount.value; }
    var commentsCount: int := -1;
    if stats.commentCount.Some? { commentsCount := stats.commentCount.value; }

    r := Success(VideoRecord(
      videoTitle, videoLink, videoId, channelLink, channelId, channelName, publishedAt,
      tags, likesCount, dislikesCount, viewsCount, commentsCount,
      blockedInCountries, thumbnailLink));
  }

  /** `FirstUrl` picks the earliest resolution that has a `url`, and ... */
  lemma {:induction false} FirstUrlIsEarliest(thumbs: map<string, Thumbnail>, resolutions: seq<string>, u: string)
    ensures FirstUrl(thumbs, resolutions) == Some(u)
        <==> exists i :: 0 <= i < |resolutions| && UrlOf(thumbs, resolutions[i]) == Some(u)
               && forall j :: 0 <= j < i ==> UrlOf(thumbs, resolutions[j]).None?
  {
    if resolutions != [] {
      var rest := resolutions[1..];
      FirstUrlIsEarliest(thumbs, rest, u);
      if UrlOf(thumbs, resolutions[0]).None? {
        if FirstUrl(thumbs, rest) == Some(u) {
          var i :| 0 <= i < |rest| && UrlOf(thumbs, rest[i]) == Some(u)
                   && forall j :: 0 <= j < i ==> UrlOf(thumbs, rest[j]).None?;
          assert resolutions[i + 1] == rest[i];
          assert forall j :: 0 < j < i + 1 ==> resolutions[j] == rest[j - 1];
        }
        if exists i :: 0 <= i < |resolutions| && UrlOf(thumbs, resolutions[i]) == Some(u)
               && forall j :: 0 <= j < i ==> UrlOf(thumbs, resolutions[j]).None? {
          var i :| 0 <= i < |resolutions| && UrlOf(thumbs, resolutions[i]) == Some(u)
                   && forall j :: 0 <= j < i ==> UrlOf(thumbs, resolutions[j]).None?;
          assert rest[i - 1] == resolutions[i];
          assert forall j :: 0 <= j < i - 1 ==> rest[j] == resolutions[j + 1];
        }
      }
    }
  }

  /** ... it is absent exactly when no resolution in the list has a `url`. */
  lemma {:induction false} FirstUrlAbsent(thumbs: map<string, Thumbnail>, resolutions: seq<string>)
    ensures FirstUrl(thumbs, resolutions).None?
        <==> forall i :: 0 <= i < |resolutions| ==> UrlOf(thumbs, resolutions[i]).None?
  {
    if resolutions != [] {
      FirstUrlAbsent(thumbs, resolutions[1..]);
      assert forall i :: 0 < i < |resolutions| ==> resolutions[i] == resolutions[1..][i - 1];
    }
  }

  /** The thumbnail priority: `standard`, then `high`, `maxres`, `medium`,
      `default`; none of them having a `url` gives no thumbnail. */
  lemma ThumbnailPriority(thumbs: map<string, Thumbnail>)
    ensures UrlOf(thumbs, "standard").Some? ==> SelectThumbnail(thumbs) == UrlOf(thumbs, "standard")
    ensures UrlOf(thumbs, "standard").None? && UrlOf(thumbs, "high").Some?
      ==> SelectThumbnail(thumbs) == UrlOf(thumbs, "high")
    ensures UrlOf(thumbs, "standard").None? && UrlOf(thumbs, "high").None? && UrlOf(thumbs, "maxres").Some?
      ==> SelectThumbnail(thumbs) == UrlOf(thumbs, "maxres")
    ensures UrlOf(thumbs, "standard").None? && UrlOf(thumbs, "high").None? && UrlOf(thumbs, "maxres").None?
        && UrlOf(thumbs, "medium").Some?
      ==> SelectThumbnail(thumbs) == UrlOf(thumbs, "medium")
    ensures UrlOf(thumbs, "standard").None? && UrlOf(thumbs, "high").None? && UrlOf(thumbs, "maxres").None?
        && UrlOf(thumbs, "medium").None? && UrlOf(thumbs, "default").Some?
      ==> SelectThumbnail(thumbs) == UrlOf(thumbs, "default")
    ensures SelectThumbnail(thumbs).None?
        <==> (&& UrlOf(thumbs, "standard").None? && UrlOf(thumbs, "high").None?
              && UrlOf(thumbs, "maxres").None? && UrlOf(thumbs, "medium").None?
              && UrlOf(thumbs, "default").None?)
  {
    FirstUrlAbsent(thumbs, FallbackResolutions);
    var order := FallbackResolutions;
    assert order[0] == "high" && order[1..] == ["maxres", "medium", "default"];
    if UrlOf(thumbs, "high").None? {
      assert FirstUrl(thumbs, order) == FirstUrl(thumbs, ["maxres", "medium", "default"]);
      if UrlOf(thumbs, "maxres").None? {
        assert ["maxres", "medium", "default"][1..] == ["medium", "default"];
        assert FirstUrl(thumbs, order) == FirstUrl(thumbs, ["medium", "default"]);
        if UrlOf(thumbs, "medium").None? {
          assert ["medium", "default"][1..] == ["default"];
          assert FirstUrl(thumbs, order) == FirstUrl(thumbs, ["default"]);
        }
      }
    }
  }

  /** An item whose thumbnails section has no usable `url` at all is still
      normalised, with no thumbnail; only a missing thumbnails section is an error. */
  lemma NoThumbnailIsNotAnError(item: RawItem)
    requires HasRequiredKeys(item)
    requires UrlOf(item.snippet.value.thumbnails.value, StandardResolution).None?
    requires forall i :: 0 <= i < |FallbackResolutions|
               ==> UrlOf(item.snippet.value.thumbnails.value, FallbackResolutions[i]).None?
    ensures Normalize(item).Success? && Normalize(item).value.videoThumbnailLink.None?
  {
    FirstUrlAbsent(item.snippet.value.thumbnails.value, FallbackResolutions);
  }

  /** The -1 sentinel is unambiguous: a counter is -1 exactly when its key was absent. */
  lemma SentinelMeansAbsent(item: RawItem)
    requires Normalize(item).Success?
    ensures var rec, st := Normalize(item).value, item.statistics.value;
      && (rec.likesCount == -1 <==> st.likeCount.None?)
      && (rec.dislikesCount == -1 <==> st.dislikeCount.None?)
      && (rec.viewsCount == -1 <==> st.viewCount.None?)
      && (rec.commentsCount == -1 <==> st.commentCount.None?)
  {
  }

  /** The tags column gives the tag list back when the list is non-empty and no
      tag contains a comma (an empty list and the list `[""]` both give `""`). */
  lemma TagsRecoverable(item: RawItem)
    requires Normalize(item).Success?
    requires item.snippet.value.tags.Some?
    requires item.snippet.value.tags.value != []
    requires forall k :: 0 <= k < |item.snippet.value.tags.value| ==> ',' !in item.snippet.value.tags.value[k]
    ensures Normalize(item).value.tags.Some?
    ensures Split(Normalize(item).value.tags.value, ',') == item.snippet.value.tags.value
  {
    SplitJoin(item.snippet.value.tags.value, ',');
  }
}
