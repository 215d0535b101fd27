/** trendscrap/data_fetch.py: tagging the normalised rows of one region
    (`compose_dataframe`), concatenating the regions (`fetch_youtube_trending_data`)
    and naming the day's snapshot (`get_file_path`). The pandas frame becomes a
    sequence of rows in frame order. */
module DataFetch {
  import opened Wrappers
  import opened Text
  import opened Calendar
  import opened VideoRecords

  /** One row of the frame: the normalised record with the aggregator's tags. */
  datatype Row = Row(video: VideoRecord, trendingPosition: nat, region: string, createdTs: Timestamp)

  /** What the trending request for one region returned, and the clock reading
      that `compose_dataframe` took for `created_ts`. */
  datatype RegionPage = RegionPage(items: seq<RawItem>, fetchedAt: Timestamp)

  /** The video API as one run sees it; a region without a page is one whose
      request raised. */
  datatype Api = Api(pages: map<string, RegionPage>)

  datatype FetchError =
    | ApiError(region: string)
    | ParseFailed(cause: ParseError)
    | LengthMismatch(rows: nat, expected: int)
    | NoVideoIdColumn
    | NothingToConcatenate

  /** `top_n_videos` and `maxResults` in `fetch_youtube_trending_data`. */
  const PageSize: nat := 50

  /** The default `regions` argument. */
  const DefaultRegions: seq<string> := ["US", "GB", "RU", "DE"]

  const DataDir := "data"

  /** `list(map(parse_video_data, items))`: all records in item order, or the
      error of the first item that fails. */
  function NormalizeAll(items: seq<RawItem>): (r: Result<seq<VideoRecord>, ParseError>)
    ensures r.Success? <==> forall k :: 0 <= k < |items| ==> Normalize(items[k]).Success?
    ensures r.Success? ==>
      && |r.value| == |items|
      && forall k :: 0 <= k < |items| ==> Normalize(items[k]) == Success(r.value[k])
    ensures r.Failure? ==>
      exists k :: 0 <= k < |items| && Normalize(items[k]) == Failure(r.error)
        && forall j :: 0 <= j < k ==> Normalize(items[j]).Success?
  {
    if items == [] then Success([])
    else
      match Normalize(items[0])
      case Failure(e) => Failure(e)
      case Success(rec) =>
        match NormalizeAll(items[1..])
        case Failure(e) =>
          assert forall k :: 0 < k < |items| ==> items[k] == items[1..][k - 1];
          var k :| 0 <= k < |items[1..]| && Normalize(items[1..][k]) == Failure(e)
            && forall j :: 0 <= j < k ==> Normalize(items[1..][j]).Success?;
          assert Normalize(items[k + 1]) == Failure(e);
          Failure(e)
        case Success(recs) =>
          assert forall k :: 0 < k < |items| ==> items[k] == items[1..][k - 1];
          Success([rec] + recs)
  }

  /** `len([pd.Timestamp.now()] * top_n_videos)`. */
  function Replicated(topN: int): nat
  {
    if topN < 0 then 0 else topN
  }

  /** `row` is what `compose_dataframe` makes of the `j`-th item (0-based) of
      `region`'s page: its record, position `j + 1`, the region and the page's
      clock reading. */
  predicate RowFrom(api: Api, region: string, j: nat, row: Row)
  {
    && region in api.pages
    && j < |api.pages[region].items|
    && Normalize(api.pages[region].items[j]).Success?
    && row == Row(Normalize(api.pages[region].items[j]).value, j + 1, region, api.pages[region].fetchedAt)
  }

  /** `compose_dataframe(region, top_n_videos)`. The request fails first, then
      the parse of some item. An empty frame takes any `created_ts` list (pandas
      reindexes it) and then has no `video_id` column for `set_index`. A non-empty
      frame refuses a `created_ts` list of another length. */
  function ComposeDataframe(api: Api, region: string, topN: int): (r: Result<seq<Row>, FetchError>)
    ensures r.Success? <==>
      && region in api.pages
      && |api.pages[region].items| == topN > 0
      && forall k :: 0 <= k < topN ==> Normalize(api.pages[region].items[k]).Success?
    ensures r.Success? ==>
      && |r.value| == topN
      && forall k :: 0 <= k < |r.value| ==> RowFrom(api, region, k, r.value[k])
  {
    if region !in api.pages then Failure(ApiError(region))
    else
      var page := api.pages[region];
      match NormalizeAll(page.items)
      case Failure(e) => Failure(ParseFailed(e))
      case Success(records) =>
        if records == [] then Failure(NoVideoIdColumn)
        else if |records| != Replicated(topN) then Failure(LengthMismatch(|records|, topN))
        else Success(seq(|records|, k requires 0 <= k < |records| => Row(records[k], k + 1, region, page.fetchedAt)))
  }

  /** The blocks of `regions`, one page of `PageSize` each, concatenated in region order. */
  function Blocks(api: Api, regions: seq<string>): (r: Result<seq<Row>, FetchError>)
    ensures regions == [] ==> r == Success([])
    ensures r.Failure? ==>
      exists i :: 0 <= i < |regions| && ComposeDataframe(api, regions[i], PageSize) == Failure(r.error)
        && forall j :: 0 <= j < i ==> ComposeDataframe(api, regions[j], PageSize).Success?
  {
    if regions == [] then Success([])
    else
      match ComposeDataframe(api, regions[0], PageSize)
      case Failure(e) => Failure(e)
      case Success(block) =>
        match Blocks(api, regions[1..])
        case Failure(e) =>
          assert forall i :: 0 < i < |regions| ==> regions[i] == regions[1..][i - 1];
          var i :| 0 <= i < |regions[1..]| && ComposeDataframe(api, regions[1..][i], PageSize) == Failure(e)
            && forall j :: 0 <= j < i ==> ComposeDataframe(api, regions[1..][j], PageSize).Success?;
          assert ComposeDataframe(api, regions[i + 1], PageSize) == Failure(e);
          Failure(e)
        case Success(rest) => Success(block + rest)
  }

  /** `pd.concat(list(map(lambda x: compose_dataframe(x, 50), regions)))`:
      every region is composed in order before the concatenation, which refuses
      an empty list. */
  function Aggregate(api: Api, regions: seq<string>): (r: Result<seq<Row>, FetchError>)
    ensures r.Success? ==> regions != []
    ensures r.Failure? ==>
      || (regions == [] && r.error == NothingToConcatenate)
      || exists i :: 0 <= i < |regions| && ComposeDataframe(api, regions[i], PageSize) == Failure(r.error)
           && forall j :: 0 <= j < i ==> ComposeDataframe(api, regions[j], PageSize).Success?
  {
    if regions == [] then Failure(NothingToConcatenate) else Blocks(api, regions)
  }

  lemma {:induction false} BlocksShape(api: Api, regions: seq<string>)
    requires Blocks(api, regions).Success?
    ensures |Blocks(api, regions).value| == PageSize * |regions|
    ensures forall k :: 0 <= k < |Blocks(api, regions).value| ==>
      RowFrom(api, regions[k / PageSize], k % PageSize, Blocks(api, regions).value[k])
  {
    if regions != [] {
      var block := ComposeDataframe(api, regions[0], PageSize).value;
      BlocksShape(api, regions[1..]);
      var rest := Blocks(api, regions[1..]).value;
      var rows := Blocks(api, regions).value;
      assert rows == block + rest;
      forall k | 0 <= k < |rows|
        ensures RowFrom(api, regions[k / PageSize], k % PageSize, rows[k])
      {
        if k < PageSize {
          assert rows[k] == block[k];
        } else {
          var k' := k - PageSize;
          assert rows[k] == rest[k'];
          assert k' / PageSize == k / PageSize - 1 && k' % PageSize == k % PageSize;
          assert regions[1..][k' / PageSize] == regions[k / PageSize];
        }
      }
    }
  }

  /** The aggregated frame has `PageSize` rows per region; the block of the
      `i`-th region comes `i`-th, carries that region on every row, and numbers
      its rows 1..`PageSize` in the order the API returned them. */
  lemma AggregateShape(api: Api, regions: seq<string>)
    requires Aggregate(api, regions).Success?
    ensures regions != []
    ensures |Aggregate(api, regions).value| == PageSize * |regions|
    ensures forall k :: 0 <= k < |Aggregate(api, regions).value| ==>
      RowFrom(api, regions[k / PageSize], k % PageSize, Aggregate(api, regions).value[k])
  {
    BlocksShape(api, regions);
  }

  lemma {:induction false} BlocksSucceed(api: Api, regions: seq<string>)
    ensures Blocks(api, regions).Success?
        <==> forall i :: 0 <= i < |regions| ==> ComposeDataframe(api, regions[i], PageSize).Success?
  {
    if regions != [] {
      BlocksSucceed(api, regions[1..]);
      assert forall i :: 0 < i < |regions| ==> regions[i] == regions[1..][i - 1];
    }
  }

  /** All or nothing: the aggregation succeeds exactly when the region list is
      non-empty and every region yields a full page of well-formed items. */
  lemma AggregateSucceeds(api: Api, regions: seq<string>)
    ensures Aggregate(api, regions).Success?
        <==> regions != [] && forall i :: 0 <= i < |regions| ==> ComposeDataframe(api, regions[i], PageSize).Success?
  {
    BlocksSucceed(api, regions);
  }

  /** `f"video_data_{date}.csv"`. */
  function SnapshotFileName(d: Date): string
  {
    "video_data_" + IsoDate(d) + ".csv"
  }

  /** `os.path.join(dir, name)` with POSIX rules. */
  function PathJoin(dir: string, name: string): (path: string)
    ensures |name| > 0 && name[0] == '/' ==> path == name
    ensures !(|name| > 0 && name[0] == '/') ==>
      && |path| >= |dir| + |name|
      && path[..|dir|] == dir
      && path[|path| - |name|..] == name
      && (dir != [] ==> path[|path| - |name| - 1] == '/')
  {
    if |name| > 0 && name[0] == '/' then name
    else if dir == [] || dir[|dir| - 1] == '/' then dir + name
    else dir + "/" + name
  }

  /** `get_file_path(dir)`: the clock is read once and only its date is kept. */
  function GetFilePath(dir: Option<string>, now: Timestamp): (path: string)
    ensures dir.None? ==> path == SnapshotFileName(now.date) && '/' !in path
    ensures dir == Some(DataDir) ==> path == DataDir + "/" + SnapshotFileName(now.date)
  {
    var name := SnapshotFileName(now.date);
    assert forall k :: 0 <= k < |name| ==> name[k] != '/' by {
      assert forall k :: 11 <= k < 11 + |IsoDate(now.date)| ==> name[k] == IsoDate(now.date)[k - 11];
    }
    if dir.None? then name else PathJoin(dir.value, name)
  }

  /** Two clock readings of the same day give the same path ... */
  lemma SameDaySamePath(dir: Option<string>, now1: Timestamp, now2: Timestamp)
    requires now1.date == now2.date
    ensures GetFilePath(dir, now1) == GetFilePath(dir, now2)
  {
  }

  /** ... and readings of different days give different names, so one day's
      snapshot never overwrites another's. */
  lemma SnapshotNamesDiffer(d1: Date, d2: Date)
    requires ValidDate(d1) && ValidDate(d2) && d1 != d2
    ensures SnapshotFileName(d1) != SnapshotFileName(d2)
  {
    if SnapshotFileName(d1) == SnapshotFileName(d2) {
      var s1, s2 := SnapshotFileName(d1), SnapshotFileName(d2);
      assert |IsoDate(d1)| == |IsoDate(d2)|;
      assert s1[11..|s1| - 4] == IsoDate(d1);
      assert s2[11..|s2| - 4] == IsoDate(d2);
      IsoDateInjective(d1, d2);
    }
  }

  /** The local file system, as far as the pipeline uses it: each written path
      and the rows saved there. */
  class LocalDisk {
    var files: map<string, seq<Row>>

    constructor ()
      ensures files == map[]
    {
      files := map[];
    }
  }

  /** `fetch_youtube_trending_data` returns the frame, or the frame and the saved path. */
  datatype FetchOutput = Frame(rows: seq<Row>) | FrameAndPath(rows: seq<Row>, path: string)

  /** `fetch_youtube_trending_data(regions, save_data)`: aggregate, then with
      `save_data` write the frame to `data/video_data_<date>.csv` and return
      that path too. A failed aggregation writes nothing. */
  method FetchYoutubeTrendingData(disk: LocalDisk, api: Api, regions: seq<string>, saveData: bool, now: Timestamp)
    returns (r: Result<FetchOutput, FetchError>)
    modifies disk
    ensures var frame, path := Aggregate(api, regions), GetFilePath(Some(DataDir), now);
      && (frame.Failure? ==> r == Failure(frame.error) && disk.files == old(disk.files))
      && (frame.Success? && saveData ==>
            r == Success(FrameAndPath(frame.value, path)) && disk.files == old(disk.files)[path := frame.value])
      && (frame.Success? && !saveData ==> r == Success(Frame(frame.value)) && disk.files == old(disk.files))
  {
    var frame := Aggregate(api, regions);
    if frame.Failure? {
      return Failure(frame.error);
    }
    if saveData {
      var path := GetFilePath(Some(DataDir), now);
      disk.files := disk.files[path := frame.value];
      return Success(FrameAndPath(frame.value, path));
    }
    r := Success(Frame(frame.value));
  }
}
