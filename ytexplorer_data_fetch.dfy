/** ytexplorer/data_fetch.py, the older package. Its `parse_video_data` and
    `compose_dataframe` are the ones of `VideoRecords` and `DataFetch`; what
    differs is the fetch: a fixed region list and a parquet snapshot. */
module YtExplorerDataFetch {
  import opened Wrappers
  import opened Calendar
  import opened DataFetch

  /** The region list, fixed in the body rather than a parameter. */
  const Regions: seq<string> := ["US", "GB", "RU", "DE"]

  /** `f'data/video_data_{pd.Timestamp.now().date()}.parquet'`: the CSV snapshot's
      path of the same day with the other extension. */
  function ParquetPath(now: Timestamp): (path: string)
    ensures var csv := GetFilePath(Some(DataDir), now);
      && |path| == |csv| + 4
      && path[..|csv| - 4] == csv[..|csv| - 4]
      && path[|csv| - 4..] == ".parquet"
  {
    var csv := GetFilePath(Some(DataDir), now);
    SameStem(IsoDate(now.date), csv);
    DataDir + "/video_data_" + IsoDate(now.date) + ".parquet"
  }

  /** The parquet name of a date and its CSV name share everything but the extension. */
  lemma SameStem(date: string, csv: string)
    requires csv == DataDir + "/" + ("video_data_" + date + ".csv")
    ensures var path := DataDir + "/video_data_" + date + ".parquet";
      && |path| == |csv| + 4
      && path[..|csv| - 4] == csv[..|csv| - 4]
      && path[|csv| - 4..] == ".parquet"
  {
    var stem := DataDir + "/video_data_" + date;
    assert csv == stem + ".csv";
    assert DataDir + "/video_data_" + date + ".parquet" == stem + ".parquet";
  }

  /** `fetch_youtube_trending_data(save_data)`: aggregate the four regions, then
      with `save_data` write the frame to the parquet path and return that path too. */
  method FetchYoutubeTrendingData(disk: LocalDisk, api: Api, saveData: bool, now: Timestamp)
    returns (r: Result<FetchOutput, FetchError>)
    modifies disk
    ensures var frame, path := Aggregate(api, Regions), ParquetPath(now);
      && (frame.Failure? ==> r == Failure(frame.error) && disk.files == old(disk.files))
      && (frame.Success? && saveData ==>
            r == Success(FrameAndPath(frame.value, path)) && disk.files == old(disk.files)[path := frame.value])
      && (frame.Success? && !saveData ==> r == Success(Frame(frame.value)) && disk.files == old(disk.files))
  {
    var frame := Aggregate(api, Regions);
    if frame.Failure? {
      return Failure(frame.error);
    }
    if saveData {
      disk.files := disk.files[ParquetPath(now) := frame.value];
      return Success(FrameAndPath(frame.value, ParquetPath(now)));
    }
    r := Success(Frame(frame.value));
  }

  /** Whenever the older fetch succeeds it holds 200 rows, 50 per region in the
      order US, GB, RU, DE. */
  lemma FetchShape(api: Api)
    requires Aggregate(api, Regions).Success?
    ensures |Aggregate(api, Regions).value| == 200
    ensures forall k :: 0 <= k < 200 ==> Aggregate(api, Regions).value[k].region == Regions[k / PageSize]
  {
    AggregateShape(api, Regions);
  }
}
