# youtube-trending-explorer in Dafny

youtube-trending-explorer collects the YouTube trending chart once a day for
four regions (US, GB, RU, DE), flattens every video item of the Data API into a
record, tags each record with its region and its trending position, saves the
day's table as `data/video_data_<date>.csv` and uploads it to the Google Drive
folder `youtube_trending_explorer`. A scheduler runs the daily job at 08:00
and re-checks at 11:00, 14:00, 17:00 and 20:00 that the day's file reached the
drive.

This project models that pipeline and proves its properties:

- `VideoRecords` (video_records.dfy) is the record normaliser
  `parse_video_data`. A raw API item is a datatype whose keys are `Option`
  fields. The function `Normalize` states the result. The method
  `ParseVideoData` has the code's own shape: locals start from defaults and are
  overwritten, and the thumbnail fallback is a loop with `break`. Both packages,
  `trendscrap` and `ytexplorer`, carry the same normaliser line for line, so one
  model serves both.
- `DataFetch` (data_fetch.dfy) covers `compose_dataframe` (row tagging),
  `fetch_youtube_trending_data` (concatenation in region order, the CSV save)
  and `get_file_path` (the snapshot name).
  `YtExplorerDataFetch` (ytexplorer_data_fetch.dfy) is the older variant: its
  region list is fixed and it saves a parquet file. Its `compose_dataframe` is
  the one of `DataFetch`.
- `ApiHelper` (api_helper.dfy) covers `upload_file`, `upload_image`,
  `delete_file` and `exists`. Upload splits the destination path on `/` and
  picks its parent folders from a ten-entry folder listing. `Remote`
  (remote.dfy) is the drive itself: a `Drive` class whose file list the create
  and delete calls change. The `ytexplorer` copies of `upload_file` and
  `upload_image` do the same as the `trendscrap` ones.
- `App` (app.dfy) is app.py. The class `TrendingApp` holds the drive, the local
  disk, the job table of `main` and the warnings issued. Its methods are
  `daily_routine`, `double_check`, one job run, and one day of the scheduler
  loop.
- `Text` (text.dfy) and `Calendar` (calendar.dfy) model the Python string
  operations the code relies on: `str.split`, `str.join`, zero-padded decimal
  text and ISO dates. `Wrappers` (wrappers.dfy) holds `Option` and `Result`.

The clock and the network are parameters. A `Timestamp` stands for the clock
reading of one job run. An `Api` value holds the chart page each region
returns. The drive is the `Drive` object.

Where the documented behaviour and the code differ, the model follows the code:

- The row-count warning in `daily_routine` (app.py:15-17) can never fire.
  `compose_dataframe` assigns a timestamp list of exactly 50 entries, so pandas
  raises on any page that does not hold exactly 50 items. A short page therefore
  ends the job, and with it the scheduler process, with an exception; it does not
  produce a warning. `App.DefaultFetchRowCount` proves that every successful
  fetch has 200 rows. `App.TrendingApp.RunDay` stops at the first exception, as
  the uncaught exception in `main` does.
- `upload_file` raises `IndexError` for a destination without `/` only when the
  folder listing is non-empty. On an empty listing the comprehension never
  evaluates `parent_dirs[-1]` (trendscrap/api_helper.py:58-60).
- The docstring of `upload_file` says that a missing parent folder raises. The
  code uploads with an empty `parents` list instead.
- `exists` asks for the name across the whole drive, not inside the
  `youtube_trending_explorer` folder.
- The thumbnail order is `standard`, `high`, `maxres`, `medium`, `default`. So
  `medium` is chosen only when `standard`, `high` and `maxres` all lack a `url`.
- Nothing in the code makes `(video_id, region)` unique. The table is indexed by
  `video_id`, and the rows of one region are exactly that region's page.

## Model

| member | source | states |
|---|---|---|
| VideoRecords.Normalize | trendscrap/data_fetch.py:9-87 | succeeds exactly when every required key is present; a failure names the first missing key in reading order (snippet, title, channelTitle, channelId, id, publishedAt, thumbnails, contentDetails, statistics); a success fills every field from the item: both link templates, the selected thumbnail, comma-joined tags and blocked countries only when present, and each count independently the value or -1 |
| VideoRecords.HasEveryRequiredKey | trendscrap/data_fetch.py:9-87 | the presence test used by `Normalize` is exactly "every key of the required list, in reading order, is present" |
| VideoRecords.ParseVideoData | trendscrap/data_fetch.py:15-87 | the default-then-overwrite procedure with its thumbnail loop and `break` returns exactly the record or error of `Normalize`; ytexplorer/data_fetch.py:7-71 is the same procedure |
| VideoRecords.FirstUrlIsEarliest | trendscrap/data_fetch.py:38-46 | the fallback loop yields the `url` of a resolution whose entry has one, and every resolution before it has none |
| VideoRecords.FirstUrlAbsent | trendscrap/data_fetch.py:39-46 | the fallback yields no thumbnail exactly when no listed resolution has a `url` |
| VideoRecords.ThumbnailPriority | trendscrap/data_fetch.py:35-46 | the thumbnail is `standard`'s url if any, else the first of `high`, `maxres`, `medium`, `default` with a url, and none exactly when all five lack one |
| VideoRecords.NoThumbnailIsNotAnError | trendscrap/data_fetch.py:37-46 | an item whose thumbnails section has no usable url still normalises, with no thumbnail |
| VideoRecords.SentinelMeansAbsent | trendscrap/data_fetch.py:58-69 | each of the four counts is -1 exactly when its statistics key is absent, decided independently of the others |
| VideoRecords.TagsRecoverable | trendscrap/data_fetch.py:47-49 | a non-empty tag list without commas is recovered by splitting the tags column on `,` |
| DataFetch.NormalizeAll | trendscrap/data_fetch.py:99 | mapping the normaliser over a page succeeds exactly when every item normalises, keeps item order, and otherwise fails with the error of the first item that does not normalise, every earlier item having normalised |
| DataFetch.ComposeDataframe | trendscrap/data_fetch.py:90-105 | a region's block exists exactly when the region answered, its page holds exactly `top_n_videos` items (at least one) and all normalise; an empty page fails for the missing `video_id` column before the length check; row k then carries item k's record, position k+1, the region and the page's timestamp; ytexplorer/data_fetch.py:74-81 tags rows the same way |
| DataFetch.Blocks | trendscrap/data_fetch.py:130 | no regions give no blocks; a failure carries the error of the first region whose block does not compose, every earlier region having composed |
| DataFetch.Aggregate | trendscrap/data_fetch.py:121-130 | a success needs a non-empty region list; a failure is either the empty list, which `pd.concat` refuses, or the error of the first region whose block does not compose |
| DataFetch.BlocksShape | trendscrap/data_fetch.py:130 | concatenated blocks hold 50 rows per region, row k coming from region k/50 at position k%50+1 |
| DataFetch.AggregateShape | trendscrap/data_fetch.py:121-130 | a successful aggregation has a non-empty region list, 50 rows per region in region-list order, no sorting and no deduplication |
| DataFetch.BlocksSucceed | trendscrap/data_fetch.py:130 | the blocks are all built exactly when every region's 50-item block composes |
| DataFetch.AggregateSucceeds | trendscrap/data_fetch.py:121-130 | all or nothing: aggregation succeeds exactly when the region list is non-empty and every region's block composes |
| DataFetch.PathJoin | trendscrap/data_fetch.py:118 | `os.path.join` returns an absolute name as is; otherwise the result starts with the directory, ends with the name, and has a `/` right before the name when the directory is non-empty |
| DataFetch.GetFilePath | trendscrap/data_fetch.py:108-118 | without a directory the path is `video_data_<date>.csv` and holds no `/`; with `data` it is `data/` followed by that name |
| DataFetch.SameDaySamePath | trendscrap/data_fetch.py:115-118 | the path depends only on the calendar date, so it is stable within a day |
| DataFetch.SnapshotNamesDiffer | trendscrap/data_fetch.py:115-117 | different valid dates give different snapshot names, so one day never overwrites another's file |
| DataFetch.FetchYoutubeTrendingData | trendscrap/data_fetch.py:121-137 | returns the aggregation's error, the frame, or with `save_data` the frame and `data/video_data_<date>.csv`, having written the frame there and nothing else |
| YtExplorerDataFetch.ParquetPath | ytexplorer/data_fetch.py:92-93 | the parquet path is the CSV snapshot path of the same day with the extension `.parquet` instead of `.csv` |
| YtExplorerDataFetch.FetchYoutubeTrendingData | ytexplorer/data_fetch.py:88-94 | fetches the fixed regions US, GB, RU, DE, and with `save_data` writes the frame to the parquet path and returns it with the frame |
| YtExplorerDataFetch.FetchShape | ytexplorer/data_fetch.py:89-90 | a successful older fetch has 200 rows, 50 per region in the order US, GB, RU, DE |
| Text.Split | trendscrap/api_helper.py:48 | `str.split` always gives at least one segment, keeping empty ones |
| Text.Join | trendscrap/data_fetch.py:49-56 | `",".join` opens with the first part and holds at least one character per separator |
| Text.JoinSeparator | trendscrap/data_fetch.py:49-56 | a join of separator-free parts contains the separator exactly when there are at least two parts |
| Text.SplitWhole | trendscrap/api_helper.py:48 | the split has exactly one segment exactly when the separator is absent, and that segment is then the whole string |
| Text.SplitSegmentsFree | trendscrap/api_helper.py:48 | no segment of a split contains the separator |
| Text.JoinSplit | trendscrap/api_helper.py:48 | joining the segments of a split with the separator gives the string back |
| Text.SplitJoin | trendscrap/data_fetch.py:49 | splitting a join of separator-free parts gives the parts back |
| Text.PaddedSpec | trendscrap/data_fetch.py:115-117 | zero-padded decimal text of a number below 10^width has exactly `width` digits and reads back as the number |
| Calendar.IsoDate | trendscrap/data_fetch.py:115-117 | the printed date consists of digits and `-` only |
| Calendar.IsoDateInjective | trendscrap/data_fetch.py:115-117 | valid dates that print the same are the same date |
| Remote.FolderListing | trendscrap/api_helper.py:49-57 | the folder query returns at most 10 entries, all of them folders on the drive |
| Remote.WithoutId | trendscrap/api_helper.py:92 | after a delete, a file remains exactly when it was there and has another id (a folder's descendants are not removed with it) |
| Remote.Drive.Create | trendscrap/api_helper.py:63-67 | `files().create` appends one non-folder file with the given name, parents and media under an id no file had |
| Remote.Drive.Delete | trendscrap/api_helper.py:86-92 | `files().delete` removes the files with that id and nothing else; a folder's descendants and the error for an unknown id are not modelled |
| ApiHelper.ParentIds | trendscrap/api_helper.py:58-60 | there are never more parent ids than listed folders |
| ApiHelper.ParentIdsMembers | trendscrap/api_helper.py:58-60 | an id is a parent exactly when some listed folder with that id has the second-to-last segment as its name |
| ApiHelper.ParentIdsAppend | trendscrap/api_helper.py:58-60 | parent selection keeps listing order: it distributes over concatenation of listings |
| ApiHelper.UploadTarget | trendscrap/api_helper.py:48-61 | the upload fails with IndexError exactly when the destination has no `/` and the listing is non-empty; a successful target's name has no `/`, and a slash-free destination on an empty listing is uploaded under its own name with no parents; ytexplorer/api_helper.py:25-34 splits and selects parents the same way |
| ApiHelper.UploadTargetOfJoined | trendscrap/api_helper.py:48-61 | for a destination `p1/.../pn` with n at least 2, the name is `pn` and the parents are the listed folders named `p(n-1)` |
| ApiHelper.UploadFile | trendscrap/api_helper.py:33-68 | on IndexError the drive is unchanged; otherwise exactly one file is created, with the target's name and parents, even when no parent folder matched, and its fresh id is returned; ytexplorer/api_helper.py:17-41 does the same |
| ApiHelper.UploadImage | trendscrap/api_helper.py:71-83 | `upload_file` with media type `image/jpeg`; ytexplorer/api_helper.py:44-52 delegates the same way |
| ApiHelper.DeleteFile | trendscrap/api_helper.py:86-92 | the drive loses the files with that id and nothing else; a folder's descendants and the error for an unknown id are not modelled |
| ApiHelper.NamedFiles | trendscrap/api_helper.py:136-140 | the name query returns drive files of exactly that name, and every drive file of that name |
| ApiHelper.Exists | trendscrap/api_helper.py:133-143 | `exists` is true exactly when some file on the drive has that name |
| ApiHelper.ExistsAfterAppend | trendscrap/api_helper.py:133-143 | a name that exists, or is among the added files, still exists after files are added |
| App.JobTableOrdered | app.py:34-38 | five jobs in strictly increasing clock order: the daily routine first, then four double checks |
| App.RemoteDestination | app.py:19-21 | the upload destination splits into `data`, `youtube_trending_explorer` and the day's bare snapshot name |
| App.DestinationTarget | app.py:19-21 | the daily upload never takes the IndexError path; it lands under the bare snapshot name inside every listed folder named `youtube_trending_explorer` |
| App.SameDayCheckSeesUpload | app.py:19-29 | after the daily upload, every check of the same day finds the file under the name it asks about |
| App.DefaultFetchRowCount | app.py:13-17 | every successful fetch of the default regions has 4 × 50 rows, so the warning branch is unreachable |
| App.TrendingApp.constructor | app.py:33-38 | the process starts with `main`'s job table and no warnings |
| App.TrendingApp.DailyRoutine | app.py:9-21 | a failed fetch raises and changes nothing; otherwise the snapshot is saved first, then a count other than 200 warns without uploading and 200 rows upload exactly one file, the saved CSV, under the day's name |
| App.TrendingApp.DoubleCheck | app.py:24-30 | when a file of the day's name exists, nothing changes; otherwise the daily routine runs with its full effect |
| App.TrendingApp.RunJob | app.py:34-38 | one job raises without changing anything, or leaves the day's file on the drive after at most one upload; a check that finds the file changes nothing |
| App.TrendingApp.RunDay | app.py:33-40 | over one day at most one file is uploaded, named and sourced as the day's snapshot; unless a fetch raised, and with every drive call assumed to succeed, the file is on the drive once the 20:00 check is due; a day starting after 08:00 with the file present changes nothing |

## Left out

- Credentials and client construction (`build_drive_service`, `build_youtube_service`, the key and credential file reads, the `eval` of an environment variable) are foreign library calls and I/O.
- The network calls `videos().list`, `files().list`, `files().create` and `files().delete` are not modelled as I/O. The chart pages are the `Api` parameter, and the drive is the `Drive` object.
- `hours_since_publishing` and the parsing of `publishedAt` into `pd.Timestamp` depend on the wall clock and on time-zone-aware rounding. The record keeps `publishedAt` as the raw text and has no hours field. A malformed `publishedAt`, which makes pandas raise, is not modelled.
- `int(...)` on the API's count strings is taken as already done: counts are naturals, and a non-numeric count is not modelled.
- CSV and parquet serialisation and `mkdir` are not modelled. The local disk is a map from path to the saved rows. The parquet writer's failure when `data/` is missing is not modelled.
- `fetch_thumbnail_picture` is an HTTP download.
- The `schedule` library's polling and the infinite loop are left out. `RunDay` models one day of due jobs in table order. Each job reads the clock once, at its registered time, so all reads within one run fall on the same date. The source reads the clock several times per job (`get_file_path` in `fetch_youtube_trending_data` and again in `daily_routine`; ytexplorer/data_fetch.py:92-93 builds the written and the returned parquet path from two separate reads), so a job running across midnight could write one date and report another; the model uses one `now` for all of them.
- The pandas frame's `video_id` index and its column order are not modelled. A frame is the sequence of its rows.
- Drive file ids are naturals handed out by the model, not the opaque strings of the service. The folder listing returns the first ten folders in drive order.
- Quoting of the name inside the `exists` query string is not modelled. `Exists` compares names exactly.
- Trashed files and Drive-side permissions are not modelled.
- App.TrendingApp.RunDay: the time the scheduler fires a job, and whether a missed job runs late, are the `schedule` library's. The model runs every job whose registered time is after `start`, at that time.
- Drive calls are assumed to succeed. `files().list` (in `upload_file` and `exists`), `files().create` and `files().delete` can raise `HttpError`, which escapes `daily_routine`, `double_check` and `main`; the model has no such failure.
- ApiHelper.UploadFile: `MediaFileUpload` opens the local file and raises when it is missing (trendscrap/api_helper.py:62, ytexplorer/api_helper.py:35). The model does not consult the local disk when uploading, so this error is not modelled.
- ApiHelper.DeleteFile: inherits the delete limits of the next line.
- Remote.Drive.Delete: `files().delete` also removes every descendant of a deleted folder and raises for an unknown id. The model removes only the entries with that id and leaves the drive unchanged for an unknown id.
- App.TrendingApp.RunDay: the promise that the day's file is on the drive after the 20:00 check holds only with every drive call succeeding, as above.
