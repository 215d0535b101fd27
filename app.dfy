/** app.py: the scheduled pipeline. `daily_routine` fetches the four default
    regions, saves the CSV snapshot and uploads it to the drive folder
    `youtube_trending_explorer`; `double_check` reruns it when no file of the
    day's snapshot name is on the drive; `main` registers one daily run and four
    checks. */
module App {
  import opened Wrappers
  import opened Text
  import opened Calendar
  import opened Remote
  import opened ApiHelper
  import opened DataFetch

  datatype JobKind = DailyRoutineJob | DoubleCheckJob

  /** One `schedule.every().day.at(time).do(job)` registration. */
  datatype Job = Job(at: TimeOfDay, kind: JobKind)

  /** The registrations of `main`, in registration order. */
  const JobTable: seq<Job> := [
    Job(TimeOfDay(8, 0), DailyRoutineJob),
    Job(TimeOfDay(11, 0), DoubleCheckJob),
    Job(TimeOfDay(14, 0), DoubleCheckJob),
    Job(TimeOfDay(17, 0), DoubleCheckJob),
    Job(TimeOfDay(20, 0), DoubleCheckJob)
  ]

  /** `n_regions * 50` with `n_regions = 4`. */
  const ExpectedRows: nat := 4 * 50

  /** The drive folder the snapshot is uploaded into. */
  const RemoteParent := "youtube_trending_explorer"

  const CountWarning := "Number of videos is lesser than expected"

  /** The registrations run in clock order, the first one being the daily run
      and every later one a check of it. */
  lemma JobTableOrdered()
    ensures |JobTable| == 5
    ensures forall i, j :: 0 <= i < j < |JobTable| ==> Before(JobTable[i].at, JobTable[j].at)
    ensures JobTable[0].kind == DailyRoutineJob
    ensures forall i :: 1 <= i < |JobTable| ==> JobTable[i].kind == DoubleCheckJob
  {
  }

  /** `f"data/youtube_trending_explorer/{get_file_path()}"`. */
  function RemoteDestination(now: Timestamp): (destination: string)
    ensures Split(destination, '/') == ["data", RemoteParent, GetFilePath(None, now)]
  {
    var parts := ["data", RemoteParent, GetFilePath(None, now)];
    UnderRemoteParent(GetFilePath(None, now));
    SplitJoin(parts, '/');
    "data/" + RemoteParent + "/" + GetFilePath(None, now)
  }

  /** The destination is the `/`-join of three slash-free segments. */
  lemma DestinationSegments(now: Timestamp)
    ensures var parts := ["data", RemoteParent, GetFilePath(None, now)];
      && RemoteDestination(now) == Join(parts, '/')
      && forall k :: 0 <= k < |parts| ==> '/' !in parts[k]
  {
    var name := GetFilePath(None, now);
    UnderRemoteParent(name);
  }

  /** `data/youtube_trending_explorer/<name>` for a slash-free `name`. */
  lemma UnderRemoteParent(name: string)
    requires '/' !in name
    ensures var parts := ["data", RemoteParent, name];
      && "data/" + RemoteParent + "/" + name == Join(parts, '/')
      && forall k :: 0 <= k < |parts| ==> '/' !in parts[k]
  {
    JoinThree("data", RemoteParent, name, '/');
    assert "data/" == "data" + ['/'];
  }

  /** The upload of `daily_routine` never takes the error path of `upload_file`:
      it lands under the bare snapshot name, the very name `double_check` asks
      about, inside every listed folder called `youtube_trending_explorer`. */
  lemma DestinationTarget(listing: seq<DriveFile>, now: Timestamp)
    ensures UploadTarget(listing, RemoteDestination(now))
         == Success(Target(GetFilePath(None, now), ParentIds(listing, RemoteParent)))
  {
    var parts := ["data", RemoteParent, GetFilePath(None, now)];
    DestinationSegments(now);
    UploadTargetOfJoined(listing, parts);
  }

  /** Whatever the drive held, after the daily upload every check of the same
      day finds the file. */
  lemma SameDayCheckSeesUpload(files: seq<DriveFile>, now: Timestamp, later: Timestamp, id: FileId,
                               mediaType: Option<string>, source: string)
    requires now.date == later.date
    ensures var t := UploadTarget(FolderListing(files), RemoteDestination(now));
      && t.Success?
      && Exists(files + [DriveFile(id, t.value.name, t.value.parents, false, mediaType, source)],
                GetFilePath(None, later))
  {
    DestinationTarget(FolderListing(files), now);
    var t := UploadTarget(FolderListing(files), RemoteDestination(now));
    var added := [DriveFile(id, t.value.name, t.value.parents, false, mediaType, source)];
    assert added[0].name == GetFilePath(None, later);
    ExistsAfterAppend(files, added, GetFilePath(None, later));
  }

  /** A successful fetch of the default regions always has 200 rows, so the
      row-count warning of `daily_routine` is never reached: a short page makes
      the fetch raise instead. */
  lemma DefaultFetchRowCount(api: Api)
    requires Aggregate(api, DefaultRegions).Success?
    ensures |Aggregate(api, DefaultRegions).value| == ExpectedRows
  {
    AggregateShape(api, DefaultRegions);
  }

  /** What one `daily_routine` call ended with: the id of the uploaded file, the
      row-count warning, or the exception the fetch raised. */
  datatype RoutineOutcome = Uploaded(id: FileId) | Warned | Raised(error: FetchError)

  predicate Due(start: TimeOfDay, job: Job)
  {
    Before(start, job.at)
  }

  /** `after` is `before` with at most one file appended, a file named `name`
      uploaded from the local snapshot `data/<name>`. */
  predicate SnapshotAppended(before: seq<DriveFile>, after: seq<DriveFile>, name: string)
  {
    && |before| <= |after| <= |before| + 1
    && after[..|before|] == before
    && forall k :: |before| <= k < |after| ==> after[k].name == name && after[k].source == DataDir + "/" + name
  }

  /** The local disk changed at most at `path`. */
  predicate OnlyWrittenAt(before: map<string, seq<Row>>, after: map<string, seq<Row>>, path: string)
  {
    after == before || (path in after && after == before[path := after[path]])
  }

  /** The daily upload appends the day's snapshot and makes its name exist. */
  lemma UploadedSnapshot(before: seq<DriveFile>, after: seq<DriveFile>, now: Timestamp, file: DriveFile)
    requires file.name == GetFilePath(None, now) && file.source == GetFilePath(Some(DataDir), now)
    requires after == before + [file]
    ensures SnapshotAppended(before, after, SnapshotFileName(now.date))
    ensures Exists(after, SnapshotFileName(now.date))
  {
    assert after[|before|] == file;
  }

  /** The process: the drive and the local disk it works on, the jobs `main`
      registered and the warnings issued so far. */
  class TrendingApp {
    const drive: Drive
    const disk: LocalDisk
    const jobs: seq<Job>
    var warnings: seq<string>

    ghost predicate Valid()
      reads this, drive
    {
      drive.Valid()
    }

    /** `main`'s registrations. */
    constructor (drive: Drive, disk: LocalDisk)
      requires drive.Valid()
      ensures Valid()
      ensures this.drive == drive && this.disk == disk
      ensures jobs == JobTable && warnings == []
    {
      this.drive := drive;
      this.disk := disk;
      jobs := JobTable;
      warnings := [];
    }

    /** What a `daily_routine` call at `now` against `api` does: a failed fetch
        raises and changes nothing; a fetch saves the snapshot, then either warns
        about the row count or uploads the saved file. */
    twostate predicate RoutineEffect(now: Timestamp, api: Api, new outcome: RoutineOutcome)
      reads this, drive, disk
    {
      var path := GetFilePath(Some(DataDir), now);
      match Aggregate(api, DefaultRegions)
      case Failure(e) =>
        && outcome == Raised(e)
        && disk.files == old(disk.files) && drive.files == old(drive.files) && warnings == old(warnings)
      case Success(rows) =>
        && disk.files == old(disk.files)[path := rows]
        && if |rows| != ExpectedRows then
             && outcome == Warned
             && drive.files == old(drive.files)
             && warnings == old(warnings) + [CountWarning]
           else
             && outcome.Uploaded?
             && warnings == old(warnings)
             && drive.files == old(drive.files) + [DriveFile(outcome.id, GetFilePath(None, now),
                  ParentIds(FolderListing(old(drive.files)), RemoteParent), false, None, path)]
    }

    /** `daily_routine()`, with the clock read as `now`. */
    method DailyRoutine(now: Timestamp, api: Api) returns (outcome: RoutineOutcome)
      requires Valid()
      modifies this, drive, disk
      ensures Valid()
      ensures RoutineEffect(now, api, outcome)
    {
      var fetched := FetchYoutubeTrendingData(disk, api, DefaultRegions, true, now);
      if fetched.Failure? {
        return Raised(fetched.error);
      }
      var frame := fetched.value;
      if |frame.rows| != ExpectedRows {
        warnings := warnings + [CountWarning];
        return Warned;
      }
      DestinationTarget(FolderListing(drive.files), now);
      var r := UploadFile(drive, frame.path, RemoteDestination(now), None);
      outcome := Uploaded(r.value);
    }

    /** `double_check()`: rerun the routine only when no file of today's snapshot
        name is on the drive. */
    method DoubleCheck(now: Timestamp, api: Api) returns (ran: Option<RoutineOutcome>)
      requires Valid()
      modifies this, drive, disk
      ensures Valid()
      ensures Exists(old(drive.files), GetFilePath(None, now)) ==>
        ran.None? && drive.files == old(drive.files) && disk.files == old(disk.files) && warnings == old(warnings)
      ensures !Exists(old(drive.files), GetFilePath(None, now)) ==>
        ran.Some? && RoutineEffect(now, api, ran.value)
    {
      var fileName := GetFilePath(None, now);
      if !Exists(drive.files, fileName) {
        var outcome := DailyRoutine(now, api);
        ran := Some(outcome);
      } else {
        ran := None;
      }
    }

    /** One registered job run at its time of `date`, against `api`. It raises
        without changing anything, or leaves the day's snapshot on the drive,
        having uploaded at most one file of that name; a check that finds the
        file changes nothing. */
    method RunJob(job: Job, date: Date, api: Api) returns (raised: Option<FetchError>)
      requires Valid()
      modifies this, drive, disk
      ensures Valid()
      ensures warnings == old(warnings)
      ensures raised.Some? ==> drive.files == old(drive.files) && disk.files == old(disk.files)
      ensures raised.None? ==> Exists(drive.files, SnapshotFileName(date))
      ensures SnapshotAppended(old(drive.files), drive.files, SnapshotFileName(date))
      ensures |drive.files| > |old(drive.files)| ==>
        job.kind == DailyRoutineJob || !Exists(old(drive.files), SnapshotFileName(date))
      ensures OnlyWrittenAt(old(disk.files), disk.files, DataDir + "/" + SnapshotFileName(date))
      ensures job.kind == DoubleCheckJob && Exists(old(drive.files), SnapshotFileName(date)) ==>
        drive.files == old(drive.files) && disk.files == old(disk.files)
    {
      var now := Timestamp(date, job.at);
      var name := SnapshotFileName(date);
      if Aggregate(api, DefaultRegions).Success? {
        DefaultFetchRowCount(api);
      }
      ghost var before := drive.files;
      var outcome: RoutineOutcome;
      if job.kind == DailyRoutineJob {
        outcome := DailyRoutine(now, api);
      } else {
        var ran := DoubleCheck(now, api);
        if ran.None? {
          return None;
        }
        outcome := ran.value;
      }
      if outcome.Raised? {
        return Some(outcome.error);
      }
      assert outcome.Uploaded?;
      UploadedSnapshot(before, drive.files, now, drive.files[|before|]);
      raised := None;
    }

    /** One day of `main`'s loop, from the clock time `start` on: every job
        registered later than `start` runs in clock order, the i-th one against
        `apis[i]`; the first exception ends the process. At most one file is
        uploaded that day, under the day's snapshot name, and unless a fetch
        raised the file is on the drive once the 20:00 check has passed. A day
        that starts after the daily run with the file already uploaded changes
        nothing. */
    method RunDay(date: Date, start: TimeOfDay, apis: seq<Api>) returns (raised: Option<FetchError>)
      requires Valid() && jobs == JobTable && |apis| == |jobs|
      modifies this, drive, disk
      ensures Valid()
      ensures SnapshotAppended(old(drive.files), drive.files, SnapshotFileName(date))
      ensures warnings == old(warnings)
      ensures OnlyWrittenAt(old(disk.files), disk.files, DataDir + "/" + SnapshotFileName(date))
      ensures raised.None? && Before(start, TimeOfDay(20, 0)) ==> Exists(drive.files, SnapshotFileName(date))
      ensures Exists(old(drive.files), SnapshotFileName(date)) && !Before(start, TimeOfDay(8, 0)) ==>
        drive.files == old(drive.files) && disk.files == old(disk.files)
    {
      ghost var files0, disk0 := drive.files, disk.files;
      ghost var n0, name := |files0|, SnapshotFileName(date);
      ghost var path := DataDir + "/" + name;
      raised := None;
      var i := 0;
      while i < |jobs|
        invariant 0 <= i <= |jobs| && Valid()
        invariant SnapshotAppended(files0, drive.files, name)
        invariant |drive.files| > n0 ==> Exists(drive.files, name)
        invariant i == 0 ==> drive.files == files0 && disk.files == disk0
        invariant warnings == old(warnings)
        invariant OnlyWrittenAt(disk0, disk.files, path)
        invariant i > 0 && Due(start, jobs[i - 1]) ==> Exists(drive.files, name)
        invariant Exists(files0, name) && !Due(start, jobs[0]) ==> drive.files == files0 && disk.files == disk0
      {
        if Due(start, jobs[i]) {
          raised := RunJob(jobs[i], date, apis[i]);
          if raised.Some? {
            return;
          }
        }
        i := i + 1;
      }
    }
  }
}
