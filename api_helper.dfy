/** The storage side of the pipeline (trendscrap/api_helper.py; the upload code of
    ytexplorer/api_helper.py is the same): where an upload lands, and whether a
    file of a given name is present. */
module ApiHelper {
  import opened Wrappers
  import opened Text
  import opened Remote

  /** `IndexError` raised by `parent_dirs[-1]` when the destination has no `/`. */
  datatype UploadError = ParentIndexError

  /** The metadata `files().create` receives: `{"name": ..., "parents": [...]}`. */
  datatype Target = Target(name: string, parents: seq<FileId>)

  const ImageMediaType := "image/jpeg"

  /** `[dir["id"] for dir in listing if dir["name"] == parentName]`. */
  function ParentIds(listing: seq<DriveFile>, parentName: string): (ids: seq<FileId>)
    ensures |ids| <= |listing|
  {
    if listing == [] then []
    else
      (if listing[0].name == parentName then [listing[0].id] else [])
      + ParentIds(listing[1..], parentName)
  }

  /** The parents are exactly the identifiers of listed folders with the parent's name ... */
  lemma {:induction false} ParentIdsMembers(listing: seq<DriveFile>, parentName: string, id: FileId)
    ensures id in ParentIds(listing, parentName)
        <==> exists k :: 0 <= k < |listing| && listing[k].name == parentName && listing[k].id == id
  {
    if listing != [] {
      ParentIdsMembers(listing[1..], parentName, id);
      if id in ParentIds(listing[1..], parentName) {
        var k :| 0 <= k < |listing[1..]| && listing[1..][k].name == parentName && listing[1..][k].id == id;
        assert listing[k + 1] == listing[1..][k];
      }
      if exists k :: 0 <= k < |listing| && listing[k].name == parentName && listing[k].id == id {
        var k :| 0 <= k < |listing| && listing[k].name == parentName && listing[k].id == id;
        if k > 0 {
          assert listing[1..][k - 1] == listing[k];
        }
      }
    }
  }

  /** ... and they keep the listing's order: the selection distributes over concatenation. */
  lemma {:induction false} ParentIdsAppend(a: seq<DriveFile>, b: seq<DriveFile>, parentName: string)
    ensures ParentIds(a + b, parentName) == ParentIds(a, parentName) + ParentIds(b, parentName)
  {
    if a != [] {
      ParentIdsAppend(a[1..], b, parentName);
      assert (a + b)[1..] == a[1..] + b;
    } else {
      assert a + b == b;
    }
  }

  /** The decision taken by `upload_file` before it calls `files().create`:
      `*parent_dirs, filename = destination.split("/")`, then the parent
      comprehension over the folder listing. The comprehension reads
      `parent_dirs[-1]` once per listed folder, so a destination without `/`
      raises only when the listing is non-empty. No error is raised when no
      folder matches: the file is then created with no parent. */
  function UploadTarget(listing: seq<DriveFile>, destination: string): (r: Result<Target, UploadError>)
    ensures r.Failure? <==> '/' !in destination && listing != []
    ensures r.Success? ==> '/' !in r.value.name
    ensures r.Success? && '/' !in destination ==> r.value == Target(destination, [])
  {
    var parts := Split(destination, '/');
    SplitSegmentsFree(destination, '/');
    SplitWhole(destination, '/');
    var parentDirs := parts[..|parts| - 1];
    var fileName := parts[|parts| - 1];
    if parentDirs == [] then
      if listing == [] then Success(Target(fileName, [])) else Failure(ParentIndexError)
    else
      Success(Target(fileName, ParentIds(listing, parentDirs[|parentDirs| - 1])))
  }

  /** For a destination `dir_1/.../dir_n/name` (n >= 1) made of slash-free
      segments, the file is created under `name`, inside every listed folder
      called `dir_n`. */
  lemma UploadTargetOfJoined(listing: seq<DriveFile>, parts: seq<string>)
    requires |parts| >= 2
    requires forall k :: 0 <= k < |parts| ==> '/' !in parts[k]
    ensures UploadTarget(listing, Join(parts, '/'))
         == Success(Target(parts[|parts| - 1], ParentIds(listing, parts[|parts| - 2])))
  {
    SplitJoin(parts, '/');
  }

  /** What an `upload_file` call did to the drive and returned. */
  twostate predicate UploadDone(drive: Drive, localPath: string, destination: string,
                                mediaType: Option<string>, new r: Result<FileId, UploadError>)
    reads drive
  {
    match UploadTarget(FolderListing(old(drive.files)), destination)
    case Failure(e) =>
      r == Failure(e) && drive.files == old(drive.files)
    case Success(t) =>
      && r.Success?
      && drive.files == old(drive.files) + [DriveFile(r.value, t.name, t.parents, false, mediaType, localPath)]
      && forall k :: 0 <= k < |old(drive.files)| ==> old(drive.files)[k].id != r.value
  }

  /** `upload_file(path_to_local_file, destination_path, drive_service, file_mimetype)`:
      returns the identifier of the created file. */
  method UploadFile(drive: Drive, localPath: string, destination: string, mediaType: Option<string>)
    returns (r: Result<FileId, UploadError>)
    requires drive.Valid()
    modifies drive
    ensures drive.Valid()
    ensures UploadDone(drive, localPath, destination, mediaType, r)
  {
    var directories := FolderListing(drive.files);
    var target := UploadTarget(directories, destination);
    if target.Failure? {
      return Failure(target.error);
    }
    var id := drive.Create(target.value.name, target.value.parents, mediaType, localPath);
    r := Success(id);
  }

  /** `upload_image`: `upload_file` with the JPEG media type. */
  method UploadImage(drive: Drive, localPath: string, destination: string)
    returns (r: Result<FileId, UploadError>)
    requires drive.Valid()
    modifies drive
    ensures drive.Valid()
    ensures UploadDone(drive, localPath, destination, Some(ImageMediaType), r)
  {
    r := UploadFile(drive, localPath, destination, Some(ImageMediaType));
  }

  /** `delete_file(file_id)`. */
  method DeleteFile(drive: Drive, id: FileId)
    requires drive.Valid()
    modifies drive
    ensures drive.Valid()
    ensures drive.files == WithoutId(old(drive.files), id)
  {
    drive.Delete(id);
  }

  /** `files().list(q="name = '<name>'")`: every file of the drive with that name,
      whatever folder it is in, and nothing else. */
  function NamedFiles(files: seq<DriveFile>, name: string): (named: seq<DriveFile>)
    ensures forall f :: f in named ==> f in files && f.name == name
    ensures forall k :: 0 <= k < |files| && files[k].name == name ==> files[k] in named
  {
    if files == [] then []
    else
      assert forall k :: 1 <= k < |files| ==> files[k] == files[1..][k - 1];
      (if files[0].name == name then [files[0]] else []) + NamedFiles(files[1..], name)
  }

  /** `exists(file_name)`: whether the name query returned at least one file, that
      is, whether some file of the drive, in any folder, has that name. */
  function Exists(files: seq<DriveFile>, name: string): (b: bool)
    ensures b <==> exists k :: 0 <= k < |files| && files[k].name == name
  {
    var named := NamedFiles(files, name);
    assert |named| > 0 ==> named[0] in files;
    |named| > 0
  }

  /** Appending files never makes a present name absent. */
  lemma ExistsAfterAppend(files: seq<DriveFile>, added: seq<DriveFile>, name: string)
    requires Exists(files, name) || exists k :: 0 <= k < |added| && added[k].name == name
    ensures Exists(files + added, name)
  {
    if Exists(files, name) {
      var k :| 0 <= k < |files| && files[k].name == name;
      assert (files + added)[k] == files[k];
    } else {
      var k :| 0 <= k < |added| && added[k].name == name;
      assert (files + added)[|files| + k] == added[k];
    }
  }
}
