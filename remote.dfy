/** The remote storage drive, as an abstract state: the list of its files in
    listing order, and the identifiers it hands out. The storage client library
    and the network are not modelled; its `files().list`, `files().create` and
    `files().delete` calls become the functions and methods below. */
module Remote {
  import opened Wrappers

  type FileId = nat

  /** One entry of the drive: folders and uploaded files alike. `source` is the
      local path whose bytes an upload sent. */
  datatype DriveFile = DriveFile(
    id: FileId,
    name: string,
    parents: seq<FileId>,
    isFolder: bool,
    mediaType: Option<string>,
    source: string)

  /** `pageSize=10` in the folder query. */
  const FolderPageSize: nat := 10

  /** The folders of the drive, in listing order. */
  function Folders(files: seq<DriveFile>): (folders: seq<DriveFile>)
    ensures |folders| <= |files|
    ensures forall f :: f in folders ==> f in files && f.isFolder
  {
    if files == [] then []
    else (if files[0].isFolder then [files[0]] else []) + Folders(files[1..])
  }

  /** `files().list(q="mimeType = '<folder type>'", pageSize=10)`: the first page
      of folders only. */
  function FolderListing(files: seq<DriveFile>): (page: seq<DriveFile>)
    ensures |page| <= FolderPageSize
    ensures forall f :: f in page ==> f in files && f.isFolder
  {
    var all := Folders(files);
    if |all| <= FolderPageSize then all else all[..FolderPageSize]
  }

  /** An identifier larger than every identifier in use. */
  function NextFreeId(files: seq<DriveFile>): (id: FileId)
    ensures forall k :: 0 <= k < |files| ==> files[k].id < id
  {
    if files == [] then 0
    else
      var rest := NextFreeId(files[1..]);
      if files[0].id < rest then rest else files[0].id + 1
  }

  /** The drive after `files().delete(fileId=id)`. */
  function WithoutId(files: seq<DriveFile>, id: FileId): (kept: seq<DriveFile>)
    ensures forall f :: f in kept <==> f in files && f.id != id
  {
    if files == [] then []
    else (if files[0].id == id then [] else [files[0]]) + WithoutId(files[1..], id)
  }

  class Drive {
    var files: seq<DriveFile>
    var nextId: FileId

    /** Every identifier in use was handed out before `nextId`. */
    ghost predicate Valid()
      reads this
    {
      forall k :: 0 <= k < |files| ==> files[k].id < nextId
    }

    constructor (initial: seq<DriveFile>)
      ensures Valid() && files == initial
    {
      files := initial;
      nextId := NextFreeId(initial);
    }

    /** `files().create(body={"name", "parents"}, media_body=...)`: appends one
        non-folder file under a fresh identifier and returns that identifier. */
    method Create(name: string, parents: seq<FileId>, mediaType: Option<string>, source: string)
      returns (id: FileId)
      requires Valid()
      modifies this
      ensures Valid()
      ensures files == old(files) + [DriveFile(id, name, parents, false, mediaType, source)]
      ensures forall k :: 0 <= k < |old(files)| ==> old(files)[k].id != id
    {
      id := nextId;
      files := files + [DriveFile(id, name, parents, false, mediaType, source)];
      nextId := nextId + 1;
    }

    /** `files().delete(fileId=id)`. */
    method Delete(id: FileId)
      requires Valid()
      modifies this
      ensures Valid()
      ensures files == WithoutId(old(files), id)
    {
      files := WithoutId(files, id);
    }
  }
}
