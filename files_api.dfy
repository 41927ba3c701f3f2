/** The files route handler: a module-level table of uploaded files, all served to
    the simulated signed-in user 1. GET lists the user's files, POST appends a file
    with id `files.length + 1`, DELETE splices out the first of the user's files
    with the given id. */
module FilesApi {
  import opened Optional
  import opened Seqs
  import opened Http

  datatype FileRecord = FileRecord(
    id: int, name: string, fileType: string, size: string, modified: string, userId: int)

  /** The simulated authenticated user of every request. */
  const CurrentUser: int := 1

  const InitialFiles: seq<FileRecord> := [
    FileRecord(1, "Assignment 1.pdf", "pdf", "2.4 MB", "2023-04-15", 1),
    FileRecord(2, "Lecture Notes.docx", "docx", "1.8 MB", "2023-04-14", 1),
    FileRecord(3, "Project Presentation.pptx", "pptx", "5.2 MB", "2023-04-13", 1)
  ]

  function OwnedByCurrentUser(f: FileRecord): bool
  {
    f.userId == CurrentUser
  }

  /** GET: `files.filter((file) => file.userId === userId)`. */
  function Get(files: seq<FileRecord>): (r: Response<seq<FileRecord>>)
    ensures r.success && r.status == 200 && r.payload.Data?
    ensures forall i :: 0 <= i < |r.payload.value| ==> r.payload.value[i] in files && r.payload.value[i].userId == CurrentUser
    ensures forall i :: 0 <= i < |files| && files[i].userId == CurrentUser ==> files[i] in r.payload.value
    ensures forall f :: multiset(r.payload.value)[f] == if f.userId == CurrentUser then multiset(files)[f] else 0
  {
    Ok(Filter(OwnedByCurrentUser, files))
  }

  /** The listing keeps the stored order of the user's files. */
  lemma GetKeepsOrder(files: seq<FileRecord>)
    ensures IsSubsequence(Get(files).payload.value, files)
  {
    FilterIsSubsequence(OwnedByCurrentUser, files);
  }

  /** Every stored file belongs to user 1 in the initial table and stays so, so GET
      lists the whole table. */
  lemma GetListsWholeTable(files: seq<FileRecord>)
    requires forall i :: 0 <= i < |files| ==> files[i].userId == CurrentUser
    ensures Get(files).payload.value == files
  {
    FilterKeepsAll(OwnedByCurrentUser, files);
  }

  /** POST: the record built for an upload at date `today` ("YYYY-MM-DD"), and the
      table afterwards. */
  function Upload(files: seq<FileRecord>, name: string, fileType: string, size: string, today: string)
    : (res: (Response<FileRecord>, seq<FileRecord>))
    ensures res.0.success && res.0.payload.Data?
    ensures var f := res.0.payload.value;
            f.id == |files| + 1 && f.userId == CurrentUser &&
            f.name == name && f.fileType == fileType && f.size == size && f.modified == today
    ensures |res.1| == |files| + 1 && res.1[..|files|] == files && res.1[|files|] == res.0.payload.value
  {
    var f := FileRecord(|files| + 1, name, fileType, size, today, CurrentUser);
    (Ok(f), files + [f])
  }

  /** Uploading keeps every file that was listed and lists the new one last. */
  lemma UploadIsListed(files: seq<FileRecord>, name: string, fileType: string, size: string, today: string)
    ensures var (r, after) := Upload(files, name, fileType, size, today);
            Get(after).payload.value == Get(files).payload.value + [r.payload.value]
  {
    var (r, after) := Upload(files, name, fileType, size, today);
    assert after == files + [r.payload.value];
    FilterConcat(OwnedByCurrentUser, files, [r.payload.value]);
  }

  function MatchesDelete(fileId: Option<int>): FileRecord -> bool
  {
    (f: FileRecord) => fileId == Some(f.id) && f.userId == CurrentUser
  }

  /** DELETE: the request's `fileId` (None when it is missing or not a number). */
  function Delete(files: seq<FileRecord>, fileId: Option<int>): (res: (Response<()>, seq<FileRecord>))
    ensures res.0.status == 200 || res.0.status == 404
    ensures res.0.success <==> exists i :: 0 <= i < |files| && fileId == Some(files[i].id) && files[i].userId == CurrentUser
    ensures !res.0.success ==> res == (Fail(404, "File not found"), files)
    ensures res.0.success ==>
              res.0 == Response(200, true, Message("File deleted successfully")) &&
              exists k :: 0 <= k < |files| && fileId == Some(files[k].id) && files[k].userId == CurrentUser &&
                          (forall j :: 0 <= j < k ==> !(fileId == Some(files[j].id) && files[j].userId == CurrentUser)) &&
                          res.1 == files[..k] + files[k + 1..]
  {
    var k := FindIndex(MatchesDelete(fileId), files);
    if k == -1 then
      (Fail(404, "File not found"), files)
    else
      assert MatchesDelete(fileId)(files[k]);
      (Response(200, true, Message("File deleted successfully")), files[..k] + files[k + 1..])
  }

  /** A successful delete takes exactly one file out: the table shrinks by one and
      holds the same files less that one. */
  lemma DeleteRemovesOne(files: seq<FileRecord>, fileId: Option<int>)
    requires Delete(files, fileId).0.success
    ensures var after := Delete(files, fileId).1;
            |after| == |files| - 1 &&
            exists k :: 0 <= k < |files| && multiset(after) + multiset{files[k]} == multiset(files)
  {
    var k := FindIndex(MatchesDelete(fileId), files);
    var after := files[..k] + files[k + 1..];
    assert Delete(files, fileId).1 == after;
    assert files == files[..k] + [files[k]] + files[k + 1..];
    assert multiset(after) + multiset{files[k]} == multiset(files);
  }

  /** Ids are `files.length + 1`, so they repeat once a file is gone: deleting file 1
      of the initial three and uploading gives a second file 3, and deleting 3 then
      removes only the older one. */
  lemma DuplicateIdAfterDelete(name: string, fileType: string, size: string, today: string)
    ensures var afterDelete := Delete(InitialFiles, Some(1)).1;
            var (r, afterUpload) := Upload(afterDelete, name, fileType, size, today);
            r.payload.value.id == 3 && afterUpload[1].id == 3 &&
            Delete(afterUpload, Some(3)).1 == [afterUpload[0], afterUpload[2]]
  {
    var files := InitialFiles;
    assert MatchesDelete(Some(1))(files[0]);
    assert FindIndex(MatchesDelete(Some(1)), files) == 0;
    var afterDelete := files[1..];
    assert Delete(files, Some(1)).1 == afterDelete;
    var f := FileRecord(3, name, fileType, size, today, CurrentUser);
    var afterUpload := afterDelete + [f];
    assert Upload(afterDelete, name, fileType, size, today) == (Ok(f), afterUpload);
    assert afterUpload == [files[1], files[2], f];
    assert !MatchesDelete(Some(3))(afterUpload[0]) && MatchesDelete(Some(3))(afterUpload[1]);
    FindIndexSecond(MatchesDelete(Some(3)), afterUpload);
    assert afterUpload[..1] + afterUpload[2..] == [afterUpload[0], afterUpload[2]];
  }

  lemma FindIndexSecond<T>(p: T -> bool, s: seq<T>)
    requires |s| >= 2 && !p(s[0]) && p(s[1])
    ensures FindIndex(p, s) == 1
  {
  }

  /** The module-level `files` array the handlers push onto and splice. */
  class FileStore {
    var files: seq<FileRecord>

    constructor()
      ensures files == InitialFiles
    {
      files := InitialFiles;
    }

    method Post(name: string, fileType: string, size: string, today: string) returns (r: Response<FileRecord>)
      modifies this
      ensures (r, files) == Upload(old(files), name, fileType, size, today)
    {
      var f := FileRecord(|files| + 1, name, fileType, size, today, CurrentUser);
      files := files + [f];
      r := Ok(f);
    }

    method DeleteFile(fileId: Option<int>) returns (r: Response<()>)
      modifies this
      ensures (r, files) == Delete(old(files), fileId)
    {
      var k := FindIndex(MatchesDelete(fileId), files);
      if k == -1 {
        r := Fail(404, "File not found");
      } else {
        files := files[..k] + files[k + 1..];
        r := Response(200, true, Message("File deleted successfully"));
      }
    }
  }
}
