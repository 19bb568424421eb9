/**
 * The image drop zone of the admin form: the list of dropped files with
 * their upload status, the guard on how many files may be added, and the
 * sequential upload of each newly dropped file.
 */
module UploadList {
  import opened Wrappers
  import opened JsText
  import opened FileValidation

  datatype UploadStatus = Pending | Uploading | Success | Errored

  /** One entry of the list: the file, its id and preview url, and how its upload went. */
  datatype UploadedFile = UploadedFile(
    file: FileInfo,
    id: string,
    preview: string,
    progress: int,
    status: UploadStatus,
    url: Option<string>,
    error: Option<string>)

  /** The ids of the entries, in list order. */
  function Ids(fs: seq<UploadedFile>): (r: seq<string>)
    ensures |r| == |fs| && forall i :: 0 <= i < |fs| ==> r[i] == fs[i].id
  {
    seq(|fs|, i requires 0 <= i < |fs| => fs[i].id)
  }

  /** The entries `onDrop` creates for accepted files: pending, at progress 0, with no url or error. */
  function NewEntries(accepted: seq<FileInfo>, ids: seq<string>, previews: seq<string>): (r: seq<UploadedFile>)
    requires |ids| == |accepted| && |previews| == |accepted|
    ensures |r| == |accepted|
    ensures forall i :: 0 <= i < |r| ==>
      r[i].file == accepted[i] && r[i].id == ids[i] && r[i].preview == previews[i]
      && r[i].progress == 0 && r[i].status == Pending && r[i].url.None? && r[i].error.None?
  {
    seq(|accepted|, i requires 0 <= i < |accepted| => UploadedFile(accepted[i], ids[i], previews[i], 0, Pending, None, None))
  }

  /** `prev.filter(f => f.id !== fileId)`. */
  function Removed(fs: seq<UploadedFile>, id: string): seq<UploadedFile> {
    if fs == [] then []
    else if fs[0].id == id then Removed(fs[1..], id)
    else [fs[0]] + Removed(fs[1..], id)
  }

  /** `prev.map(f => f.id === fileId ? { ...f, progress, status: 'uploading' } : f)`. */
  function WithProgress(fs: seq<UploadedFile>, id: string, progress: int): (r: seq<UploadedFile>)
    ensures |r| == |fs|
    ensures forall i :: 0 <= i < |fs| ==>
      r[i] == if fs[i].id == id then fs[i].(progress := progress, status := Uploading) else fs[i]
  {
    seq(|fs|, i requires 0 <= i < |fs| =>
      if fs[i].id == id then fs[i].(progress := progress, status := Uploading) else fs[i])
  }

  /** `prev.map(f => f.id === fileId ? { ...f, status, url, error } : f)`; an omitted url or error clears it. */
  function WithStatus(fs: seq<UploadedFile>, id: string, status: UploadStatus, url: Option<string>, error: Option<string>)
    : (r: seq<UploadedFile>)
    ensures |r| == |fs|
    ensures forall i :: 0 <= i < |fs| ==>
      r[i] == if fs[i].id == id then fs[i].(status := status, url := url, error := error) else fs[i]
  {
    seq(|fs|, i requires 0 <= i < |fs| =>
      if fs[i].id == id then fs[i].(status := status, url := url, error := error) else fs[i])
  }

  /** `uploadedFiles.reduce((sum, file) => sum + file.file.size, 0)`, the total shown under the list. */
  function DisplayedSize(fs: seq<UploadedFile>): nat {
    if fs == [] then 0 else fs[0].file.size + DisplayedSize(fs[1..])
  }

  /**
   * Removing by id keeps exactly the entries with another id: nothing with
   * that id is left, every other entry stays, and a list without the id is
   * returned as it was.
   */
  lemma {:induction false} RemovedCharacterised(fs: seq<UploadedFile>, id: string)
    ensures forall f :: f in Removed(fs, id) <==> f in fs && f.id != id
    ensures id !in Ids(Removed(fs, id))
    ensures id !in Ids(fs) ==> Removed(fs, id) == fs
  {
    if fs != [] {
      RemovedCharacterised(fs[1..], id);
      assert fs == [fs[0]] + fs[1..];
      var rest := Removed(fs[1..], id);
      if fs[0].id != id {
        assert Ids(Removed(fs, id)) == [fs[0].id] + Ids(rest);
      }
      if id !in Ids(fs) {
        assert id !in Ids(fs[1..]) by {
          forall i | 0 <= i < |fs| - 1 ensures Ids(fs[1..])[i] != id {
            assert Ids(fs[1..])[i] == Ids(fs)[i + 1];
          }
        }
      }
    }
  }

  /** Progress and status updates keep every entry in its place: the list of ids is unchanged. */
  lemma UpdatesKeepIds(fs: seq<UploadedFile>, id: string, progress: int, status: UploadStatus,
    url: Option<string>, error: Option<string>)
    ensures Ids(WithProgress(fs, id, progress)) == Ids(fs)
    ensures Ids(WithStatus(fs, id, status, url, error)) == Ids(fs)
  {
  }

  /** A later status update of the same entry wins over an earlier one. */
  lemma StatusUpdatesCollapse(fs: seq<UploadedFile>, id: string, s1: UploadStatus, u1: Option<string>,
    e1: Option<string>, s2: UploadStatus, u2: Option<string>, e2: Option<string>)
    ensures WithStatus(WithStatus(fs, id, s1, u1, e1), id, s2, u2, e2) == WithStatus(fs, id, s2, u2, e2)
  {
  }

  /** The displayed total of two lists put together. */
  lemma {:induction false} DisplayedSizeAppend(a: seq<UploadedFile>, b: seq<UploadedFile>)
    ensures DisplayedSize(a + b) == DisplayedSize(a) + DisplayedSize(b)
  {
    if a != [] {
      assert (a + b)[1..] == a[1..] + b;
      DisplayedSizeAppend(a[1..], b);
    } else {
      assert a + b == b;
    }
  }

  /** The new entries add up to the batch's size, the total `validateFiles` checked. */
  lemma {:induction false} NewEntriesSize(accepted: seq<FileInfo>, ids: seq<string>, previews: seq<string>)
    requires |ids| == |accepted| && |previews| == |accepted|
    ensures DisplayedSize(NewEntries(accepted, ids, previews)) == TotalSize(accepted)
  {
    if accepted != [] {
      var r := NewEntries(accepted, ids, previews);
      NewEntriesSize(accepted[1..], ids[1..], previews[1..]);
      assert r[1..] == NewEntries(accepted[1..], ids[1..], previews[1..]);
    }
  }

  /** How one upload ended: the server's url, or the thrown error's message if it was an `Error`. */
  datatype UploadOutcome = Uploaded(url: string) | Failed(message: Option<string>)

  /** The status, url and error an entry is left with after its upload ended. */
  function Settled(fs: seq<UploadedFile>, id: string, outcome: UploadOutcome): seq<UploadedFile> {
    match outcome
    case Uploaded(url) => WithStatus(fs, id, Success, Some(url), None)
    case Failed(message) =>
      WithStatus(fs, id, Errored, None, Some(if message.Some? then message.value else "Upload failed"))
  }

  /** The list after the uploads of `batch` ended with `outcomes`, one after the other. */
  function SettledAll(fs: seq<UploadedFile>, batch: seq<string>, outcomes: seq<UploadOutcome>): (r: seq<UploadedFile>)
    requires |outcomes| == |batch|
    ensures |r| == |fs|
    decreases |batch|
  {
    if batch == [] then fs
    else SettledAll(Settled(fs, batch[0], outcomes[0]), batch[1..], outcomes[1..])
  }

  /** Settling keeps the ids and touches no entry whose id is not in the batch. */
  lemma {:induction false} SettledAllKeepsOthers(fs: seq<UploadedFile>, batch: seq<string>, outcomes: seq<UploadOutcome>)
    requires |outcomes| == |batch|
    ensures Ids(SettledAll(fs, batch, outcomes)) == Ids(fs)
    ensures forall i :: 0 <= i < |fs| && fs[i].id !in batch ==> SettledAll(fs, batch, outcomes)[i] == fs[i]
    decreases |batch|
  {
    if batch != [] {
      var next := Settled(fs, batch[0], outcomes[0]);
      SettledAllKeepsOthers(next, batch[1..], outcomes[1..]);
      forall i | 0 <= i < |fs| && fs[i].id !in batch ensures SettledAll(fs, batch, outcomes)[i] == fs[i] {
        assert fs[i].id != batch[0];
        assert fs[i].id !in batch[1..];
      }
    }
  }

  /**
   * With distinct ids in the batch, the `j`-th file ends as its own upload
   * ended: success with the url, or an error with the message.
   */
  lemma {:induction false} SettledAllOutcome(fs: seq<UploadedFile>, batch: seq<string>, outcomes: seq<UploadOutcome>,
    i: nat, j: nat)
    requires |outcomes| == |batch| && i < |fs| && j < |batch| && fs[i].id == batch[j]
    requires forall a, b :: 0 <= a < b < |batch| ==> batch[a] != batch[b]
    ensures var f := SettledAll(fs, batch, outcomes)[i];
      match outcomes[j]
      case Uploaded(url) => f.status == Success && f.url == Some(url) && f.error.None?
      case Failed(message) =>
        (f.status == Errored && f.url.None?
         && f.error == Some(if message.Some? then message.value else "Upload failed"))
    decreases |batch|
  {
    var next := Settled(fs, batch[0], outcomes[0]);
    if j == 0 {
      assert next[i].id == fs[i].id;
      assert fs[i].id !in batch[1..];
      SettledAllKeepsOthers(next, batch[1..], outcomes[1..]);
    } else {
      SettledAllOutcome(next, batch[1..], outcomes[1..], i, j - 1);
    }
  }

  /**
   * The state of the drop zone: the files shown, the error line and the
   * most files the list may hold.
   */
  class FileUpload {
    var files: seq<UploadedFile>
    var error: string
    const maxFiles: nat

    constructor(maxFiles: nat, existing: seq<UploadedFile>)
      ensures files == existing && error == "" && this.maxFiles == maxFiles
    {
      files := existing;
      error := "";
      this.maxFiles := maxFiles;
    }

    /**
     * `onDrop`: the error line is cleared; a drop that would take the list
     * over `maxFiles`, or a batch `validateFiles` refuses, sets an error and
     * adds nothing; otherwise the new pending entries are appended and
     * returned to be uploaded. The ids and preview urls are given.
     */
    method OnDrop(accepted: seq<FileInfo>, ids: seq<string>, previews: seq<string>) returns (added: seq<UploadedFile>)
      requires |ids| == |accepted| && |previews| == |accepted|
      modifies this
      ensures |old(files)| + |accepted| > maxFiles ==>
        files == old(files) && added == [] && error == "Cannot add more than " + NatToString(maxFiles) + " files"
      ensures |old(files)| + |accepted| <= maxFiles && BatchValidation(accepted).Invalid? ==>
        files == old(files) && added == []
        && error == (if BatchValidation(accepted).error == "" then "Invalid files" else BatchValidation(accepted).error)
      ensures |old(files)| + |accepted| <= maxFiles && BatchValidation(accepted).Valid? ==>
        added == NewEntries(accepted, ids, previews) && files == old(files) + added && error == ""
    {
      error := "";
      if |files| + |accepted| > maxFiles {
        error := "Cannot add more than " + NatToString(maxFiles) + " files";
        return [];
      }
      var validation := ValidateFiles(accepted);
      if validation.Invalid? {
        error := if validation.error == "" then "Invalid files" else validation.error;
        return [];
      }
      added := NewEntries(accepted, ids, previews);
      files := files + added;
    }

    /** `removeFile`. */
    method RemoveFile(id: string)
      modifies this
      ensures files == Removed(old(files), id) && error == old(error)
    {
      files := Removed(files, id);
    }

    /** `updateFileProgress`. */
    method UpdateFileProgress(id: string, progress: int)
      modifies this
      ensures files == WithProgress(old(files), id, progress) && error == old(error)
    {
      files := WithProgress(files, id, progress);
    }

    /** `updateFileStatus`. */
    method UpdateFileStatus(id: string, status: UploadStatus, url: Option<string>, error: Option<string>)
      modifies this
      ensures files == WithStatus(old(files), id, status, url, error) && this.error == old(this.error)
    {
      files := WithStatus(files, id, status, url, error);
    }

    /**
     * `retryUpload`: nothing happens for an unknown id; otherwise the entry
     * is marked uploading at progress 0 and then records how the new upload
     * ended.
     */
    method RetryUpload(id: string, outcome: UploadOutcome)
      modifies this
      ensures id !in Ids(old(files)) ==> files == old(files)
      ensures id in Ids(old(files)) ==>
        files == Settled(WithProgress(old(files), id, 0), id, outcome)
      ensures error == old(error)
    {
      if id !in Ids(files) {
        return;
      }
      var before := files;
      UpdateFileStatus(id, Uploading, None, None);
      UpdateFileProgress(id, 0);
      assert files == WithStatus(WithProgress(before, id, 0), id, Uploading, None, None);
      var started := WithProgress(before, id, 0);
      match outcome {
        case Uploaded(url) =>
          UpdateFileStatus(id, Success, Some(url), None);
          StatusUpdatesCollapse(started, id, Uploading, None, None, Success, Some(url), None);
        case Failed(message) =>
          var text := if message.Some? then message.value else "Upload failed";
          UpdateFileStatus(id, Errored, None, Some(text));
          StatusUpdatesCollapse(started, id, Uploading, None, None, Errored, None, Some(text));
      }
    }

    /**
     * `uploadNewFiles`: for each new file in turn, mark it uploading, then
     * record how its upload ended. The outcomes of the uploads are given;
     * the progress events in between are not modelled.
     */
    method UploadNewFiles(batch: seq<UploadedFile>, outcomes: seq<UploadOutcome>)
      requires |outcomes| == |batch|
      modifies this
      ensures files == SettledAll(old(files), Ids(batch), outcomes) && error == old(error)
    {
      var k := 0;
      while k < |batch|
        invariant 0 <= k <= |batch| && error == old(error)
        decreases |batch| - k
        invariant SettledAll(old(files), Ids(batch), outcomes)
          == SettledAll(files, Ids(batch)[k..], outcomes[k..])
      {
        var id := batch[k].id;
        assert Ids(batch)[k..][0] == id && Ids(batch)[k..][1..] == Ids(batch)[k + 1..];
        assert outcomes[k..][1..] == outcomes[k + 1..];
        var before := files;
        UpdateFileStatus(id, Uploading, None, None);
        match outcomes[k] {
          case Uploaded(url) =>
            UpdateFileStatus(id, Success, Some(url), None);
            StatusUpdatesCollapse(before, id, Uploading, None, None, Success, Some(url), None);
          case Failed(message) =>
            var text := if message.Some? then message.value else "Upload failed";
            UpdateFileStatus(id, Errored, None, Some(text));
            StatusUpdatesCollapse(before, id, Uploading, None, None, Errored, None, Some(text));
        }
        assert files == Settled(before, id, outcomes[k]);
        k := k + 1;
      }
    }
  }

  /**
   * A drop that is accepted raises the displayed total by exactly the size
   * of the dropped batch.
   */
  lemma DropRaisesTotal(before: seq<UploadedFile>, accepted: seq<FileInfo>, ids: seq<string>, previews: seq<string>)
    requires |ids| == |accepted| && |previews| == |accepted|
    ensures DisplayedSize(before + NewEntries(accepted, ids, previews)) == DisplayedSize(before) + TotalSize(accepted)
  {
    DisplayedSizeAppend(before, NewEntries(accepted, ids, previews));
    NewEntriesSize(accepted, ids, previews);
  }
}
