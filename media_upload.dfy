/**
 * The media picker of the story and event forms. It keeps the list of
 * uploaded files, sends newly picked files to the upload endpoint (never
 * more than the room left under `maxFiles`), appends what the endpoint
 * reports, and tells the form about every new list through `onFilesChange`.
 */
module MediaUpload {
  import opened Wrappers
  import Seqs
  import UploadRoute
  import Payloads

  const DEFAULT_MAX_FILES: int := 10

  /**
   * One entry of the picker's list. `kind` is the endpoint's type text, taken
   * over without a check.
   */
  datatype UploadedFile = UploadedFile(id: string, url: string, kind: string)

  function FileId(f: UploadedFile): string { f.id }

  /**
   * The entry for the `i`-th file the endpoint reports: its id, or a
   * generated one when the id is empty (`f.id || generateId()`).
   */
  function EntryFor(f: UploadRoute.UploadedFile, generated: string): (r: UploadedFile)
    ensures r.url == f.url && r.kind == f.kind
    ensures f.id != "" ==> r.id == f.id
    ensures f.id == "" ==> r.id == generated
  {
    UploadedFile(if f.id != "" then f.id else generated, f.url, f.kind)
  }

  /** `data.files.map(...)`, with `generateId(i)` the id made up for entry `i`. */
  function Entries(reported: seq<UploadRoute.UploadedFile>, generateId: nat -> string): (r: seq<UploadedFile>)
    ensures |r| == |reported|
    ensures forall i :: 0 <= i < |r| ==> r[i] == EntryFor(reported[i], generateId(i))
  {
    seq(|reported|, i requires 0 <= i < |reported| => EntryFor(reported[i], generateId(i)))
  }

  /** Every entry has an id to remove it by, as long as generated ids are never empty. */
  lemma EntriesHaveIds(reported: seq<UploadRoute.UploadedFile>, generateId: nat -> string)
    requires forall i: nat :: generateId(i) != ""
    ensures forall e :: e in Entries(reported, generateId) ==> e.id != ""
  {
    var r := Entries(reported, generateId);
    forall e | e in r
      ensures e.id != ""
    {
      var i :| 0 <= i < |r| && r[i] == e;
      assert r[i] == EntryFor(reported[i], generateId(i));
    }
  }

  /** The picker's list as the story and event forms send it: id, type and url of each entry, in order. */
  function MediaInputs(media: seq<UploadedFile>): (r: seq<Payloads.MediaInput>)
    ensures |r| == |media|
    ensures forall i :: 0 <= i < |r| ==> r[i] == Payloads.MediaInput(Some(media[i].id), media[i].kind, media[i].url, None)
  {
    seq(|media|, i requires 0 <= i < |media| => Payloads.MediaInput(Some(media[i].id), media[i].kind, media[i].url, None))
  }

  /**
   * The picked files the handler sends as the code is written:
   * `Array.from(fileList).slice(0, maxFiles - count)`. Once the list already
   * holds more than `maxFiles` entries the end is negative, and ECMAScript
   * counts it from the back, so files are still sent.
   */
  function FilesToSendAsWritten<F>(picked: seq<F>, maxFiles: int, count: nat): (r: seq<F>)
    ensures r == Seqs.SliceTo(picked, maxFiles - count)
    ensures maxFiles - count < 0 ==> |r| == Seqs.Max(|picked| + maxFiles - count, 0)
  {
    Seqs.SliceTo(picked, maxFiles - count)
  }

  /** Twelve files under a limit of ten, three picked: one is still sent. */
  lemma AsWrittenExceedsLimit(picked: seq<int>)
    requires |picked| == 3
    ensures FilesToSendAsWritten(picked, 10, 12) == picked[..1]
    ensures 12 + |FilesToSendAsWritten(picked, 10, 12)| > 10
  {
  }

  /** The picked files sent: as many as fit, none once the list is full. */
  function FilesToSend<F>(picked: seq<F>, maxFiles: int, count: nat): (r: seq<F>)
    ensures |r| <= |picked| && r == picked[..|r|]
    ensures count >= maxFiles ==> r == []
    ensures count < maxFiles ==> |r| == Seqs.Min(maxFiles - count, |picked|)
  {
    picked[..Seqs.Max(0, Seqs.Min(maxFiles - count, |picked|))]
  }

  /** A list within the limit stays within it once the sent files are added. */
  lemma FilesToSendFits<F>(picked: seq<F>, maxFiles: int, count: nat)
    ensures count <= maxFiles ==> count + |FilesToSend(picked, maxFiles, count)| <= maxFiles
    ensures count > maxFiles ==> FilesToSend(picked, maxFiles, count) == []
  {
  }

  /** Within the limit the corrected choice is exactly the written one. */
  lemma FilesToSendAgrees<F>(picked: seq<F>, maxFiles: int, count: nat)
    requires count <= maxFiles
    ensures FilesToSend(picked, maxFiles, count) == FilesToSendAsWritten(picked, maxFiles, count)
  {
  }

  class Uploader {
    var files: seq<UploadedFile>
    var isUploading: bool
    const maxFiles: int
    /** Every list passed to `onFilesChange`, oldest first. */
    var changes: seq<seq<UploadedFile>>

    /** The list stays within the limit. */
    predicate WithinLimit()
      reads this
    {
      |files| <= maxFiles
    }

    /** Mounting the picker: `existingFiles` defaults to none, `maxFiles` to ten. */
    constructor (existingFiles: Option<seq<UploadedFile>>, maxFilesProp: Option<int>)
      ensures files == existingFiles.GetOr([])
      ensures maxFiles == maxFilesProp.GetOr(DEFAULT_MAX_FILES)
      ensures !isUploading && changes == []
    {
      files := existingFiles.GetOr([]);
      maxFiles := maxFilesProp.GetOr(DEFAULT_MAX_FILES);
      isUploading := false;
      changes := [];
    }

    /**
     * Files picked or dropped. With no file list nothing happens; otherwise
     * the files that fit are posted (returned as `sent`) and, when there are
     * any, the endpoint's reply is `reply`. A good reply appends the reported
     * entries and notifies the form; a failed one leaves the list as it was.
     */
    method HandleFiles(fileList: Option<seq<UploadRoute.UploadFile>>,
                       reply: Reply<UploadRoute.UploadBody>, generateId: nat -> string)
      returns (sent: seq<UploadRoute.UploadFile>)
      modifies this`files, this`isUploading, this`changes
      ensures fileList.None? ==> sent == []
      ensures fileList.Some? ==> sent == FilesToSend(fileList.value, maxFiles, |old(files)|)
      ensures sent != [] && reply.Ok? ==> files == old(files) + Entries(reply.payload.files, generateId)
      ensures sent != [] && reply.Ok? ==> changes == old(changes) + [files]
      ensures sent == [] || !reply.Ok? ==> files == old(files) && changes == old(changes)
      ensures !isUploading
      ensures old(WithinLimit()) && reply.Ok? && |reply.payload.files| == |sent| ==> WithinLimit()
    {
      if fileList.None? {
        isUploading := false;
        return [];
      }
      sent := FilesToSend(fileList.value, maxFiles, |files|);
      FilesToSendFits(fileList.value, maxFiles, |files|);
      if |sent| > 0 {
        isUploading := true;
        match reply {
          case Ok(body) =>
            var updated := files + Entries(body.files, generateId);
            files := updated;
            changes := changes + [updated];
          case NotOk =>
          case Thrown(_) =>
        }
        isUploading := false;
      } else {
        isUploading := false;
      }
    }

    /** The remove button of one entry: drops every entry with that id and notifies the form. */
    method RemoveFile(id: string)
      modifies this`files, this`changes
      ensures files == Seqs.WithoutKey(old(files), FileId, id)
      ensures changes == old(changes) + [files]
      ensures old(WithinLimit()) ==> WithinLimit()
    {
      files := Seqs.WithoutKey(files, FileId, id);
      changes := changes + [files];
    }
  }
}
