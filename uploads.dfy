/** The upload handlers of snapshots/14_main.py: the client's file name is
    reduced to its basename under `./uploads`, the upload is copied in chunks
    of at most 1 MiB until a read comes back empty, and a multi-file upload
    records one result per file and carries on past a failing one.

    The uploaded content is a byte sequence that `read` hands out in order;
    whether opening or writing the destination fails is given per file as the
    text of the exception raised (None when the write succeeds). */
module Uploads {
  import opened Common
  import opened Strings
  import opened PosixPath

  newtype byte = b: int | 0 <= b < 256

  const CHUNK_SIZE: nat := 1024 * 1024
  const UPLOAD_DIR := "./uploads"

  /** An `UploadFile`: client file name and content type (either may be absent) and the content. */
  datatype UploadFile = UploadFile(filename: Option<string>, contentType: Option<string>, data: seq<byte>)

  /** `await file.read(size)` when `pos` bytes have been read already. */
  function ReadChunk(data: seq<byte>, pos: nat, size: nat): (chunk: seq<byte>)
    requires pos <= |data|
    ensures |chunk| <= size && pos + |chunk| <= |data| && chunk == data[pos..pos + |chunk|]
    ensures chunk == [] <==> pos == |data| || size == 0
  {
    if pos + size <= |data| then data[pos..pos + size] else data[pos..]
  }

  function Concat(chunks: seq<seq<byte>>): seq<byte>
  {
    if chunks == [] then [] else Concat(chunks[..|chunks| - 1]) + chunks[|chunks| - 1]
  }

  /** The copy loop: read at most 1 MiB at a time until a read comes back empty,
      writing each chunk as it arrives. The chunks written are non-empty and at
      most 1 MiB, and their concatenation is the whole upload in order. */
  method CopyInChunks(data: seq<byte>) returns (written: seq<byte>, chunks: seq<seq<byte>>)
    ensures written == Concat(chunks) && written == data
    ensures forall i :: 0 <= i < |chunks| ==> 0 < |chunks[i]| <= CHUNK_SIZE
  {
    written, chunks := [], [];
    var pos := 0;
    while true
      invariant pos <= |data|
      invariant written == data[..pos] && written == Concat(chunks)
      invariant forall i :: 0 <= i < |chunks| ==> 0 < |chunks[i]| <= CHUNK_SIZE
      decreases |data| - pos
    {
      var content := ReadChunk(data, pos, CHUNK_SIZE);
      if content == [] {
        break;
      }
      assert data[..pos + |content|] == data[..pos] + content;
      pos := pos + |content|;
      written := written + content;
      chunks := chunks + [content];
    }
    assert data[..pos] == data;
  }

  /** Python's `file.filename or fallback`: an absent or empty name falls back. */
  function NameOr(filename: Option<string>, fallback: string): (n: string)
    ensures filename.Some? && filename.value != "" ==> n == filename.value
    ensures filename.None? || filename.value == "" ==> n == fallback
  {
    if filename.Some? && filename.value != "" then filename.value else fallback
  }

  /** `os.path.join(UPLOAD_DIR, os.path.basename(file.filename or fallback))`:
      only the basename of the client's name survives, under `./uploads/`. */
  function SavePath(filename: Option<string>, fallback: string): (p: string)
    ensures p == UPLOAD_DIR + "/" + Basename(NameOr(filename, fallback))
    ensures '/' !in p[|UPLOAD_DIR| + 1..]
  {
    var b := Basename(NameOr(filename, fallback));
    JoinAddsSeparator(UPLOAD_DIR, b);
    var p := PosixPath.Join(UPLOAD_DIR, b);
    assert p[|UPLOAD_DIR| + 1..] == b;
    p
  }

  /** The body of `upload_single_file`. */
  datatype SingleBody = SingleBody(filename: Option<string>, contentType: Option<string>, savePath: string)

  const SINGLE_FALLBACK := "upload_file"
  const SAVE_ERROR_PREFIX := "Could not dave file: "

  /** `upload_single_file`: copy the upload to its save path, or raise 500 with the
      exception text when the write fails. `written` is what the file then holds. */
  method UploadSingleFile(file: UploadFile, writeError: Option<string>)
    returns (r: Result<SingleBody>, written: seq<byte>)
    ensures writeError.Some? ==>
      r == Raised(Error(HTTP_500_INTERNAL_SERVER_ERROR, SAVE_ERROR_PREFIX + writeError.value))
    ensures writeError.None? ==>
      && r == Ok(SingleBody(file.filename, file.contentType, SavePath(file.filename, SINGLE_FALLBACK)))
      && written == file.data
  {
    var destination := SavePath(file.filename, SINGLE_FALLBACK);
    if writeError.Some? {
      written := [];
      r := Raised(Error(HTTP_500_INTERNAL_SERVER_ERROR, SAVE_ERROR_PREFIX + writeError.value));
      return;
    }
    var chunks;
    written, chunks := CopyInChunks(file.data);
    r := Ok(SingleBody(file.filename, file.contentType, destination));
  }

  /** One entry of `saved_files`: a saved file has a save path, a failed one an error. */
  datatype Entry =
    | SavedEntry(filename: Option<string>, savePath: string)
    | FailedEntry(filename: Option<string>, error: string)

  datatype MultiBody = MultiBody(message: string, details: seq<Entry>)

  /** The fallback name of the file at position `k`: `uploaded_file_k`. */
  function MultiFallback(k: nat): (m: string)
    ensures |m| > 14 && m[..14] == "uploaded_file_"
    ensures '/' !in m
  {
    var d := NatToString(k);
    assert forall i :: 0 <= i < |d| ==> IsDigit(d[i]);
    assert forall i :: 14 <= i < 14 + |d| ==> ("uploaded_file_" + d)[i] == d[i - 14];
    "uploaded_file_" + NatToString(k)
  }

  /** The entry recorded for the file at position `k`. */
  function EntryFor(file: UploadFile, writeError: Option<string>, k: nat): (e: Entry)
    ensures e.filename == file.filename
    ensures e.SavedEntry? <==> writeError.None?
  {
    if writeError.None? then SavedEntry(file.filename, SavePath(file.filename, MultiFallback(k)))
    else FailedEntry(file.filename, writeError.value)
  }

  /** Every entry keeps the client's name as sent; a saved one has the save path, a
      failed one the error text, and which of the two it is depends only on the write. */
  lemma EntryShape(file: UploadFile, writeError: Option<string>, k: nat)
    ensures EntryFor(file, writeError, k).filename == file.filename
    ensures EntryFor(file, writeError, k).SavedEntry? <==> writeError.None?
    ensures writeError.None? ==>
              EntryFor(file, writeError, k).savePath == UPLOAD_DIR + "/" + Basename(NameOr(file.filename, MultiFallback(k)))
    ensures writeError.Some? ==> EntryFor(file, writeError, k).error == writeError.value
  {
  }

  /** `f"{len(saved_files)} files processed."` */
  function ProcessedMessage(n: nat): (m: string)
    ensures m == NatToString(n) + " files processed."
  {
    NatToString(n) + " files processed."
  }

  /** The body of the loop of `upload_multiple_files` for one file, `k` entries in. */
  method SaveOne(file: UploadFile, writeError: Option<string>, k: nat) returns (entry: Entry)
    ensures entry == EntryFor(file, writeError, k)
  {
    var destination := SavePath(file.filename, MultiFallback(k));
    if writeError.None? {
      var written, chunks := CopyInChunks(file.data);
      entry := SavedEntry(file.filename, destination);
    } else {
      entry := FailedEntry(file.filename, writeError.value);
    }
  }

  /** One more entry, for position `k`, extends the entries recorded so far. */
  lemma AppendEntry(saved: seq<Entry>, entry: Entry, files: seq<UploadFile>, writeErrors: seq<Option<string>>, k: nat)
    requires |writeErrors| == |files| && k < |files| && |saved| == k
    requires forall j :: 0 <= j < k ==> saved[j] == EntryFor(files[j], writeErrors[j], j)
    requires entry == EntryFor(files[k], writeErrors[k], k)
    ensures forall j :: 0 <= j < k + 1 ==> (saved + [entry])[j] == EntryFor(files[j], writeErrors[j], j)
  {
    forall j | 0 <= j < k + 1
      ensures (saved + [entry])[j] == EntryFor(files[j], writeErrors[j], j)
    {
      if j < k {
        assert (saved + [entry])[j] == saved[j];
      } else {
        assert (saved + [entry])[j] == entry;
      }
    }
  }

  /** `upload_multiple_files`: one entry per file, in order, whatever happens to
      each write; the message counts the entries, which are as many as the files. */
  method UploadMultipleFiles(files: seq<UploadFile>, writeErrors: seq<Option<string>>) returns (body: MultiBody)
    requires |writeErrors| == |files|
    ensures |body.details| == |files|
    ensures forall k :: 0 <= k < |files| ==> body.details[k] == EntryFor(files[k], writeErrors[k], k)
    ensures body.message == ProcessedMessage(|files|)
  {
    var saved: seq<Entry> := [];
    for k := 0 to |files|
      invariant |saved| == k
      invariant forall j :: 0 <= j < k ==> saved[j] == EntryFor(files[j], writeErrors[j], j)
    {
      var entry := SaveOne(files[k], writeErrors[k], |saved|);
      AppendEntry(saved, entry, files, writeErrors, k);
      saved := saved + [entry];
    }
    body := MultiBody(ProcessedMessage(|saved|), saved);
  }

  /** Three files whose second write fails: three entries, the middle one an error. */
  method ThreeFilesMiddleFails(a: UploadFile, b: UploadFile, c: UploadFile, e: string) returns (body: MultiBody)
    ensures |body.details| == 3
    ensures body.details[0].SavedEntry? && body.details[2].SavedEntry?
    ensures body.details[1] == FailedEntry(b.filename, e)
    ensures body.message == "3 files processed."
  {
    var files := [a, b, c];
    var errs := [None, Some(e), None];
    body := UploadMultipleFiles(files, errs);
    assert body.details[1] == EntryFor(b, Some(e), 1);
    assert NatToString(3) == [DigitChar(3)] == "3";
    assert ProcessedMessage(|files|) == "3 files processed.";
  }

  /** The body of `upload_small_file`. */
  datatype SmallBody = SmallBody(fileSize: nat, message: string)

  /** `upload_small_file`: the whole content arrives at once and its length is reported. */
  function UploadSmallFile(file: seq<byte>): (r: SmallBody)
    ensures r.fileSize == |file| && r.message == "File received as bytes"
  {
    SmallBody(|file|, "File received as bytes")
  }

  /** `upload_file_and_form` calls `os.path.goin`, which does not exist: the handler
      always fails with an `AttributeError` before returning, an unhandled error. */
  datatype FormOutcome = AttributeErrorRaised(attribute: string)

  function UploadFileAndForm(file: UploadFile, notes: Option<string>): (r: FormOutcome)
    ensures r == AttributeErrorRaised("goin")
  {
    AttributeErrorRaised("goin")
  }
}
