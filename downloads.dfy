/** The download handlers of snapshots/15_main.py: the client's file name is
    reduced to its basename, joined under `./downloadables/`, checked against
    the filesystem (404) and then against the absolute download directory
    (403), and served with a MIME type and a suggested file name. A function
    `download_stream`, defined without a route, would return ten text chunks
    as an attachment; each chunk ends in a backslash and `n`, not a line break.

    The filesystem appears as the predicate `isFile`, `mimetypes.guess_type`
    as the function `guessType`, and the working directory as `cwd`. */
module Downloads {
  import opened Common
  import opened Strings
  import opened PosixPath

  const DOWNLOAD_DIR := "./downloadables/"
  const OCTET_STREAM := "application/octet-stream"

  /** A `FileResponse`: the path served, and the media type and download name when given. */
  datatype FileReply = FileReply(path: string, mediaType: Option<string>, filename: Option<string>)

  /** `os.path.abspath(DOWNLOAD_DIR)` for a working directory `cwd` as `os.getcwd()`
      returns it (absolute and normalised): the trailing `/` and the `./` vanish. */
  function AbsDownloadDir(cwd: string): (r: string)
    requires |cwd| > 0 && cwd[0] == '/'
    ensures |r| > 0 && r[0] == '/'
  {
    (if cwd[|cwd| - 1] == '/' then cwd else cwd + "/") + "downloadables"
  }

  /** `s.startswith(prefix)`. */
  predicate StartsWith(s: string, prefix: string)
    ensures StartsWith(s, prefix) <==> |prefix| <= |s| && forall i :: 0 <= i < |prefix| ==> s[i] == prefix[i]
  {
    |prefix| <= |s| && s[..|prefix|] == prefix
  }

  /** `os.path.join(DOWNLOAD_DIR, os.path.basename(file_name))`. */
  function ResolvedPath(fileName: string): (p: string)
    ensures p == DOWNLOAD_DIR + Basename(fileName)
    ensures StartsWith(p, DOWNLOAD_DIR)
    ensures '/' !in p[|DOWNLOAD_DIR|..]
  {
    var b := Basename(fileName);
    JoinUnderDirectory(DOWNLOAD_DIR, b);
    assert (DOWNLOAD_DIR + b)[|DOWNLOAD_DIR|..] == b;
    assert (DOWNLOAD_DIR + b)[..|DOWNLOAD_DIR|] == DOWNLOAD_DIR;
    PosixPath.Join(DOWNLOAD_DIR, b)
  }

  /** The checks both handlers share, in their order: 404 first, then 403. */
  function CheckPath(fileName: string, isFile: string -> bool, cwd: string): (r: Result<string>)
    requires |cwd| > 0 && cwd[0] == '/'
    ensures !isFile(ResolvedPath(fileName)) ==> r == Raised(Error(HTTP_404_NOT_FOUND, "File not found"))
    ensures isFile(ResolvedPath(fileName)) && !StartsWith(ResolvedPath(fileName), AbsDownloadDir(cwd)) ==>
              r == Raised(Error(HTTP_403_FORBIDDEN, "Access denied"))
    ensures isFile(ResolvedPath(fileName)) && StartsWith(ResolvedPath(fileName), AbsDownloadDir(cwd)) ==>
              r == Ok(ResolvedPath(fileName))
    ensures r.Ok? ==> r.value == ResolvedPath(fileName)
  {
    var path := ResolvedPath(fileName);
    if !isFile(path) then Raised(Error(HTTP_404_NOT_FOUND, "File not found"))
    else if !StartsWith(path, AbsDownloadDir(cwd)) then Raised(Error(HTTP_403_FORBIDDEN, "Access denied"))
    else Ok(path)
  }

  /** `download_basic`: serve the resolved path as is. */
  function DownloadBasic(fileName: string, isFile: string -> bool, cwd: string): (r: Result<FileReply>)
    requires |cwd| > 0 && cwd[0] == '/'
    ensures r.Raised? <==> CheckPath(fileName, isFile, cwd).Raised?
    ensures r.Raised? ==> r.error == CheckPath(fileName, isFile, cwd).error
    ensures r.Ok? ==> r.value == FileReply(ResolvedPath(fileName), None, None)
  {
    match CheckPath(fileName, isFile, cwd)
    case Raised(e) => Raised(e)
    case Ok(path) => Ok(FileReply(path, None, None))
  }

  /** The media type: the guess, or `application/octet-stream` when there is none. */
  function MediaType(path: string, guessType: string -> Option<string>): (t: string)
    ensures guessType(path).Some? ==> t == guessType(path).value
    ensures guessType(path).None? ==> t == OCTET_STREAM
  {
    match guessType(path)
    case Some(t) => t
    case None => OCTET_STREAM
  }

  /** The suggested download name: `download_` and the sanitised name. */
  function DownloadName(fileName: string): (n: string)
    ensures n == "download_" + Basename(fileName)
    ensures '/' !in n
  {
    var n := "download_" + Basename(fileName);
    assert forall i :: 9 <= i < |n| ==> n[i] == Basename(fileName)[i - 9];
    n
  }

  /** `download_custom`: the same checks, then a media type and a download name. */
  function DownloadCustom(fileName: string, isFile: string -> bool, guessType: string -> Option<string>, cwd: string)
    : (r: Result<FileReply>)
    requires |cwd| > 0 && cwd[0] == '/'
    ensures r.Raised? <==> CheckPath(fileName, isFile, cwd).Raised?
    ensures r.Raised? ==> r.error == CheckPath(fileName, isFile, cwd).error
    ensures r.Ok? ==> r.value == FileReply(ResolvedPath(fileName),
                                           Some(MediaType(ResolvedPath(fileName), guessType)),
                                           Some(DownloadName(fileName)))
  {
    match CheckPath(fileName, isFile, cwd)
    case Raised(e) => Raised(e)
    case Ok(path) => Ok(FileReply(path, Some(MediaType(path, guessType)), Some(DownloadName(fileName))))
  }

  /** The directory part of a client name never survives: "../../etc/passwd" resolves to
      "./downloadables/passwd". */
  lemma TraversalIsStripped()
    ensures ResolvedPath("../../etc/passwd") == "./downloadables/passwd"
    ensures DownloadName("../../etc/passwd") == "download_passwd"
  {
    assert "../../etc/passwd" == "../../etc" + "/" + "passwd";
    BasenameAfterSlash("../../etc", "passwd");
  }

  /** As written, the 403 check compares the relative resolved path with an absolute
      one, which it can never start with: every name is refused, existing files with
      403 and the others with 404. */
  lemma EveryRequestIsRefused(fileName: string, isFile: string -> bool, guessType: string -> Option<string>, cwd: string)
    requires |cwd| > 0 && cwd[0] == '/'
    ensures DownloadBasic(fileName, isFile, cwd).Raised?
    ensures DownloadCustom(fileName, isFile, guessType, cwd).Raised?
    ensures isFile(ResolvedPath(fileName)) ==>
              DownloadBasic(fileName, isFile, cwd).error == Error(HTTP_403_FORBIDDEN, "Access denied")
  {
  }

  // ---------------------------------------------------------------------------
  // fake_data_streamer and download_stream

  const CHUNK_SUFFIX := ": Some data chunk\\n"

  /** Chunk `i` of the stream: "Line i: Some data chunk" followed by a backslash and `n`
      (the source escapes the newline, so no line break is sent). */
  function StreamChunk(i: nat): (c: string)
    ensures |c| == 24 + |NatToString(i)|
    ensures c[..5] == "Line "
  {
    "Line " + NatToString(i) + CHUNK_SUFFIX
  }

  /** All that `fake_data_streamer` yields, in order. */
  function StreamChunks(): (chunks: seq<string>)
    ensures |chunks| == 10
    ensures forall i :: 0 <= i < 10 ==> chunks[i] == StreamChunk(i + 1)
  {
    seq(10, i requires 0 <= i < 10 => StreamChunk(i + 1))
  }

  /** Chunk `i` holds "Line ", the decimal `i`, then ": Some data chunk", a backslash
      and `n`; it contains no newline character. */
  lemma StreamChunkShape(i: nat)
    ensures var c := StreamChunk(i);
            && c[..5] == "Line "
            && ParseNat(c[5..|c| - 19]) == i
            && c[|c| - 19..] == CHUNK_SUFFIX
            && c[|c| - 2] == '\\' && c[|c| - 1] == 'n'
            && '\n' !in c
  {
    var d := NatToString(i);
    assert StreamChunk(i) == "Line " + d + CHUNK_SUFFIX;
    Concat3("Line ", d, CHUNK_SUFFIX);
    ParseNatToString(i);
    assert '\n' !in d by {
      forall k | 0 <= k < |d| ensures d[k] != '\n' { assert IsDigit(d[k]); }
    }
  }

  /** The `StreamingResponse` of `download_stream`. The function carries no route
      decorator, so the application never serves it. */
  datatype StreamReply = StreamReply(chunks: seq<string>, mediaType: string, headers: map<string, string>)

  function DownloadStream(): (r: StreamReply)
    ensures r.chunks == StreamChunks() && r.mediaType == "text/plain"
    ensures r.headers == map["Content-Disposition" := "attachment; filename=streamed_data.txt"]
  {
    StreamReply(StreamChunks(), "text/plain", map["Content-Disposition" := "attachment; filename=streamed_data.txt"])
  }
}
