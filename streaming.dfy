/**
 * streamFromFile: the HTTP reply that sends a downloaded file back to the
 * browser, and the failures a request can end in.
 */
module Streaming {
  import opened Wrappers
  import opened Text

  /** Why a request produced no file. */
  datatype RequestError =
    | ToolFailed(message: string)  // yt-dlp exited with a non-zero status
    | FileNotCreated               // yt-dlp succeeded but the output file is not there
    | MissingFile(path: string)    // the file to stream does not exist

  /** The prefix of the message of a failed yt-dlp run, followed by its standard error. */
  const ToolFailedPrefix: string := "yt-dlp failed: "

  const AudioMime: string := "audio/mpeg"
  const VideoMime: string := "video/mp4"

  const AllowOrigin: string := "Access-Control-Allow-Origin"
  const ExposeHeaders: string := "Access-Control-Expose-Headers"
  const ContentDisposition: string := "Content-Disposition"

  /** Response headers set, the content type, and the file whose bytes form the body. */
  datatype Reply = Reply(contentType: string, headers: map<string, string>, file: string)

  /** The last component of a path: what follows its last '/', or all of it when there is none. */
  function FileName(path: string): (r: string)
    ensures '/' !in r
    ensures |r| <= |path| && path[|path| - |r|..] == r
    ensures '/' !in path ==> r == path
  {
    match LastIndex(path, '/')
    case None => path
    case Some(i) => path[i + 1..]
  }

  /** A name without '/' under any directory is that file's name. */
  lemma FileNameInDirectory(dir: string, name: string)
    requires '/' !in name
    ensures FileName(dir + "/" + name) == name
  {
    var path := dir + "/" + name;
    LastIndexOfJoin(dir, '/', name);
    assert path[|dir| + 1..] == name;
  }

  const DispositionHead: string := "attachment; filename=\""

  /** Recovers the offered file name from a Content-Disposition value of that shape. */
  function DispositionName(value: string): (r: Option<string>)
    ensures r.Some? ==> DispositionHead + r.value + "\"" == value
  {
    if |value| > |DispositionHead| && value[..|DispositionHead|] == DispositionHead
       && value[|value| - 1] == '"'
    then
      var name := value[|DispositionHead|..|value| - 1];
      assert value == DispositionHead + name + "\"";
      Some(name)
    else None
  }

  /**
   * The Content-Disposition value that offers the download under `name`;
   * reading the quoted name back out of it gives `name` again.
   */
  function Disposition(name: string): (r: string)
    ensures DispositionHead <= r
    ensures DispositionName(r) == Some(name)
  {
    var value := DispositionHead + name + "\"";
    assert value[..|DispositionHead|] == DispositionHead;
    assert value[|DispositionHead|..|value| - 1] == name;
    value
  }

  /** Audio for the mp3 format, mp4 video for every other format. */
  function ContentType(format: string): (r: string)
    ensures format == "mp3" ==> r == AudioMime
    ensures format != "mp3" ==> r == VideoMime
    ensures r == AudioMime <==> format == "mp3"
  {
    if format == "mp3" then AudioMime else VideoMime
  }

  /**
   * Streams the file at `path` among the existing `files`. A missing file is
   * an error raised before any header is set; otherwise the reply allows any
   * origin, exposes Content-Disposition, and offers the file under its own
   * name with the content type chosen by the format.
   */
  function StreamFromFile(files: set<string>, path: string, format: string): (r: Result<Reply, RequestError>)
    ensures r.Success? <==> path in files
    ensures r.Failure? ==> r.error == MissingFile(path)
    ensures r.Success? ==> r.value.file == path
    ensures r.Success? ==> r.value.contentType == ContentType(format)
    ensures r.Success? ==> (r.value.contentType == AudioMime <==> format == "mp3")
    ensures r.Success? ==> r.value.headers.Keys == {AllowOrigin, ExposeHeaders, ContentDisposition}
    ensures r.Success? ==> r.value.headers[AllowOrigin] == "*"
    ensures r.Success? ==> r.value.headers[ExposeHeaders] == ContentDisposition
    ensures r.Success? ==> DispositionName(r.value.headers[ContentDisposition]) == Some(FileName(path))
  {
    if path !in files then Failure(MissingFile(path))
    else
      var headers := map[AllowOrigin := "*", ExposeHeaders := ContentDisposition,
                         ContentDisposition := Disposition(FileName(path))];
      Success(Reply(ContentType(format), headers, path))
  }
}
