/**
 * handleVideoRequest and downloadVideo: a request is answered from the Redis
 * cache when the file it remembers still exists, and otherwise by running
 * yt-dlp once into a fresh file under /tmp, remembering that file for six
 * hours and streaming it.
 *
 * The world the service acts on is a `Store`: the cache entries, the set of
 * files that exist, and the log of command lines handed to the shell. The
 * functions below say what one request does to a store; the class
 * `DownloadService` does the same step by step on its own fields.
 */
module Orchestrator {
  import opened Wrappers
  import opened QualityMapping
  import opened CommandBuilder
  import opened CacheKeys
  import opened Streaming

  /** How long a remembered download stays in the cache. */
  const CacheTtlHours: nat := 6

  /** The directory downloads are written to. */
  const OutputDir: string := "/tmp"

  /** A cache value: the downloaded file's path, with the expiry it was stored with. */
  datatype CacheEntry = CacheEntry(path: string, ttlHours: nat)

  /**
   * What one yt-dlp run did: its exit status, whether it left the requested
   * output file behind, and what it wrote to standard error.
   */
  datatype ToolOutcome = ToolOutcome(exitCode: int, wroteOutput: bool, stderr: string)

  datatype Store = Store(cache: map<string, CacheEntry>, files: set<string>, launched: seq<string>)

  /** The file a download is written to: the request's format as extension of a random UUID. */
  function OutputFile(uuid: string, format: string): (r: string)
    ensures OutputDir + "/" <= r
    ensures |r| == |OutputDir| + |uuid| + |format| + 2
  {
    OutputDir + "/" + uuid + "." + format
  }

  /** The name offered to the browser for a fresh download is `<uuid>.<format>`. */
  lemma OutputFileName(uuid: string, format: string)
    requires '/' !in uuid && '/' !in format
    ensures FileName(OutputFile(uuid, format)) == uuid + "." + format
  {
    var name := uuid + "." + format;
    assert OutputFile(uuid, format) == OutputDir + "/" + name;
    assert '/' !in name by {
      assert forall i :: 0 <= i < |name| ==> name[i] == (if i < |uuid| then uuid[i] else if i == |uuid| then '.' else format[i - |uuid| - 1]);
    }
    FileNameInDirectory(OutputDir, name);
  }

  /** Different UUIDs give different files for the same format. */
  lemma OutputFileInjective(uuid1: string, uuid2: string, format: string)
    requires OutputFile(uuid1, format) == OutputFile(uuid2, format)
    ensures uuid1 == uuid2
  {
    var p := OutputDir + "/";
    assert OutputFile(uuid1, format)[|p|..|p| + |uuid1|] == uuid1;
    assert OutputFile(uuid2, format)[|p|..|p| + |uuid2|] == uuid2;
  }

  /**
   * The yt-dlp command line for a request: the selector comes from
   * selectFormat, the audio bitrate from the requested quality, and the
   * cookie file is passed exactly when it exists.
   */
  function DownloadCommand(files: set<string>, url: string, format: string, quality: string,
                           outputFile: string): (r: string)
    ensures CookiesPrefix <= r <==> CookiesPath in files
    ensures format == "mp3" ==> IsInfix(AudioFlags + " " + MapBitrate(Some(quality)), r)
    ensures format != "mp3" ==>
              IsInfix("-f " + Quote(SelectFormat(quality, format) + "+bestaudio/best") + " " + MergeFlags + " " + FfmpegPath, r)
    ensures EndsWith(r, " -o " + Quote(outputFile) + " " + Quote(url))
  {
    var qualityArg := SelectFormat(quality, format);
    var cookiesPresent := CookiesPath in files;
    CookiesArgumentIffFile(url, format, qualityArg, Some(quality), outputFile, cookiesPresent);
    ModeArguments(url, format, qualityArg, Some(quality), outputFile, cookiesPresent);
    CommandEndsWithTarget(url, format, qualityArg, Some(quality), outputFile, cookiesPresent);
    BuildCommand(url, format, qualityArg, Some(quality), outputFile, cookiesPresent)
  }

  /**
   * runCommand: hands the command to the shell and waits. The files the tool
   * leaves behind exist whatever its exit status; a non-zero status is a
   * failure carrying the tool's standard error.
   */
  function RunTool(s: Store, command: string, outputFile: string, outcome: ToolOutcome)
    : (r: (Store, Option<RequestError>))
    ensures r.0.cache == s.cache
    ensures r.0.launched == s.launched + [command]
    ensures r.0.files == (if outcome.wroteOutput then s.files + {outputFile} else s.files)
    ensures r.1.None? <==> outcome.exitCode == 0
    ensures r.1.Some? ==> r.1.value == ToolFailed(ToolFailedPrefix + outcome.stderr)
  {
    var files := if outcome.wroteOutput then s.files + {outputFile} else s.files;
    var s1 := Store(s.cache, files, s.launched + [command]);
    if outcome.exitCode != 0 then (s1, Some(ToolFailed(ToolFailedPrefix + outcome.stderr)))
    else (s1, None)
  }

  /**
   * downloadVideo: runs yt-dlp exactly once into `/tmp/<uuid>.<format>` and
   * returns that path when the tool succeeded and the file exists. It never
   * touches the cache and never removes a file.
   */
  function Download(s: Store, url: string, format: string, quality: string, uuid: string,
                    outcome: ToolOutcome): (r: (Store, Result<string, RequestError>))
    ensures r.0.cache == s.cache
    ensures r.0.launched == s.launched + [DownloadCommand(s.files, url, format, quality, OutputFile(uuid, format))]
    ensures r.0.files == (if outcome.wroteOutput then s.files + {OutputFile(uuid, format)} else s.files)
    ensures s.files <= r.0.files <= s.files + {OutputFile(uuid, format)}
    ensures r.1.Success? <==> outcome.exitCode == 0 && OutputFile(uuid, format) in r.0.files
    ensures r.1.Success? ==> r.1.value == OutputFile(uuid, format)
    ensures r.1.Failure? ==>
              r.1.error == (if outcome.exitCode != 0 then ToolFailed(ToolFailedPrefix + outcome.stderr)
                            else FileNotCreated)
  {
    var out := OutputFile(uuid, format);
    var (s1, err) := RunTool(s, DownloadCommand(s.files, url, format, quality, out), out, outcome);
    if err.Some? then (s1, Failure(err.value))
    else if out !in s1.files then (s1, Failure(FileNotCreated))
    else (s1, Success(out))
  }

  /** A cache hit: the key is present and the file it names still exists. */
  predicate IsHit(s: Store, key: string) {
    key in s.cache && s.cache[key].path in s.files
  }

  /**
   * handleVideoRequest for one (url, format, quality) request. `uuid` and
   * `outcome` stand for the random name and the yt-dlp run a miss would use.
   */
  function Handle(s: Store, url: string, format: string, quality: string, uuid: string,
                  outcome: ToolOutcome): (r: (Store, Result<Reply, RequestError>))
    // A hit streams the remembered file, downloads nothing and changes nothing.
    ensures IsHit(s, CacheKey(url, format, quality)) ==>
              r.0 == s && r.1.Success? && r.1.value.file == s.cache[CacheKey(url, format, quality)].path
    // A miss, stale entries included, launches exactly one download.
    ensures !IsHit(s, CacheKey(url, format, quality)) ==>
              r.0.launched == s.launched + [DownloadCommand(s.files, url, format, quality, OutputFile(uuid, format))]
    // On a miss the files afterwards are those before, plus the output file when yt-dlp wrote it.
    ensures !IsHit(s, CacheKey(url, format, quality)) ==>
              r.0.files == (if outcome.wroteOutput then s.files + {OutputFile(uuid, format)} else s.files)
    // A miss succeeds exactly when yt-dlp exits 0 and its output file exists, and fails
    // with the tool's error or with "file not created" otherwise.
    ensures !IsHit(s, CacheKey(url, format, quality)) ==>
              (r.1.Success? <==> outcome.exitCode == 0 && OutputFile(uuid, format) in r.0.files)
    ensures !IsHit(s, CacheKey(url, format, quality)) && r.1.Failure? ==>
              r.1.error == (if outcome.exitCode != 0 then ToolFailed(ToolFailedPrefix + outcome.stderr)
                            else FileNotCreated)
    // A successful miss remembers the new file under the request's key for six hours.
    ensures !IsHit(s, CacheKey(url, format, quality)) && r.1.Success? ==>
              r.0.cache == s.cache[CacheKey(url, format, quality) := CacheEntry(OutputFile(uuid, format), CacheTtlHours)]
              && r.1.value.file == OutputFile(uuid, format)
    // A failed request leaves the cache as it was.
    ensures r.1.Failure? ==> r.0.cache == s.cache
    // Every reply streams a file that exists, and that file is what the key now names.
    ensures r.1.Success? ==> r.1 == StreamFromFile(r.0.files, r.1.value.file, format)
    ensures r.1.Success? ==> IsHit(r.0, CacheKey(url, format, quality))
                             && r.0.cache[CacheKey(url, format, quality)].path == r.1.value.file
    // The existence checks before streaming rule out the missing-file error.
    ensures r.1.Failure? ==> !r.1.error.MissingFile?
    ensures s.files <= r.0.files
    ensures |s.launched| <= |r.0.launched| <= |s.launched| + 1
  {
    var key := CacheKey(url, format, quality);
    if IsHit(s, key) then (s, StreamFromFile(s.files, s.cache[key].path, format))
    else
      var (s1, d) := Download(s, url, format, quality, uuid, outcome);
      match d
      case Failure(e) => (s1, Failure(e))
      case Success(path) =>
        var s2 := s1.(cache := s1.cache[key := CacheEntry(path, CacheTtlHours)]);
        (s2, StreamFromFile(s2.files, path, format))
  }

  /**
   * Asking again for what was just served is a hit: whatever UUID and tool
   * run the second request would have used, nothing is downloaded, nothing
   * changes, and the same reply is sent.
   */
  lemma RepeatedRequestIsServedFromCache(s: Store, url: string, format: string, quality: string,
                                         uuid: string, outcome: ToolOutcome,
                                         uuid2: string, outcome2: ToolOutcome)
    requires Handle(s, url, format, quality, uuid, outcome).1.Success?
    ensures var (s1, r1) := Handle(s, url, format, quality, uuid, outcome);
            Handle(s1, url, format, quality, uuid2, outcome2) == (s1, r1)
  {
    var (s1, r1) := Handle(s, url, format, quality, uuid, outcome);
    var key := CacheKey(url, format, quality);
    assert IsHit(s1, key);
    assert r1 == StreamFromFile(s1.files, s1.cache[key].path, format);
  }

  /**
   * Only existence is checked: an entry whose file is gone is a miss and is
   * downloaded again, and a successful download replaces the entry.
   */
  lemma StaleEntryIsDownloadedAgain(s: Store, url: string, format: string, quality: string,
                                    uuid: string, outcome: ToolOutcome)
    requires CacheKey(url, format, quality) in s.cache
    requires s.cache[CacheKey(url, format, quality)].path !in s.files
    ensures var (s1, r1) := Handle(s, url, format, quality, uuid, outcome);
            |s1.launched| == |s.launched| + 1
            && (r1.Success? ==> s1.cache[CacheKey(url, format, quality)].path == OutputFile(uuid, format))
  {
  }

  /**
   * The colliding requests of KeyCollision: once the first is served, the
   * second is a hit that downloads nothing and sends the first one's file.
   */
  lemma CollidingRequestIsServedFirstFile(s: Store, uuid: string, outcome: ToolOutcome,
                                          uuid2: string, outcome2: ToolOutcome)
    requires Handle(s, "u:mp4", "720p", "best", uuid, outcome).1.Success?
    ensures var (s1, r1) := Handle(s, "u:mp4", "720p", "best", uuid, outcome);
            Handle(s1, "u", "mp4:720p", "best", uuid2, outcome2) == (s1, r1)
  {
    KeyCollision();
  }

  /**
   * A miss where yt-dlp left no output file, and none was there before,
   * fails (with the tool's error, or "file not created" after a zero exit)
   * and caches nothing.
   */
  lemma MissWithoutOutputFails(s: Store, url: string, format: string, quality: string,
                               uuid: string, outcome: ToolOutcome)
    requires !IsHit(s, CacheKey(url, format, quality))
    requires !outcome.wroteOutput && OutputFile(uuid, format) !in s.files
    ensures var (s1, r1) := Handle(s, url, format, quality, uuid, outcome);
            r1.Failure? && s1.cache == s.cache && s1.files == s.files
            && (outcome.exitCode == 0 ==> r1.error == FileNotCreated)
  {
  }

  /**
   * A request is a hit exactly when its key is cached and the cached file
   * can be streamed; expiring the key, or removing that file, makes it a miss.
   */
  lemma HitNeedsLiveEntryAndFile(s: Store, key: string, format: string)
    ensures IsHit(s, key) <==> key in s.cache && StreamFromFile(s.files, s.cache[key].path, format).Success?
    ensures !IsHit(s.(cache := s.cache - {key}), key)
    ensures key in s.cache ==> !IsHit(s.(files := s.files - {s.cache[key].path}), key)
  {
  }

  /** String.isBlank: every character is whitespace (ASCII whitespace and the separators U+001C to U+001F). */
  predicate IsBlank(s: string) {
    forall i :: 0 <= i < |s| ==> s[i] as int in {9, 10, 11, 12, 13, 28, 29, 30, 31, 32}
  }

  /** Cookies are written when the variable is set, not blank, and decodes as Base64. */
  predicate WritesCookies(env: Option<string>, decodes: bool) {
    env.Some? && !IsBlank(env.value) && decodes
  }

  /**
   * An unset variable, an empty or blank value, or a value that does not
   * decode writes nothing; any value with a visible character that
   * decodes is written.
   */
  lemma CookieVariableCases(env: Option<string>, decodes: bool)
    ensures env.None? ==> !WritesCookies(env, decodes)
    ensures !decodes ==> !WritesCookies(env, decodes)
    ensures !WritesCookies(Some(""), decodes)
    ensures forall v :: IsBlank(v) ==> !WritesCookies(Some(v), decodes)
    ensures env.Some? && decodes && (exists i :: 0 <= i < |env.value| && 33 <= env.value[i] as int) ==>
              WritesCookies(env, decodes)
  {
  }

  /** The service object: the Redis cache, the file system and the shell, as fields it updates. */
  class DownloadService {
    var cache: map<string, CacheEntry>
    var files: set<string>
    var launched: seq<string>

    function State(): Store
      reads this
    {
      Store(cache, files, launched)
    }

    /**
     * Starts on whatever cache and files already exist and, as the
     * constructor does, writes the cookie file from YTDLP_COOKIES_B64.
     */
    constructor(cache0: map<string, CacheEntry>, files0: set<string>, env: Option<string>, decodes: bool)
      ensures cache == cache0 && launched == []
      ensures files == (if WritesCookies(env, decodes) then files0 + {CookiesPath} else files0)
    {
      cache := cache0;
      files := files0;
      launched := [];
      new;
      WriteCookiesIfPresent(env, decodes);
    }

    /**
     * writeCookiesIfPresent: a missing or blank variable changes nothing, a
     * value that does not decode is reported and changes nothing, and
     * otherwise the cookie file exists afterwards.
     */
    method WriteCookiesIfPresent(env: Option<string>, decodes: bool)
      modifies this
      ensures cache == old(cache) && launched == old(launched)
      ensures files == (if WritesCookies(env, decodes) then old(files) + {CookiesPath} else old(files))
    {
      if env.None? || IsBlank(env.value) {
        return;
      }
      if decodes {
        files := files + {CookiesPath};
      }
    }

    method RunCommand(command: string, outputFile: string, outcome: ToolOutcome) returns (err: Option<RequestError>)
      modifies this
      ensures (State(), err) == RunTool(old(State()), command, outputFile, outcome)
    {
      launched := launched + [command];
      if outcome.wroteOutput {
        files := files + {outputFile};
      }
      if outcome.exitCode != 0 {
        return Some(ToolFailed(ToolFailedPrefix + outcome.stderr));
      }
      return None;
    }

    method DownloadVideo(url: string, format: string, quality: string, uuid: string, outcome: ToolOutcome)
      returns (r: Result<string, RequestError>)
      modifies this
      ensures (State(), r) == Download(old(State()), url, format, quality, uuid, outcome)
    {
      var outputFile := OutputFile(uuid, format);
      var qualityArg := SelectFormat(quality, format);
      var command := BuildCommand(url, format, qualityArg, Some(quality), outputFile, CookiesPath in files);
      var err := RunCommand(command, outputFile, outcome);
      if err.Some? {
        return Failure(err.value);
      }
      if outputFile !in files {
        return Failure(FileNotCreated);
      }
      return Success(outputFile);
    }

    method HandleVideoRequest(url: string, format: string, quality: string, uuid: string, outcome: ToolOutcome)
      returns (r: Result<Reply, RequestError>)
      modifies this
      ensures (State(), r) == Handle(old(State()), url, format, quality, uuid, outcome)
    {
      var cacheKey := CacheKey(url, format, quality);
      if cacheKey in cache && cache[cacheKey].path in files {
        return StreamFromFile(files, cache[cacheKey].path, format);
      }
      var filePath := DownloadVideo(url, format, quality, uuid, outcome);
      if filePath.Failure? {
        return Failure(filePath.error);
      }
      cache := cache[cacheKey := CacheEntry(filePath.value, CacheTtlHours)];
      r := StreamFromFile(files, filePath.value, format);
    }

    /** Redis drops an entry once its time to live has passed. */
    method Expire(key: string)
      modifies this
      ensures cache == old(cache) - {key}
      ensures files == old(files) && launched == old(launched)
    {
      cache := cache - {key};
    }

    /** A file under /tmp disappears (cleanup outside the service). */
    method RemoveFile(path: string)
      modifies this
      ensures files == old(files) - {path}
      ensures cache == old(cache) && launched == old(launched)
    {
      files := files - {path};
    }
  }
}
