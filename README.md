# metube download service, modelled in Dafny

metube's backend turns a request for a YouTube URL in some format (mp3 or a
video container) and quality (a bitrate such as `256k` or a height such as
`720p`) into a file streamed back to the browser. `YoutubeDownloadService`
works like this:
- It first looks for the request in a Redis cache under the key
  `video:<url>:<format>:<quality>`.
- If the cached path still exists, it streams that file.
- Otherwise it runs `yt-dlp` once through `bash -c`, writing to
  `/tmp/<uuid>.<format>`. It then remembers the path for six hours and
  streams it.

The project models this service module by module:

- `Wrappers` has the `Option` and `Result` types.
- `Text` has ASCII lower-casing (`toLowerCase`) and a last-occurrence
  search. It also has an upper-casing function. The source never calls it;
  it only serves to state that a bitrate label comes out upper-cased.
- `QualityMapping` has `mapBitrate` and `selectFormat`. The video
  selectors are described through the table of standard heights, and a
  decimal print/parse round trip is proved for them.
- `CommandBuilder` has `buildCommand`. It is described a second time as a
  list of arguments joined by single spaces. From that second description
  the model proves:
  - what the command starts with;
  - when the cookie file is passed;
  - which mode arguments it holds;
  - that it ends with the quoted output file and URL.
- `CacheKeys` has the cache key and a parser that inverts it, plus the
  collision that the key format allows.
- `Streaming` has `streamFromFile`:
  - the reply headers;
  - the content type;
  - the offered file name;
  - the missing-file error.
- `Orchestrator` has `handleVideoRequest`, `downloadVideo`, `runCommand`
  and the cookie loading done by the constructor. They appear in two forms:
  - Pure functions over a `Store` value. A `Store` is the cache, the set of
    existing files and the log of command lines handed to the shell.
  - A class `DownloadService` whose methods update those three things as
    fields. `RunCommand`, `DownloadVideo` and `HandleVideoRequest` are
    proved equal to the functions `RunTool`, `Download` and `Handle`.
    `WriteCookiesIfPresent`, and the environment steps `Expire` and
    `RemoveFile`, state their updates directly.

## Model

| member | source | states |
|---|---|---|
| Text.ToLower | backend/src/main/java/com/antiz/metube/service/YoutubeDownloadService.java:111 | lower-casing keeps the length and maps every character through the ASCII lower-case table |
| Text.LowerOfUpper | backend/src/main/java/com/antiz/metube/service/YoutubeDownloadService.java:111 | lower-casing forgets the case a label was written in |
| Text.LastIndex | backend/src/main/java/com/antiz/metube/service/YoutubeDownloadService.java:183 | None exactly when the character is absent; otherwise it is a position holding the character with no later occurrence |
| QualityMapping.MapBitrate | backend/src/main/java/com/antiz/metube/service/YoutubeDownloadService.java:109-119 | a missing quality gives "0"; every result is one of 320K, 256K, 192K, 128K, 64K or 0 |
| QualityMapping.MapBitrateRecognises | backend/src/main/java/com/antiz/metube/service/YoutubeDownloadService.java:111-117 | the bitrate differs from "0" exactly when the lower-cased label is one of the five known ones, and it is then the upper-cased label |
| QualityMapping.MapBitrateUpperCases | backend/src/main/java/com/antiz/metube/service/YoutubeDownloadService.java:112-116 | each of the five labels, in any case, maps to its upper-cased form |
| QualityMapping.MapBitrateIgnoresCase | backend/src/main/java/com/antiz/metube/service/YoutubeDownloadService.java:111 | upper-casing the quality does not change the bitrate |
| QualityMapping.SelectFormat | backend/src/main/java/com/antiz/metube/service/YoutubeDownloadService.java:121-136 | mp3 selects "bestaudio", and every other format selects something else |
| QualityMapping.SelectFormatCapsHeight | backend/src/main/java/com/antiz/metube/service/YoutubeDownloadService.java:125-135 | for a video format the selector is `bestvideo[height<=h][ext=mp4]` when the lower-cased quality is a standard height label `hp` or "4k" (h = 2160), and plain "bestvideo" otherwise |
| QualityMapping.SelectFormat720p | backend/src/main/java/com/antiz/metube/service/YoutubeDownloadService.java:130 | 720p for mp4 selects `bestvideo[height<=720][ext=mp4]` |
| QualityMapping.SelectFormatIgnoresCase | backend/src/main/java/com/antiz/metube/service/YoutubeDownloadService.java:125 | upper-casing the quality does not change the selector |
| QualityMapping.DecimalRoundTrip | backend/src/main/java/com/antiz/metube/service/YoutubeDownloadService.java:126-133 | the decimal spelling of a height parses back to the height |
| QualityMapping.HeightLabelInjective | backend/src/main/java/com/antiz/metube/service/YoutubeDownloadService.java:126-133 | different heights have different `hp` labels, so no two cases of the switch overlap |
| QualityMapping.FindHeightFindsOwnLabel | backend/src/main/java/com/antiz/metube/service/YoutubeDownloadService.java:126-133 | looking up a height's own label in the height table finds that height |
| QualityMapping.HeightCapOfLabel | backend/src/main/java/com/antiz/metube/service/YoutubeDownloadService.java:126-133 | every standard height label caps at its own height |
| QualityMapping.HeightCapOfOther | backend/src/main/java/com/antiz/metube/service/YoutubeDownloadService.java:134 | a label that is neither a standard height label nor "4k" has no cap |
| CommandBuilder.BuildCommand | backend/src/main/java/com/antiz/metube/service/YoutubeDownloadService.java:80-107 | the command line is the ordered argument list (yt-dlp, extractor args, cookie argument, bypass flags, mode arguments, -o, quoted output, quoted URL) joined by single spaces |
| CommandBuilder.JoinWordsPrefix | backend/src/main/java/com/antiz/metube/service/YoutubeDownloadService.java:91-95 | the join of the first k arguments is a prefix of the whole command |
| CommandBuilder.CookiesArgumentIffFile | backend/src/main/java/com/antiz/metube/service/YoutubeDownloadService.java:85-87 | every command starts with yt-dlp, the extractor arguments, the cookie argument and the bypass flags; `--cookies /tmp/yt_cookies.txt` follows the extractor arguments exactly when the cookie file exists |
| CommandBuilder.CommandEndsWithTarget | backend/src/main/java/com/antiz/metube/service/YoutubeDownloadService.java:94-95 | every command ends with ` -o "<output>" "<url>"` |
| CommandBuilder.ModeArguments | backend/src/main/java/com/antiz/metube/service/YoutubeDownloadService.java:89-106 | an mp3 command contains the audio-extraction flags followed by the mapped bitrate; any other contains `-f "<selector>+bestaudio/best"`, the mp4 merge/remux flags and the ffmpeg path |
| CacheKeys.CacheKey | backend/src/main/java/com/antiz/metube/service/YoutubeDownloadService.java:50 | the key starts with "video:" and is exactly two colons longer than its three parts |
| CacheKeys.KeyRoundTrip | backend/src/main/java/com/antiz/metube/service/YoutubeDownloadService.java:50 | a request whose format and quality hold no colon is recovered from its key |
| CacheKeys.ParseKeyInverse | backend/src/main/java/com/antiz/metube/service/YoutubeDownloadService.java:50 | every key that parses is the key of the request it parses to |
| CacheKeys.KeyInjective | backend/src/main/java/com/antiz/metube/service/YoutubeDownloadService.java:50 | colon-free formats and qualities give distinct requests distinct keys |
| CacheKeys.KeyCollision | backend/src/main/java/com/antiz/metube/service/YoutubeDownloadService.java:50-54 | two different requests (colon moved from URL into format) share a key |
| Orchestrator.CollidingRequestIsServedFirstFile | backend/src/main/java/com/antiz/metube/service/YoutubeDownloadService.java:50-56 | once the first of KeyCollision's two requests has been served, the second is a hit: no download, no change, and the first request's reply and file |
| CacheKeys.SplitLast | backend/src/main/java/com/antiz/metube/service/YoutubeDownloadService.java:50 | splitting at the last colon gives parts that rejoin to the input, with no colon in the tail |
| Streaming.FileName | backend/src/main/java/com/antiz/metube/service/YoutubeDownloadService.java:183 | the offered name is a '/'-free suffix of the path, the whole path when it has no '/' |
| Streaming.FileNameInDirectory | backend/src/main/java/com/antiz/metube/service/YoutubeDownloadService.java:183 | the name of `dir/name` is `name` when the name holds no '/' |
| Streaming.Disposition | backend/src/main/java/com/antiz/metube/service/YoutubeDownloadService.java:182-183 | the header value starts with `attachment; filename="`, and reading the quoted name back out of it gives the offered name |
| Streaming.DispositionName | backend/src/main/java/com/antiz/metube/service/YoutubeDownloadService.java:182-183 | a name read from a Content-Disposition value gives back that value |
| Streaming.ContentType | backend/src/main/java/com/antiz/metube/service/YoutubeDownloadService.java:180 | audio/mpeg for "mp3" and video/mp4 for every other format |
| Streaming.StreamFromFile | backend/src/main/java/com/antiz/metube/service/YoutubeDownloadService.java:172-189 | succeeds exactly when the file exists, otherwise fails with MissingFile and sets nothing; the reply sends that file, allows any origin, exposes Content-Disposition, offers the file under its own name, and carries the content type of the format (audio/mpeg for mp3, video/mp4 otherwise) |
| Orchestrator.OutputFile | backend/src/main/java/com/antiz/metube/service/YoutubeDownloadService.java:67 | the output path lies under "/tmp/", and its length is that of "/tmp/", the UUID, ".", and the format |
| Orchestrator.OutputFileName | backend/src/main/java/com/antiz/metube/service/YoutubeDownloadService.java:66-67 | when neither the UUID nor the format holds '/', the browser is offered a fresh download as `<uuid>.<format>` |
| Orchestrator.OutputFileInjective | backend/src/main/java/com/antiz/metube/service/YoutubeDownloadService.java:66-67 | different UUIDs give different output files for the same format |
| Orchestrator.DownloadCommand | backend/src/main/java/com/antiz/metube/service/YoutubeDownloadService.java:69-70 | the command for a request starts with the cookie prefix exactly when the cookie file exists, carries the mapped bitrate for mp3 and the selectFormat selector otherwise, and ends with the quoted output file and URL |
| Orchestrator.RunTool | backend/src/main/java/com/antiz/metube/service/YoutubeDownloadService.java:138-170 | one launch is logged and the cache is untouched; a non-zero exit fails with "yt-dlp failed: " and the tool's standard error, exit 0 does not fail |
| Orchestrator.Download | backend/src/main/java/com/antiz/metube/service/YoutubeDownloadService.java:63-78 | exactly one command (selector from selectFormat, bitrate from the quality, cookies when the file exists) is launched; the cache is untouched, and, with the model's tool (whose only effect on files is the output file), the files afterwards are those before plus the output file exactly when yt-dlp wrote it; success exactly when yt-dlp exits 0 and `/tmp/<uuid>.<format>` exists, returning that path; otherwise the yt-dlp error or "file not created" |
| Orchestrator.Handle | backend/src/main/java/com/antiz/metube/service/YoutubeDownloadService.java:47-61 | a hit (key present and file exists) streams the cached file and changes nothing; a miss launches exactly one download, adds the output file to the files exactly when the model's tool wrote it (its only effect on files), and succeeds exactly when yt-dlp exits 0 and the output file exists, failing otherwise with the tool's error or "file not created"; a successful miss caches the new path with a 6-hour TTL; a failure leaves the cache unchanged; every reply streams an existing file that the key now names; MissingFile never occurs |
| Orchestrator.RepeatedRequestIsServedFromCache | backend/src/main/java/com/antiz/metube/service/YoutubeDownloadService.java:50-56 | repeating a request that was just served is a hit: same reply, no download, no change, whatever UUID or tool run the repeat would have used |
| Orchestrator.MissWithoutOutputFails | backend/src/main/java/com/antiz/metube/service/YoutubeDownloadService.java:74-75 | a miss where the model's tool wrote no output file, and none existed before, fails, after a zero exit with "file not created", and leaves the cache and (since the tool touches no other file) the files unchanged |
| Orchestrator.HitNeedsLiveEntryAndFile | backend/src/main/java/com/antiz/metube/service/YoutubeDownloadService.java:51-53 | a request is a hit (IsHit) exactly when its key is cached and the cached file can be streamed; expiring the key or removing that file makes it a miss |
| Orchestrator.StaleEntryIsDownloadedAgain | backend/src/main/java/com/antiz/metube/service/YoutubeDownloadService.java:53-59 | an entry whose file is gone is a miss that launches one download, and a success replaces the entry |
| Orchestrator.CookieVariableCases | backend/src/main/java/com/antiz/metube/service/YoutubeDownloadService.java:33-34 | an unset or empty variable, any value IsBlank accepts, and any value that does not decode write no cookies (WritesCookies, IsBlank); a decodable value holding a visible character does |
| Orchestrator.DownloadService.constructor | backend/src/main/java/com/antiz/metube/service/YoutubeDownloadService.java:27-29 | the service starts on the existing cache and files, with no launches; the file set afterwards is the initial one plus the cookie file when the variable is written (WritesCookies), and the initial one otherwise |
| Orchestrator.DownloadService.WriteCookiesIfPresent | backend/src/main/java/com/antiz/metube/service/YoutubeDownloadService.java:31-45 | a missing or blank variable, or one that does not decode, changes nothing; otherwise the cookie file is added to the files; cache and launches are untouched |
| Orchestrator.DownloadService.RunCommand | backend/src/main/java/com/antiz/metube/service/YoutubeDownloadService.java:138-170 | the new fields and the result are those of RunTool on the old fields |
| Orchestrator.DownloadService.DownloadVideo | backend/src/main/java/com/antiz/metube/service/YoutubeDownloadService.java:63-78 | the new fields and the result are those of Download on the old fields |
| Orchestrator.DownloadService.HandleVideoRequest | backend/src/main/java/com/antiz/metube/service/YoutubeDownloadService.java:47-61 | the new fields and the result are those of Handle on the old fields, so every property of Handle holds for the object |
| Orchestrator.DownloadService.Expire | backend/src/main/java/com/antiz/metube/service/YoutubeDownloadService.java:59 | when an entry's TTL passes, only that key leaves the cache |
| Orchestrator.DownloadService.RemoveFile | backend/src/main/java/com/antiz/metube/service/YoutubeDownloadService.java:53 | a file removed from outside the service leaves only the file set changed |

## Left out

- Process I/O is not modelled. A yt-dlp run is one `ToolOutcome` value: its exit status, whether the output file exists afterwards, and its standard error. Left out with it:
  - the `bash -c` process itself;
  - the thread that drains standard error;
  - the loop that prints standard output lines;
  - `InterruptedException`.
- Orchestrator.RunTool: the model's yt-dlp run affects the file system only by possibly creating the output file, and Download, Handle and MissWithoutOutputFails state their file sets under that assumption. The program does not promise it:
  - the command line is not shell-escaped: the URL is pasted between double quotes and handed to `bash -c`, so a URL holding `"`, `$(…)` or backticks runs a different command, which may create or delete any file, cached downloads and the cookie file included;
  - the partial (`.part`) and intermediate per-format files yt-dlp leaves behind are not modelled;
  - the cache behaviour (a hit downloads nothing, a failure leaves the cache unchanged) does not depend on this assumption.
- The UUID is a parameter of the request, not random.
- Streaming does not model the byte copy to the response. A reply names the file whose bytes it carries.
- A `Reply` keeps headers in a map, so the order in which headers are set is not modelled. Each header is set once.
- Text.ToLower: Java's locale-dependent `toLowerCase` on non-ASCII characters is not modelled (for example U+212A KELVIN SIGN lower-cases to `k`). Only ASCII letters change case, so a label spelled with such characters is not recognised here.
- Orchestrator.IsBlank: treats only ASCII whitespace and U+001C–U+001F as blank. It omits the Unicode space separators that `Character.isWhitespace` also accepts.
- Orchestrator.DownloadService.WriteCookiesIfPresent: whether the variable's value is valid Base64 is a boolean input. The decoded bytes, the file permissions and the console messages are not modelled.
- Cookie-file existence is tested as membership of `/tmp/yt_cookies.txt` in the file set.
- Redis is a map, and expiry is the explicit `Expire` step; no clock is modelled. The entry records its six-hour TTL.
- Orchestrator.Download: `toAbsolutePath().toString()` is taken as the identity on the absolute path `/tmp/<uuid>.<format>`. Java `Path` collapsing repeated '/' in a format is not modelled.
- Streaming.FileName: `File.getName` is taken as the text after the last '/'. `File` normalising repeated or trailing separators is not modelled.
- The URL is a plain string. A request body without "url" gives a null URL (backend/src/main/java/com/antiz/metube/controller/DownloadController.java:26). String concatenation and String.format print it as `null`, so a missing URL behaves exactly like the URL "null", which the model covers. The format and quality are never null, because the HTTP layer defaults them to "mp4" and "best". `mapBitrate`'s own null branch is modelled through `Option`. An empty URL is not rejected by this service, and neither is it here.
- Exceptions thrown by the Redis calls are not modelled: the `get` at line 51 and the `set` at line 59. For example, a failed `set` after a successful download fails the request and leaves the downloaded file behind without a cache entry. Here the cache always answers and always stores.
- Concurrency between requests is not modelled, including a file vanishing between the existence check and streaming.
- The cache hit requires only that the cached file exists, as `Files.exists` at line 53 does. A stricter rule that the file is also non-empty is not what the code does, so the model follows the code.
- The other files of the repository are not part of this model:
  - controllers and configuration;
  - other services;
  - the frontend;
  - the older copy under `backend/metube`.
