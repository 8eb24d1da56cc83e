/**
 * buildCommand: the single shell command line handed to `bash -c` to run
 * yt-dlp, assembled with String.format from fixed flags, the optional
 * cookie argument, the mode-specific arguments, the output path and the URL.
 * The fixed text of the two format templates is kept in named groups; the
 * body joins them with the same single spaces the templates have.
 */
module CommandBuilder {
  import opened Wrappers
  import opened QualityMapping

  const YtDlpPath: string := "/usr/local/bin/yt-dlp"
  const FfmpegPath: string := "/usr/bin/ffmpeg"
  const CookiesPath: string := "/tmp/yt_cookies.txt"

  /** Makes yt-dlp use YouTube's android player client. */
  const JsRuntimeFix: string := "--extractor-args \"youtube:player_client=android\""

  /** Flags present in both modes. */
  const BypassFlags: string := "--no-check-certificates --geo-bypass"

  /** Audio mode: extract the audio track as mp3 at a bitrate that follows. */
  const AudioFlags: string := "--extract-audio --audio-format mp3 --audio-quality"

  /** Video mode: merge and remux into mp4 with the ffmpeg whose path follows. */
  const MergeFlags: string := "--merge-output-format mp4 --remux-video mp4 --ffmpeg-location"

  /** The cookie argument: present exactly when the cookie file exists, otherwise empty. */
  function CookiesArg(cookiesPresent: bool): string {
    if cookiesPresent then "--cookies " + CookiesPath else ""
  }

  function Quote(s: string): string {
    "\"" + s + "\""
  }

  /**
   * The command line for one download. `qualityArg` is the -f selector and
   * `requestedAudioQuality` the raw label for the audio bitrate table; the
   * format is compared with "mp3" case-sensitively. The line is the ordered
   * argument list joined by single spaces, a missing cookie file leaving an
   * empty argument (two spaces in a row).
   */
  function BuildCommand(url: string, format: string, qualityArg: string,
                        requestedAudioQuality: Option<string>, outputFile: string,
                        cookiesPresent: bool): (r: string)
    ensures r == JoinWords(CommandWords(url, format, qualityArg, requestedAudioQuality, outputFile, cookiesPresent))
  {
    var c := CookiesArg(cookiesPresent);
    if format == "mp3" then
      var bitrate := MapBitrate(requestedAudioQuality);
      AudioCommandShape(YtDlpPath, JsRuntimeFix, c, BypassFlags, AudioFlags, bitrate, outputFile, url);
      assert CommandWords(url, format, qualityArg, requestedAudioQuality, outputFile, cookiesPresent)
          == [YtDlpPath, JsRuntimeFix, c, BypassFlags, AudioFlags, bitrate,
              "-o", Quote(outputFile), Quote(url)];
      YtDlpPath + " " + JsRuntimeFix + " " + c + " " + BypassFlags
      + " " + AudioFlags + " " + bitrate
      + " -o " + Quote(outputFile) + " " + Quote(url)
    else
      var q := Quote(qualityArg + "+bestaudio/best");
      VideoCommandShape(YtDlpPath, JsRuntimeFix, c, BypassFlags, q, MergeFlags, FfmpegPath, outputFile, url);
      assert CommandWords(url, format, qualityArg, requestedAudioQuality, outputFile, cookiesPresent)
          == [YtDlpPath, JsRuntimeFix, c, BypassFlags, "-f", q, MergeFlags, FfmpegPath,
              "-o", Quote(outputFile), Quote(url)];
      YtDlpPath + " " + JsRuntimeFix + " " + c + " " + BypassFlags
      + " -f " + q + " " + MergeFlags + " " + FfmpegPath
      + " -o " + Quote(outputFile) + " " + Quote(url)
  }

  // The command described as an ordered list of arguments joined by single spaces.

  /** The arguments every command starts with. */
  function LauncherWords(cookiesPresent: bool): seq<string> {
    [YtDlpPath, JsRuntimeFix, CookiesArg(cookiesPresent), BypassFlags]
  }

  /** The arguments that choose between audio extraction and video download. */
  function ModeWords(format: string, qualityArg: string, requestedAudioQuality: Option<string>): seq<string> {
    if format == "mp3" then
      [AudioFlags, MapBitrate(requestedAudioQuality)]
    else
      ["-f", Quote(qualityArg + "+bestaudio/best"), MergeFlags, FfmpegPath]
  }

  /** The arguments every command ends with: the output template and the URL. */
  function TargetWords(url: string, outputFile: string): seq<string> {
    ["-o", Quote(outputFile), Quote(url)]
  }

  function CommandWords(url: string, format: string, qualityArg: string,
                        requestedAudioQuality: Option<string>, outputFile: string,
                        cookiesPresent: bool): seq<string>
  {
    LauncherWords(cookiesPresent) + ModeWords(format, qualityArg, requestedAudioQuality)
    + TargetWords(url, outputFile)
  }

  /** Words separated by single spaces, joined from the left as String.format's text reads. */
  function JoinWords(ws: seq<string>): string {
    if |ws| == 0 then "" else if |ws| == 1 then ws[0] else JoinWords(ws[..|ws| - 1]) + " " + ws[|ws| - 1]
  }

  lemma JoinWordsStep(ws: seq<string>, k: nat)
    requires 1 <= k < |ws|
    ensures JoinWords(ws[..k + 1]) == JoinWords(ws[..k]) + " " + ws[k]
  {
    assert ws[..k + 1][..k] == ws[..k];
  }

  /** The join of the first k words is a prefix of the join of all of them. */
  lemma {:induction false} JoinWordsPrefix(ws: seq<string>, k: nat)
    requires 1 <= k <= |ws|
    ensures JoinWords(ws[..k]) <= JoinWords(ws)
  {
    if k < |ws| {
      JoinWordsPrefix(ws[..|ws| - 1], k);
      assert ws[..|ws| - 1][..k] == ws[..k];
      assert ws[..|ws|] == ws;
    } else {
      assert ws[..k] == ws;
    }
  }

  lemma SplitSpaced(x: string, flag: string, y: string)
    ensures x + " " + flag + " " + y == x + (" " + flag + " ") + y
  {
  }

  lemma AudioCommandShape(y: string, j: string, c: string, b: string,
                          a: string, bitrate: string, o: string, u: string)
    ensures y + " " + j + " " + c + " " + b + " " + a + " " + bitrate + " -o " + Quote(o) + " " + Quote(u)
         == JoinWords([y, j, c, b, a, bitrate, "-o", Quote(o), Quote(u)])
  {
    var ws := [y, j, c, b, a, bitrate, "-o", Quote(o), Quote(u)];
    assert ws[..1] == [y];
    JoinWordsStep(ws, 1);
    JoinWordsStep(ws, 2);
    JoinWordsStep(ws, 3);
    JoinWordsStep(ws, 4);
    JoinWordsStep(ws, 5);
    JoinWordsStep(ws, 6);
    JoinWordsStep(ws, 7);
    JoinWordsStep(ws, 8);
    assert ws[..9] == ws;
    SplitSpaced(y + " " + j + " " + c + " " + b + " " + a + " " + bitrate, "-o", Quote(o));
  }

  lemma VideoCommandShape(y: string, j: string, c: string, b: string,
                          q: string, m: string, f: string, o: string, u: string)
    ensures y + " " + j + " " + c + " " + b + " -f " + q + " " + m + " " + f + " -o " + Quote(o) + " " + Quote(u)
         == JoinWords([y, j, c, b, "-f", q, m, f, "-o", Quote(o), Quote(u)])
  {
    var ws := [y, j, c, b, "-f", q, m, f, "-o", Quote(o), Quote(u)];
    assert ws[..1] == [y];
    JoinWordsStep(ws, 1);
    JoinWordsStep(ws, 2);
    JoinWordsStep(ws, 3);
    JoinWordsStep(ws, 4);
    JoinWordsStep(ws, 5);
    JoinWordsStep(ws, 6);
    JoinWordsStep(ws, 7);
    JoinWordsStep(ws, 8);
    JoinWordsStep(ws, 9);
    JoinWordsStep(ws, 10);
    assert ws[..11] == ws;
    SplitSpaced(y + " " + j + " " + c + " " + b, "-f", q);
    SplitSpaced(y + " " + j + " " + c + " " + b + " -f " + q + " " + m + " " + f, "-o", Quote(o));
  }

  // What the command line is promised to contain, read off the argument list.

  predicate EndsWith(s: string, t: string) {
    |t| <= |s| && s[|s| - |t|..] == t
  }

  predicate IsInfix(t: string, s: string) {
    exists i, j :: 0 <= i <= j <= |s| && s[i..j] == t
  }

  /** The text the command starts with when the cookie file is used. */
  const CookiesPrefix: string := YtDlpPath + " " + JsRuntimeFix + " --cookies " + CookiesPath

  lemma JoinFirstFour(ws: seq<string>)
    requires |ws| >= 4
    ensures ws[0] + " " + ws[1] + " " + ws[2] + " " + ws[3] <= JoinWords(ws)
  {
    JoinWordsPrefix(ws, 4);
    assert ws[..1] == [ws[0]];
    JoinWordsStep(ws, 1);
    JoinWordsStep(ws, 2);
    JoinWordsStep(ws, 3);
    var w0, w1, w2, w3 := ws[0], ws[1], ws[2], ws[3];
    assert JoinWords(ws[..2]) == w0 + " " + w1;
    assert JoinWords(ws[..3]) == w0 + " " + w1 + " " + w2;
    assert JoinWords(ws[..4]) == w0 + " " + w1 + " " + w2 + " " + w3;
  }

  lemma TargetSuffix(x: string, a: string, b: string)
    ensures EndsWith(x + " -o " + a + " " + b, " -o " + a + " " + b)
  {
    var s := x + " -o " + a + " " + b;
    var t := " -o " + a + " " + b;
    assert s == x + t;
  }

  lemma AudioInfix(y: string, j: string, c: string, b: string,
                   a: string, bitrate: string, o: string, u: string)
    ensures IsInfix(a + " " + bitrate,
                    y + " " + j + " " + c + " " + b + " " + a + " " + bitrate + " -o " + Quote(o) + " " + Quote(u))
  {
    var pre := y + " " + j + " " + c + " " + b + " ";
    var mid := a + " " + bitrate;
    var post := " -o " + Quote(o) + " " + Quote(u);
    var s := y + " " + j + " " + c + " " + b + " " + a + " " + bitrate + " -o " + Quote(o) + " " + Quote(u);
    assert s == pre + mid + post;
    assert s[|pre|..|pre| + |mid|] == mid;
  }

  lemma VideoInfix(y: string, j: string, c: string, b: string,
                   q: string, m: string, f: string, o: string, u: string)
    ensures IsInfix("-f " + q + " " + m + " " + f,
                    y + " " + j + " " + c + " " + b + " -f " + q + " " + m + " " + f + " -o " + Quote(o) + " " + Quote(u))
  {
    var pre := y + " " + j + " " + c + " " + b + " ";
    var mid := "-f " + q + " " + m + " " + f;
    var post := " -o " + Quote(o) + " " + Quote(u);
    var s := y + " " + j + " " + c + " " + b + " -f " + q + " " + m + " " + f + " -o " + Quote(o) + " " + Quote(u);
    assert " -f " == " " + "-f ";
    assert s == pre + mid + post;
    assert s[|pre|..|pre| + |mid|] == mid;
  }

  /**
   * Every command starts with yt-dlp, the extractor arguments, the cookie
   * argument and the certificate and geo bypass flags; the cookie file is
   * passed (`--cookies /tmp/yt_cookies.txt`) exactly when it exists.
   */
  lemma CookiesArgumentIffFile(url: string, format: string, qualityArg: string,
                               requestedAudioQuality: Option<string>, outputFile: string,
                               cookiesPresent: bool)
    ensures YtDlpPath + " " + JsRuntimeFix + " " + CookiesArg(cookiesPresent) + " " + BypassFlags
         <= BuildCommand(url, format, qualityArg, requestedAudioQuality, outputFile, cookiesPresent)
    ensures cookiesPresent
        <==> CookiesPrefix <= BuildCommand(url, format, qualityArg, requestedAudioQuality, outputFile, cookiesPresent)
  {
    var ws := CommandWords(url, format, qualityArg, requestedAudioQuality, outputFile, cookiesPresent);
    JoinFirstFour(ws);
    var cmd := BuildCommand(url, format, qualityArg, requestedAudioQuality, outputFile, cookiesPresent);
    if cookiesPresent {
      CookieSlotFilled(YtDlpPath + " " + JsRuntimeFix, CookiesPath, BypassFlags, cmd);
    } else {
      CookieSlotEmpty(YtDlpPath + " " + JsRuntimeFix, CookiesPath, BypassFlags, cmd);
    }
  }

  lemma CookieSlotFilled(l: string, p: string, b: string, cmd: string)
    requires l + " " + ("--cookies " + p) + " " + b <= cmd
    ensures l + " --cookies " + p <= cmd
  {
    assert l + " " + ("--cookies " + p) == l + " --cookies " + p;
  }

  lemma CookieSlotEmpty(l: string, p: string, b: string, cmd: string)
    requires l + " " + "" + " " + b <= cmd
    ensures !(l + " --cookies " + p <= cmd)
  {
    assert cmd[|l| + 1] == ' ';
    assert (l + " --cookies " + p)[|l| + 1] == '-';
  }

  /** Every command ends with the quoted output file followed by the quoted URL. */
  lemma CommandEndsWithTarget(url: string, format: string, qualityArg: string,
                              requestedAudioQuality: Option<string>, outputFile: string,
                              cookiesPresent: bool)
    ensures EndsWith(BuildCommand(url, format, qualityArg, requestedAudioQuality, outputFile, cookiesPresent),
                     " -o " + Quote(outputFile) + " " + Quote(url))
  {
    var c := CookiesArg(cookiesPresent);
    if format == "mp3" {
      TargetSuffix(YtDlpPath + " " + JsRuntimeFix + " " + c + " " + BypassFlags
                   + " " + AudioFlags + " " + MapBitrate(requestedAudioQuality), Quote(outputFile), Quote(url));
    } else {
      TargetSuffix(YtDlpPath + " " + JsRuntimeFix + " " + c + " " + BypassFlags
                   + " -f " + Quote(qualityArg + "+bestaudio/best") + " " + MergeFlags + " " + FfmpegPath,
                   Quote(outputFile), Quote(url));
    }
  }

  /**
   * An mp3 command extracts the audio at the mapped bitrate; any other
   * format asks for the selected video stream merged with the best audio and
   * remuxed into mp4 by ffmpeg.
   */
  lemma ModeArguments(url: string, format: string, qualityArg: string,
                      requestedAudioQuality: Option<string>, outputFile: string,
                      cookiesPresent: bool)
    ensures format == "mp3" ==>
      IsInfix(AudioFlags + " " + MapBitrate(requestedAudioQuality),
              BuildCommand(url, format, qualityArg, requestedAudioQuality, outputFile, cookiesPresent))
    ensures format != "mp3" ==>
      IsInfix("-f " + Quote(qualityArg + "+bestaudio/best") + " " + MergeFlags + " " + FfmpegPath,
              BuildCommand(url, format, qualityArg, requestedAudioQuality, outputFile, cookiesPresent))
  {
    var c := CookiesArg(cookiesPresent);
    if format == "mp3" {
      AudioInfix(YtDlpPath, JsRuntimeFix, c, BypassFlags, AudioFlags, MapBitrate(requestedAudioQuality), outputFile, url);
    } else {
      VideoInfix(YtDlpPath, JsRuntimeFix, c, BypassFlags, Quote(qualityArg + "+bestaudio/best"),
                 MergeFlags, FfmpegPath, outputFile, url);
    }
  }
}
