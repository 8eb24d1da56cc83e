/**
 * The two quality tables of YoutubeDownloadService: the audio bitrate label
 * handed to yt-dlp's --audio-quality, and the -f format selector chosen from
 * a resolution label. Both are total: an unknown label degrades to a default.
 */
module QualityMapping {
  import opened Wrappers
  import opened Text

  /** The bitrate labels the audio table recognises, in lower case. */
  const BitrateLabels: seq<string> := ["320k", "256k", "192k", "128k", "64k"]

  /** The value passed to --audio-quality when no label is recognised: yt-dlp's "best" setting. */
  const DefaultBitrate: string := "0"

  /**
   * mapBitrate: a null label gives the default; otherwise the label is
   * lower-cased and looked up in the five-entry table.
   */
  function MapBitrate(q: Option<string>): (r: string)
    ensures q.None? ==> r == DefaultBitrate
    ensures r in {"320K", "256K", "192K", "128K", "64K", DefaultBitrate}
  {
    match q
    case None => DefaultBitrate
    case Some(name) =>
      var l := ToLower(name);
      if l == "320k" then "320K"
      else if l == "256k" then "256K"
      else if l == "192k" then "192K"
      else if l == "128k" then "128K"
      else if l == "64k" then "64K"
      else DefaultBitrate
  }

  /**
   * Exactly the five listed labels, in any case, are recognised, and a
   * recognised label is passed on as its own upper-case spelling.
   */
  lemma MapBitrateRecognises(name: string)
    ensures MapBitrate(Some(name)) != DefaultBitrate <==> ToLower(name) in BitrateLabels
    ensures ToLower(name) in BitrateLabels ==> MapBitrate(Some(name)) == ToUpper(name)
  {
    var l := ToLower(name);
    assert l in BitrateLabels <==> l == "320k" || l == "256k" || l == "192k" || l == "128k" || l == "64k";
    MapBitrateUpperCases(name);
  }

  lemma MapBitrateUpperCases(name: string)
    ensures ToLower(name) == "320k" ==> MapBitrate(Some(name)) == ToUpper(name)
    ensures ToLower(name) == "256k" ==> MapBitrate(Some(name)) == ToUpper(name)
    ensures ToLower(name) == "192k" ==> MapBitrate(Some(name)) == ToUpper(name)
    ensures ToLower(name) == "128k" ==> MapBitrate(Some(name)) == ToUpper(name)
    ensures ToLower(name) == "64k" ==> MapBitrate(Some(name)) == ToUpper(name)
  {
    UpperOfLower(name);
  }

  /** The bitrate table does not see the case of the label. */
  lemma MapBitrateIgnoresCase(name: string)
    ensures MapBitrate(Some(ToUpper(name))) == MapBitrate(Some(name))
  {
    LowerOfUpper(name);
  }

  /** The selector used for audio downloads, whatever the quality label says. */
  const AudioSelector: string := "bestaudio"

  /** The two halves of a height-capped selector, around the height in decimal. */
  const SelectorHead: string := "bestvideo[height<="
  const SelectorTail: string := "][ext=mp4]"

  /** The selector used when the resolution label is not recognised: no height cap. */
  const UncappedSelector: string := "bestvideo"

  /**
   * selectFormat: "mp3" (compared case-sensitively) selects the best audio
   * stream; otherwise the lower-cased resolution label picks a height cap.
   */
  function SelectFormat(quality: string, format: string): (r: string)
    ensures format == "mp3" ==> r == AudioSelector
    ensures format != "mp3" ==> r != AudioSelector
  {
    if format == "mp3" then AudioSelector
    else
      var l := ToLower(quality);
      if l == "144p" then SelectorHead + "144" + SelectorTail
      else if l == "240p" then SelectorHead + "240" + SelectorTail
      else if l == "360p" then SelectorHead + "360" + SelectorTail
      else if l == "480p" then SelectorHead + "480" + SelectorTail
      else if l == "720p" then SelectorHead + "720" + SelectorTail
      else if l == "1080p" then SelectorHead + "1080" + SelectorTail
      else if l == "1440p" then SelectorHead + "1440" + SelectorTail
      else if l == "2160p" || l == "4k" then SelectorHead + "2160" + SelectorTail
      else UncappedSelector
  }

  // An independent description of the resolution table: the standard heights,
  // each spelled in decimal with a trailing "p", plus the alias "4k" for 2160.

  const StandardHeights: seq<nat> := [144, 240, 360, 480, 720, 1080, 1440, 2160]

  function DigitChar(d: nat): char
    requires d < 10
  {
    "0123456789"[d]
  }

  /** Decimal spelling of a natural number, without leading zeros. */
  function Decimal(n: nat): string
    decreases n
  {
    if n < 10 then [DigitChar(n)] else Decimal(n / 10) + [DigitChar(n % 10)]
  }

  /** The label that asks for height n, e.g. "720p". */
  function HeightLabel(n: nat): string {
    Decimal(n) + "p"
  }

  /** The selector for the best mp4 video stream no taller than n pixels. */
  function HeightSelector(n: nat): string {
    SelectorHead + Decimal(n) + SelectorTail
  }

  /** The first height in hs whose label is l. */
  function FindHeight(hs: seq<nat>, l: string): (r: Option<nat>)
    ensures r.Some? ==> r.value in hs && HeightLabel(r.value) == l
    ensures r.None? ==> forall h :: h in hs ==> HeightLabel(h) != l
  {
    if hs == [] then None
    else if HeightLabel(hs[0]) == l then Some(hs[0])
    else FindHeight(hs[1..], l)
  }

  /** The height cap a lower-cased resolution label asks for, if any. */
  function HeightCap(l: string): Option<nat> {
    if l == "4k" then Some(2160) else FindHeight(StandardHeights, l)
  }

  lemma DecimalsSpelled()
    ensures Decimal(144) == "144" && Decimal(240) == "240"
    ensures Decimal(360) == "360" && Decimal(480) == "480"
  {
  }

  lemma LargeDecimalsSpelled()
    ensures Decimal(720) == "720" && Decimal(1080) == "1080"
    ensures Decimal(1440) == "1440" && Decimal(2160) == "2160"
  {
  }

  lemma HeightLabelsSpelled()
    ensures HeightLabel(144) == "144p" && HeightLabel(240) == "240p"
    ensures HeightLabel(360) == "360p" && HeightLabel(480) == "480p"
    ensures HeightLabel(720) == "720p" && HeightLabel(1080) == "1080p"
    ensures HeightLabel(1440) == "1440p" && HeightLabel(2160) == "2160p"
  {
    DecimalsSpelled();
    LargeDecimalsSpelled();
  }

  /** The digit value of a decimal digit character. */
  function DigitValue(c: char): nat {
    if '0' <= c <= '9' then c as int - '0' as int else 0
  }

  /** Reads a string of decimal digits back as a number. */
  function ParseDecimal(s: string): nat {
    if s == [] then 0 else ParseDecimal(s[..|s| - 1]) * 10 + DigitValue(s[|s| - 1])
  }

  /** Reading back a decimal spelling gives the number that was spelled. */
  lemma {:induction false} DecimalRoundTrip(n: nat)
    ensures ParseDecimal(Decimal(n)) == n
  {
    var d := Decimal(n);
    if n < 10 {
      assert d[..0] == [];
    } else {
      DecimalRoundTrip(n / 10);
      assert d[..|d| - 1] == Decimal(n / 10);
    }
  }

  /** Distinct heights have distinct labels. */
  lemma HeightLabelInjective(a: nat, b: nat)
    requires HeightLabel(a) == HeightLabel(b)
    ensures a == b
  {
    var la, lb := HeightLabel(a), HeightLabel(b);
    assert Decimal(a) == la[..|la| - 1];
    assert Decimal(b) == lb[..|lb| - 1];
    DecimalRoundTrip(a);
    DecimalRoundTrip(b);
  }

  /** Searching a list of heights for the label of one of them finds that height. */
  lemma {:induction false} FindHeightFindsOwnLabel(hs: seq<nat>, h: nat)
    requires h in hs
    ensures FindHeight(hs, HeightLabel(h)) == Some(h)
  {
    if hs[0] != h {
      if HeightLabel(hs[0]) == HeightLabel(h) {
        HeightLabelInjective(hs[0], h);
      }
      FindHeightFindsOwnLabel(hs[1..], h);
    }
  }

  /** The height cap of a standard label is the height it names. */
  lemma HeightCapOfLabel(h: nat)
    requires h in StandardHeights
    ensures HeightCap(HeightLabel(h)) == Some(h)
  {
    assert HeightLabel(h)[|HeightLabel(h)| - 1] == 'p';
    FindHeightFindsOwnLabel(StandardHeights, h);
  }

  /** A label that is neither a standard height label nor "4k" has no cap. */
  lemma HeightCapOfOther(l: string)
    requires l !in ["144p", "240p", "360p", "480p", "720p", "1080p", "1440p", "2160p", "4k"]
    ensures HeightCap(l) == None
  {
    HeightLabelsSpelled();
  }

  /**
   * selectFormat agrees with the table description: for a video format the
   * selector caps the height at the one the label names ("4k" meaning 2160),
   * and an unrecognised label leaves the height uncapped.
   */
  lemma SelectFormatCapsHeight(quality: string, format: string)
    requires format != "mp3"
    ensures SelectFormat(quality, format) ==
      match HeightCap(ToLower(quality))
      case Some(h) => HeightSelector(h)
      case None => UncappedSelector
  {
    var l := ToLower(quality);
    HeightLabelsSpelled();
    DecimalsSpelled();
    LargeDecimalsSpelled();
    if l == "144p" {
      HeightCapOfLabel(144);
    } else if l == "240p" {
      HeightCapOfLabel(240);
    } else if l == "360p" {
      HeightCapOfLabel(360);
    } else if l == "480p" {
      HeightCapOfLabel(480);
    } else if l == "720p" {
      HeightCapOfLabel(720);
    } else if l == "1080p" {
      HeightCapOfLabel(1080);
    } else if l == "1440p" {
      HeightCapOfLabel(1440);
    } else if l == "2160p" {
      HeightCapOfLabel(2160);
    } else if l != "4k" {
      HeightCapOfOther(l);
    }
  }

  /** A 720p mp4 request caps the height at 720. */
  lemma SelectFormat720p()
    ensures SelectFormat("720p", "mp4") == "bestvideo[height<=720][ext=mp4]"
  {
    assert ToLower("720p") == "720p";
  }

  /** The resolution table does not see the case of the label. */
  lemma SelectFormatIgnoresCase(quality: string, format: string)
    ensures SelectFormat(ToUpper(quality), format) == SelectFormat(quality, format)
  {
    LowerOfUpper(quality);
  }
}
