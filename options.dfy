/**
 * The option dictionaries handed to the media library: `build_search_opts`,
 * `build_download_opts`, and the android-client fallback options that
 * `try_download` derives for its second attempt.
 */
module YdlOptions {
  import opened Wrappers
  import opened Text

  /** `extractor_args`: extractor name to argument name to values. The empty map stands for an absent key. */
  type ExtractorArgs = map<string, map<string, seq<string>>>

  /** One entry of `postprocessors`. */
  datatype PostProcessor = PostProcessor(key: string, preferredCodec: string, preferredQuality: string)

  /** The options of the search call. `cookiesFromBrowser` holds the browser name of the one-element tuple. */
  datatype SearchOpts = SearchOpts(
    format: string,
    noPlaylist: bool,
    quiet: bool,
    extractFlat: bool,
    extractorArgs: ExtractorArgs,
    cookiesFromBrowser: Option<string>)

  /** The options of one download call. */
  datatype DownloadOpts = DownloadOpts(
    format: string,
    outTemplate: string,
    noPlaylist: bool,
    quiet: bool,
    postProcessors: seq<PostProcessor>,
    extractorArgs: ExtractorArgs,
    cookiesFromBrowser: Option<string>)

  const AudioFormat: string := "bestaudio/best"
  const Android: string := "android"

  /** `{"youtube": {"player_client": ["android"]}}`. */
  const AndroidArgs: ExtractorArgs := map["youtube" := map["player_client" := [Android]]]

  /** The extractor arguments both builders set: android's player client, or nothing. */
  function ClientArgs(client: string): (r: ExtractorArgs)
    ensures "youtube" in r <==> client == Android
    ensures client != Android ==> r == map[]
  {
    if client == Android then AndroidArgs else map[]
  }

  /** `cookiesfrombrowser` is set only for a truthy browser name (not None, not ""). */
  function CookieSetting(cookiesFromBrowser: Option<string>): (r: Option<string>)
    ensures r.Some? <==> cookiesFromBrowser.Some? && cookiesFromBrowser.value != ""
    ensures r.Some? ==> r == cookiesFromBrowser
  {
    if cookiesFromBrowser.Some? && cookiesFromBrowser.value != "" then cookiesFromBrowser else None
  }

  /** `build_search_opts(verbose, client, cookies_from_browser)`. */
  function BuildSearchOpts(verbose: bool, client: string, cookiesFromBrowser: Option<string>): (r: SearchOpts)
    ensures r.format == AudioFormat && r.noPlaylist && r.extractFlat && r.quiet == !verbose
    ensures "youtube" in r.extractorArgs <==> client == Android
    ensures r.extractorArgs == ClientArgs(client) && r.cookiesFromBrowser == CookieSetting(cookiesFromBrowser)
  {
    SearchOpts(AudioFormat, true, !verbose, true, ClientArgs(client), CookieSetting(cookiesFromBrowser))
  }

  /** `build_download_opts(output_dir, filename_prefix, quality, verbose, client, cookies_from_browser)`. */
  function BuildDownloadOpts(outputDir: string, filenamePrefix: string, quality: int, verbose: bool, client: string, cookiesFromBrowser: Option<string>): (r: DownloadOpts)
    ensures r.format == AudioFormat && r.noPlaylist && r.quiet == !verbose
    ensures r.outTemplate == PathJoin(outputDir, filenamePrefix)
    ensures r.postProcessors == [PostProcessor("FFmpegExtractAudio", "mp3", IntToString(quality))]
    ensures "youtube" in r.extractorArgs <==> client == Android
    ensures r.extractorArgs == ClientArgs(client) && r.cookiesFromBrowser == CookieSetting(cookiesFromBrowser)
  {
    DownloadOpts(
      AudioFormat,
      PathJoin(outputDir, filenamePrefix),
      true,
      !verbose,
      [PostProcessor("FFmpegExtractAudio", "mp3", IntToString(quality))],
      ClientArgs(client),
      CookieSetting(cookiesFromBrowser))
  }

  /**
   * The options of `try_download`'s second attempt: a copy of the first
   * attempt's options whose youtube `player_client` is android. Existing
   * youtube arguments are kept; without a youtube entry the extractor
   * arguments are replaced by the android ones.
   */
  function FallbackOpts(base: DownloadOpts): (r: DownloadOpts)
    ensures "youtube" in r.extractorArgs && "player_client" in r.extractorArgs["youtube"]
    ensures r.extractorArgs["youtube"]["player_client"] == [Android]
    ensures r == base.(extractorArgs := r.extractorArgs)
  {
    var args :=
      if "youtube" in base.extractorArgs
      then base.extractorArgs["youtube" := base.extractorArgs["youtube"]["player_client" := [Android]]]
      else AndroidArgs;
    base.(extractorArgs := args)
  }

  /** The fallback of a download is the same download with the android client, whatever the first client was. */
  lemma FallbackIsAndroidDownload(outputDir: string, filenamePrefix: string, quality: int, verbose: bool, client: string, cookiesFromBrowser: Option<string>)
    ensures FallbackOpts(BuildDownloadOpts(outputDir, filenamePrefix, quality, verbose, client, cookiesFromBrowser))
         == BuildDownloadOpts(outputDir, filenamePrefix, quality, verbose, Android, cookiesFromBrowser)
  {
    var base := BuildDownloadOpts(outputDir, filenamePrefix, quality, verbose, client, cookiesFromBrowser);
    if client == Android {
      var inner: map<string, seq<string>> := map["player_client" := [Android]];
      assert base.extractorArgs == AndroidArgs == map["youtube" := inner];
      assert inner["player_client" := [Android]] == inner;
      assert AndroidArgs["youtube" := inner] == AndroidArgs;
    }
  }

  /** With a non-android client the retry really changes the options (the retry is a different request). */
  lemma FallbackDiffers(outputDir: string, filenamePrefix: string, quality: int, verbose: bool, client: string, cookiesFromBrowser: Option<string>)
    requires client != Android
    ensures FallbackOpts(BuildDownloadOpts(outputDir, filenamePrefix, quality, verbose, client, cookiesFromBrowser))
         != BuildDownloadOpts(outputDir, filenamePrefix, quality, verbose, client, cookiesFromBrowser)
  {
  }

  /** The search and the download options agree on every setting they share. */
  lemma SearchAndDownloadAgree(outputDir: string, filenamePrefix: string, quality: int, verbose: bool, client: string, cookiesFromBrowser: Option<string>)
    ensures var s := BuildSearchOpts(verbose, client, cookiesFromBrowser);
      var d := BuildDownloadOpts(outputDir, filenamePrefix, quality, verbose, client, cookiesFromBrowser);
      s.format == d.format && s.noPlaylist == d.noPlaylist && s.quiet == d.quiet
      && s.extractorArgs == d.extractorArgs && s.cookiesFromBrowser == d.cookiesFromBrowser
  {
  }
}
