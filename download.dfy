/** The download route's engine configuration (app.py `download_video`,
    the `ydl_opts` dict) and what the route reports once the engine has
    run. */
module Download {
  import opened Common
  import Paths

  datatype Postprocessor = Postprocessor(key: string)

  /** The configuration dict, one field per key the route may set; `None`
      is a key the dict does not hold. */
  datatype Options = Options(
    quiet: Option<bool>,
    noWarnings: Option<bool>,
    outtmpl: Option<string>,
    noplaylist: Option<bool>,
    format: Option<string>,
    mergeOutputFormat: Option<string>,
    writeSubtitles: Option<bool>,
    writeAutomaticSub: Option<bool>,
    subtitlesLangs: Option<seq<string>>,
    postprocessors: Option<seq<Postprocessor>>)

  const NoOptions := Options(None, None, None, None, None, None, None, None, None, None)

  /** The output template: title cut to 80 characters, then the extension. */
  const OutputTemplate := "%(title).80s.%(ext)s"
  const MergeFormat := "mp4"
  const EmbedSubtitle := Postprocessor("FFmpegEmbedSubtitle")

  /** The format selector: the chosen stream with the best audio, else the
      best single stream, else the chosen stream alone; `best` when no
      format was chosen. */
  function FormatSelector(formatId: string): string {
    if formatId != "" then formatId + "+bestaudio/best/" + formatId else "best"
  }

  /** The configuration the route hands the engine, key by key: the fixed
      keys; the format selector; mp4 merging for a chosen format or for
      embedded subtitles; the subtitle keys for a chosen language; the
      embedding postprocessor when that language is also to be embedded. */
  function OptionsFor(taskDir: string, formatId: string, subtitleLang: string, embedSubs: bool): Options {
    var subs := subtitleLang != "";
    var embed := subs && embedSubs;
    Options(
      quiet := Some(true),
      noWarnings := Some(true),
      outtmpl := Some(Paths.Join(taskDir, OutputTemplate)),
      noplaylist := Some(true),
      format := Some(FormatSelector(formatId)),
      mergeOutputFormat := if formatId != "" || embed then Some(MergeFormat) else None,
      writeSubtitles := if subs then Some(true) else None,
      writeAutomaticSub := if subs then Some(true) else None,
      subtitlesLangs := if subs then Some([subtitleLang]) else None,
      postprocessors := if embed then Some([EmbedSubtitle]) else None)
  }

  /** The `ydl_opts` construction, key by key as the route writes it. */
  method BuildOptions(taskDir: string, formatId: string, subtitleLang: string, embedSubs: bool)
    returns (opts: Options)
    ensures opts == OptionsFor(taskDir, formatId, subtitleLang, embedSubs)
  {
    opts := NoOptions.(
      quiet := Some(true),
      noWarnings := Some(true),
      outtmpl := Some(Paths.Join(taskDir, OutputTemplate)),
      noplaylist := Some(true));

    if formatId != "" {
      opts := opts.(format := Some(formatId + "+bestaudio/best/" + formatId));
      opts := opts.(mergeOutputFormat := Some(MergeFormat));
    } else {
      opts := opts.(format := Some("best"));
    }

    if subtitleLang != "" {
      opts := opts.(writeSubtitles := Some(true));
      opts := opts.(writeAutomaticSub := Some(true));
      opts := opts.(subtitlesLangs := Some([subtitleLang]));
      if embedSubs {
        // ydl_opts.get("postprocessors", []) + [...]
        var prior := opts.postprocessors.GetOr([]);
        assert prior + [EmbedSubtitle] == [EmbedSubtitle];
        opts := opts.(postprocessors := Some(prior + [EmbedSubtitle]));
        if formatId == "" {
          opts := opts.(mergeOutputFormat := Some(MergeFormat));
        }
      }
    }
  }

  /** Format selection: a chosen format is merged with the best audio into
      mp4; without one the engine takes `best`, and mp4 merging is forced
      only when a subtitle language is embedded. Single-item mode is always
      on, output is quiet, and it goes into the task directory. */
  lemma FormatSelection(taskDir: string, formatId: string, subtitleLang: string, embedSubs: bool)
    ensures var o := OptionsFor(taskDir, formatId, subtitleLang, embedSubs);
      && (formatId != "" ==> o.format == Some(formatId + "+bestaudio/best/" + formatId))
      && (formatId == "" ==> o.format == Some("best"))
      && (o.mergeOutputFormat.Some? <==> formatId != "" || (subtitleLang != "" && embedSubs))
      && (o.mergeOutputFormat.Some? ==> o.mergeOutputFormat == Some("mp4"))
      && o.noplaylist == Some(true)
      && o.quiet == Some(true) && o.noWarnings == Some(true)
      && o.outtmpl == Some(Paths.Join(taskDir, OutputTemplate))
  {
  }

  /** Subtitle options: the three subtitle keys are there exactly when a
      language is chosen, asking for authored and automatic subtitles in
      that one language; embedding then adds exactly one postprocessor,
      the subtitle embedder. */
  lemma SubtitleOptions(taskDir: string, formatId: string, subtitleLang: string, embedSubs: bool)
    ensures var o := OptionsFor(taskDir, formatId, subtitleLang, embedSubs);
      && (o.writeSubtitles.Some? <==> subtitleLang != "")
      && (o.writeAutomaticSub.Some? <==> subtitleLang != "")
      && (o.subtitlesLangs.Some? <==> subtitleLang != "")
      && (subtitleLang != "" ==>
            o.writeSubtitles == Some(true) && o.writeAutomaticSub == Some(true)
            && o.subtitlesLangs == Some([subtitleLang]))
      && (o.postprocessors.Some? <==> subtitleLang != "" && embedSubs)
      && (o.postprocessors.Some? ==> o.postprocessors == Some([EmbedSubtitle]))
  {
  }

  /** Asking to embed subtitles without a language changes nothing. */
  lemma EmbedNeedsLanguage(taskDir: string, formatId: string)
    ensures OptionsFor(taskDir, formatId, "", true) == OptionsFor(taskDir, formatId, "", false)
  {
  }

  // ---------------------------------------------------------------------
  // After the engine has run
  // ---------------------------------------------------------------------

  datatype EngineRun = Completed | DownloadError(message: string)

  /** What the route answers; `removesTaskDir` says whether it deletes the
      task directory before answering. */
  datatype Outcome =
    | Done(taskId: string, filename: string)
    | Failed(status: int, message: string, removesTaskDir: bool)

  const DownloadFailedPrefix := "ダウンロードに失敗しました: "
  const FileNotFound := "ファイルが見つかりません"

  /** The route's answer (app.py:142-156) given how the engine run ended and
      the names `os.listdir` returns for the task directory, in its order. */
  function DownloadOutcome(taskId: string, run: EngineRun, listing: seq<string>): (r: Outcome)
    ensures r.Done? <==> run.Completed? && listing != []
    ensures r.Done? ==> r.taskId == taskId && r.filename == listing[0]
    ensures run.DownloadError? ==> r == Failed(400, DownloadFailedPrefix + run.message, true)
    ensures run.Completed? && listing == [] ==> r == Failed(500, FileNotFound, true)
    ensures r.Failed? ==> r.removesTaskDir
  {
    match run
    case DownloadError(message) => Failed(400, DownloadFailedPrefix + message, true)
    case Completed =>
      if listing == [] then Failed(500, FileNotFound, true) else Done(taskId, listing[0])
  }

  /** The pair a finished download reports leads the (corrected) file route
      back to that file: a task id and a listed name hold no `/` and are
      plain names, so the lookup yields the file's path in the task
      directory. */
  lemma DoneIsServed(downloadDir: string, taskId: string, run: EngineRun, listing: seq<string>)
    requires downloadDir != [] && downloadDir[|downloadDir| - 1] != Paths.Sep
    requires Paths.Sep !in taskId && Paths.PlainName(taskId)
    requires forall k :: 0 <= k < |listing| ==> Paths.Sep !in listing[k] && Paths.PlainName(listing[k])
    requires DownloadOutcome(taskId, run, listing).Done?
    ensures var d := DownloadOutcome(taskId, run, listing);
      Paths.SafeServedPath(downloadDir, d.taskId, d.filename)
      == Some(Paths.Join(Paths.Join(downloadDir, taskId), listing[0]))
  {
    Paths.SafeServedPathKeepsPlainNames(downloadDir, taskId, listing[0]);
  }
}
