# movie-downloader: a verified model of the front end's deterministic core

The system is a small web front end over the yt-dlp extraction engine. A user
submits a media URL. The info route shows the formats and subtitle languages
the engine reports. The download route fetches one item into a fresh task
directory. The file route serves the downloaded file back. This project models
the parts of `app.py` that are plain logic rather than I/O.

- **Probe** (`probe.dfy`) covers `_format_entry` and the result handling of
  `video_info`. A raw metadata record becomes a display record:
  - one `FormatOption` per raw format, in input order, each with its label and
    its video/audio flags;
  - one subtitle map merging the authored listing with the automatic-caption
    listing (authored entries win);
  - for a playlist, one entry per non-null item.
  Each raw field is a `Field` (absent, stored null, or a value), because
  Python's `dict.get(key, default)` substitutes the default only for an absent
  key. For example, a stored-null `vcodec` counts as "video present", since
  `None != "none"`. A stored-null `ext` makes `" ".join` raise a `TypeError`,
  which the model returns as `Failure(LabelTypeError)`.
- **Download** (`download.dfy`) covers the `ydl_opts` construction of
  `download_video`. It is a method that sets the options key by key, proved
  equal to a declarative reference `OptionsFor`, with the format and subtitle
  rules proved about that reference. It also covers the route's answer once the
  engine has run, taking `files[0]` of the directory listing.
- **Paths** (`paths.dfy`) covers the file route's sanitizer: `os.path.basename`
  on both URL components, then `os.path.join` under the download directory.
- **Common** (`common.dfy`) holds `Option`, `Result`, `Field`, and the
  `dict.get` / `or []` / truthiness readings used throughout.

Some inputs are not computed by the model and are parameters instead:
- the engine's metadata record (`RawInfo`);
- how the engine's download ended (`EngineRun`);
- the directory listing (`listing`);
- the task directory and download directory paths;
- the text of the size in MB (`mb: real -> string`, standing for
  `f"{size / 1024 / 1024:.1f}"`).

Three behaviours of the code are worth stating outright:
- The download route takes `files[0]` of the unfiltered listing, with no
  subtitle-extension filter and no exactly-one check, and fails only when the
  listing is empty (`Download.DownloadOutcome`).
- The file route reduces each URL component to its basename and rejects no
  identifier (`Paths.ServedPath`, stated by `Paths.ServedPathShape`).
- A size tag appears when `filesize or filesize_approx` is truthy, so a zero
  size gets none and a negative one gets one (`Probe.SizeTagRule`).

## Model

| member | source | states |
|---|---|---|
| `Probe.PresenceRule` | app.py:58-59 | video (audio) is present exactly when the `vcodec` (`acodec`) key is there and is not `"none"`; a stored null counts as present |
| `Probe.PresenceTag` | app.py:68-73 | the tag is `(映像+音声)` for both streams, `(映像のみ)` for video only, `(音声のみ)` for audio only, and absent for neither, each case if and only if |
| `Probe.SizeTagRule` | app.py:62-75 | a size tag appears exactly when `filesize` or, failing that, `filesize_approx` is present and non-zero |
| `Probe.JoinWordsConcat` | app.py:79 | joining two non-empty runs of parts puts exactly one space between them |
| `Probe.JoinWordsLayout` | app.py:79 | the at-most-one resolution, the extension, the at-most-one tag and the at-most-one size join with one space between neighbours and nothing for absent parts |
| `Probe.LabelLayout` | app.py:60-79 | the label is: the resolution (falling back to `format_note`) and a space when it is non-empty, then `ext` (`?` when absent), then a space and the presence tag, then a space and the size tag, in that order |
| `Probe.NormalizeFormat` | app.py:57-82 | one raw format fails exactly when its `ext` is stored null; otherwise it yields the display record whose label parts are appended in the fixed order |
| `Probe.NormalizeFormats` | app.py:55-82 | the loop fails exactly when some format's `ext` is null; otherwise it yields one display record per raw format, in input order |
| `Probe.CollectSubtitles` | app.py:84-90 | the map's keys are exactly the union of the authored and automatic-caption languages; each label is the language code; `auto` is false exactly when the authored listing has that language |
| `Probe.EntryShape` | app.py:53-99 | a record fails exactly when some format has a null `ext`; otherwise each `format_id` is carried through in order, and absent `id`, `title`, `thumbnail` default to `""`, `"不明"`, `""` |
| `Probe.FormatEntry` | app.py:53-99 | the whole `_format_entry` equals its reference `EntryOf` (formats by index, merged subtitle map, defaulted fields) |
| `Probe.PresentConcat` | app.py:43-46 | skipping null items distributes over concatenation, so kept items keep their relative order |
| `Probe.PresentMembers` | app.py:43-46 | an item is kept exactly when it occurs in the playlist and is not null |
| `Probe.PresentAllItems` | app.py:43-46 | a playlist with no nulls is kept whole and in order |
| `Probe.EntriesOfEach` | app.py:43-46 | the entries succeed exactly when every record normalizes; they are then one per record, in order |
| `Probe.EntriesOfConcat` | app.py:43-46 | normalizing two runs of records is normalizing each run and concatenating the results, or a failure when either run fails |
| `Probe.PlaylistEntries` | app.py:42-46 | the playlist loop computes the entries of the non-null items, in order |
| `Probe.PlaylistResponse` | app.py:41-47 | a playlist response holds the title (`""` when absent) and one entry per non-null item, in order; it fails only when one of those items fails |
| `Probe.VideoInfo` | app.py:41-50 | the route's result is the playlist response for `_type == "playlist"` and otherwise a single-entry response |
| `Download.BuildOptions` | app.py:116-140 | the step-by-step `ydl_opts` construction yields exactly the reference configuration `OptionsFor` |
| `Download.FormatSelection` | app.py:116-140 | a non-empty `format_id` gives `"{id}+bestaudio/best/{id}"`, an empty one `"best"`; mp4 merging is set exactly for a chosen format or for embedded subtitles; `noplaylist`, `quiet`, `no_warnings` are true; the template lies in the task directory |
| `Download.SubtitleOptions` | app.py:131-138 | the subtitle keys are set exactly when a language is chosen, with `subtitleslangs == [lang]`; the postprocessor list exists exactly when that language is also embedded, and holds one `FFmpegEmbedSubtitle` |
| `Download.EmbedNeedsLanguage` | app.py:131-140 | asking to embed without a language gives the same configuration as not asking |
| `Download.DownloadOutcome` | app.py:142-156 | an engine error gives a 400 with the engine's message; an empty listing gives a 500; both remove the task directory; otherwise the route reports the task id and `listing[0]` |
| `Download.DoneIsServed` | app.py:155-165 | the reported task id and file name, looked up through the corrected file route, give the file's path in the task directory |
| `Paths.Basename` | app.py:163-164 | the sanitized component holds no `/`, is a suffix of its input, and is the longest such suffix |
| `Paths.BasenameFixedPoint` | app.py:163-164 | a component is its own basename exactly when it holds no `/` |
| `Paths.BasenameIdempotent` | app.py:163-164 | sanitizing twice is sanitizing once |
| `Paths.JoinComponent` | app.py:165 | joining a separator-free component onto a directory without a trailing `/` inserts exactly one `/` |
| `Paths.JoinTwoComponents` | app.py:165 | joining two separator-free components in turn gives directory, `/`, first, `/`, second (the middle `/` is only absent when the first component is empty) |
| `Paths.ServedPathShape` | app.py:163-165 | about `ServedPath`, the route's path as written (`basename` of both components, then `join`): neither sanitized component holds `/`, and the served path is the download directory, `/`, the sanitized task id, `/`, the sanitized filename |
| `Paths.DotDotEscapes` | app.py:162-167 | as written, a task id of `..` survives sanitizing and the route opens `<download dir>/../<filename>` |
| `Paths.SafeServedPath` | app.py:162-168 | corrected lookup: a result exists exactly when both sanitized components are plain names; every result is the download directory, `/`, task id, `/`, filename, and equals the as-written path |
| `Paths.SafeServedPathKeepsPlainNames` | app.py:163-165 | a plain, separator-free task id and filename are found at exactly their joined path |

## Findings

| source | as written | input that shows it | evidently intended | confidence | as-written member | corrected member |
|---|---|---|---|---|---|---|
| app.py:162-167 | `os.path.basename` is the only traversal defence, and `basename("..")` is `".."` | task id `..`, filename `app.py` (a request for `/api/file/../app.py` sent without dot-segment normalisation) opens `<download dir>/../app.py`, the application's own source | a component that is empty, `.` or `..` resolves to "not found", so every served path lies in a task directory under the download directory | not executed; medium (it holds only when the client and the server pass the `..` segment through to the route) | `Paths.DotDotEscapes` | `Paths.SafeServedPath` |

## Left out

- Flask layer: route registration, reading and `.strip()` of the JSON request fields, the empty-URL checks (app.py:21-23, 105-110), JSON marshalling, status codes of the request layer and `send_file`. The model takes the already stripped field values.
- Engine calls: `extract_info` and `download` (app.py:35-38, 142-147) belong to yt-dlp. The record they return and the way a download ends are parameters (`RawInfo`, `EngineRun`). The fixed probe configuration (app.py:25-32) is only handed to the engine, so it is not modelled.
- Filesystem and identifiers: `makedirs`, `rmtree`, `listdir`, `isfile` and `uuid4` (app.py:10, 112-114, 150-155, 167). The listing and the task id are parameters. Removal of the task directory is the flag `removesTaskDir`. Whether the served path names an existing file is not modelled.
- Size formatting: `f"{filesize / 1024 / 1024:.1f}"` is float formatting. It is the parameter `mb`, and only the `[`…`MB]` frame and where the tag appears are modelled.
- Dict order: the subtitle map is a Dafny `map`, so the insertion order of the `subtitles` dict (authored languages first) is lost. The serialized response sorts its keys anyway.
- Field types: raw fields are modelled as strings, or numbers for sizes and duration, and no other JSON type can be represented. In the source, a numeric `format_id`, `id`, `title`, `thumbnail` or `duration` passes through unchanged, and a numeric `vcodec` or `acodec` simply differs from `"none"`. Other values raise:
  - a truthy non-string `resolution` or `format_note` (the join at line 79);
  - a truthy non-numeric size (the division at line 75);
  - a `subtitles` value that is not a dict (`.items()` at line 86);
  - a playlist item or format entry that is not a dict (`.get`).
- Durations and sizes are `real`; Python's float rounding is not modelled.
- `embed_subs` is the truthiness of the request value, as a `bool`.
- Platform: paths follow POSIX `posixpath`. On Windows `os.path` is `ntpath`, whose `basename` also splits at `\` and after a drive `:`, so that platform is not covered.
