/** The metadata prober's normalizer (app.py `_format_entry` and the result
    handling of `video_info`): a raw metadata record, as the extraction
    engine reports it, becomes the display record the front end shows. */
module Probe {
  import opened Common

  /** One raw format record. Each field is a dict key that may be absent or
      null. `filesize` and `filesizeApprox` are byte counts. */
  datatype RawFormat = RawFormat(
    formatId: Field<string>,
    vcodec: Field<string>,
    acodec: Field<string>,
    ext: Field<string>,
    resolution: Field<string>,
    formatNote: Field<string>,
    filesize: Field<real>,
    filesizeApprox: Field<real>)

  /** A raw metadata record: one video, or a playlist (`kind` is the `_type`
      key) whose `entries` may hold nulls. `subtitles` and
      `automaticCaptions` are the language keys of the two listings, in the
      listing's own order. */
  datatype RawInfo = RawInfo(
    kind: Field<string>,
    id: Field<string>,
    title: Field<string>,
    thumbnail: Field<string>,
    duration: Field<real>,
    formats: Field<seq<RawFormat>>,
    subtitles: Field<seq<string>>,
    automaticCaptions: Field<seq<string>>,
    entries: Field<seq<Option<RawInfo>>>)

  /** One displayed format. `formatId` is `None` where the raw one was
      absent or null. */
  datatype FormatOption = FormatOption(formatId: Option<string>, labelText: string, hasVideo: bool, hasAudio: bool)

  datatype SubtitleTrack = SubtitleTrack(labelText: string, auto: bool)

  /** The display record. `None` in `id`, `title` or `thumbnail` is a null
      the raw record held; an absent key is replaced by its default. */
  datatype Entry = Entry(
    id: Option<string>,
    title: Option<string>,
    thumbnail: Option<string>,
    duration: Option<real>,
    formats: seq<FormatOption>,
    subtitles: map<string, SubtitleTrack>)

  datatype Response =
    | Single(entries: seq<Entry>)
    | Playlist(title: Option<string>, entries: seq<Entry>)

  /** `" ".join(label_parts)` raises a TypeError when a format's `ext` is
      stored as null, since the null is one of the joined parts. */
  datatype ProbeError = LabelTypeError

  const BothTag := "(映像+音声)"
  const VideoOnlyTag := "(映像のみ)"
  const AudioOnlyTag := "(音声のみ)"
  const DefaultTitle := "不明"
  const DefaultExt := "?"
  const Space: char := ' '

  // ---------------------------------------------------------------------
  // Specification of one format record
  // ---------------------------------------------------------------------

  /** `f.get("vcodec", "none") != "none"`. */
  predicate HasVideo(f: RawFormat) {
    GetWithDefault(f.vcodec, "none") != Some("none")
  }

  /** `f.get("acodec", "none") != "none"`. */
  predicate HasAudio(f: RawFormat) {
    GetWithDefault(f.acodec, "none") != Some("none")
  }

  /** A stream is there exactly when its codec key is present and its value
      is not `"none"`; a stored null counts as present. */
  lemma PresenceRule(f: RawFormat)
    ensures HasVideo(f) <==> f.vcodec.Null? || (f.vcodec.Given? && f.vcodec.value != "none")
    ensures HasAudio(f) <==> f.acodec.Null? || (f.acodec.Given? && f.acodec.value != "none")
  {
  }

  /** `f.get("resolution") or f.get("format_note") or ""`. */
  function Resolution(f: RawFormat): string {
    if TruthyText(Get(f.resolution)) then f.resolution.value
    else if TruthyText(Get(f.formatNote)) then f.formatNote.value
    else ""
  }

  /** `f.get("filesize") or f.get("filesize_approx")`. */
  function Size(f: RawFormat): Option<real> {
    if TruthyNumber(Get(f.filesize)) then Get(f.filesize) else Get(f.filesizeApprox)
  }

  /** The presence tag for a pair of stream flags: one of the three tags,
      chosen by which streams are there, or none when neither is. */
  function PresenceTag(hasVideo: bool, hasAudio: bool): (r: Option<string>)
    ensures r == Some(BothTag) <==> hasVideo && hasAudio
    ensures r == Some(VideoOnlyTag) <==> hasVideo && !hasAudio
    ensures r == Some(AudioOnlyTag) <==> !hasVideo && hasAudio
    ensures r == None <==> !hasVideo && !hasAudio
  {
    if hasVideo && hasAudio then Some(BothTag)
    else if hasVideo then Some(VideoOnlyTag)
    else if hasAudio then Some(AudioOnlyTag)
    else None
  }

  /** The size tag `[<n>MB]`, where `mb` renders the size in mebibytes
      (`f"{size / 1024 / 1024:.1f}"`). */
  function SizeTag(size: real, mb: real -> string): string {
    "[" + mb(size / 1024.0 / 1024.0) + "MB]"
  }

  function OptionalPart(o: Option<string>): seq<string> {
    if o.Some? then [o.value] else []
  }

  /** The label parts in their fixed order: resolution (when non-empty),
      extension, presence tag, size tag. */
  function LabelParts(f: RawFormat, mb: real -> string): seq<string>
    requires !f.ext.Null?
  {
    (if Resolution(f) != "" then [Resolution(f)] else [])
    + [GetWithDefault(f.ext, DefaultExt).value]
    + OptionalPart(PresenceTag(HasVideo(f), HasAudio(f)))
    + (if TruthyNumber(Size(f)) then [SizeTag(Size(f).value, mb)] else [])
  }

  /** `" ".join(parts)`. */
  function JoinWords(parts: seq<string>): string {
    if parts == [] then ""
    else if |parts| == 1 then parts[0]
    else parts[0] + [Space] + JoinWords(parts[1..])
  }

  function FormatOptionOf(f: RawFormat, mb: real -> string): FormatOption
    requires !f.ext.Null?
  {
    FormatOption(Get(f.formatId), JoinWords(LabelParts(f, mb)), HasVideo(f), HasAudio(f))
  }

  // ---------------------------------------------------------------------
  // Label layout
  // ---------------------------------------------------------------------

  /** Joining two non-empty runs of parts puts one space between them. */
  lemma {:induction false} JoinWordsConcat(a: seq<string>, b: seq<string>)
    requires a != [] && b != []
    ensures JoinWords(a + b) == JoinWords(a) + [Space] + JoinWords(b)
  {
    if |a| == 1 {
      assert a + b == [a[0]] + b;
    } else {
      assert (a + b)[1..] == a[1..] + b;
      JoinWordsConcat(a[1..], b);
    }
  }

  /** The text a run of at most one part contributes in front of later
      parts: the part and a space. */
  function Lead(p: seq<string>): string {
    if p == [] then "" else p[0] + [Space]
  }

  /** The text a run of at most one part contributes after earlier parts:
      a space and the part. */
  function Trail(s: seq<string>): string {
    if s == [] then "" else [Space] + s[0]
  }

  lemma JoinWordsPrefix(p: seq<string>, b: seq<string>)
    requires |p| <= 1 && b != []
    ensures JoinWords(p + b) == Lead(p) + JoinWords(b)
  {
    if p == [] {
      assert p + b == b;
    } else {
      JoinWordsConcat(p, b);
    }
  }

  lemma JoinWordsSuffix(a: seq<string>, s: seq<string>)
    requires a != [] && |s| <= 1
    ensures JoinWords(a + s) == JoinWords(a) + Trail(s)
  {
    if s == [] {
      assert a + s == a;
    } else {
      JoinWordsConcat(a, s);
    }
  }

  /** Joining a run of at most one part after a joined non-empty prefix. */
  lemma JoinWordsExtend(front: seq<string>, frontText: string, s: seq<string>)
    requires front != [] && JoinWords(front) == frontText && |s| <= 1
    ensures JoinWords(front + s) == frontText + Trail(s)
  {
    JoinWordsSuffix(front, s);
  }

  /** Four runs of at most one, exactly one, at most one and at most one
      part join to the present parts with one space between neighbours. */
  lemma JoinWordsLayout(res: seq<string>, ext: string, tag: seq<string>, size: seq<string>)
    requires |res| <= 1 && |tag| <= 1 && |size| <= 1
    ensures JoinWords(res + [ext] + tag + size) == Lead(res) + (ext + Trail(tag) + Trail(size))
  {
    JoinWordsExtend([ext], ext, tag);
    JoinWordsExtend([ext] + tag, ext + Trail(tag), size);
    var tail := [ext] + tag + size;
    assert res + [ext] + tag + size == res + tail;
    JoinWordsPrefix(res, tail);
  }

  /** The label is the resolution and a space (when there is a resolution),
      the extension (`?` when absent), then a space and the presence tag when
      at least one stream is there, then a space and the size tag when the
      size (`filesize`, else `filesize_approx`) is non-zero. */
  lemma LabelLayout(f: RawFormat, mb: real -> string)
    requires !f.ext.Null?
    ensures FormatOptionOf(f, mb).labelText
         == (if Resolution(f) != "" then Resolution(f) + [Space] else "")
            + ((if f.ext.Given? then f.ext.value else DefaultExt)
               + (if PresenceTag(HasVideo(f), HasAudio(f)).Some?
                  then [Space] + PresenceTag(HasVideo(f), HasAudio(f)).value else "")
               + (if TruthyNumber(Size(f)) then [Space] + SizeTag(Size(f).value, mb) else ""))
  {
    var res := if Resolution(f) != "" then [Resolution(f)] else [];
    var tag := OptionalPart(PresenceTag(HasVideo(f), HasAudio(f)));
    var size := if TruthyNumber(Size(f)) then [SizeTag(Size(f).value, mb)] else [];
    JoinWordsLayout(res, GetWithDefault(f.ext, DefaultExt).value, tag, size);
  }

  /** A size tag appears exactly when `filesize` or, failing that,
      `filesize_approx` is present and non-zero; a missing or zero size
      gives none. */
  lemma SizeTagRule(f: RawFormat)
    ensures TruthyNumber(Size(f))
        <==> (f.filesize.Given? && f.filesize.value != 0.0)
             || (f.filesizeApprox.Given? && f.filesizeApprox.value != 0.0)
  {
  }

  // ---------------------------------------------------------------------
  // Specification of one entry
  // ---------------------------------------------------------------------

  /** The merged subtitle map: every language of either listing, once, with
      its code as label, marked automatic exactly when the authored listing
      does not have it. */
  function MergedSubtitles(authored: seq<string>, automatic: seq<string>): map<string, SubtitleTrack> {
    map lang | lang in (set x | x in authored) + (set x | x in automatic) :: SubtitleTrack(lang, lang !in authored)
  }

  predicate LabelsJoin(fs: seq<RawFormat>) {
    forall i :: 0 <= i < |fs| ==> !fs[i].ext.Null?
  }

  /** What `_format_entry` returns for one raw record. */
  function EntryOf(info: RawInfo, mb: real -> string): Result<Entry, ProbeError> {
    var fs := OrEmpty(info.formats);
    if !LabelsJoin(fs) then Failure(LabelTypeError)
    else Success(Entry(
      GetWithDefault(info.id, ""),
      GetWithDefault(info.title, DefaultTitle),
      GetWithDefault(info.thumbnail, ""),
      Get(info.duration),
      seq(|fs|, i requires 0 <= i < |fs| => FormatOptionOf(fs[i], mb)),
      MergedSubtitles(OrEmpty(info.subtitles), OrEmpty(info.automaticCaptions))))
  }

  /** The body of `_format_entry`'s loop over the formats: the stream
      flags, then the label built by appending its parts in order. */
  method NormalizeFormat(f: RawFormat, mb: real -> string) returns (r: Result<FormatOption, ProbeError>)
    ensures r.Failure? <==> f.ext.Null?
    ensures r.Success? ==> r.value == FormatOptionOf(f, mb)
  {
    var hasVideo := GetWithDefault(f.vcodec, "none") != Some("none");
    var hasAudio := GetWithDefault(f.acodec, "none") != Some("none");
    var ext := GetWithDefault(f.ext, DefaultExt);
    var resolution := Resolution(f);
    var filesize := if TruthyNumber(Get(f.filesize)) then Get(f.filesize) else Get(f.filesizeApprox);

    var labelParts: seq<string> := [];
    if resolution != "" {
      labelParts := labelParts + [resolution];
    }
    if ext.None? {
      // the null part makes the join below raise
      return Failure(LabelTypeError);
    }
    labelParts := labelParts + [ext.value];
    ghost var front := labelParts;
    if hasVideo && hasAudio {
      labelParts := labelParts + [BothTag];
    } else if hasVideo {
      labelParts := labelParts + [VideoOnlyTag];
    } else if hasAudio {
      labelParts := labelParts + [AudioOnlyTag];
    }
    assert labelParts == front + OptionalPart(PresenceTag(HasVideo(f), HasAudio(f)));
    ghost var middle := labelParts;
    if TruthyNumber(filesize) {
      labelParts := labelParts + [SizeTag(filesize.value, mb)];
    }
    assert labelParts == middle + (if TruthyNumber(Size(f)) then [SizeTag(Size(f).value, mb)] else []);
    assert labelParts == LabelParts(f, mb);
    r := Success(FormatOption(Get(f.formatId), JoinWords(labelParts), hasVideo, hasAudio));
  }

  /** `_format_entry`'s loop over `info.get("formats") or []`: one display
      record per raw format, in order, or the join error of the first format
      whose `ext` is null. */
  method NormalizeFormats(raw: seq<RawFormat>, mb: real -> string) returns (r: Result<seq<FormatOption>, ProbeError>)
    ensures r.Failure? <==> !LabelsJoin(raw)
    ensures r.Success? ==> |r.value| == |raw|
    ensures r.Success? ==> forall k :: 0 <= k < |raw| ==> r.value[k] == FormatOptionOf(raw[k], mb)
  {
    var formats: seq<FormatOption> := [];
    var i := 0;
    while i < |raw|
      invariant 0 <= i <= |raw|
      invariant forall k :: 0 <= k < i ==> !raw[k].ext.Null?
      invariant |formats| == i
      invariant forall k :: 0 <= k < i ==> formats[k] == FormatOptionOf(raw[k], mb)
    {
      var option := NormalizeFormat(raw[i], mb);
      if option.Failure? {
        return Failure(option.error);
      }
      formats := formats + [option.value];
      i := i + 1;
    }
    r := Success(formats);
  }

  /** `_format_entry`'s two subtitle loops: every authored language first,
      marked not automatic, then every automatic-caption language the map
      does not have yet, marked automatic. */
  method CollectSubtitles(authored: seq<string>, automatic: seq<string>) returns (subtitles: map<string, SubtitleTrack>)
    ensures subtitles.Keys == (set lang | lang in authored) + (set lang | lang in automatic)
    ensures forall lang :: lang in subtitles ==>
              subtitles[lang].labelText == lang && (subtitles[lang].auto <==> lang !in authored)
  {
    subtitles := map[];
    var j := 0;
    while j < |authored|
      invariant 0 <= j <= |authored|
      invariant subtitles.Keys == set lang | lang in authored[..j]
      invariant forall lang :: lang in subtitles ==> subtitles[lang] == SubtitleTrack(lang, false)
    {
      assert authored[..j + 1] == authored[..j] + [authored[j]];
      subtitles := subtitles[authored[j] := SubtitleTrack(authored[j], false)];
      j := j + 1;
    }
    assert authored[..j] == authored;

    j := 0;
    while j < |automatic|
      invariant 0 <= j <= |automatic|
      invariant subtitles.Keys == (set lang | lang in authored) + (set lang | lang in automatic[..j])
      invariant forall lang :: lang in subtitles ==>
                  subtitles[lang].labelText == lang && (subtitles[lang].auto <==> lang !in authored)
    {
      assert automatic[..j + 1] == automatic[..j] + [automatic[j]];
      var lang := automatic[j];
      if lang !in subtitles {
        subtitles := subtitles[lang := SubtitleTrack(lang, true)];
      }
      j := j + 1;
    }
    assert automatic[..j] == automatic;
  }

  /** A record normalizes unless one of its formats stores a null `ext`;
      then it has one display record per raw format, in order, with each
      `format_id` carried over, and the identity fields take the defaults
      `""`, `"不明"` and `""` only where their keys are absent. */
  lemma EntryShape(info: RawInfo, mb: real -> string)
    ensures EntryOf(info, mb).Failure? <==>
              exists k :: 0 <= k < |OrEmpty(info.formats)| && OrEmpty(info.formats)[k].ext.Null?
    ensures EntryOf(info, mb).Success? ==>
              var e := EntryOf(info, mb).value;
              && |e.formats| == |OrEmpty(info.formats)|
              && (forall k :: 0 <= k < |e.formats| ==> e.formats[k].formatId == Get(OrEmpty(info.formats)[k].formatId))
              && (info.id.Missing? ==> e.id == Some(""))
              && (info.title.Missing? ==> e.title == Some(DefaultTitle))
              && (info.thumbnail.Missing? ==> e.thumbnail == Some(""))
              && (info.title.Given? ==> e.title == Some(info.title.value))
  {
  }

  /** `_format_entry`: the formats, the merged subtitle map and the
      defaulted identity fields of one raw record. */
  method FormatEntry(info: RawInfo, mb: real -> string) returns (r: Result<Entry, ProbeError>)
    ensures r == EntryOf(info, mb)
  {
    var raw := OrEmpty(info.formats);
    var formats := NormalizeFormats(raw, mb);
    if formats.Failure? {
      assert !LabelsJoin(raw);
      return Failure(LabelTypeError);
    }
    var subtitles := CollectSubtitles(OrEmpty(info.subtitles), OrEmpty(info.automaticCaptions));
    assert subtitles == MergedSubtitles(OrEmpty(info.subtitles), OrEmpty(info.automaticCaptions));
    assert formats.value == seq(|raw|, k requires 0 <= k < |raw| => FormatOptionOf(raw[k], mb));
    r := Success(Entry(GetWithDefault(info.id, ""), GetWithDefault(info.title, DefaultTitle), GetWithDefault(info.thumbnail, ""),
                       Get(info.duration), formats.value, subtitles));
  }

  // ---------------------------------------------------------------------
  // The response of the info route
  // ---------------------------------------------------------------------

  /** The item itself when it is not null, nothing when it is. */
  function Kept<T>(item: Option<T>): seq<T> {
    if item.Some? then [item.value] else []
  }

  /** The playlist items that are not null, in their order. */
  function Present<T>(items: seq<Option<T>>): seq<T> {
    if items == [] then [] else Kept(items[0]) + Present(items[1..])
  }

  /** Skipping nulls works piece by piece: the items kept from two runs
      are those kept from the first, then those kept from the second. */
  lemma {:induction false} PresentConcat<T>(a: seq<Option<T>>, b: seq<Option<T>>)
    ensures Present(a + b) == Present(a) + Present(b)
  {
    if a == [] {
      assert a + b == b;
    } else {
      assert (a + b)[0] == a[0];
      assert (a + b)[1..] == a[1..] + b;
      PresentConcat(a[1..], b);
      assert Kept(a[0]) + (Present(a[1..]) + Present(b)) == (Kept(a[0]) + Present(a[1..])) + Present(b);
    }
  }

  /** An item is kept exactly when it occurs in the playlist, not null. */
  lemma {:induction false} PresentMembers<T>(items: seq<Option<T>>, x: T)
    ensures x in Present(items) <==> Some(x) in items
  {
    if items != [] {
      PresentMembers(items[1..], x);
      assert items == [items[0]] + items[1..];
    }
  }

  /** A playlist without nulls is kept whole, in order. */
  lemma {:induction false} PresentAllItems<T>(items: seq<Option<T>>)
    requires forall k :: 0 <= k < |items| ==> items[k].Some?
    ensures |Present(items)| == |items|
    ensures forall k :: 0 <= k < |items| ==> Present(items)[k] == items[k].value
  {
    if items != [] {
      PresentAllItems(items[1..]);
    }
  }

  /** The entries of a list of records, in order, or the error of the
      first one that fails. */
  function EntriesOf(xs: seq<RawInfo>, mb: real -> string): Result<seq<Entry>, ProbeError> {
    if xs == [] then Success([])
    else match EntryOf(xs[0], mb)
      case Failure(err) => Failure(err)
      case Success(e) =>
        match EntriesOf(xs[1..], mb)
        case Failure(err) => Failure(err)
        case Success(rest) => Success([e] + rest)
  }

  /** The entries succeed exactly when every record does, and then there is
      one entry per record, in order. */
  lemma {:induction false} EntriesOfEach(xs: seq<RawInfo>, mb: real -> string)
    ensures EntriesOf(xs, mb).Success? <==> forall k :: 0 <= k < |xs| ==> EntryOf(xs[k], mb).Success?
    ensures EntriesOf(xs, mb).Success? ==>
              |EntriesOf(xs, mb).value| == |xs|
              && forall k :: 0 <= k < |xs| ==> EntriesOf(xs, mb).value[k] == EntryOf(xs[k], mb).value
  {
    if xs != [] {
      EntriesOfEach(xs[1..], mb);
      if EntryOf(xs[0], mb).Success? && EntriesOf(xs[1..], mb).Success? {
        var v := EntriesOf(xs, mb).value;
        forall k | 0 <= k < |xs|
          ensures v[k] == EntryOf(xs[k], mb).value
        {
          if k > 0 { assert xs[1..][k - 1] == xs[k]; }
        }
      } else if EntryOf(xs[0], mb).Success? {
        var k :| 0 <= k < |xs[1..]| && !EntryOf(xs[1..][k], mb).Success?;
        assert xs[1..][k] == xs[k + 1];
      }
    }
  }

  /** The entries of two runs of records joined. */
  lemma {:induction false} EntriesOfConcat(a: seq<RawInfo>, b: seq<RawInfo>, mb: real -> string)
    ensures EntriesOf(a + b, mb)
         == if EntriesOf(a, mb).Success? && EntriesOf(b, mb).Success?
            then Success(EntriesOf(a, mb).value + EntriesOf(b, mb).value)
            else Failure(LabelTypeError)
  {
    if a == [] {
      assert a + b == b;
      if EntriesOf(b, mb).Success? {
        assert [] + EntriesOf(b, mb).value == EntriesOf(b, mb).value;
      } else {
        assert EntriesOf(b, mb).error == LabelTypeError;
      }
    } else {
      assert (a + b)[1..] == a[1..] + b;
      EntriesOfConcat(a[1..], b, mb);
      if EntriesOf(a, mb).Success? && EntriesOf(b, mb).Success? {
        assert EntriesOf(a, mb).value + EntriesOf(b, mb).value
            == [EntriesOf(a, mb).value[0]] + (EntriesOf(a[1..], mb).value + EntriesOf(b, mb).value);
      }
    }
  }

  /** What the info route responds with once the engine has resolved the
      URL: a playlist's non-null entries with its title (`""` when absent),
      or the single entry. */
  function ResponseOf(info: RawInfo, mb: real -> string): Result<Response, ProbeError> {
    if Get(info.kind) == Some("playlist") then
      match EntriesOf(Present(OrEmpty(info.entries)), mb)
      case Failure(err) => Failure(err)
      case Success(es) => Success(Playlist(GetWithDefault(info.title, ""), es))
    else
      match EntryOf(info, mb)
      case Failure(err) => Failure(err)
      case Success(e) => Success(Single([e]))
  }

  /** A playlist response holds one entry per non-null item, in order, each
      normalized from that item; it fails only when one of those items
      does. */
  lemma PlaylistResponse(info: RawInfo, mb: real -> string)
    requires Get(info.kind) == Some("playlist")
    ensures ResponseOf(info, mb).Success? <==>
              forall x :: x in Present(OrEmpty(info.entries)) ==> EntryOf(x, mb).Success?
    ensures ResponseOf(info, mb).Success? ==>
              var items := Present(OrEmpty(info.entries));
              && ResponseOf(info, mb).value.Playlist?
              && ResponseOf(info, mb).value.title == GetWithDefault(info.title, "")
              && |ResponseOf(info, mb).value.entries| == |items|
              && forall k :: 0 <= k < |items| ==> ResponseOf(info, mb).value.entries[k] == EntryOf(items[k], mb).value
  {
    EntriesOfEach(Present(OrEmpty(info.entries)), mb);
  }

  /** One more playlist item: a null leaves the entries as they were; a
      record adds its entry at the end, or fails. */
  lemma EntriesOfNextItem(items: seq<Option<RawInfo>>, i: nat, mb: real -> string)
    requires i < |items|
    ensures items[i].None? ==> EntriesOf(Present(items[..i + 1]), mb) == EntriesOf(Present(items[..i]), mb)
    ensures items[i].Some? ==>
              EntriesOf(Present(items[..i + 1]), mb)
              == if EntriesOf(Present(items[..i]), mb).Success? && EntryOf(items[i].value, mb).Success?
                 then Success(EntriesOf(Present(items[..i]), mb).value + [EntryOf(items[i].value, mb).value])
                 else Failure(LabelTypeError)
  {
    assert items[..i + 1] == items[..i] + [items[i]];
    PresentConcat(items[..i], [items[i]]);
    if items[i].Some? {
      var x := items[i].value;
      assert Present([items[i]]) == [x];
      assert [x][1..] == [];
      assert EntriesOf([x][1..], mb) == Success([]);
      if EntryOf(x, mb).Success? {
        assert [EntryOf(x, mb).value] + [] == [EntryOf(x, mb).value];
        assert EntriesOf([x], mb) == Success([EntryOf(x, mb).value]);
      }
      EntriesOfConcat(Present(items[..i]), [x], mb);
    } else {
      assert Present([items[i]]) == [];
      assert Present(items[..i]) + [] == Present(items[..i]);
    }
  }

  /** A playlist prefix that fails makes the whole playlist fail. */
  lemma EntriesOfPrefixFails(items: seq<Option<RawInfo>>, i: nat, mb: real -> string)
    requires i <= |items|
    requires EntriesOf(Present(items[..i]), mb).Failure?
    ensures EntriesOf(Present(items), mb).Failure?
  {
    assert items == items[..i] + items[i..];
    PresentConcat(items[..i], items[i..]);
    EntriesOfConcat(Present(items[..i]), Present(items[i..]), mb);
  }

  /** `video_info`'s loop over `info.get("entries") or []`: null items
      are skipped, the others normalized in order. */
  method PlaylistEntries(items: seq<Option<RawInfo>>, mb: real -> string) returns (r: Result<seq<Entry>, ProbeError>)
    ensures r == EntriesOf(Present(items), mb)
  {
    var entries: seq<Entry> := [];
    var i := 0;
    while i < |items|
      invariant 0 <= i <= |items|
      invariant EntriesOf(Present(items[..i]), mb) == Success(entries)
    {
      EntriesOfNextItem(items, i, mb);
      var item := items[i];
      if item.Some? {
        var entry := FormatEntry(item.value, mb);
        if entry.Failure? {
          EntriesOfPrefixFails(items, i + 1, mb);
          assert EntriesOf(Present(items), mb).error == LabelTypeError;
          return Failure(LabelTypeError);
        }
        entries := entries + [entry.value];
      }
      i := i + 1;
    }
    assert items[..i] == items;
    r := Success(entries);
  }

  /** `video_info` after the engine call: a playlist's entries with its
      title, or the one record normalized. */
  method VideoInfo(info: RawInfo, mb: real -> string) returns (r: Result<Response, ProbeError>)
    ensures r == ResponseOf(info, mb)
  {
    if Get(info.kind) == Some("playlist") {
      var entries := PlaylistEntries(OrEmpty(info.entries), mb);
      if entries.Failure? {
        return Failure(entries.error);
      }
      r := Success(Playlist(GetWithDefault(info.title, ""), entries.value));
    } else {
      var entry := FormatEntry(info, mb);
      if entry.Failure? {
        return Failure(entry.error);
      }
      r := Success(Single([entry.value]));
    }
  }
}
