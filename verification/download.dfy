/**
 * The download orchestrator `MusicManager.download_song`: quality negotiation, detail
 * lookup with a degraded descriptor, audio resolution with one fallback, the existence
 * check, the streamed transfer, the embedding gate and the lyrics file.
 *
 * The network and the file system are parameters: `Api` holds the response every remote
 * call would give, `Environment` the files on disk and the trace of calls made. `Plan` is
 * the specification of one call as a pure function; `DownloadSong` performs it step by
 * step and is proved to agree with it.
 */
module Download {
  import opened Options
  import opened Strings
  import opened Catalog
  import opened Quality
  import opened Filename
  import opened Paths

  // ---------------------------------------------------------------------------
  // Inputs
  // ---------------------------------------------------------------------------

  /** The configuration values one download reads. */
  datatype Config = Config(
    outputDir: string,
    quality: string,
    preferredFormat: string,
    template: string,
    downloadLyrics: bool,
    useDownloadApi: bool,
    overwrite: bool)

  /** What the pipeline uses for every key missing from the configuration. */
  const Defaults := Config("downloads", "exhigh", "auto", "{title} - {artist}", false, false, false)

  /** The arguments of one `download_song` call; `outputDir` overrides the configured one. */
  datatype Request = Request(songId: string, songName: string, artistName: string, outputDir: Option<string>)

  /** The track-detail call: it raises, or answers with a code and perhaps a `songs` list. */
  datatype DetailResponse = DetailRaises | Detail(code: int, songs: Option<seq<SongInfo>>)

  /** One element of `data` in an audio response; `None` is JSON null. */
  datatype AudioEntry = AudioEntry(url: Option<string>, kind: Option<string>)

  /** An audio-URL call (either endpoint): it raises, or answers with a code and a `data` list. */
  datatype AudioResponse = AudioRaises | Audio(code: int, data: seq<AudioEntry>)

  /** The streamed GET of the audio URL: refused outright, or a body delivered chunk by chunk that may break off. */
  datatype Stream = Refused | Body(chunks: seq<seq<byte>>, broken: bool)

  /** The lyrics call: it raises, or answers with a code and perhaps `lrc.lyric`. */
  datatype LyricsResponse = LyricsRaises | Lyrics(code: int, lyric: Option<string>)

  /**
   * The answer every remote call of one download would give. `cover` is what
   * `download_cover` returns; `tagging` says whether mutagen opens and saves the file
   * (when it raises, `embed_metadata` catches the exception and the file is left as it was).
   */
  datatype Api = Api(
    detail: DetailResponse,
    audioV1: AudioResponse,
    audio: AudioResponse,
    stream: Stream,
    cover: Option<seq<byte>>,
    tagging: bool,
    lyrics: LyricsResponse)

  // ---------------------------------------------------------------------------
  // Outputs
  // ---------------------------------------------------------------------------

  /**
   * What a file on disk holds: an audio body as streamed, the same body saved by mutagen
   * with the descriptor's tags and perhaps a cover picture, or a text file.
   */
  datatype Content =
    | AudioFile(bytes: seq<byte>)
    | Tagged(bytes: seq<byte>, info: SongInfo, picture: Option<seq<byte>>)
    | TextFile(text: string)

  /** One observable step of a download, in the order the pipeline takes them. */
  datatype Effect =
    | DetailCall(id: string)
    | AudioV1Call(id: string, level: string)
    | AudioCall(id: string)
    | TransferCall(url: string)
    | AudioWrite(path: string)
    | CoverCall(url: string)
    | EmbedCall(path: string, info: SongInfo, cover: Option<seq<byte>>)
    | LyricsCall(id: string)
    | LyricsWrite(path: string)

  /** The exception that ended a download inside its catch-all handler. */
  datatype Fault =
    | DetailFailed     // the detail call raised
    | NoSongs          // a code-200 detail answer with an empty `songs` list
    | AudioFailed      // an audio-URL call raised
    | TransferRefused  // the GET of the audio URL raised before the file was opened
    | TransferBroken   // the body broke off after the file was opened
    | NoCoverUrl       // the embedding gate passed but the descriptor has no `al.picUrl`

  /** The branch a download ended in (the source returns None from all of them). */
  datatype Outcome =
    | NoAudio
    | NoUrl
    | Exists(path: string)
    | Saved(path: string)
    | Failed(fault: Fault)

  /** The whole result of one download: its outcome, the effects in order, the files afterwards. */
  datatype Run = Run(outcome: Outcome, effects: seq<Effect>, files: map<string, Content>)

  // ---------------------------------------------------------------------------
  // The stages
  // ---------------------------------------------------------------------------

  /** Python truthiness of an optional string: present and non-empty. */
  predicate Truthy(s: Option<string>)
  {
    s.Some? && s.value != ""
  }

  /** The descriptor built from the caller's arguments when the detail lookup fails. */
  function Degraded(req: Request): SongInfo
  {
    SongInfo(req.songName, [req.artistName], "Unknown", req.songId, None)
  }

  /** The detail answer counts as a success for the embedding gate. */
  predicate DetailOk(detail: DetailResponse)
  {
    detail.Detail? && detail.code == 200
  }

  /**
   * The descriptor the download works with: the first detail entry when the answer has
   * code 200 and a `songs` list, the degraded descriptor for any other answer.
   */
  function ResolveInfo(detail: DetailResponse, req: Request): (r: Result<SongInfo, Fault>)
    ensures r.Failure? <==> detail.DetailRaises? || (DetailOk(detail) && detail.songs == Some([]))
    ensures r.Success? && !(DetailOk(detail) && detail.songs.Some?) ==> r.value == Degraded(req)
    ensures r.Success? && DetailOk(detail) && detail.songs.Some? ==> r.value == detail.songs.value[0]
  {
    match detail
    case DetailRaises => Failure(DetailFailed)
    case Detail(code, songs) =>
      if code == 200 && songs.Some? then
        if songs.value == [] then Failure(NoSongs) else Success(songs.value[0])
      else Success(Degraded(req))
  }

  /** An audio answer with no usable data: not code 200, or an empty `data` list. */
  predicate Unusable(r: AudioResponse)
  {
    r.Audio? && (r.code != 200 || r.data == [])
  }

  /** The audio answer the download goes on with, and the audio calls made to get it. */
  datatype Resolution = Resolution(response: AudioResponse, calls: seq<Effect>)

  /**
   * With `use_download_api` only the standard endpoint is asked. Otherwise the legacy
   * endpoint is asked at the negotiated level, and the standard one once more only when
   * that answer is unusable.
   */
  function ResolveAudio(useDownloadApi: bool, level: string, api: Api, id: string): Resolution
  {
    if useDownloadApi then Resolution(api.audio, [AudioCall(id)])
    else if Unusable(api.audioV1) then Resolution(api.audio, [AudioV1Call(id, level), AudioCall(id)])
    else Resolution(api.audioV1, [AudioV1Call(id, level)])
  }

  /** The container extension: the entry's `type`, or "mp3" when it is null or empty. */
  function Extension(kind: Option<string>): (ext: string)
    ensures ext != ""
    ensures Truthy(kind) ==> ext == kind.value
    ensures !Truthy(kind) ==> ext == "mp3"
  {
    if Truthy(kind) then kind.value else "mp3"
  }

  /** The request's output directory, or the configured one. */
  function OutputDir(cfg: Config, req: Request): string
  {
    if req.outputDir.Some? then req.outputDir.value else cfg.outputDir
  }

  /** The lyrics text `download_lyrics` would write: empty unless code 200 with `lrc.lyric`. */
  function LyricsText(r: LyricsResponse): string
  {
    match r
    case LyricsRaises => ""
    case Lyrics(code, lyric) => if code == 200 && lyric.Some? then lyric.value else ""
  }

  /** The bytes of a body written chunk by chunk. */
  function Concat(chunks: seq<seq<byte>>): seq<byte>
  {
    if chunks == [] then [] else Concat(chunks[..|chunks| - 1]) + chunks[|chunks| - 1]
  }

  /** The picture `embed_metadata` attaches: the cover bytes when they are truthy (present and non-empty). */
  function Picture(cover: Option<seq<byte>>): Option<seq<byte>>
  {
    if cover.Some? && cover.value != [] then cover else None
  }

  /** `embed_metadata` tags only a file whose suffix, lower-cased, is ".mp3" or ".flac". */
  predicate Taggable(path: string)
  {
    Lower(Suffix(path)) == ".mp3" || Lower(Suffix(path)) == ".flac"
  }

  /**
   * What `embed_metadata` leaves on disk: a taggable audio file that mutagen accepts is
   * saved with the descriptor's tags and the picture; any other file is left as it was.
   */
  function EmbedTags(files: map<string, Content>, path: string, info: SongInfo, cover: Option<seq<byte>>,
                     accepted: bool): map<string, Content>
  {
    if accepted && Taggable(path) && path in files && files[path].AudioFile?
    then files[path := Tagged(files[path].bytes, info, Picture(cover))]
    else files
  }

  /** How far a download gets before it looks at the file system. */
  datatype Prepared =
    | Stopped(outcome: Outcome, calls: seq<Effect>)
    | Ready(info: SongInfo, url: string, path: string, calls: seq<Effect>)

  /**
   * The stages before the existence check, which depend on the configuration and the
   * remote answers only: negotiation, descriptor, audio resolution, the rejection of
   * unusable answers and of a falsy URL, the extension and the target path.
   */
  function Prepare(cfg: Config, api: Api, req: Request): Prepared
  {
    var level := NegotiateQuality(cfg.preferredFormat, cfg.quality);
    var lookup := [DetailCall(req.songId)];
    match ResolveInfo(api.detail, req)
    case Failure(f) => Stopped(Failed(f), lookup)
    case Success(info) =>
      var res := ResolveAudio(cfg.useDownloadApi, level, api, req.songId);
      var calls := lookup + res.calls;
      match res.response
      case AudioRaises => Stopped(Failed(AudioFailed), calls)
      case Audio(code, data) =>
        if code != 200 || data == [] then Stopped(NoAudio, calls)
        else if !Truthy(data[0].url) then Stopped(NoUrl, calls)
        else
          var name := GetFilename(cfg.template, info, Extension(data[0].kind));
          Ready(info, data[0].url.value, JoinPath(OutputDir(cfg, req), name), calls)
  }

  /** The path a download would write to, when it gets as far as the existence check. */
  function Target(cfg: Config, api: Api, req: Request): Option<string>
  {
    match Prepare(cfg, api, req)
    case Stopped(_, _) => None
    case Ready(_, _, path, _) => Some(path)
  }

  /** An effect that is a remote lookup made before the transfer. */
  predicate Lookup(e: Effect)
  {
    e.DetailCall? || e.AudioV1Call? || e.AudioCall?
  }

  /** What happens to the lyrics once the audio is saved, as effects and new files. */
  function LyricsStep(cfg: Config, api: Api, req: Request, path: string, files: map<string, Content>): (r: Run)
    ensures r.outcome == Saved(path)
  {
    if !cfg.downloadLyrics then Run(Saved(path), [], files)
    else
      var text := LyricsText(api.lyrics);
      if text == "" then Run(Saved(path), [LyricsCall(req.songId)], files)
      else
        var lrc := WithSuffix(path, ".lrc");
        Run(Saved(path), [LyricsCall(req.songId), LyricsWrite(lrc)], files[lrc := TextFile(text)])
  }

  /**
   * The stages after the existence check: the transfer, the embedding gate on the detail
   * answer, and the lyrics. Only the effects of these stages are returned. A saved target
   * is tagged only after a code-200 detail answer.
   */
  function Deliver(cfg: Config, api: Api, req: Request, info: SongInfo, url: string, path: string,
                   files: map<string, Content>): (r: Run)
    ensures r.outcome.Failed? || r.outcome == Saved(path)
    ensures r.outcome.Saved? && path in r.files && r.files[path].Tagged? ==> DetailOk(api.detail)
  {
    match api.stream
    case Refused => Run(Failed(TransferRefused), [TransferCall(url)], files)
    case Body(chunks, broken) =>
      var written := files[path := AudioFile(Concat(chunks))];
      var transfer := [TransferCall(url), AudioWrite(path)];
      if broken then Run(Failed(TransferBroken), transfer, written)
      else if DetailOk(api.detail) && info.picUrl.None? then Run(Failed(NoCoverUrl), transfer, written)
      else
        var embed := if DetailOk(api.detail)
          then [CoverCall(info.picUrl.value), EmbedCall(path, info, api.cover)] else [];
        var tagged := if DetailOk(api.detail) then EmbedTags(written, path, info, api.cover, api.tagging) else written;
        var lyrics := LyricsStep(cfg, api, req, path, tagged);
        Run(lyrics.outcome, transfer + embed + lyrics.effects, lyrics.files)
  }

  /** The existence check and the stages after it, from how far the download got before it. */
  function Finish(cfg: Config, api: Api, req: Request, pr: Prepared, files: map<string, Content>): Run
  {
    match pr
    case Stopped(outcome, calls) => Run(outcome, calls, files)
    case Ready(info, url, path, calls) =>
      if path in files && !cfg.overwrite then Run(Exists(path), calls, files)
      else
        var d := Deliver(cfg, api, req, info, url, path, files);
        Run(d.outcome, calls + d.effects, d.files)
  }

  /** One download, from the configuration, the remote answers, the request and the files on disk. */
  function Plan(cfg: Config, api: Api, req: Request, files: map<string, Content>): Run
  {
    Finish(cfg, api, req, Prepare(cfg, api, req), files)
  }

  // ---------------------------------------------------------------------------
  // The imperative pipeline
  // ---------------------------------------------------------------------------

  /** The file system and the record of calls a download works against. */
  class Environment {
    var files: map<string, Content>
    var trace: seq<Effect>

    constructor (files: map<string, Content>)
      ensures this.files == files && trace == []
    {
      this.files := files;
      trace := [];
    }

    /** Records a remote call. */
    method Call(e: Effect)
      modifies this
      ensures files == old(files) && trace == old(trace) + [e]
    {
      trace := trace + [e];
    }

    /** `open(path, "wb")`: the file is created, or truncated when it exists. */
    method OpenForWriting(path: string)
      modifies this
      ensures files == old(files)[path := AudioFile([])]
      ensures trace == old(trace) + [AudioWrite(path)]
    {
      files := files[path := AudioFile([])];
      trace := trace + [AudioWrite(path)];
    }

    /** `f.write(chunk)` on a file opened for writing. */
    method Append(path: string, chunk: seq<byte>)
      requires path in files && files[path].AudioFile?
      modifies this
      ensures files == old(files)[path := AudioFile(old(files)[path].bytes + chunk)]
      ensures trace == old(trace)
    {
      files := files[path := AudioFile(files[path].bytes + chunk)];
    }

    /**
     * `embed_metadata`: the call is recorded; a file with a taggable suffix is opened and
     * saved with the tags when mutagen accepts it, and anything mutagen raises is caught.
     */
    method EmbedMetadata(path: string, info: SongInfo, cover: Option<seq<byte>>, accepted: bool)
      modifies this
      ensures files == EmbedTags(old(files), path, info, cover, accepted)
      ensures trace == old(trace) + [EmbedCall(path, info, cover)]
    {
      trace := trace + [EmbedCall(path, info, cover)];
      var ext := Lower(Suffix(path));
      if ext == ".mp3" || ext == ".flac" {
        if accepted && path in files && files[path].AudioFile? {
          var picture := if cover.Some? && cover.value != [] then cover else None;
          files := files[path := Tagged(files[path].bytes, info, picture)];
        }
      }
    }

    /** Writes a text file whole, replacing any file at `path`. */
    method WriteText(path: string, text: string)
      modifies this
      ensures files == old(files)[path := TextFile(text)]
      ensures trace == old(trace) + [LyricsWrite(path)]
    {
      files := files[path := TextFile(text)];
      trace := trace + [LyricsWrite(path)];
    }
  }

  /** Writes the body of the stream into `path`, skipping empty chunks, as the transfer loop does. */
  method WriteChunks(env: Environment, path: string, chunks: seq<seq<byte>>)
    requires path in env.files && env.files[path] == AudioFile([])
    modifies env
    ensures env.files == old(env.files)[path := AudioFile(Concat(chunks))]
    ensures env.trace == old(env.trace)
  {
    var i := 0;
    while i < |chunks|
      invariant 0 <= i <= |chunks|
      invariant env.files == old(env.files)[path := AudioFile(Concat(chunks[..i]))]
      invariant env.trace == old(env.trace)
    {
      assert chunks[..i + 1][..i] == chunks[..i];
      assert Concat(chunks[..i + 1]) == Concat(chunks[..i]) + chunks[i];
      if chunks[i] != [] {
        env.Append(path, chunks[i]);
      } else {
        assert Concat(chunks[..i]) + chunks[i] == Concat(chunks[..i]);
      }
      assert env.files == old(env.files)[path := AudioFile(Concat(chunks[..i + 1]))];
      i := i + 1;
    }
    assert chunks[..|chunks|] == chunks;
  }

  /** `download_lyrics`: writes the text beside the audio file when the answer carries some. */
  method DownloadLyrics(env: Environment, songId: string, filepath: string, res: LyricsResponse)
    modifies env
    ensures var text := LyricsText(res);
      && (text == "" ==> env.files == old(env.files))
      && (text != "" ==> env.files == old(env.files)[WithSuffix(filepath, ".lrc") := TextFile(text)])
    ensures env.trace == old(env.trace) + [LyricsCall(songId)]
      + (if LyricsText(res) == "" then [] else [LyricsWrite(WithSuffix(filepath, ".lrc"))])
  {
    env.Call(LyricsCall(songId));
    if res.LyricsRaises? || res.code != 200 {
      return;
    }
    var content := "";
    if res.lyric.Some? {
      content := content + res.lyric.value;
      assert content == res.lyric.value;
    }
    if content != "" {
      env.WriteText(WithSuffix(filepath, ".lrc"), content);
    }
  }

  /**
   * The audio-URL calls of `download_song`: the first endpoint chosen by
   * `use_download_api`, then the standard endpoint once more when the legacy answer is unusable.
   */
  method FetchAudio(env: Environment, useDownloadApi: bool, quality: string, api: Api, id: string)
    returns (audioRes: AudioResponse)
    modifies env
    ensures audioRes == ResolveAudio(useDownloadApi, quality, api, id).response
    ensures env.files == old(env.files)
    ensures env.trace == old(env.trace) + ResolveAudio(useDownloadApi, quality, api, id).calls
  {
    if useDownloadApi {
      env.Call(AudioCall(id));
      audioRes := api.audio;
    } else {
      env.Call(AudioV1Call(id, quality));
      audioRes := api.audioV1;
    }
    if audioRes.AudioRaises? {
      return;
    }
    if audioRes.code != 200 || audioRes.data == [] {
      if !useDownloadApi {
        env.Call(AudioCall(id));
        audioRes := api.audio;
      }
    }
  }

  /** The stages of `download_song` after the existence check; they agree with `Deliver`. */
  method Transfer(env: Environment, cfg: Config, api: Api, req: Request, info: SongInfo,
                  url: string, filepath: string) returns (outcome: Outcome)
    modifies env
    ensures var d := Deliver(cfg, api, req, info, url, filepath, old(env.files));
      outcome == d.outcome && env.files == d.files && env.trace == old(env.trace) + d.effects
  {
    ghost var files0, trace0 := env.files, env.trace;
    env.Call(TransferCall(url));
    if api.stream.Refused? {
      assert Deliver(cfg, api, req, info, url, filepath, files0) == Run(Failed(TransferRefused), [TransferCall(url)], files0);
      return Failed(TransferRefused);
    }
    env.OpenForWriting(filepath);
    WriteChunks(env, filepath, api.stream.chunks);
    ghost var written := files0[filepath := AudioFile(Concat(api.stream.chunks))];
    ghost var transfer := [TransferCall(url), AudioWrite(filepath)];
    assert env.files == written;
    assert env.trace == trace0 + transfer;
    if api.stream.broken {
      assert Deliver(cfg, api, req, info, url, filepath, files0) == Run(Failed(TransferBroken), transfer, written);
      return Failed(TransferBroken);
    }

    ghost var embed: seq<Effect> := [];
    if DetailOk(api.detail) {
      if info.picUrl.None? {
        assert Deliver(cfg, api, req, info, url, filepath, files0) == Run(Failed(NoCoverUrl), transfer, written);
        return Failed(NoCoverUrl);
      }
      env.Call(CoverCall(info.picUrl.value));
      env.EmbedMetadata(filepath, info, api.cover, api.tagging);
      embed := [CoverCall(info.picUrl.value), EmbedCall(filepath, info, api.cover)];
    }
    ghost var tagged := if DetailOk(api.detail) then EmbedTags(written, filepath, info, api.cover, api.tagging) else written;
    assert env.files == tagged;
    Regroup(trace0, transfer, embed);
    assert env.trace == trace0 + (transfer + embed);

    ghost var lyrics := LyricsStep(cfg, api, req, filepath, tagged);
    ghost var before := env.trace;
    if cfg.downloadLyrics {
      DownloadLyrics(env, req.songId, filepath, api.lyrics);
      if LyricsText(api.lyrics) != "" {
        Regroup(before, [LyricsCall(req.songId)], [LyricsWrite(WithSuffix(filepath, ".lrc"))]);
      }
    }
    assert env.files == lyrics.files;
    assert env.trace == before + lyrics.effects;
    Regroup(trace0, transfer + embed, lyrics.effects);
    assert Deliver(cfg, api, req, info, url, filepath, files0)
        == Run(Saved(filepath), transfer + embed + lyrics.effects, lyrics.files);
    return Saved(filepath);
  }

  /** Regrouping of a concatenation of effect sequences. */
  lemma Regroup(a: seq<Effect>, b: seq<Effect>, c: seq<Effect>)
    ensures a + b + c == a + (b + c)
  {
  }

  /**
   * The stages of `download_song` before the existence check: negotiation, the detail
   * call, the audio calls, the rejections and the target path; they agree with `Prepare`.
   */
  method PrepareDownload(env: Environment, cfg: Config, api: Api, req: Request) returns (pr: Prepared)
    modifies env
    ensures pr == Prepare(cfg, api, req)
    ensures env.files == old(env.files) && env.trace == old(env.trace) + pr.calls
  {
    var outputDir := if req.outputDir.Some? then req.outputDir.value else cfg.outputDir;
    var quality := NegotiateQuality(cfg.preferredFormat, cfg.quality);

    env.Call(DetailCall(req.songId));
    var resolved := ResolveInfo(api.detail, req);
    if resolved.Failure? {
      return Stopped(Failed(resolved.error), [DetailCall(req.songId)]);
    }
    var info := resolved.value;

    var audioRes := FetchAudio(env, cfg.useDownloadApi, quality, api, req.songId);
    var calls := [DetailCall(req.songId)] + ResolveAudio(cfg.useDownloadApi, quality, api, req.songId).calls;
    Regroup(old(env.trace), [DetailCall(req.songId)], ResolveAudio(cfg.useDownloadApi, quality, api, req.songId).calls);
    assert env.trace == old(env.trace) + calls;
    if audioRes.AudioRaises? {
      return Stopped(Failed(AudioFailed), calls);
    }
    if audioRes.code != 200 || audioRes.data == [] {
      return Stopped(NoAudio, calls);
    }

    var entry := audioRes.data[0];
    if !Truthy(entry.url) {
      return Stopped(NoUrl, calls);
    }
    var url := entry.url.value;
    var ext := if entry.kind.Some? then entry.kind.value else "";
    if ext == "" {
      ext := "mp3";
    }
    assert ext == Extension(entry.kind);

    var filename := GetFilename(cfg.template, info, ext);
    var filepath := JoinPath(outputDir, filename);
    return Ready(info, url, filepath, calls);
  }

  /** `download_song`, over the environment; it agrees with `Plan` on outcome, files and effects. */
  method DownloadSong(env: Environment, cfg: Config, api: Api, req: Request) returns (outcome: Outcome)
    modifies env
    ensures var run := Plan(cfg, api, req, old(env.files));
      outcome == run.outcome && env.files == run.files && env.trace == old(env.trace) + run.effects
  {
    ghost var files0, trace0 := env.files, env.trace;
    var pr := PrepareDownload(env, cfg, api, req);
    if pr.Stopped? {
      return pr.outcome;
    }
    if pr.path in env.files && !cfg.overwrite {
      return Exists(pr.path);
    }
    ghost var d := Deliver(cfg, api, req, pr.info, pr.url, pr.path, files0);
    outcome := Transfer(env, cfg, api, req, pr.info, pr.url, pr.path);
    Regroup(trace0, pr.calls, d.effects);
  }
}
