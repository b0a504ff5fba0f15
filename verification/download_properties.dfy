/**
 * What one call of `download_song` does, stated about its specification `Plan`: which
 * audio endpoints are asked, when the download stops without touching the disk, when an
 * existing file is kept, when embedding and lyrics happen, and what a broken transfer
 * leaves behind.
 */
module DownloadProperties {
  import opened Options
  import opened Catalog
  import opened Strings
  import opened Quality
  import opened Filename
  import opened Paths
  import opened Download

  /** The level the legacy endpoint is asked at. */
  function Level(cfg: Config): string
  {
    NegotiateQuality(cfg.preferredFormat, cfg.quality)
  }

  /** The audio answer the download goes on with. */
  function FinalAudio(cfg: Config, api: Api, req: Request): AudioResponse
  {
    ResolveAudio(cfg.useDownloadApi, Level(cfg), api, req.songId).response
  }

  /** The stages before the existence check only look things up, and stop only with a lookup's outcome. */
  lemma PrepareFacts(cfg: Config, api: Api, req: Request)
    ensures forall e :: e in Prepare(cfg, api, req).calls ==> Lookup(e)
    ensures Prepare(cfg, api, req).Stopped? ==> StopOutcome(Prepare(cfg, api, req).outcome)
  {
    if ResolveInfo(api.detail, req).Success? {
      var res := ResolveAudio(cfg.useDownloadApi, Level(cfg), api, req.songId);
      assert forall e :: e in res.calls ==> Lookup(e);
      PrepareCalls(cfg, api, req);
    }
  }

  /** A download that reaches the existence check has a descriptor, a usable answer and a truthy URL. */
  lemma PrepareReady(cfg: Config, api: Api, req: Request)
    requires Prepare(cfg, api, req).Ready?
    ensures ResolveInfo(api.detail, req).Success?
    ensures var r := FinalAudio(cfg, api, req);
      && r.Audio? && r.code == 200 && r.data != [] && Truthy(r.data[0].url)
      && Prepare(cfg, api, req).info == ResolveInfo(api.detail, req).value
      && Prepare(cfg, api, req).url == r.data[0].url.value
      && Prepare(cfg, api, req).path
         == JoinPath(OutputDir(cfg, req), GetFilename(cfg.template, ResolveInfo(api.detail, req).value, Extension(r.data[0].kind)))
  {
  }

  /** Conversely, a resolved descriptor and a usable answer with a truthy URL reach the existence check. */
  lemma PrepareWhenUsable(cfg: Config, api: Api, req: Request, info: SongInfo, data: seq<AudioEntry>)
    requires ResolveInfo(api.detail, req) == Success(info)
    requires FinalAudio(cfg, api, req) == Audio(200, data) && data != [] && Truthy(data[0].url)
    ensures Prepare(cfg, api, req)
         == Ready(info, data[0].url.value,
                  JoinPath(OutputDir(cfg, req), GetFilename(cfg.template, info, Extension(data[0].kind))),
                  [DetailCall(req.songId)] + ResolveAudio(cfg.useDownloadApi, Level(cfg), api, req.songId).calls)
  {
  }

  /** Once the descriptor is resolved, the calls before the existence check are the detail lookup and the audio calls. */
  lemma PrepareCalls(cfg: Config, api: Api, req: Request)
    requires ResolveInfo(api.detail, req).Success?
    ensures Prepare(cfg, api, req).calls
         == [DetailCall(req.songId)] + ResolveAudio(cfg.useDownloadApi, Level(cfg), api, req.songId).calls
  {
  }

  /** The effects a download adds after the existence check: those of `Deliver` when it gets there. */
  function Later(cfg: Config, api: Api, req: Request, pr: Prepared, files: map<string, Content>): seq<Effect>
  {
    if pr.Ready? && !(pr.path in files && !cfg.overwrite)
    then Deliver(cfg, api, req, pr.info, pr.url, pr.path, files).effects
    else []
  }

  /** The effects of a download are its lookups followed by the delivery effects, none of which is a lookup. */
  lemma FinishEffects(cfg: Config, api: Api, req: Request, pr: Prepared, files: map<string, Content>)
    ensures Finish(cfg, api, req, pr, files).effects == pr.calls + Later(cfg, api, req, pr, files)
    ensures forall e :: e in Later(cfg, api, req, pr, files) ==> !Lookup(e)
  {
    if Later(cfg, api, req, pr, files) == [] {
      assert pr.calls + [] == pr.calls;
    }
  }

  /** A delivery effect of a download is one of `Deliver`, which then decides the outcome and the files. */
  lemma LaterEffect(cfg: Config, api: Api, req: Request, files: map<string, Content>, e: Effect)
    requires e in Plan(cfg, api, req, files).effects && !Lookup(e)
    ensures var pr := Prepare(cfg, api, req);
      var d := Deliver(cfg, api, req, pr.info, pr.url, pr.path, files);
      && pr.Ready? && !(pr.path in files && !cfg.overwrite)
      && e in d.effects
      && Plan(cfg, api, req, files) == Run(d.outcome, pr.calls + d.effects, d.files)
  {
    var pr := Prepare(cfg, api, req);
    PrepareFacts(cfg, api, req);
    FinishEffects(cfg, api, req, pr, files);
    assert e !in pr.calls;
  }

  /** The delivery stages end with the file saved, or with a transfer or embedding fault. */
  lemma DeliverOutcome(cfg: Config, api: Api, req: Request, info: SongInfo, url: string, path: string,
                       files: map<string, Content>)
    ensures var o := Deliver(cfg, api, req, info, url, path, files).outcome;
      o == Saved(path) || o == Failed(TransferRefused) || o == Failed(TransferBroken) || o == Failed(NoCoverUrl)
  {
  }

  /** A download stopped early keeps its early outcome; one that got further never ends with an early one. */
  lemma FinishOutcome(cfg: Config, api: Api, req: Request, pr: Prepared, files: map<string, Content>)
    requires pr.Stopped? ==> StopOutcome(pr.outcome)
    ensures pr.Stopped? ==> Finish(cfg, api, req, pr, files) == Run(pr.outcome, pr.calls, files)
    ensures pr.Ready? ==> !StopOutcome(Finish(cfg, api, req, pr, files).outcome)
    ensures Finish(cfg, api, req, pr, files).outcome.Saved? ==> pr.Ready? && !(pr.path in files && !cfg.overwrite)
    ensures pr.Ready? && Finish(cfg, api, req, pr, files).outcome.Saved? ==>
      var d := Deliver(cfg, api, req, pr.info, pr.url, pr.path, files);
      && Finish(cfg, api, req, pr, files) == Run(d.outcome, pr.calls + d.effects, d.files)
      && d.outcome == Saved(pr.path)
  {
    if pr.Ready? && !(pr.path in files && !cfg.overwrite) {
      DeliverOutcome(cfg, api, req, pr.info, pr.url, pr.path, files);
    }
  }

  /** The outcomes a download can stop with before the existence check. */
  predicate StopOutcome(o: Outcome)
  {
    o.NoAudio? || o.NoUrl? || o == Failed(DetailFailed) || o == Failed(NoSongs) || o == Failed(AudioFailed)
  }

  // ---------------------------------------------------------------------------
  // Audio resolution
  // ---------------------------------------------------------------------------

  predicate IsAudioCall(e: Effect)
  {
    e.AudioV1Call? || e.AudioCall?
  }

  /** The audio-URL calls among the effects, in order. */
  function AudioCalls(effects: seq<Effect>): (r: seq<Effect>)
    ensures |r| <= |effects|
    ensures forall e :: e in r ==> e in effects && IsAudioCall(e)
  {
    if effects == [] then []
    else (if IsAudioCall(effects[0]) then [effects[0]] else []) + AudioCalls(effects[1..])
  }

  lemma {:induction false} AudioCallsAppend(a: seq<Effect>, b: seq<Effect>)
    ensures AudioCalls(a + b) == AudioCalls(a) + AudioCalls(b)
  {
    if a == [] {
      assert a + b == b;
    } else {
      assert (a + b)[0] == a[0];
      assert (a + b)[1..] == a[1..] + b;
      AudioCallsAppend(a[1..], b);
    }
  }

  lemma {:induction false} AudioCallsOfNonLookups(a: seq<Effect>)
    requires forall e :: e in a ==> !Lookup(e)
    ensures AudioCalls(a) == []
  {
    if a != [] {
      assert a[0] in a;
      assert forall e :: e in a[1..] ==> e in a;
      AudioCallsOfNonLookups(a[1..]);
    }
  }

  /** Once the descriptor is resolved, the audio calls of a download are those of `ResolveAudio`. */
  lemma AudioCallsOfPlan(cfg: Config, api: Api, req: Request, files: map<string, Content>)
    requires ResolveInfo(api.detail, req).Success?
    ensures AudioCalls(Plan(cfg, api, req, files).effects)
         == ResolveAudio(cfg.useDownloadApi, Level(cfg), api, req.songId).calls
  {
    var res := ResolveAudio(cfg.useDownloadApi, Level(cfg), api, req.songId);
    var pr := Prepare(cfg, api, req);
    var later := Later(cfg, api, req, pr, files);
    PrepareCalls(cfg, api, req);
    FinishEffects(cfg, api, req, pr, files);
    AudioCallsAppend(pr.calls, later);
    AudioCallsOfNonLookups(later);
    AudioCallsAppend([DetailCall(req.songId)], res.calls);
    assert AudioCalls([DetailCall(req.songId)]) == [];
    AudioCallsOfResolution(res);
    assert AudioCalls(pr.calls) + [] == AudioCalls(pr.calls);
  }

  /** The calls `ResolveAudio` makes are all audio-URL calls. */
  lemma AudioCallsOfResolution(res: Resolution)
    requires forall e :: e in res.calls ==> IsAudioCall(e)
    requires 1 <= |res.calls| <= 2
    ensures AudioCalls(res.calls) == res.calls
  {
    assert IsAudioCall(res.calls[0]);
    if |res.calls| == 1 {
      assert res.calls[1..] == [];
    } else {
      assert IsAudioCall(res.calls[1]);
      assert res.calls[1..][1..] == [];
    }
  }

  /** With `use_download_api` only the standard endpoint is asked, and only once. */
  lemma DownloadApiOnly(cfg: Config, api: Api, req: Request, files: map<string, Content>)
    requires cfg.useDownloadApi
    requires ResolveInfo(api.detail, req).Success?
    ensures AudioCalls(Plan(cfg, api, req, files).effects) == [AudioCall(req.songId)]
  {
    AudioCallsOfPlan(cfg, api, req, files);
  }

  /**
   * Without it the legacy endpoint is asked at the negotiated level, followed by exactly
   * one call of the standard endpoint, which happens if and only if the legacy answer is
   * unusable (not code 200, or no data).
   */
  lemma LegacyWithOneFallback(cfg: Config, api: Api, req: Request, files: map<string, Content>)
    requires !cfg.useDownloadApi
    requires ResolveInfo(api.detail, req).Success?
    ensures AudioCalls(Plan(cfg, api, req, files).effects)
         == [AudioV1Call(req.songId, Level(cfg))] + (if Unusable(api.audioV1) then [AudioCall(req.songId)] else [])
  {
    AudioCallsOfPlan(cfg, api, req, files);
  }

  /** A code-200 legacy answer with a null or empty URL ends the download without the fallback. */
  lemma NullUrlHasNoFallback(cfg: Config, api: Api, req: Request, files: map<string, Content>)
    requires !cfg.useDownloadApi
    requires ResolveInfo(api.detail, req).Success?
    requires api.audioV1.Audio? && api.audioV1.code == 200 && api.audioV1.data != []
    requires !Truthy(api.audioV1.data[0].url)
    ensures var run := Plan(cfg, api, req, files);
      && run.outcome == NoUrl
      && AudioCalls(run.effects) == [AudioV1Call(req.songId, Level(cfg))]
      && run.files == files
  {
    AudioCallsOfPlan(cfg, api, req, files);
  }

  /** A detail call that raises, or a code-200 answer with an empty `songs` list, ends the download at once. */
  lemma FailedLookupStops(cfg: Config, api: Api, req: Request, files: map<string, Content>)
    requires ResolveInfo(api.detail, req).Failure?
    ensures Plan(cfg, api, req, files)
         == Run(Failed(if api.detail.DetailRaises? then DetailFailed else NoSongs), [DetailCall(req.songId)], files)
  {
  }

  // ---------------------------------------------------------------------------
  // Rejections and the existence check
  // ---------------------------------------------------------------------------

  /**
   * Once the descriptor is resolved, the download ends with `NoAudio` exactly when the
   * final audio answer is unusable, with `NoUrl` exactly when it is usable but its first
   * entry has a falsy URL, and with `AudioFailed` exactly when the audio call raised.
   */
  lemma RejectedAnswers(cfg: Config, api: Api, req: Request, files: map<string, Content>)
    requires ResolveInfo(api.detail, req).Success?
    ensures var r := FinalAudio(cfg, api, req);
      var run := Plan(cfg, api, req, files);
      && (run.outcome == NoAudio <==> Unusable(r))
      && (run.outcome == NoUrl <==> r.Audio? && !Unusable(r) && !Truthy(r.data[0].url))
      && (run.outcome == Failed(AudioFailed) <==> r.AudioRaises?)
      && (Target(cfg, api, req).Some? <==> r.Audio? && !Unusable(r) && Truthy(r.data[0].url))
  {
    PrepareFacts(cfg, api, req);
    PrepareRejects(cfg, api, req);
    FinishOutcome(cfg, api, req, Prepare(cfg, api, req), files);
  }

  lemma PrepareRejects(cfg: Config, api: Api, req: Request)
    requires ResolveInfo(api.detail, req).Success?
    ensures var r := FinalAudio(cfg, api, req);
      var pr := Prepare(cfg, api, req);
      && (pr == Stopped(NoAudio, pr.calls) <==> Unusable(r))
      && (pr == Stopped(NoUrl, pr.calls) <==> r.Audio? && !Unusable(r) && !Truthy(r.data[0].url))
      && (pr == Stopped(Failed(AudioFailed), pr.calls) <==> r.AudioRaises?)
      && (pr.Ready? <==> r.Audio? && !Unusable(r) && Truthy(r.data[0].url))
  {
  }

  /** A download that ends with no audio, no URL or an existing file writes nothing and only looks things up. */
  lemma StoppedRunsTouchNothing(cfg: Config, api: Api, req: Request, files: map<string, Content>)
    requires var o := Plan(cfg, api, req, files).outcome; o.NoAudio? || o.NoUrl? || o.Exists?
    ensures Plan(cfg, api, req, files).files == files
    ensures forall e :: e in Plan(cfg, api, req, files).effects ==> Lookup(e)
  {
    PrepareFacts(cfg, api, req);
  }

  /**
   * The existing file is kept, with no transfer, write, embedding or lyrics step, if and
   * only if the target exists and `overwrite` is off.
   */
  lemma ExistingTargetIsKept(cfg: Config, api: Api, req: Request, files: map<string, Content>, p: string)
    ensures Plan(cfg, api, req, files).outcome == Exists(p)
        <==> Target(cfg, api, req) == Some(p) && p in files && !cfg.overwrite
    ensures Plan(cfg, api, req, files).outcome == Exists(p) ==> Plan(cfg, api, req, files).files == files
    ensures Plan(cfg, api, req, files).outcome == Exists(p)
        ==> forall e :: e in Plan(cfg, api, req, files).effects ==> Lookup(e)
  {
    if Plan(cfg, api, req, files).outcome == Exists(p) {
      StoppedRunsTouchNothing(cfg, api, req, files);
    }
  }

  /**
   * The target is `<output dir>/<rendered name>.<ext>`, where `ext` is the first entry's
   * `type`, or "mp3" when that is null or empty.
   */
  lemma TargetExtension(cfg: Config, api: Api, req: Request, p: string)
    requires Target(cfg, api, req) == Some(p)
    ensures var r := FinalAudio(cfg, api, req);
      && r.Audio? && r.code == 200 && r.data != []
      && OutputDir(cfg, req) + "/" <= p
      && EndsWith(p, "." + Extension(r.data[0].kind))
      && (!Truthy(r.data[0].kind) ==> EndsWith(p, ".mp3"))
  {
    PrepareReady(cfg, api, req);
    var r := FinalAudio(cfg, api, req);
    var info := ResolveInfo(api.detail, req).value;
    var ext := Extension(r.data[0].kind);
    assert p == JoinPath(OutputDir(cfg, req), GetFilename(cfg.template, info, ext));
    TargetShape(OutputDir(cfg, req), cfg.template, info, ext);
    if !Truthy(r.data[0].kind) {
      DotMp3();
    }
  }

  /** The default extension with its dot. */
  lemma DotMp3()
    ensures "." + Extension(None) == ".mp3"
  {
  }

  /** A rendered target lies in its directory and ends with its extension. */
  lemma TargetShape(dir: string, template: string, info: SongInfo, ext: string)
    ensures dir + "/" <= JoinPath(dir, GetFilename(template, info, ext))
    ensures EndsWith(JoinPath(dir, GetFilename(template, info, ext)), "." + ext)
  {
    var name := GetFilename(template, info, ext);
    var p := JoinPath(dir, name);
    EndsWithPrefixed(dir + "/", name, "." + ext);
  }

  /**
   * When the detail answer is not a code-200 answer with songs, the default template names
   * the file after the caller's song and artist names, with the forbidden characters removed.
   */
  lemma DegradedTarget(cfg: Config, api: Api, req: Request, p: string)
    requires api.detail.Detail? && !(api.detail.code == 200 && api.detail.songs.Some?)
    requires cfg.template == Defaults.template
    requires Target(cfg, api, req) == Some(p)
    ensures p == JoinPath(OutputDir(cfg, req),
      Sanitize(req.songName) + " - " + Sanitize(req.artistName) + "." + Extension(FinalAudio(cfg, api, req).data[0].kind))
  {
    var info := Degraded(req);
    var ext := Extension(FinalAudio(cfg, api, req).data[0].kind);
    DefaultTemplate(info, ext);
    assert Join(info.artists, ", ") == req.artistName;
  }

  // ---------------------------------------------------------------------------
  // Transfer, embedding and lyrics
  // ---------------------------------------------------------------------------

  /** What `Plan` does once it passes the existence check. */
  lemma Delivered(cfg: Config, api: Api, req: Request, files: map<string, Content>)
    requires Target(cfg, api, req).Some?
    requires !(Target(cfg, api, req).value in files && !cfg.overwrite)
    ensures var pr := Prepare(cfg, api, req);
      var d := Deliver(cfg, api, req, pr.info, pr.url, pr.path, files);
      Plan(cfg, api, req, files) == Run(d.outcome, pr.calls + d.effects, d.files)
  {
  }

  /**
   * What a saved delivery leaves at its target: the streamed body, saved with the
   * descriptor's tags and the picture when the detail answer had code 200, the suffix is
   * taggable and mutagen accepts the file, and as streamed otherwise.
   */
  function SavedContent(api: Api, info: SongInfo, path: string): Content
    requires api.stream.Body?
  {
    var body := Concat(api.stream.chunks);
    if DetailOk(api.detail) && api.tagging && Taggable(path) then Tagged(body, info, Picture(api.cover))
    else AudioFile(body)
  }

  /**
   * `embed_metadata` changes at most the file it is given. An audio file there keeps its
   * bytes, and it is tagged with the descriptor and the truthy cover exactly when mutagen
   * accepts it and its suffix is ".mp3" or ".flac" in any case.
   */
  lemma EmbedTagsEffect(files: map<string, Content>, path: string, info: SongInfo, cover: Option<seq<byte>>,
                        accepted: bool, bytes: seq<byte>)
    requires path in files && files[path] == AudioFile(bytes)
    ensures var r := EmbedTags(files, path, info, cover, accepted);
      forall q :: q != path ==> (q in r <==> q in files) && (q in files ==> r[q] == files[q])
    ensures var r := EmbedTags(files, path, info, cover, accepted);
      && path in r && !r[path].TextFile? && r[path].bytes == bytes
      && (r[path].Tagged? <==> accepted && Taggable(path))
      && (r[path].Tagged? ==> r[path].info == info)
      && (r[path].Tagged? ==> (r[path].picture.Some? <==> cover.Some? && cover.value != []))
      && (r[path].Tagged? && r[path].picture.Some? ==> r[path].picture == cover)
  {
  }

  /** The one byte string a file holds as audio, tagged or not. */
  lemma SavedContentBody(api: Api, info: SongInfo, path: string)
    requires api.stream.Body?
    ensures var c := SavedContent(api, info, path);
      && !c.TextFile? && c.bytes == Concat(api.stream.chunks)
      && (c.Tagged? <==> DetailOk(api.detail) && api.tagging && Taggable(path))
      && (c.Tagged? ==> c.info == info && c.picture == Picture(api.cover))
  {
  }

  /** The delivery stages fetch the cover and embed the tags only after a code-200 detail answer. */
  lemma DeliverEmbedGate(cfg: Config, api: Api, req: Request, info: SongInfo, url: string, path: string,
                         files: map<string, Content>)
    ensures var d := Deliver(cfg, api, req, info, url, path, files);
      forall e :: e in d.effects && (e.CoverCall? || e.EmbedCall?) ==> DetailOk(api.detail)
  {
    var d := Deliver(cfg, api, req, info, url, path, files);
    if api.stream.Body? && !api.stream.broken && !(DetailOk(api.detail) && info.picUrl.None?) {
      var written := files[path := AudioFile(Concat(api.stream.chunks))];
      var embed := if DetailOk(api.detail)
        then [CoverCall(info.picUrl.value), EmbedCall(path, info, api.cover)] else [];
      var tagged := if DetailOk(api.detail) then EmbedTags(written, path, info, api.cover, api.tagging) else written;
      var lyrics := LyricsStep(cfg, api, req, path, tagged);
      LyricsStepWrites(cfg, api, req, path, tagged);
      assert d.effects == [TransferCall(url), AudioWrite(path)] + embed + lyrics.effects;
    }
  }

  /** The cover is fetched and the tags embedded only when the detail answer had code 200. */
  lemma EmbeddingNeedsDetail(cfg: Config, api: Api, req: Request, files: map<string, Content>)
    ensures forall e :: e in Plan(cfg, api, req, files).effects ==> (e.CoverCall? || e.EmbedCall? ==> DetailOk(api.detail))
  {
    var pr := Prepare(cfg, api, req);
    PrepareFacts(cfg, api, req);
    FinishEffects(cfg, api, req, pr, files);
    if pr.Ready? {
      DeliverEmbedGate(cfg, api, req, pr.info, pr.url, pr.path, files);
    }
  }

  /** A saved delivery after a code-200 detail answer fetched the descriptor's cover and embedded it. */
  lemma DeliverEmbeds(cfg: Config, api: Api, req: Request, info: SongInfo, url: string, path: string,
                      files: map<string, Content>)
    requires Deliver(cfg, api, req, info, url, path, files).outcome.Saved?
    requires DetailOk(api.detail)
    ensures info.picUrl.Some?
    ensures var d := Deliver(cfg, api, req, info, url, path, files);
      CoverCall(info.picUrl.value) in d.effects && EmbedCall(path, info, api.cover) in d.effects
  {
    var d := Deliver(cfg, api, req, info, url, path, files);
    assert d.effects[2] == CoverCall(info.picUrl.value);
    assert d.effects[3] == EmbedCall(path, info, api.cover);
  }

  /**
   * A saved download with a code-200 detail answer fetched the first song's cover and
   * embedded that song's descriptor into the saved file.
   */
  lemma SavedWithDetailEmbeds(cfg: Config, api: Api, req: Request, files: map<string, Content>, p: string)
    requires Plan(cfg, api, req, files).outcome == Saved(p)
    requires DetailOk(api.detail)
    ensures api.detail.songs.Some? && api.detail.songs.value != []
    ensures var info := api.detail.songs.value[0];
      && info.picUrl.Some?
      && CoverCall(info.picUrl.value) in Plan(cfg, api, req, files).effects
      && EmbedCall(p, info, api.cover) in Plan(cfg, api, req, files).effects
  {
    var pr := Prepare(cfg, api, req);
    PrepareFacts(cfg, api, req);
    FinishOutcome(cfg, api, req, pr, files);
    PrepareReady(cfg, api, req);
    DeliverEmbeds(cfg, api, req, pr.info, pr.url, pr.path, files);
  }

  /**
   * A code-200 detail answer without a `songs` key leaves the degraded descriptor, which
   * has no cover URL: the audio is written and the download then fails at the embedding gate.
   */
  lemma DetailWithoutSongsFailsAfterTransfer(cfg: Config, api: Api, req: Request, files: map<string, Content>, p: string)
    requires DetailOk(api.detail) && api.detail.songs.None?
    requires Target(cfg, api, req) == Some(p) && !(p in files && !cfg.overwrite)
    requires api.stream.Body? && !api.stream.broken
    ensures var run := Plan(cfg, api, req, files);
      && run.outcome == Failed(NoCoverUrl)
      && run.files == files[p := AudioFile(Concat(api.stream.chunks))]
  {
  }

  /** The lyrics effects of the delivery stages, and what they leave. */
  lemma DeliverLyrics(cfg: Config, api: Api, req: Request, info: SongInfo, url: string, path: string,
                      files: map<string, Content>)
    ensures var d := Deliver(cfg, api, req, info, url, path, files);
      forall id :: LyricsCall(id) in d.effects ==> d.outcome == Saved(path) && cfg.downloadLyrics && id == req.songId
    ensures var d := Deliver(cfg, api, req, info, url, path, files);
      forall q :: LyricsWrite(q) in d.effects ==>
        && d.outcome == Saved(path) && cfg.downloadLyrics && LyricsText(api.lyrics) != ""
        && q == WithSuffix(path, ".lrc") && q in d.files && d.files[q] == TextFile(LyricsText(api.lyrics))
    ensures var d := Deliver(cfg, api, req, info, url, path, files);
      (d.outcome.Saved? && cfg.downloadLyrics && LyricsText(api.lyrics) != "") ==> LyricsWrite(WithSuffix(path, ".lrc")) in d.effects
  {
    var d := Deliver(cfg, api, req, info, url, path, files);
    if d.outcome.Saved? && cfg.downloadLyrics && LyricsText(api.lyrics) != "" {
      assert d.effects[|d.effects| - 1] == LyricsWrite(WithSuffix(path, ".lrc"));
    }
  }

  /**
   * A lyrics file is written only beside a saved download that asked for lyrics and got a
   * non-empty text: at the audio path with its suffix replaced by ".lrc", holding that text.
   */
  lemma LyricsWrittenBesideAudio(cfg: Config, api: Api, req: Request, files: map<string, Content>, q: string)
    requires LyricsWrite(q) in Plan(cfg, api, req, files).effects
    ensures var run := Plan(cfg, api, req, files);
      && run.outcome.Saved?
      && q == WithSuffix(run.outcome.path, ".lrc")
      && cfg.downloadLyrics && LyricsText(api.lyrics) != ""
      && q in run.files && run.files[q] == TextFile(LyricsText(api.lyrics))
  {
    var pr := Prepare(cfg, api, req);
    LaterEffect(cfg, api, req, files, LyricsWrite(q));
    DeliverLyrics(cfg, api, req, pr.info, pr.url, pr.path, files);
  }

  /** Conversely, a saved download that asked for lyrics and got a non-empty text writes them. */
  lemma SavedWritesLyrics(cfg: Config, api: Api, req: Request, files: map<string, Content>, p: string)
    requires Plan(cfg, api, req, files).outcome == Saved(p)
    requires cfg.downloadLyrics && LyricsText(api.lyrics) != ""
    ensures LyricsWrite(WithSuffix(p, ".lrc")) in Plan(cfg, api, req, files).effects
  {
    var pr := Prepare(cfg, api, req);
    PrepareFacts(cfg, api, req);
    FinishOutcome(cfg, api, req, pr, files);
    DeliverLyrics(cfg, api, req, pr.info, pr.url, pr.path, files);
  }

  /** The lyrics endpoint is asked only by a saved download with `download_lyrics` on. */
  lemma LyricsOnlyWhenAsked(cfg: Config, api: Api, req: Request, files: map<string, Content>, id: string)
    requires LyricsCall(id) in Plan(cfg, api, req, files).effects
    ensures cfg.downloadLyrics && id == req.songId
    ensures Plan(cfg, api, req, files).outcome.Saved?
  {
    var pr := Prepare(cfg, api, req);
    LaterEffect(cfg, api, req, files, LyricsCall(id));
    DeliverLyrics(cfg, api, req, pr.info, pr.url, pr.path, files);
  }

  /**
   * A saved delivery streamed a complete body into its target, which holds the saved
   * content unless the lyrics took that path.
   */
  lemma DeliverSaved(cfg: Config, api: Api, req: Request, info: SongInfo, url: string, path: string,
                     files: map<string, Content>)
    requires Deliver(cfg, api, req, info, url, path, files).outcome.Saved?
    ensures api.stream.Body? && !api.stream.broken
    ensures var d := Deliver(cfg, api, req, info, url, path, files);
      && path in d.files
      && (LyricsWrite(path) !in d.effects ==> d.files[path] == SavedContent(api, info, path))
  {
    var d := Deliver(cfg, api, req, info, url, path, files);
    var written := files[path := AudioFile(Concat(api.stream.chunks))];
    var tagged := if DetailOk(api.detail) then EmbedTags(written, path, info, api.cover, api.tagging) else written;
    assert path in tagged && tagged[path] == SavedContent(api, info, path);
    var lyrics := LyricsStep(cfg, api, req, path, tagged);
    LyricsStepWrites(cfg, api, req, path, tagged);
    assert d.files == lyrics.files;
    assert forall e :: e in lyrics.effects ==> e in d.effects;
  }

  /**
   * A saved download streamed a complete body into its target. Unless the lyrics file
   * landed on the same path, the target holds that body, tagged with the resolved
   * descriptor when `SavedContent` says so.
   */
  lemma SavedHoldsBody(cfg: Config, api: Api, req: Request, files: map<string, Content>, p: string)
    requires Plan(cfg, api, req, files).outcome == Saved(p)
    ensures Target(cfg, api, req) == Some(p)
    ensures ResolveInfo(api.detail, req).Success?
    ensures api.stream.Body? && !api.stream.broken
    ensures p in Plan(cfg, api, req, files).files
    ensures LyricsWrite(p) !in Plan(cfg, api, req, files).effects
      ==> Plan(cfg, api, req, files).files[p] == SavedContent(api, ResolveInfo(api.detail, req).value, p)
  {
    var pr := Prepare(cfg, api, req);
    PrepareFacts(cfg, api, req);
    FinishOutcome(cfg, api, req, pr, files);
    PrepareReady(cfg, api, req);
    DeliverSaved(cfg, api, req, pr.info, pr.url, pr.path, files);
  }

  /** The lyrics step changes no file but the one it records writing, and that one is left on disk. */
  lemma LyricsStepWrites(cfg: Config, api: Api, req: Request, path: string, files: map<string, Content>)
    ensures var r := LyricsStep(cfg, api, req, path, files);
      forall q :: LyricsWrite(q) !in r.effects ==> (q in r.files <==> q in files) && (q in files ==> r.files[q] == files[q])
    ensures var r := LyricsStep(cfg, api, req, path, files);
      forall q :: LyricsWrite(q) in r.effects ==> q in r.files
    ensures forall e :: e in LyricsStep(cfg, api, req, path, files).effects ==> e.LyricsCall? || e.LyricsWrite?
  {
  }

  /** The delivery stages change no file but the ones they record writing, and every recorded write leaves a file. */
  lemma DeliverWrites(cfg: Config, api: Api, req: Request, info: SongInfo, url: string, path: string,
                      files: map<string, Content>)
    ensures var d := Deliver(cfg, api, req, info, url, path, files);
      forall q :: AudioWrite(q) !in d.effects && LyricsWrite(q) !in d.effects
        ==> (q in d.files <==> q in files) && (q in files ==> d.files[q] == files[q])
    ensures var d := Deliver(cfg, api, req, info, url, path, files);
      forall q :: AudioWrite(q) in d.effects || LyricsWrite(q) in d.effects ==> q in d.files
  {
    var d := Deliver(cfg, api, req, info, url, path, files);
    match api.stream
    case Refused =>
      assert d == Run(Failed(TransferRefused), [TransferCall(url)], files);
    case Body(chunks, broken) =>
      var written := files[path := AudioFile(Concat(chunks))];
      var transfer := [TransferCall(url), AudioWrite(path)];
      if broken || (DetailOk(api.detail) && info.picUrl.None?) {
        assert d.files == written && d.effects == transfer;
      } else {
        var embed := if DetailOk(api.detail)
          then [CoverCall(info.picUrl.value), EmbedCall(path, info, api.cover)] else [];
        var tagged := if DetailOk(api.detail) then EmbedTags(written, path, info, api.cover, api.tagging) else written;
        if DetailOk(api.detail) {
          EmbedTagsEffect(written, path, info, api.cover, api.tagging, Concat(chunks));
        }
        var lyrics := LyricsStep(cfg, api, req, path, tagged);
        LyricsStepWrites(cfg, api, req, path, tagged);
        assert d.files == lyrics.files && d.effects == transfer + embed + lyrics.effects;
        assert AudioWrite(path) in d.effects by { assert d.effects[1] == AudioWrite(path); }
        forall q | AudioWrite(q) in d.effects
          ensures q == path
        {
          assert AudioWrite(q) !in lyrics.effects;
        }
        forall q | LyricsWrite(q) in d.effects
          ensures LyricsWrite(q) in lyrics.effects
        {
        }
      }
  }

  /** A download changes no file but the ones it records writing, and every recorded write leaves a file. */
  lemma OnlyWrittenFilesChange(cfg: Config, api: Api, req: Request, files: map<string, Content>)
    ensures var run := Plan(cfg, api, req, files);
      forall q :: AudioWrite(q) !in run.effects && LyricsWrite(q) !in run.effects
        ==> (q in run.files <==> q in files) && (q in files ==> run.files[q] == files[q])
    ensures var run := Plan(cfg, api, req, files);
      forall q :: AudioWrite(q) in run.effects || LyricsWrite(q) in run.effects ==> q in run.files
  {
    PrepareFacts(cfg, api, req);
    var pr := Prepare(cfg, api, req);
    if pr.Ready? && !(pr.path in files && !cfg.overwrite) {
      var d := Deliver(cfg, api, req, pr.info, pr.url, pr.path, files);
      DeliverWrites(cfg, api, req, pr.info, pr.url, pr.path, files);
      var run := Plan(cfg, api, req, files);
      assert run.effects == pr.calls + d.effects && run.files == d.files;
      forall q ensures AudioWrite(q) in run.effects <==> AudioWrite(q) in d.effects {
        assert !Lookup(AudioWrite(q));
      }
      forall q ensures LyricsWrite(q) in run.effects <==> LyricsWrite(q) in d.effects {
        assert !Lookup(LyricsWrite(q));
      }
    }
  }

  // ---------------------------------------------------------------------------
  // Repeated downloads
  // ---------------------------------------------------------------------------

  /**
   * A transfer that breaks off leaves the bytes received so far at the target, which is
   * not removed.
   */
  lemma BrokenTransferLeavesPartialFile(cfg: Config, api: Api, req: Request, files: map<string, Content>)
    requires Plan(cfg, api, req, files).outcome == Failed(TransferBroken)
    ensures Target(cfg, api, req).Some? && api.stream.Body?
    ensures var p := Target(cfg, api, req).value;
      Plan(cfg, api, req, files).files == files[p := AudioFile(Concat(api.stream.chunks))]
  {
  }

  /**
   * With `overwrite` off, the next download of the same target after a broken transfer
   * keeps the partial file and reports it as existing.
   */
  lemma PartialFileBlocksRetry(cfg: Config, api: Api, later: Api, req: Request, files: map<string, Content>)
    requires !cfg.overwrite
    requires Plan(cfg, api, req, files).outcome == Failed(TransferBroken)
    requires Target(cfg, later, req) == Target(cfg, api, req)
    ensures Target(cfg, api, req).Some?
    ensures Plan(cfg, later, req, Plan(cfg, api, req, files).files).outcome == Exists(Target(cfg, api, req).value)
  {
    BrokenTransferLeavesPartialFile(cfg, api, req, files);
  }

  /** With `overwrite` off, downloading a saved track again keeps the file and writes nothing. */
  lemma SavedIsKeptNextTime(cfg: Config, api: Api, req: Request, files: map<string, Content>, p: string)
    requires !cfg.overwrite
    requires Plan(cfg, api, req, files).outcome == Saved(p)
    ensures var after := Plan(cfg, api, req, files).files;
      Plan(cfg, api, req, after) == Run(Exists(p), Prepare(cfg, api, req).calls, after)
  {
    SavedHoldsBody(cfg, api, req, files, p);
  }

  /**
   * A delivery with a body asks for it first. Unless the lyrics took that path, it leaves
   * at the target the saved content when it is saved, and the body as streamed otherwise.
   */
  lemma DeliverBody(cfg: Config, api: Api, req: Request, info: SongInfo, url: string, path: string,
                    files: map<string, Content>)
    requires api.stream.Body?
    ensures var d := Deliver(cfg, api, req, info, url, path, files);
      d.effects != [] && d.effects[0] == TransferCall(url)
    ensures var d := Deliver(cfg, api, req, info, url, path, files);
      LyricsWrite(path) !in d.effects ==>
        path in d.files
        && d.files[path] == (if d.outcome.Saved? then SavedContent(api, info, path) else AudioFile(Concat(api.stream.chunks)))
  {
    var d := Deliver(cfg, api, req, info, url, path, files);
    if !api.stream.broken && !(DetailOk(api.detail) && info.picUrl.None?) {
      DeliverSaved(cfg, api, req, info, url, path, files);
      assert d.effects[0] == TransferCall(url);
    }
  }

  /**
   * With `overwrite` on, an existing target is streamed over from its first byte: unless
   * the lyrics took that path, it holds the new body, tagged when the download is saved
   * and `SavedContent` says so, and nothing of the old file.
   */
  lemma OverwriteTruncates(cfg: Config, api: Api, req: Request, files: map<string, Content>, p: string)
    requires cfg.overwrite
    requires Target(cfg, api, req) == Some(p) && p in files
    requires api.stream.Body?
    ensures Plan(cfg, api, req, files).outcome != Exists(p)
    ensures TransferCall(Prepare(cfg, api, req).url) in Plan(cfg, api, req, files).effects
    ensures var run := Plan(cfg, api, req, files);
      LyricsWrite(p) !in run.effects ==>
        run.files[p] == (if run.outcome.Saved? then SavedContent(api, Prepare(cfg, api, req).info, p)
                         else AudioFile(Concat(api.stream.chunks)))
  {
    var pr := Prepare(cfg, api, req);
    var d := Deliver(cfg, api, req, pr.info, pr.url, pr.path, files);
    Delivered(cfg, api, req, files);
    DeliverOutcome(cfg, api, req, pr.info, pr.url, pr.path, files);
    DeliverBody(cfg, api, req, pr.info, pr.url, pr.path, files);
    assert d.effects[0] in pr.calls + d.effects;
  }
}
