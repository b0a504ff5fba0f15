/**
 * Three end-to-end downloads under the default configuration: a complete one, one whose
 * audio answers carry no URL, and one whose template names an unknown placeholder.
 */
module Scenarios {
  import opened Options
  import opened Strings
  import opened Catalog
  import opened Filename
  import opened Paths
  import opened Download
  import opened DownloadProperties

  /** The file "downloads/<title> - <artists>.<ext>", which the default template and the fallback both give. */
  function DefaultTarget(info: SongInfo, ext: string): string
  {
    JoinPath(Defaults.outputDir, FallbackName(info) + "." + ext)
  }

  /**
   * Under the defaults with any template that renders as the fallback name, a found
   * descriptor and a code-200 legacy answer of type "mp3" with a URL reach the existence
   * check with the target "downloads/<title> - <artists>.mp3", after the detail call and
   * one legacy call at "exhigh".
   */
  lemma FallbackReady(template: string, req: Request, info: SongInfo, rest: seq<SongInfo>, url: string, api: Api)
    requires req.outputDir == None && url != ""
    requires api.detail == Detail(200, Some([info] + rest))
    requires api.audioV1 == Audio(200, [AudioEntry(Some(url), Some("mp3"))])
    requires GetFilename(template, info, "mp3") == FallbackName(info) + "." + "mp3"
    ensures Prepare(Defaults.(template := template), api, req)
         == Ready(info, url, DefaultTarget(info, "mp3"), [DetailCall(req.songId), AudioV1Call(req.songId, "exhigh")])
  {
    var cfg := Defaults.(template := template);
    assert Level(cfg) == "exhigh";
    assert ResolveAudio(false, "exhigh", api, req.songId) == Resolution(api.audioV1, [AudioV1Call(req.songId, "exhigh")]);
    PrepareWhenUsable(cfg, api, req, info, api.audioV1.data);
  }

  /** The same with the default template. */
  lemma DefaultReady(req: Request, info: SongInfo, rest: seq<SongInfo>, url: string, api: Api)
    requires req.outputDir == None && url != ""
    requires api.detail == Detail(200, Some([info] + rest))
    requires api.audioV1 == Audio(200, [AudioEntry(Some(url), Some("mp3"))])
    ensures Prepare(Defaults, api, req)
         == Ready(info, url, DefaultTarget(info, "mp3"), [DetailCall(req.songId), AudioV1Call(req.songId, "exhigh")])
  {
    DefaultTemplate(info, "mp3");
    assert GetFilename(Defaults.template, info, "mp3") == FallbackName(info) + "." + "mp3";
    FallbackReady(Defaults.template, req, info, rest, url, api);
    assert Defaults.(template := Defaults.template) == Defaults;
  }

  /**
   * A complete body after a code-200 detail answer with a cover URL, lyrics off: the body
   * is written, the cover fetched and the tags embedded, and the file is saved, tagged
   * when its suffix allows and mutagen accepts it.
   */
  lemma CompleteDelivery(cfg: Config, api: Api, req: Request, info: SongInfo, url: string, p: string,
                         files: map<string, Content>)
    requires !cfg.downloadLyrics && DetailOk(api.detail) && info.picUrl.Some?
    requires api.stream.Body? && !api.stream.broken
    ensures Deliver(cfg, api, req, info, url, p, files)
         == Run(Saved(p), [TransferCall(url), AudioWrite(p), CoverCall(info.picUrl.value), EmbedCall(p, info, api.cover)],
                files[p := if api.tagging && Taggable(p) then Tagged(Concat(api.stream.chunks), info, Picture(api.cover))
                           else AudioFile(Concat(api.stream.chunks))])
  {
    var written := files[p := AudioFile(Concat(api.stream.chunks))];
    var tagged := EmbedTags(written, p, info, api.cover, api.tagging);
    assert tagged
        == files[p := if api.tagging && Taggable(p) then Tagged(Concat(api.stream.chunks), info, Picture(api.cover))
                      else AudioFile(Concat(api.stream.chunks))];
    assert LyricsStep(cfg, api, req, p, tagged) == Run(Saved(p), [], tagged);
    var effects := [TransferCall(url), AudioWrite(p)] + [CoverCall(info.picUrl.value), EmbedCall(p, info, api.cover)] + [];
    assert effects == [TransferCall(url), AudioWrite(p), CoverCall(info.picUrl.value), EmbedCall(p, info, api.cover)];
    assert Deliver(cfg, api, req, info, url, p, files) == Run(Saved(p), effects, tagged);
  }

  /** The default target names an ".mp3" file, which `embed_metadata` tags. */
  lemma DefaultTargetTaggable(info: SongInfo)
    ensures Suffix(DefaultTarget(info, "mp3")) == ".mp3"
    ensures Taggable(DefaultTarget(info, "mp3"))
  {
    var name := FallbackName(info);
    var title, artists := Sanitize(info.name), Sanitize(Join(info.artists, ", "));
    assert name == title + " - " + artists;
    assert '/' !in name by {
      forall i | 0 <= i < |name|
        ensures name[i] != '/'
      {
        if i < |title| {
          assert name[i] == title[i];
        } else if i >= |title| + 3 {
          assert name[i] == artists[i - |title| - 3];
        }
      }
    }
    assert name[|title|] == ' ';
    SuffixOfFile(Defaults.outputDir, name, "mp3");
    LowerKeepsLowerCase(".mp3");
  }

  /**
   * The default configuration, a found descriptor with a cover URL and a code-200 legacy
   * answer of type "mp3" with a URL, onto a disk without the target, with mutagen accepting
   * the file: the body is written to "downloads/<title> - <artists>.mp3", the cover is
   * fetched and the file saved with the descriptor's tags and the cover, and no lyrics are
   * asked for.
   */
  lemma CompleteDownload(req: Request, info: SongInfo, rest: seq<SongInfo>, url: string,
                         audio: AudioResponse, chunks: seq<seq<byte>>, cover: Option<seq<byte>>,
                         lyrics: LyricsResponse, files: map<string, Content>)
    requires req.outputDir == None && info.picUrl.Some? && url != ""
    requires DefaultTarget(info, "mp3") !in files
    ensures var api := Api(Detail(200, Some([info] + rest)), Audio(200, [AudioEntry(Some(url), Some("mp3"))]),
                           audio, Body(chunks, false), cover, true, lyrics);
      var p := DefaultTarget(info, "mp3");
      Plan(Defaults, api, req, files)
      == Run(Saved(p),
             [DetailCall(req.songId), AudioV1Call(req.songId, "exhigh"), TransferCall(url), AudioWrite(p),
              CoverCall(info.picUrl.value), EmbedCall(p, info, cover)],
             files[p := Tagged(Concat(chunks), info, Picture(cover))])
  {
    var api := Api(Detail(200, Some([info] + rest)), Audio(200, [AudioEntry(Some(url), Some("mp3"))]),
                   audio, Body(chunks, false), cover, true, lyrics);
    var p := DefaultTarget(info, "mp3");
    var calls := [DetailCall(req.songId), AudioV1Call(req.songId, "exhigh")];
    DefaultReady(req, info, rest, url, api);
    DefaultTargetTaggable(info);
    CompleteDelivery(Defaults, api, req, info, url, p, files);
    var d := Deliver(Defaults, api, req, info, url, p, files);
    assert d.files == files[p := Tagged(Concat(chunks), info, Picture(cover))];
    assert Plan(Defaults, api, req, files) == Finish(Defaults, api, req, Ready(info, url, p, calls), files);
    assert d.effects == [TransferCall(url), AudioWrite(p), CoverCall(info.picUrl.value), EmbedCall(p, info, cover)];
    assert calls + d.effects
        == [DetailCall(req.songId), AudioV1Call(req.songId, "exhigh"), TransferCall(url), AudioWrite(p),
            CoverCall(info.picUrl.value), EmbedCall(p, info, cover)];
    assert Plan(Defaults, api, req, files) == Run(Saved(p), calls + d.effects, d.files);
  }

  /**
   * A code-200 legacy answer whose URL is null or empty: the download ends with `NoUrl`
   * after the detail and legacy calls, without asking the standard endpoint, whatever
   * that would answer.
   */
  lemma EmptyLegacyUrl(req: Request, entries: seq<AudioEntry>, api: Api, files: map<string, Content>)
    requires ResolveInfo(api.detail, req).Success?
    requires entries != [] && !Truthy(entries[0].url)
    requires api.audioV1 == Audio(200, entries)
    ensures Plan(Defaults, api, req, files)
         == Run(NoUrl, [DetailCall(req.songId), AudioV1Call(req.songId, "exhigh")], files)
  {
  }

  /**
   * An unusable legacy answer and a standard answer with a null URL: the fallback is
   * asked once, and the download still ends with `NoUrl` and no file.
   */
  lemma NullUrlAfterFallback(req: Request, api: Api, files: map<string, Content>)
    requires ResolveInfo(api.detail, req).Success?
    requires Unusable(api.audioV1)
    requires api.audio.Audio? && api.audio.code == 200 && api.audio.data != []
    requires api.audio.data[0].url.None?
    ensures Plan(Defaults, api, req, files)
         == Run(NoUrl, [DetailCall(req.songId), AudioV1Call(req.songId, "exhigh"), AudioCall(req.songId)], files)
  {
  }

  /**
   * A template naming the unknown placeholder `genre` falls back to
   * "<title> - <artists>.<ext>", and the download goes on to save that file.
   */
  lemma UnknownPlaceholderDownload(req: Request, info: SongInfo, rest: seq<SongInfo>, url: string,
                                   audio: AudioResponse, chunks: seq<seq<byte>>, cover: Option<seq<byte>>,
                                   tagging: bool, lyrics: LyricsResponse, files: map<string, Content>)
    requires req.outputDir == None && info.picUrl.Some? && url != ""
    requires DefaultTarget(info, "mp3") !in files
    ensures var api := Api(Detail(200, Some([info] + rest)), Audio(200, [AudioEntry(Some(url), Some("mp3"))]),
                           audio, Body(chunks, false), cover, tagging, lyrics);
      Plan(Defaults.(template := "{genre}"), api, req, files).outcome == Saved(DefaultTarget(info, "mp3"))
  {
    var api := Api(Detail(200, Some([info] + rest)), Audio(200, [AudioEntry(Some(url), Some("mp3"))]),
                   audio, Body(chunks, false), cover, tagging, lyrics);
    var cfg := Defaults.(template := "{genre}");
    var p := DefaultTarget(info, "mp3");
    assert Unparse([Field("genre")]) == "{genre}";
    UnknownPlaceholderFallsBack([Field("genre")], 0, info, "mp3");
    assert GetFilename("{genre}", info, "mp3") == FallbackName(info) + "." + "mp3";
    FallbackReady("{genre}", req, info, rest, url, api);
    CompleteDelivery(cfg, api, req, info, url, p, files);
  }
}
