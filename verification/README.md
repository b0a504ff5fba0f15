# nonencm download pipeline, in Dafny

This project models the core of nonencm, a command-line downloader for the NetEase Cloud
Music service, and proves properties of the model. Two parts are modelled.

- **The download pipeline of `MusicManager`** (`app/core.py`):
  - quality negotiation between the configured quality and the preferred container;
  - the filename resolver (`get_filename`). It sanitises the track fields and renders the
    user's `str.format` template. When rendering fails it falls back to a fixed form;
  - `download_song` as a whole. It looks up the track detail, and builds a degraded
    descriptor when that fails. It resolves the audio URL with at most one fallback, then
    rejects unusable answers. It checks for an existing file, streams the body, applies
    the embedding gate, tags the file (`embed_metadata`), and writes the lyrics file beside
    the audio (`download_lyrics`).
- **The decisions of the front end** (`app/ui.py`):
  - link classification (`UI.parse_url`) over a `parse_qs` model;
  - the QR-login poll loop;
  - the dispatch of a classified link to `download_song` requests, including the
    playlist loop.

How the model is built:

- The network, the clock and the file system are parameters. An `Api` value holds the
  answer each remote call of one download would give, and whether the tagging library
  accepts the downloaded file (`tagging`).
- A file on disk is raw audio bytes (`AudioFile`), audio bytes saved with the track's tags
  and cover (`Tagged`), or text (`TextFile`).
- An `Environment` object holds the files on disk and the trace of calls made.
- `Download.Plan` is the specification of one download as a pure function.
- `Download.DownloadSong` performs the download step by step over the `Environment`, in
  two stages: `PrepareDownload` up to the existence check and `Transfer` after it. Each
  stage is proved to agree with its part of `Plan` (`Prepare` and `Deliver`), and the
  whole with `Plan`, on the outcome, the files and the trace.
- The properties of the pipeline are lemmas about `Plan`.
- Each branch the source leaves with a bare `return` (or by an exception caught in its
  catch-all handler) ends in its own `Outcome`:
  - `NoAudio`, `NoUrl`, `Exists`, `Saved`;
  - `Failed(fault)`, where the fault names the exception.

Files:

- `options.dfy`: `Option` and `Result`.
- `strings.dfy`: Python's `in`, `endswith`, `join` and `rfind` on strings.
- `catalog.dfy`: the track descriptor.
- `quality.dfy`: quality negotiation.
- `filename.dfy`:
  - sanitising;
  - the template grammar (literals, the `{{`/`}}` escapes and `{name}` fields), with its
    parser and printer;
  - substitution and the filename.
- `paths.dfy`: `Path / name` and `with_suffix`.
- `download.dfy`: the pipeline, both as the function `Plan` and as the method
  `DownloadSong` over `Environment`.
- `download_properties.dfy`: what one download does, as lemmas about `Plan`.
- `scenarios.dfy`: end-to-end downloads under the default configuration.
- `ui.dfy`: `parse_qs`, `parse_url`, the QR poll loop, the dispatch and the playlist loop.

Points where the code's behaviour is easy to misread, and which the model follows:

- **An empty URL from the legacy endpoint does not trigger the fallback.** The fallback
  to the standard endpoint happens only when the legacy answer's code is not 200 or its
  `data` is empty (`app/core.py:289-292`). A code-200 answer whose first entry has
  a null or empty URL ends the download with `NoUrl` at once (`app/core.py:299-302`). See
  `DownloadProperties.NullUrlHasNoFallback` and `Scenarios.EmptyLegacyUrl`.
- **The MP3 clamp uses the tier "exhigh"**, the string the code compares with and
  assigns (`app/core.py:264`), not a tier named "high".
- **Default values.** The settings screen shows a default quality of "standard" and a
  default template of "{artist} - {title}" (`app/ui.py:189`, `app/ui.py:191`). The
  pipeline itself uses "exhigh" and "{title} - {artist}" (`app/core.py:253-255`). The model
  uses the pipeline's values (`Download.Defaults`).

Behaviour the model makes visible:

- **A broken transfer leaves a partial file.** A transfer that breaks off leaves the bytes
  received so far at the target, and nothing removes them. With `overwrite` off, a later
  download with the same target (the same container type, template and output directory)
  then keeps the partial file as an existing one (`PartialFileBlocksRetry`).
- **A code-200 detail answer without a `songs` key fails after the audio is written.**
  The degraded descriptor is used, and it has no `al.picUrl`. The embedding gate still
  passes on the code, so the download fails with a `KeyError` after the audio file is
  written (`DetailWithoutSongsFailsAfterTransfer`).
- **`{track}` is bound to the title**, not to a track number (`TitleBindings`).

## Model

| member | source | states |
|---|---|---|
| Quality.NegotiateQuality | app/core.py:260-268 | An MP3 preference turns "lossless" and "hires" into "exhigh". A FLAC preference turns "standard" and "exhigh" into "lossless". Every other pair is unchanged. The result is never a tier the container cannot hold. MP3 only lowers the rank and FLAC only raises it |
| Quality.NegotiateIdempotent | app/core.py:260-268 | Negotiating an already negotiated quality changes nothing |
| Filename.Sanitize | app/core.py:226-228 | The result holds none of the nine forbidden characters and is no longer than the input |
| Filename.SanitizeCounts | app/core.py:226-228 | Only forbidden characters are deleted. Every other character occurs as often as in the input |
| Filename.SanitizeAppend | app/core.py:226-228 | Sanitising works character by character: it distributes over concatenation, so the kept characters stay in order |
| Filename.SanitizeKeepsClean | app/core.py:226-228 | A string without forbidden characters is left unchanged |
| Filename.SanitizeIdempotent | app/core.py:226-228 | Sanitising twice is sanitising once |
| Filename.SanitizeJoin | app/core.py:218-227 | Sanitising the ", "-joined artists equals joining the sanitised names |
| Filename.SanitizeAll | app/core.py:226-228 | Each name is sanitised on its own, in order |
| Filename.CloseAt | app/core.py:230-238 | The closing brace found for a field is a `}` after the field start, with no brace in between |
| Filename.CloseAtFinds | app/core.py:230-238 | Any closing brace with no brace before it is the one found |
| Filename.Parse | app/core.py:230-238 | Definition: `str.format`'s reading of a template into literals and fields, or none when it is malformed; properties in ParseUnparse, UnparseParse and CloseAt |
| Filename.ParseUnparse | app/core.py:230-238 | Reading back a written-out well-formed template gives its pieces back |
| Filename.UnparseParse | app/core.py:230-238 | Writing out a template that parses gives the template back, and its pieces are well formed |
| Filename.SubstituteFails | app/core.py:230-238 | Substitution fails exactly when some field of the template names a key without a value |
| Filename.Substitute | app/core.py:230-238 | Definition: the fields' values put in place of the parsed pieces, or none for an unknown field; properties in SubstituteFails and SubstituteClean |
| Filename.Format | app/core.py:230-238 | Definition: parsing then substitution; properties in FormatSucceedsIff, FormatBraceFree and FormatSingleField |
| Filename.FormatBraceFree | app/core.py:230-238 | A template without braces formats to itself |
| Filename.GetFilename | app/core.py:214-242 | The filename always ends with "." and the extension |
| Filename.FieldValues | app/core.py:218-238 | `title` and `track` are bound to the sanitised title, `artist` and `artists` to the sanitised ", "-joined artists, `album` to the sanitised album and `id` to the unsanitised id |
| Filename.Fields | app/core.py:218-238 | Definition: the six keyword arguments of the template; properties in FieldValues, TitleBindings, ArtistBindings and AlbumAndIdBindings |
| Filename.FallbackName | app/core.py:226-242 | Definition: "<title> - <artists>" from the sanitised fields; properties in DefaultTemplateFills, UnknownPlaceholderFallsBack and MalformedTemplateFallsBack |
| Filename.FormatSingleField | app/core.py:230-238 | A template made of one plain field with a value formats as that value |
| Filename.TitleBindings | app/core.py:226-239 | `{title}` and `{track}` both render as the sanitised title |
| Filename.ArtistBindings | app/core.py:218-239 | `{artist}` and `{artists}` both render as the sanitised, ", "-joined artists |
| Filename.AlbumAndIdBindings | app/core.py:220-239 | `{album}` renders as the sanitised album and `{id}` as the unsanitised id |
| Filename.SingleField | app/core.py:230-239 | A template made of one known field renders as that field's value followed by "." and the extension |
| Filename.DefaultTemplate | app/core.py:230-239 | "{title} - {artist}" renders as the sanitised title, " - ", the sanitised artists, "." and the extension |
| Filename.DefaultTemplateReads | app/core.py:230-238 | The default template parses into its two fields and the literal " - " |
| Filename.DefaultTemplateFills | app/core.py:230-238 | The default pieces are filled with the title and artist values around " - " |
| Filename.UnknownPlaceholderFallsBack | app/core.py:230-242 | A template naming a placeholder other than the six gives exactly the fallback "<title> - <artists>.<ext>" |
| Filename.MalformedTemplateFallsBack | app/core.py:240-242 | A template `format` rejects (a lone brace, an unclosed field) gives exactly the fallback name |
| Filename.FormatSucceedsIff | app/core.py:230-242 | Formatting succeeds if and only if the template is well formed and names only the six placeholders |
| Filename.ParseLiterals | app/core.py:230-238 | Every literal of a parsed template is a character of the template |
| Filename.UnparseHas | app/core.py:230-238 | The character of a literal piece occurs in the written-out template |
| Filename.SubstituteClean | app/core.py:226-238 | Clean values in clean literals give a clean name |
| Filename.FilenameClean | app/core.py:214-242 | With a clean template, id and extension, the filename holds no forbidden character, whatever the track fields hold |
| Paths.RenameShape | app/core.py:156 | Renaming the final component keeps the directory part in front and ends with the new suffix |
| Paths.JoinPath | app/core.py:308 | Definition: `Path / name` as joining with "/"; properties in TargetShape |
| Paths.Rename | app/core.py:156 | Definition: the final component with its suffix replaced; properties in RenameShape |
| Paths.WithSuffix | app/core.py:156 | Definition: `with_suffix`; properties in WithSuffixShape, WithSuffixReplacesExtension, WithSuffixOfDotName and WithSuffixReplacesSuffix |
| Paths.Suffix | app/core.py:167 | Definition: `Path.suffix`; properties in SuffixOfFile, SuffixOfDotName and WithSuffixReplacesSuffix |
| Paths.WithSuffixShape | app/core.py:156 | The result keeps the directory part and ends with the new suffix |
| Paths.LastIndexAfter | app/core.py:156 | The last separator of `u + [c] + t` is the one after `u` when `t` has none |
| Paths.WithSuffixReplacesExtension | app/core.py:155-156 | For `dir/base.ext`, ".lrc" replaces ".ext" |
| Paths.WithSuffixOfDotName | app/core.py:155-156 | A file named only ".ext" has no suffix, so ".lrc" is appended |
| Paths.WithSuffixReplacesSuffix | app/core.py:156 | `with_suffix` drops exactly the current suffix and appends the new one |
| Paths.SuffixOfFile | app/core.py:167 | The suffix of `dir/base.ext` is ".ext" |
| Paths.SuffixOfDotName | app/core.py:167 | A file named only ".ext" has no suffix |
| Strings.ContainsInPrefix | app/ui.py:64-80 | An occurrence in a prefix is an occurrence in the whole string |
| Strings.ContainsTransitive | app/ui.py:70-80 | Substring containment is transitive |
| Strings.LastIndex | app/core.py:156 | The result is -1 or an index of the string |
| Strings.LastIndexFacts | app/core.py:156 | The index found holds the character and no later index does; -1 means the character does not occur |
| Strings.Lower | app/core.py:167 | Lower-casing keeps the length, leaves no capital letter, turns each capital into its small letter in place and keeps every other character |
| Strings.LowerKeepsLowerCase | app/core.py:167 | A string without capital letters is unchanged |
| Strings.LowerIdempotent | app/core.py:167 | Lower-casing twice is lower-casing once |
| Download.ResolveInfo | app/core.py:271-276 | The lookup fails exactly when the detail call raises, or answers code 200 with an empty `songs` list. A code-200 answer with songs gives the first song. Any other answer gives the degraded descriptor |
| Download.Extension | app/core.py:304-305 | The extension is never empty. It is the entry's `type` when that is truthy, and "mp3" otherwise |
| Download.ResolveAudio | app/core.py:284-292 | Definition: the audio answer used and the audio calls made, with at most one fallback; properties in DownloadApiOnly, LegacyWithOneFallback and AudioCallsOfPlan |
| Download.LyricsText | app/core.py:143-149 | Definition: the lyric of a code-200 answer, or "" for any other answer; properties in SavedWritesLyrics and LyricsStepWrites |
| Download.Taggable | app/core.py:167-196 | Definition: the ".mp3"/".flac" dispatch on the lower-cased suffix; properties in EmbedTagsEffect and DefaultTargetTaggable |
| Download.EmbedTags | app/core.py:164-212 | Definition: the file after `embed_metadata`; properties in EmbedTagsEffect and Environment.EmbedMetadata |
| Download.Prepare | app/core.py:251-308 | Definition: the stages before the existence check; properties in PrepareFacts, PrepareReady, PrepareWhenUsable and PrepareCalls |
| Download.Finish | app/core.py:310-332 | Definition: the existence check and the stages after it; properties in FinishEffects and FinishOutcome |
| Download.Plan | app/core.py:244-335 | Definition: one whole `download_song`; proved equal to DownloadSong, properties in the DownloadProperties lemmas |
| Download.LyricsStep | app/core.py:331-332 | The lyrics step keeps the outcome `Saved` |
| Download.Deliver | app/core.py:315-332 | After the existence check, a download is saved at its target or fails. A saved target holds a tagged file only after a code-200 detail answer |
| Download.Environment.constructor | app/core.py:244-249 | A fresh environment holds the given files and an empty trace |
| Download.Environment.Call | app/core.py:271-292 | A remote call is recorded and changes no file |
| Download.Environment.OpenForWriting | app/core.py:316 | Opening for writing creates or truncates the file and records the write |
| Download.Environment.Append | app/core.py:319 | A chunk is appended to the open file |
| Download.Environment.WriteText | app/core.py:157-158 | The lyrics file is written whole, and the write is recorded |
| Download.WriteChunks | app/core.py:317-319 | After the loop the file holds the concatenated chunks, empty ones skipped, and no call is recorded |
| Download.DownloadLyrics | app/core.py:141-162 | The lyrics call is recorded. A file at `with_suffix(".lrc")` holding the text is written exactly when the answer has code 200 and a non-empty `lrc.lyric` |
| Download.FetchAudio | app/core.py:284-292 | The audio calls made and the answer kept are those `ResolveAudio` names |
| Download.Transfer | app/core.py:315-332 | The transfer, the tagging and the lyrics agree with `Deliver` on outcome, files and trace |
| Download.Environment.EmbedMetadata | app/core.py:164-212 | Records the embed call and changes the files exactly as `EmbedTags` |
| Download.PrepareDownload | app/core.py:246-308 | The stages before the existence check agree with `Prepare`, change no file and record exactly the calls `Prepare` names |
| Download.DownloadSong | app/core.py:244-335 | The download agrees with `Plan` on outcome, files and the calls appended to the trace |
| DownloadProperties.PrepareFacts | app/core.py:270-302 | Before the existence check there are only lookups. An early stop is `NoAudio`, `NoUrl` or a lookup failure |
| DownloadProperties.PrepareReady | app/core.py:294-308 | A download that reaches the existence check has a usable answer with a truthy URL, and targets `<dir>/<filename>` |
| DownloadProperties.PrepareWhenUsable | app/core.py:270-308 | Conversely, a resolved descriptor and a code-200 answer with data and a truthy first URL reach the existence check, with the target `<dir>/<filename>` and the lookups made |
| DownloadProperties.PrepareCalls | app/core.py:270-292 | Once the descriptor is resolved, the calls before the existence check are the detail call followed by the audio calls of `ResolveAudio` |
| DownloadProperties.FinishEffects | app/core.py:310-335 | A download's effects are its lookups followed by the delivery effects, and no delivery effect is a lookup |
| DownloadProperties.LaterEffect | app/core.py:310-335 | An effect after the lookups comes from the delivery stages, which were reached past the existence check and decide the outcome and the files |
| DownloadProperties.FinishOutcome | app/core.py:310-335 | An early stop keeps its outcome, calls and files. A download past the lookups never ends with an early outcome, and a saved one got past the existence check |
| DownloadProperties.DeliverOutcome | app/core.py:315-332 | The delivery stages end saved, or with a refused or broken transfer, or with a missing `al.picUrl` |
| DownloadProperties.AudioCalls | app/core.py:284-292 | The audio calls extracted from a trace are audio calls of that trace |
| DownloadProperties.AudioCallsAppend | app/core.py:284-292 | Extracting audio calls distributes over concatenation |
| DownloadProperties.AudioCallsOfNonLookups | app/core.py:315-332 | A trace without lookups has no audio calls |
| DownloadProperties.AudioCallsOfPlan | app/core.py:284-292 | Once the descriptor is resolved, the audio calls of a download are exactly those of `ResolveAudio` |
| DownloadProperties.DownloadApiOnly | app/core.py:284-285 | With `use_download_api`, exactly one call of the standard endpoint is made and there is no retry |
| DownloadProperties.LegacyWithOneFallback | app/core.py:286-292 | Otherwise the legacy endpoint is called at the negotiated level. One standard call follows if and only if that answer is not code 200 or has no data |
| DownloadProperties.NullUrlHasNoFallback | app/core.py:289-302 | A code-200 legacy answer with a null or empty URL ends with `NoUrl`, without the fallback and without a write |
| DownloadProperties.FailedLookupStops | app/core.py:271-273 | A raising detail call, or an empty `songs` list, ends the download after that one call, with nothing written |
| DownloadProperties.RejectedAnswers | app/core.py:294-302 | `NoAudio` exactly when the final answer is not code 200 or has no data. `NoUrl` exactly when the first entry's URL is falsy. `AudioFailed` exactly when the audio call raised. There is a target exactly when none of these holds |
| DownloadProperties.PrepareRejects | app/core.py:294-302 | The same three cases, before the existence check |
| DownloadProperties.StoppedRunsTouchNothing | app/core.py:294-312 | A download ending in `NoAudio`, `NoUrl` or `Exists` writes nothing and only looks things up |
| DownloadProperties.ExistingTargetIsKept | app/core.py:310-312 | The existing file is kept if and only if the target exists and `overwrite` is off. It is then untouched, and no transfer, write, embed or lyrics call happens |
| DownloadProperties.TargetExtension | app/core.py:304-308 | The target lies in the output directory and ends with "." + type, or with ".mp3" when the type is falsy |
| DownloadProperties.TargetShape | app/core.py:307-308 | A rendered target lies in its directory and ends with its extension |
| DownloadProperties.DegradedTarget | app/core.py:274-276 | With the degraded descriptor, the default template names the file "<song name> - <artist name>.<ext>", sanitised |
| DownloadProperties.Delivered | app/core.py:310-335 | Past the existence check, a download is its lookups followed by the delivery stages |
| DownloadProperties.DeliverEmbedGate | app/core.py:324-328 | The delivery stages fetch the cover and embed tags only after a code-200 detail answer |
| DownloadProperties.DeliverEmbeds | app/core.py:324-328 | A saved delivery after a code-200 detail answer had a cover URL, fetched that cover and embedded the descriptor |
| DownloadProperties.DeliverLyrics | app/core.py:331-332 | The lyrics endpoint is called, for the request's id, only when the delivery is saved with lyrics on. A lyrics file is written only then and only for non-empty text, at the ".lrc" path, holding that text. Conversely such a delivery writes it |
| DownloadProperties.DeliverSaved | app/core.py:315-328 | A saved delivery had a complete body. Unless the lyrics took that path, the target holds those bytes, tagged with the descriptor and the non-empty cover exactly when the detail answer had code 200, the tagging library accepts the file and its suffix is ".mp3" or ".flac" |
| DownloadProperties.EmbedTagsEffect | app/core.py:164-212 | Tagging leaves every other file alone and keeps the target's bytes; the target is tagged iff the library accepts it and its suffix is taggable, with the descriptor, and with a picture iff the cover is non-empty |
| DownloadProperties.SavedContentBody | app/core.py:164-212 | The saved content holds the streamed bytes; it is tagged iff the detail answer had code 200, the library accepts the file and the suffix is taggable |
| DownloadProperties.DeliverBody | app/core.py:315-328 | A delivery with a body first asks for it. Unless the lyrics took that path, the target holds the bytes received: as saved (tagged or not) when the delivery is saved, raw otherwise |
| DownloadProperties.LyricsStepWrites | app/core.py:141-162 | The lyrics step changes only the file it records writing, leaves that file on disk, and makes only lyrics calls and writes |
| DownloadProperties.EmbeddingNeedsDetail | app/core.py:324-328 | The cover is fetched and tags are embedded only when the detail code was 200 |
| DownloadProperties.SavedWithDetailEmbeds | app/core.py:324-328 | A saved download with a code-200 detail answer fetched the first song's cover and embedded its descriptor |
| DownloadProperties.DetailWithoutSongsFailsAfterTransfer | app/core.py:272-276 | A code-200 detail answer without `songs` writes the audio, then fails at the missing `al.picUrl` |
| DownloadProperties.LyricsWrittenBesideAudio | app/core.py:149-158 | A lyrics file is written only for a saved download that asked for lyrics and got a non-empty text. It lands at the audio path with the suffix ".lrc" and holds that text |
| DownloadProperties.SavedWritesLyrics | app/core.py:331-332 | Conversely, such a download does write the lyrics file |
| DownloadProperties.LyricsOnlyWhenAsked | app/core.py:331-332 | The lyrics endpoint is called only by a saved download with `download_lyrics` on, for its own id |
| DownloadProperties.SavedHoldsBody | app/core.py:244-328 | A saved download found its descriptor and streamed a complete body into its target, which holds those bytes as saved (tagged with that descriptor when tagging applies) unless the lyrics file took the same path |
| DownloadProperties.DeliverWrites | app/core.py:315-332 | The delivery stages change only the files they record writing, and each recorded write leaves a file |
| DownloadProperties.OnlyWrittenFilesChange | app/core.py:244-335 | A download changes only the files it records writing, and each recorded write leaves a file |
| DownloadProperties.BrokenTransferLeavesPartialFile | app/core.py:315-319 | A broken transfer leaves the bytes received so far at the target |
| DownloadProperties.PartialFileBlocksRetry | app/core.py:310-319 | With `overwrite` off, a later download of the same target keeps the partial file as existing |
| DownloadProperties.SavedIsKeptNextTime | app/core.py:310-312 | With `overwrite` off, downloading a saved track again keeps the file and writes nothing |
| DownloadProperties.OverwriteTruncates | app/core.py:310-328 | With `overwrite` on, an existing target is not kept. It is streamed over from its first byte, and then holds the new body, raw or tagged |
| Scenarios.FallbackReady | app/core.py:246-308 | Under the defaults with a template that renders as the fallback, a found song with a code-200 "mp3" answer reaches the existence check at "downloads/<title> - <artists>.mp3" after the detail call and one legacy call at "exhigh" |
| Scenarios.DefaultReady | app/core.py:246-308 | The same with the default template |
| Scenarios.CompleteDelivery | app/core.py:315-332 | A complete body after a code-200 detail answer with a cover URL, lyrics off: the body is written, the cover fetched, the tags embedded, and the file saved, tagged exactly when the tagging library accepts it and the suffix is taggable |
| Scenarios.CompleteDownload | app/core.py:244-332 | Under the defaults, a found song with a code-200 "mp3" answer, accepted by the tagging library, is saved as "downloads/<title> - <artists>.mp3" holding the body tagged with the descriptor and the non-empty cover. The trace is detail, legacy at "exhigh", transfer, write, cover and embed |
| Scenarios.DefaultTargetTaggable | app/core.py:167-168 | The default target has the suffix ".mp3", so it is tagged |
| Scenarios.EmptyLegacyUrl | app/core.py:286-302 | Under the defaults, an empty legacy URL ends with `NoUrl` after two calls, whatever the standard endpoint would answer |
| Scenarios.NullUrlAfterFallback | app/core.py:286-302 | An unusable legacy answer, then a null URL from the standard one, ends with `NoUrl` after three calls |
| Scenarios.UnknownPlaceholderDownload | app/core.py:230-242 | A template naming an unknown placeholder still saves the file under the fallback name |
| Ui.ParseQs | app/ui.py:68 | Every name kept has at least one value |
| Ui.FirstValue | app/ui.py:70 | A first value found is never blank |
| Ui.ValuesOfAppend | app/ui.py:68 | The values of a name distribute over concatenation of the pairs |
| Ui.ParseQsValues | app/ui.py:68 | `parse_qs` keeps a name if and only if it has a non-blank value, and keeps all its non-blank values in order |
| Ui.FirstValueIsFirst | app/ui.py:70-72 | The first non-blank value is the head of the kept values |
| Ui.PathBranch | app/ui.py:77-81 | The path test gives a kind exactly when it gives an id |
| Ui.ParseUrl | app/ui.py:62-83 | The kind is absent exactly when the id is. A link off "music.163.com" gives neither. A returned id is the first `id` value |
| Ui.ClassifiedId | app/ui.py:70-81 | The id returned is the first non-blank `id` value of the query |
| Ui.NoIdIsNothing | app/ui.py:70-83 | Without a non-blank `id` value the result is `(None, None)`, whatever the path |
| Ui.PlaylistWins | app/ui.py:70-72 | A link on the host with an id, naming "playlist" in itself or in its id, is a playlist, even when it also names "song" |
| Ui.SongLink | app/ui.py:73-75 | Otherwise a link on the host with an id that names "song" is a song |
| Ui.ClassificationIff | app/ui.py:62-83 | When the path is part of the link, it is a playlist if and only if it is on the host, has an id, and names "playlist" in itself or in its id. It is a song if and only if it has an id and names "song" but not "playlist" |
| Ui.PathIrrelevant | app/ui.py:77-81 | When the path is part of the link, the path test never changes the result |
| Ui.QrStep | app/ui.py:153-164 | 800 means expired, 802 scanned and 803 confirmed, each if and only if that code; everything else waits |
| Ui.FirstFinal | app/ui.py:150-164 | The index found is the first check answering 800 or 803 |
| Ui.PollQr | app/ui.py:150-164 | The loop stops right after the first 800 or 803 and saves the session exactly on 803. Without either it checks every answer and saves nothing |
| Ui.FirstFinalIsFirst | app/ui.py:150-164 | An index preceded only by non-final checks and final itself is the one `FirstFinal` finds |
| Ui.PlaylistRequests | app/ui.py:100-102 | One request per track, in list order, with the artists ", "-joined |
| Ui.Dispatch | app/ui.py:92-111 | A playlist with tracks downloads each track. An empty playlist warns. A song downloads `(id, "Song_" + id, "Unknown")`. Anything else is searched as a keyword |
| Ui.SongLinkDownloads | app/ui.py:73-108 | A pasted song link downloads exactly that song under its placeholder name |
| Ui.ForeignInputIsSearched | app/ui.py:64-111 | Input off the host is searched as a keyword |
| Ui.DownloadPlaylist | app/ui.py:100-102 | The playlist loop agrees with `PlanAll`: one download per track in order, each against the files the earlier ones left |
| Ui.PlanAll | app/ui.py:100-102 | Several downloads in order give one outcome per request |
| Ui.PlanAllPrefix | app/ui.py:100-102 | One more download extends the batch by its own run |
| Ui.RepeatedTrackIsKept | app/ui.py:100-102 | A playlist listing a saved track twice keeps the first file on the second download when `overwrite` is off |

## Left out

- Network and session: login, logout, session files and retry mounting (`app/core.py:19-107`), and search and the playlist fetch (`app/core.py:109-129`) are left out. Their answers are parameters (`Api`, the `tracks` argument of `Dispatch`).
- Cover download (`app/core.py:131-139`): what `download_cover` returns is the parameter `Api.cover`.
- Tag writing (`embed_metadata`, `app/core.py:164-212`): the model keeps the dispatch on the lower-cased suffix, the rule that only a non-empty cover is attached, and the saved result, a `Tagged(bytes, descriptor, picture)` file. Whether mutagen opens, tags and saves the file is the single parameter `Api.tagging`; when it is false the file keeps its raw bytes, as when any of the caught exceptions is raised before `save()`. The ID3 and FLAC frame encodings, tags already in the file, and a `save()` that fails after rewriting part of the file are not modelled.
- Logging, `print`, `time.sleep`, the QR image, the menus, prompts and the settings editor (`app/ui.py:11-60`, `app/ui.py:136-281`) are left out, as is `run.py`.
- The keyword search screen (`app/ui.py:111-131`) appears only as the action `KeywordSearch`. Its results list and song picker are interactive.
- `mkdir` of the output directory (`app/core.py:249`) runs outside the `try`. A failure there would propagate out of `download_song`. The model assumes it succeeds and has no directories.
- Paths.JoinPath: `Path / name` is modelled as joining with "/", without `pathlib`'s normalisation. A directory "downloads/" gives "downloads//name" where `Path` gives "downloads/name", an empty directory gives "/name" where `Path` gives "name", and "." components are kept.
- Directories in names: a template containing "/" would name a subdirectory that is never created, and the `open` would raise. That is not modelled.
- Other exceptions are not modelled:
  - exceptions from `open` and `write`;
  - a missing `code`, `data`, `url` or `type` key in an audio answer;
  - a track descriptor with a missing `name`, `ar`, `al`, `al.name` or `id` key, an artist without `name`, or a null `name` or artist name. `Catalog.SongInfo` has a string for each of them. In the source each of these raises inside `get_filename` before `safe_title` is assigned (`app/core.py:218-226`), so the fallback raises too (`app/core.py:242`), and the download fails in its catch-all handler (`app/core.py:334`) before any transfer. A null `al.name` raises only at `app/core.py:228`, after the title and artists are sanitised, so the fallback name is used and the download goes on; the model cannot express that descriptor either.

  The modelled exceptions are the faults of `Fault`: a raising detail call, an empty `songs` list, a raising audio call, a refused or broken transfer, and a missing `al.picUrl`.
- Catalog.SongInfo: `picUrl == None` stands for a missing `al.picUrl` key, which fails the download. A key present with a null value (which `download_cover` catches, `app/core.py:131-139`, so the download goes on without a cover) is not expressible.
- The status of the streamed GET is not checked by the source. The body the server sends is written whatever it is; the model's `Body` chunks are that body.
- Filename.Format: format specs, conversions and attribute or index access (`{title:>10}`, `{title!r}`, `{title.x}`, `{title[0]}`) are not modelled. Their name characters are kept as part of the field name, which is unknown, so the model falls back where Python would format.
- Filename.Fields: ids are the text `str.format` renders for the integer id; the integer itself is not modelled.
- `Ui.ParseUrl`: `urlparse` and the splitting of the query into name/value pairs are not modelled. The path and the pairs are parameters. Percent-decoding and "+" are not modelled, and neither are pairs without "=" (which `parse_qs` drops).
- Strings are sequences of characters. Unicode normalisation and encoding are not modelled.
- Strings.Lower lower-cases ASCII letters only, where `str.lower` also lower-cases other scripts. It is applied to file suffixes, where only ".mp3" and ".flac" are compared.
- `Ui.PollQr` runs over a finite sequence of status answers. The source polls until a final answer and may loop forever.
- Ui.PollQr: a `login_qr_check` that raises (`app/ui.py:152`) ends the source's loop with that exception. The model's status answers always arrive.
- Concurrency and cancellation are not modelled; the source has none besides `CancelledError` in the menus.
