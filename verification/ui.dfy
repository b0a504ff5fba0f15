/**
 * The decisions of the interactive front end: classifying a pasted link as a playlist or
 * a song, the QR-login poll loop, and turning a classified link into download requests.
 */
module Ui {
  import opened Options
  import opened Strings
  import opened Download
  import opened DownloadProperties

  // ---------------------------------------------------------------------------
  // Query strings
  // ---------------------------------------------------------------------------

  /** A parsed query: each name with the list of its values. */
  type Query = map<string, seq<string>>

  /**
   * `parse_qs` over the name/value pairs of a query string, in order: blank values are
   * dropped, and repeated names collect their values in order.
   */
  function ParseQs(pairs: seq<(string, string)>): (q: Query)
    ensures forall k :: k in q ==> q[k] != []
  {
    if pairs == [] then map[]
    else
      var q := ParseQs(pairs[..|pairs| - 1]);
      var (k, v) := pairs[|pairs| - 1];
      if v == "" then q else q[k := (if k in q then q[k] else []) + [v]]
  }

  /** The non-blank values given to `name`, in order. */
  function ValuesOf(pairs: seq<(string, string)>, name: string): seq<string>
  {
    if pairs == [] then []
    else (if pairs[0].0 == name && pairs[0].1 != "" then [pairs[0].1] else []) + ValuesOf(pairs[1..], name)
  }

  /** The first non-blank value given to `name`. */
  function FirstValue(pairs: seq<(string, string)>, name: string): (r: Option<string>)
    ensures r.Some? ==> r.value != ""
  {
    if pairs == [] then None
    else if pairs[0].0 == name && pairs[0].1 != "" then Some(pairs[0].1)
    else FirstValue(pairs[1..], name)
  }

  lemma {:induction false} ValuesOfAppend(a: seq<(string, string)>, b: seq<(string, string)>, name: string)
    ensures ValuesOf(a + b, name) == ValuesOf(a, name) + ValuesOf(b, name)
  {
    if a == [] {
      assert a + b == b;
    } else {
      assert (a + b)[0] == a[0];
      assert (a + b)[1..] == a[1..] + b;
      ValuesOfAppend(a[1..], b, name);
    }
  }

  /** `parse_qs` keeps a name exactly when it has a non-blank value, with all of them in order. */
  lemma {:induction false} ParseQsValues(pairs: seq<(string, string)>, name: string)
    ensures name in ParseQs(pairs) <==> ValuesOf(pairs, name) != []
    ensures name in ParseQs(pairs) ==> ParseQs(pairs)[name] == ValuesOf(pairs, name)
    decreases |pairs|
  {
    if pairs != [] {
      var init, last := pairs[..|pairs| - 1], pairs[|pairs| - 1];
      assert pairs == init + [last];
      ParseQsValues(init, name);
      ValuesOfAppend(init, [last], name);
      assert ValuesOf([last], name) == (if last.0 == name && last.1 != "" then [last.1] else []) by {
        assert [last][1..] == [];
      }
    }
  }

  /** The first of those values is the first non-blank one. */
  lemma {:induction false} FirstValueIsFirst(pairs: seq<(string, string)>, name: string)
    ensures FirstValue(pairs, name) == (if ValuesOf(pairs, name) == [] then None else Some(ValuesOf(pairs, name)[0]))
  {
    if pairs != [] {
      FirstValueIsFirst(pairs[1..], name);
    }
  }

  // ---------------------------------------------------------------------------
  // Link classification
  // ---------------------------------------------------------------------------

  datatype LinkKind = Playlist | Song

  /** The pair `parse_url` returns: a kind and an id, each possibly absent. */
  datatype Classified = Classified(kind: Option<LinkKind>, id: Option<string>)

  const Host := "music.163.com"

  /** The path test `parse_url` falls back on when neither the URL nor the id names a kind. */
  function PathBranch(path: string, params: Query): (r: Classified)
    requires forall k :: k in params ==> params[k] != []
    ensures r.kind.None? <==> r.id.None?
  {
    if "id" in params then
      if Contains(path, "/playlist") then Classified(Some(Playlist), Some(params["id"][0]))
      else if Contains(path, "/song") then Classified(Some(Song), Some(params["id"][0]))
      else Classified(None, None)
    else Classified(None, None)
  }

  /**
   * `UI.parse_url` on a link, its path and its query pairs. A link off the service's host
   * is nothing. "playlist" in the link or in the first id makes a playlist, then "song"
   * in the link a song, in both cases only with an id; otherwise the path decides.
   */
  function ParseUrl(url: string, path: string, pairs: seq<(string, string)>): (r: Classified)
    ensures r.kind.None? <==> r.id.None?
    ensures !Contains(url, Host) ==> r == Classified(None, None)
    ensures r.id.Some? ==> "id" in ParseQs(pairs) && r.id.value == ParseQs(pairs)["id"][0]
  {
    if !Contains(url, Host) then Classified(None, None)
    else
      var params := ParseQs(pairs);
      var firstId := if "id" in params then params["id"][0] else "";
      if Contains(url, "playlist") || Contains(firstId, "playlist") then
        if "id" in params then Classified(Some(Playlist), Some(params["id"][0])) else PathBranch(path, params)
      else if Contains(url, "song") then
        if "id" in params then Classified(Some(Song), Some(params["id"][0])) else PathBranch(path, params)
      else PathBranch(path, params)
  }

  /** The id a classification carries is the first non-blank `id` value of the query. */
  lemma ClassifiedId(url: string, path: string, pairs: seq<(string, string)>)
    ensures ParseUrl(url, path, pairs).id.Some? ==> ParseUrl(url, path, pairs).id == FirstValue(pairs, "id")
  {
    ParseQsValues(pairs, "id");
    FirstValueIsFirst(pairs, "id");
  }

  /** Without a non-blank `id` value the link is nothing, whatever its path. */
  lemma NoIdIsNothing(url: string, path: string, pairs: seq<(string, string)>)
    requires FirstValue(pairs, "id").None?
    ensures ParseUrl(url, path, pairs) == Classified(None, None)
  {
    ParseQsValues(pairs, "id");
    FirstValueIsFirst(pairs, "id");
  }

  /** A link on the host naming "playlist", in itself or in its id, is a playlist, even when it also names "song". */
  lemma PlaylistWins(url: string, path: string, pairs: seq<(string, string)>, id: string)
    requires Contains(url, Host)
    requires FirstValue(pairs, "id") == Some(id)
    requires Contains(url, "playlist") || Contains(id, "playlist")
    ensures ParseUrl(url, path, pairs) == Classified(Some(Playlist), Some(id))
  {
    ParseQsValues(pairs, "id");
    FirstValueIsFirst(pairs, "id");
  }

  /** Otherwise a link on the host naming "song" is a song. */
  lemma SongLink(url: string, path: string, pairs: seq<(string, string)>, id: string)
    requires Contains(url, Host)
    requires FirstValue(pairs, "id") == Some(id)
    requires !Contains(url, "playlist") && !Contains(id, "playlist") && Contains(url, "song")
    ensures ParseUrl(url, path, pairs) == Classified(Some(Song), Some(id))
  {
    ParseQsValues(pairs, "id");
    FirstValueIsFirst(pairs, "id");
  }

  lemma PlaylistInSlashPlaylist()
    ensures Contains("/playlist", "playlist")
  {
    assert "/playlist"[1..] == "playlist";
  }

  lemma SongInSlashSong()
    ensures Contains("/song", "song")
  {
    assert "/song"[1..] == "song";
  }

  /**
   * When the path is part of the link, as `urlparse` makes it, the link is a playlist
   * exactly when it is on the host, has an id, and names "playlist" in itself or in its
   * id, and a song exactly when it has an id and names "song" but not "playlist": the path
   * test never decides anything.
   */
  lemma ClassificationIff(url: string, path: string, pairs: seq<(string, string)>)
    requires Contains(url, path)
    ensures var r := ParseUrl(url, path, pairs);
      var id := FirstValue(pairs, "id");
      && (r.kind == Some(Playlist) <==>
            Contains(url, Host) && id.Some? && (Contains(url, "playlist") || Contains(id.value, "playlist")))
      && (r.kind == Some(Song) <==>
            Contains(url, Host) && id.Some? && !Contains(url, "playlist") && !Contains(id.value, "playlist")
            && Contains(url, "song"))
  {
    ParseQsValues(pairs, "id");
    FirstValueIsFirst(pairs, "id");
    if Contains(path, "/playlist") {
      ContainsTransitive(url, path, "/playlist");
      PlaylistInSlashPlaylist();
      ContainsTransitive(url, "/playlist", "playlist");
    }
    if Contains(path, "/song") {
      ContainsTransitive(url, path, "/song");
      SongInSlashSong();
      ContainsTransitive(url, "/song", "song");
    }
  }

  /** Hence the path can be anything the link contains, the empty path included. */
  lemma PathIrrelevant(url: string, path: string, pairs: seq<(string, string)>)
    requires Contains(url, path)
    ensures ParseUrl(url, path, pairs) == ParseUrl(url, "", pairs)
  {
    ClassificationIff(url, path, pairs);
    assert Contains(url, "") by {
      assert "" <= url;
    }
    ClassificationIff(url, "", pairs);
    ClassifiedId(url, path, pairs);
    ClassifiedId(url, "", pairs);
  }

  // ---------------------------------------------------------------------------
  // QR login
  // ---------------------------------------------------------------------------

  /** Where one status check leaves the QR login. */
  datatype QrState = Waiting | Scanned | Expired | Confirmed

  /** One status check: 800 expires the key, 802 means scanned, 803 confirms; anything else waits. */
  function QrStep(code: Option<int>): (s: QrState)
    ensures s == Expired <==> code == Some(800)
    ensures s == Confirmed <==> code == Some(803)
    ensures s == Scanned <==> code == Some(802)
  {
    match code
    case Some(800) => Expired
    case Some(802) => Scanned
    case Some(803) => Confirmed
    case _ => Waiting
  }

  /** A state that ends the poll loop. */
  predicate Final(s: QrState)
  {
    s == Expired || s == Confirmed
  }

  /** The index of the first check that ends the loop. */
  function FirstFinal(codes: seq<Option<int>>): (r: Option<nat>)
    ensures r.Some? ==> r.value < |codes| && Final(QrStep(codes[r.value]))
    ensures forall i :: 0 <= i < (if r.Some? then r.value else |codes|) ==> !Final(QrStep(codes[i]))
  {
    if codes == [] then None
    else if Final(QrStep(codes[0])) then Some(0)
    else
      match FirstFinal(codes[1..])
      case None => None
      case Some(i) => Some(i + 1)
  }

  /**
   * The poll loop of the QR login over the answers of successive status checks: it stops
   * at the first 800 or 803 and saves the session only on 803. When the answers run out
   * first, every one was checked and the login is still pending.
   */
  method PollQr(codes: seq<Option<int>>) returns (checks: nat, saved: bool)
    ensures FirstFinal(codes).None? ==> checks == |codes| && !saved
    ensures FirstFinal(codes).Some? ==>
      checks == FirstFinal(codes).value + 1 && (saved <==> codes[FirstFinal(codes).value] == Some(803))
  {
    checks, saved := 0, false;
    while checks < |codes|
      invariant 0 <= checks <= |codes|
      invariant forall i :: 0 <= i < checks ==> !Final(QrStep(codes[i]))
      invariant !saved
    {
      var state := QrStep(codes[checks]);
      checks := checks + 1;
      if state == Expired {
        break;
      } else if state == Confirmed {
        saved := true;
        break;
      }
    }
    FirstFinalIsFirst(codes, checks);
  }

  /** `FirstFinal` is the one index where the checks before are not final and that one is. */
  lemma {:induction false} FirstFinalIsFirst(codes: seq<Option<int>>, n: nat)
    requires n <= |codes|
    requires forall i :: 0 <= i < n - 1 ==> !Final(QrStep(codes[i]))
    ensures n > 0 && Final(QrStep(codes[n - 1])) ==> FirstFinal(codes) == Some(n - 1)
    ensures n == |codes| && (n == 0 || !Final(QrStep(codes[n - 1]))) ==> FirstFinal(codes).None?
  {
    if codes != [] && n > 0 {
      if !Final(QrStep(codes[0])) {
        assert forall i :: 0 <= i < n - 2 ==> codes[1..][i] == codes[i + 1];
        FirstFinalIsFirst(codes[1..], n - 1);
      }
    }
  }

  // ---------------------------------------------------------------------------
  // Dispatch
  // ---------------------------------------------------------------------------

  /** One entry of a playlist's track list: `id`, `name` and the names in `ar`. */
  datatype Track = Track(id: string, name: string, artists: seq<string>)

  /** What the search screen does with one input. */
  datatype Action =
    | Downloads(requests: seq<Request>)  // these `download_song` calls, in order
    | EmptyPlaylist                      // a playlist without tracks: warn and ask again
    | KeywordSearch(keyword: string)     // not a link: search the catalog for the input

  /** The `download_song` call for one playlist track, artists joined with ", ". */
  function TrackRequest(t: Track): Request
  {
    Request(t.id, t.name, Join(t.artists, ", "), None)
  }

  /** The requests of a playlist, one per track in list order. */
  function PlaylistRequests(tracks: seq<Track>): (r: seq<Request>)
    ensures |r| == |tracks|
    ensures forall i :: 0 <= i < |tracks| ==> r[i] == TrackRequest(tracks[i])
  {
    if tracks == [] then [] else [TrackRequest(tracks[0])] + PlaylistRequests(tracks[1..])
  }

  /** The request for a song link: a placeholder name from the id and an unknown artist. */
  function SongRequest(id: string): Request
  {
    Request(id, "Song_" + id, "Unknown", None)
  }

  /**
   * The dispatch of the search screen on a classified input; `tracks` is what the
   * playlist lookup returns for the id.
   */
  function Dispatch(keyword: string, link: Classified, tracks: seq<Track>): (a: Action)
    requires link.kind.None? <==> link.id.None?
    ensures link.kind == Some(Playlist) && tracks != [] ==> a == Downloads(PlaylistRequests(tracks))
    ensures link.kind == Some(Playlist) && tracks == [] ==> a == EmptyPlaylist
    ensures link.kind == Some(Song) ==> a == Downloads([SongRequest(link.id.value)])
    ensures link.kind.None? ==> a == KeywordSearch(keyword)
  {
    match link.kind
    case Some(Playlist) => if tracks == [] then EmptyPlaylist else Downloads(PlaylistRequests(tracks))
    case Some(Song) => Downloads([SongRequest(link.id.value)])
    case None => KeywordSearch(keyword)
  }

  /** A pasted song link downloads that one song under its placeholder name. */
  lemma SongLinkDownloads(url: string, path: string, pairs: seq<(string, string)>, id: string, tracks: seq<Track>)
    requires Contains(url, Host) && FirstValue(pairs, "id") == Some(id)
    requires !Contains(url, "playlist") && !Contains(id, "playlist") && Contains(url, "song")
    ensures Dispatch(url, ParseUrl(url, path, pairs), tracks) == Downloads([Request(id, "Song_" + id, "Unknown", None)])
  {
    SongLink(url, path, pairs, id);
  }

  /** Input that is not a link of the service is searched for as a keyword. */
  lemma ForeignInputIsSearched(keyword: string, path: string, pairs: seq<(string, string)>, tracks: seq<Track>)
    requires !Contains(keyword, Host)
    ensures Dispatch(keyword, ParseUrl(keyword, path, pairs), tracks) == KeywordSearch(keyword)
  {
  }

  /**
   * The playlist loop: one `download_song` per track in list order, against the same
   * environment, so an earlier track's file is already there for a later one.
   */
  method DownloadPlaylist(env: Environment, cfg: Config, apis: seq<Api>, tracks: seq<Track>)
    returns (outcomes: seq<Outcome>)
    requires |apis| == |tracks|
    modifies env
    ensures var run := PlanAll(cfg, apis, PlaylistRequests(tracks), old(env.files));
      outcomes == run.outcomes && env.files == run.files && env.trace == old(env.trace) + run.effects
  {
    var reqs := PlaylistRequests(tracks);
    outcomes := [];
    var i := 0;
    while i < |tracks|
      invariant 0 <= i <= |tracks|
      invariant var run := PlanAll(cfg, apis[..i], reqs[..i], old(env.files));
        outcomes == run.outcomes && env.files == run.files && env.trace == old(env.trace) + run.effects
    {
      ghost var before := PlanAll(cfg, apis[..i], reqs[..i], old(env.files));
      ghost var trace0 := env.trace;
      var outcome := DownloadSong(env, cfg, apis[i], TrackRequest(tracks[i]));
      ghost var run := Plan(cfg, apis[i], reqs[i], before.files);
      assert env.trace == trace0 + run.effects;
      PlanAllPrefix(cfg, apis, reqs, old(env.files), i);
      Regroup(old(env.trace), before.effects, run.effects);
      outcomes := outcomes + [outcome];
      i := i + 1;
    }
    assert apis[..i] == apis && reqs[..i] == reqs;
  }

  /** The outcomes, effects and final files of several downloads made one after another. */
  datatype Batch = Batch(outcomes: seq<Outcome>, effects: seq<Effect>, files: map<string, Content>)

  /** Several downloads in order, each against the files the previous ones left. */
  function PlanAll(cfg: Config, apis: seq<Api>, reqs: seq<Request>, files: map<string, Content>): (b: Batch)
    requires |apis| == |reqs|
    ensures |b.outcomes| == |reqs|
    decreases |reqs|
  {
    if reqs == [] then Batch([], [], files)
    else
      var n := |reqs| - 1;
      var before := PlanAll(cfg, apis[..n], reqs[..n], files);
      var run := Plan(cfg, apis[n], reqs[n], before.files);
      Batch(before.outcomes + [run.outcome], before.effects + run.effects, run.files)
  }

  /** One more download extends the batch by its own run. */
  lemma PlanAllPrefix(cfg: Config, apis: seq<Api>, reqs: seq<Request>, files: map<string, Content>, i: nat)
    requires |apis| == |reqs| && i < |reqs|
    ensures var before := PlanAll(cfg, apis[..i], reqs[..i], files);
      var run := Plan(cfg, apis[i], reqs[i], before.files);
      PlanAll(cfg, apis[..i + 1], reqs[..i + 1], files)
      == Batch(before.outcomes + [run.outcome], before.effects + run.effects, run.files)
  {
    assert apis[..i + 1][..i] == apis[..i] && reqs[..i + 1][..i] == reqs[..i];
  }

  /**
   * A playlist listing the same track twice, with `overwrite` off: when the first download
   * saves its file, the second finds it and keeps it.
   */
  lemma RepeatedTrackIsKept(cfg: Config, api: Api, t: Track, files: map<string, Content>)
    requires !cfg.overwrite
    requires Plan(cfg, api, TrackRequest(t), files).outcome.Saved?
    ensures PlanAll(cfg, [api, api], PlaylistRequests([t, t]), files).outcomes
         == [Plan(cfg, api, TrackRequest(t), files).outcome, Exists(Plan(cfg, api, TrackRequest(t), files).outcome.path)]
  {
    var reqs := PlaylistRequests([t, t]);
    var first := Plan(cfg, api, TrackRequest(t), files);
    PlanAllPrefix(cfg, [api, api], reqs, files, 0);
    PlanAllPrefix(cfg, [api, api], reqs, files, 1);
    assert [api, api][..1] == [api] && reqs[..1] == [TrackRequest(t)];
    assert [api, api][..2] == [api, api] && reqs[..2] == reqs;
    SavedIsKeptNextTime(cfg, api, TrackRequest(t), files, first.outcome.path);
  }
}
