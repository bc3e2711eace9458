/** `bangumi_tracker/cli.py`, function `operation`: walk the configured shows, pick the episodes
    that are neither excluded nor already in qBittorrent, give each its folder and save path,
    then submit them one by one. */
module Cli {
  import opened Results
  import opened Bencode
  import opened Torrents
  import opened Episodes
  import Rss
  import Configs
  import Paths
  import Decimal
  import Filters

  /** What `operation` reaches through the network, the file system or foreign libraries. */
  datatype Env = Env(
    codecs: Codecs,
    search: (string, string) -> bool,          // re.search(pattern, title) is not None
    feed: string -> seq<Rss.Entry>,             // feedparser's entries for a feed URL
    download: string -> Result<Value, Error>,   // HTTP GET of a torrent URL, then bencodepy.decode
    resolve: string -> string)                  // str(Path(root).expanduser().resolve())

  /** What the n-th `client.torrents_add` call did: returned a reply text, or raised. */
  datatype Reply = Replied(text: string) | Raised(message: string)

  /** The arguments of one `client.torrents_add` call. */
  datatype AddRequest = AddRequest(
    urls: string,
    savePath: string,
    isPaused: bool,
    useAutoTorrentManagement: bool,
    contentLayout: string,
    tags: seq<string>,
    category: Option<string>)

  /** `any(re.search(pattern, title) for pattern in patterns)`. */
  function Excluded(patterns: seq<string>, title: string, search: (string, string) -> bool): (b: bool)
    ensures b <==> exists k :: 0 <= k < |patterns| && search(patterns[k], title)
  {
    if patterns == [] then false
    else
      assert forall k :: 1 <= k < |patterns| ==> patterns[k] == patterns[1..][k - 1];
      search(patterns[0], title) || Excluded(patterns[1..], title, search)
  }

  /** `episode.torrent.hash in existing_hashes`. */
  predicate Known(t: Torrent, existing: set<string>) {
    t.hash.Some? && t.hash.value in existing
  }

  /** The torrent name as the truth test `if episode.torrent.name:` sees it. */
  function NameText(t: Torrent): string {
    match t.name
    case Some(n) => n
    case None => ""
  }

  /** `f"{show.title} - S{show.season:02d}E{i:02d}"`. */
  function FallbackFolder(title: string, season: int, i: int): string {
    title + " - S" + Decimal.Pad2(season) + "E" + Decimal.Pad2(i)
  }

  /** `folder_name`: the stem of the torrent's name, or the fallback when the name is empty. */
  function FolderName(show: Configs.ShowConfig, name: string, i: int): string {
    if name != "" then Paths.Stem(Paths.Name(Paths.Parse(name)))
    else FallbackFolder(show.title, show.season, i)
  }

  function SeasonDir(season: int): string {
    "Season " + Decimal.IntToString(season)
  }

  /** `root / show.title / f"Season {show.season}" / folder_name`. */
  function SavePath(root: Paths.Path, show: Configs.ShowConfig, folder: string): Paths.Path {
    Paths.Join(Paths.Join(Paths.Join(root, show.title), SeasonDir(show.season)), folder)
  }

  /** The resolved `save_path_root`. */
  function Root(config: Configs.BangumiConfig, env: Env): Paths.Path {
    Paths.Parse(env.resolve(config.qbittorrent.savePathRoot))
  }

  /** The episode as it is appended: its fetched torrent, then save path, season, show title
      and category assigned for the i-th new episode of `show`. */
  function Assigned(show: Configs.ShowConfig, e: Episode, t: Torrent, i: int, root: Paths.Path): Episode {
    e.(torrent := t,
       savePath := Some(SavePath(root, show, FolderName(show, NameText(t), i))),
       season := Some(show.season),
       showTitle := Some(show.title),
       category := Some(show.category))
  }

  /** The metadata `fetch_meta` gives for an episode's torrent URL. */
  function Meta(e: Episode, env: Env): Result<Torrent, Error> {
    FetchMeta(e.torrent.url, env.download(e.torrent.url), env.codecs)
  }

  /** The episodes of one show that the inner loop appends, going through `eps` after `count`
      of them have been appended; an exception from `fetch_meta` ends everything. */
  function SelectShow(show: Configs.ShowConfig, eps: seq<Episode>, existing: set<string>,
                      root: Paths.Path, env: Env, count: nat): Result<seq<Episode>, Error>
    decreases |eps|
  {
    if eps == [] then Ok([])
    else if Excluded(show.excludePatterns, eps[0].title, env.search) then
      SelectShow(show, eps[1..], existing, root, env, count)
    else
      var t :- Meta(eps[0], env);
      if Known(t, existing) then SelectShow(show, eps[1..], existing, root, env, count)
      else
        var rest :- SelectShow(show, eps[1..], existing, root, env, count + 1);
        Ok([Assigned(show, eps[0], t, count + 1, root)] + rest)
  }

  /** One show's contribution: its feed read newest-last (`reverse=True`), then selected. */
  function ShowPart(show: Configs.ShowConfig, existing: set<string>, root: Paths.Path, env: Env): Result<seq<Episode>, Error> {
    var eps :- Rss.FeedEpisodes(env.feed(show.url), true);
    SelectShow(show, eps, existing, root, env, 0)
  }

  /** `episodes_to_download`: the shows' parts concatenated in configuration order. */
  function SelectAll(shows: seq<Configs.ShowConfig>, existing: set<string>, root: Paths.Path, env: Env): Result<seq<Episode>, Error> {
    if shows == [] then Ok([])
    else
      var part :- ShowPart(shows[0], existing, root, env);
      var rest :- SelectAll(shows[1..], existing, root, env);
      Ok(part + rest)
  }

  function Prepend(front: seq<Episode>, r: Result<seq<Episode>, Error>): Result<seq<Episode>, Error> {
    match r
    case Ok(s) => Ok(front + s)
    case Err(e) => Err(e)
  }

  lemma PrependNothing(r: Result<seq<Episode>, Error>)
    ensures Prepend([], r) == r
  {
    if r.Ok? { assert [] + r.value == r.value; }
  }

  lemma PrependTwice(a: seq<Episode>, b: seq<Episode>, r: Result<seq<Episode>, Error>)
    ensures Prepend(a, Prepend(b, r)) == Prepend(a + b, r)
  {
    if r.Ok? { assert a + (b + r.value) == (a + b) + r.value; }
  }

  /** An excluded or already known episode is passed over without advancing the counter. */
  lemma SelectShowSkips(show: Configs.ShowConfig, eps: seq<Episode>, existing: set<string>,
                        root: Paths.Path, env: Env, count: nat)
    requires eps != []
    requires Excluded(show.excludePatterns, eps[0].title, env.search) ||
             (Meta(eps[0], env).Ok? && Known(Meta(eps[0], env).value, existing))
    ensures SelectShow(show, eps, existing, root, env, count) == SelectShow(show, eps[1..], existing, root, env, count)
  {
  }

  lemma SelectShowFails(show: Configs.ShowConfig, eps: seq<Episode>, existing: set<string>,
                        root: Paths.Path, env: Env, count: nat)
    requires eps != []
    requires !Excluded(show.excludePatterns, eps[0].title, env.search) && Meta(eps[0], env).Err?
    ensures SelectShow(show, eps, existing, root, env, count) == Err(Meta(eps[0], env).error)
  {
  }

  lemma SelectShowAppends(show: Configs.ShowConfig, eps: seq<Episode>, existing: set<string>,
                          root: Paths.Path, env: Env, count: nat)
    requires eps != []
    requires !Excluded(show.excludePatterns, eps[0].title, env.search) && Meta(eps[0], env).Ok?
    requires !Known(Meta(eps[0], env).value, existing)
    ensures SelectShow(show, eps, existing, root, env, count) ==
            Prepend([Assigned(show, eps[0], Meta(eps[0], env).value, count + 1, root)],
                    SelectShow(show, eps[1..], existing, root, env, count + 1))
  {
  }

  /** The episodes of `eps`, in feed order, that the inner loop keeps, each with the torrent
      fetched for it: not excluded, fetched without error, and not already known. */
  function Kept(show: Configs.ShowConfig, eps: seq<Episode>, existing: set<string>, env: Env): (kept: seq<(Episode, Torrent)>)
    ensures |kept| <= |eps|
    ensures forall k :: 0 <= k < |kept| ==>
      kept[k].0 in eps && !Excluded(show.excludePatterns, kept[k].0.title, env.search) &&
      Meta(kept[k].0, env) == Ok(kept[k].1) && !Known(kept[k].1, existing)
  {
    if eps == [] then []
    else
      var rest := Kept(show, eps[1..], existing, env);
      assert forall k :: 0 <= k < |rest| ==> rest[k].0 in eps;
      if Keeps(show, existing, env, eps[0]) then [(eps[0], Meta(eps[0], env).value)] + rest
      else rest
  }

  lemma KeptStep(show: Configs.ShowConfig, eps: seq<Episode>, existing: set<string>, env: Env)
    requires eps != []
    ensures Kept(show, eps, existing, env) ==
            if Keeps(show, existing, env, eps[0])
            then [(eps[0], Meta(eps[0], env).value)] + Kept(show, eps[1..], existing, env)
            else Kept(show, eps[1..], existing, env)
  {
  }

  /** The inner loop's test for an episode: not excluded, fetched without error, and its hash
      not already known. */
  predicate Keeps(show: Configs.ShowConfig, existing: set<string>, env: Env, e: Episode) {
    !Excluded(show.excludePatterns, e.title, env.search) && Meta(e, env).Ok? &&
    !Known(Meta(e, env).value, existing)
  }

  /** Whether the inner loop keeps eps[k]. */
  function KeepsAt(show: Configs.ShowConfig, existing: set<string>, env: Env, eps: seq<Episode>): nat -> bool {
    (k: nat) => k < |eps| && Keeps(show, existing, env, eps[k])
  }

  lemma {:induction false} KeptFrom(show: Configs.ShowConfig, eps: seq<Episode>, existing: set<string>, env: Env, lo: nat)
    requires lo <= |eps|
    ensures var kept := Kept(show, eps[lo..], existing, env);
            var ix := Filters.Where(KeepsAt(show, existing, env, eps), lo, |eps|);
            |kept| == |ix| && forall i :: 0 <= i < |ix| ==> kept[i].0 == eps[ix[i]]
    decreases |eps| - lo
  {
    if lo < |eps| {
      var p := KeepsAt(show, existing, env, eps);
      KeptFrom(show, eps, existing, env, lo + 1);
      KeptStep(show, eps[lo..], existing, env);
      assert eps[lo..][0] == eps[lo] && eps[lo..][1..] == eps[lo + 1..];
      var rest := Kept(show, eps[lo + 1..], existing, env);
      var ix := Filters.Where(p, lo + 1, |eps|);
      if p(lo) {
        assert Kept(show, eps[lo..], existing, env) == [(eps[lo], Meta(eps[lo], env).value)] + rest;
        assert Filters.Where(p, lo, |eps|) == [lo] + ix;
        TakenAtCons(rest, eps, ix, lo, Meta(eps[lo], env).value);
      } else {
        assert Kept(show, eps[lo..], existing, env) == rest;
        assert Filters.Where(p, lo, |eps|) == ix;
      }
    }
  }

  /** Putting the pair for eps[lo] in front keeps pairs and positions in step. */
  lemma TakenAtCons(rest: seq<(Episode, Torrent)>, eps: seq<Episode>, ix: seq<nat>, lo: nat, t: Torrent)
    requires lo < |eps|
    requires |rest| == |ix| && forall i :: 0 <= i < |ix| ==> ix[i] < |eps| && rest[i].0 == eps[ix[i]]
    ensures var kept := [(eps[lo], t)] + rest;
            |kept| == |[lo] + ix| && forall i :: 0 <= i < |[lo] + ix| ==> kept[i].0 == eps[([lo] + ix)[i]]
  {
    forall i | 0 <= i < |[lo] + ix| ensures ([(eps[lo], t)] + rest)[i].0 == eps[([lo] + ix)[i]] {
      if i > 0 {
        assert ([(eps[lo], t)] + rest)[i] == rest[i - 1] && ([lo] + ix)[i] == ix[i - 1];
      }
    }
  }

  /** Nothing that passes the test is dropped: the kept pairs are, in feed order, exactly the
      episodes at the positions the inner loop keeps, each with its fetched torrent (`Kept`). */
  lemma KeptExactly(show: Configs.ShowConfig, eps: seq<Episode>, existing: set<string>, env: Env)
    ensures var kept := Kept(show, eps, existing, env);
            var ix := Filters.Where(KeepsAt(show, existing, env, eps), 0, |eps|);
            |kept| == |ix| && forall i :: 0 <= i < |ix| ==> kept[i].0 == eps[ix[i]]
  {
    KeptFrom(show, eps, existing, env, 0);
    assert eps[0..] == eps;
  }

  /** SelectAll takes one show's part, then the rest; a failing part ends it. */
  lemma SelectAllStep(shows: seq<Configs.ShowConfig>, existing: set<string>, root: Paths.Path, env: Env)
    requires shows != []
    ensures SelectAll(shows, existing, root, env) ==
            match ShowPart(shows[0], existing, root, env)
            case Err(e) => Err(e)
            case Ok(p) => Prepend(p, SelectAll(shows[1..], existing, root, env))
  {
  }

  /** The inner loop of `operation` (cli.py:83-119) over one show's episodes. */
  method SelectShowEpisodes(show: Configs.ShowConfig, episodes: seq<Episode>, existing: set<string>,
                            root: Paths.Path, env: Env)
    returns (r: Result<seq<Episode>, Error>)
    ensures r == SelectShow(show, episodes, existing, root, env, 0)
  {
    var part: seq<Episode> := [];
    var i: nat := 0;
    assert episodes[0..] == episodes;
    PrependNothing(SelectShow(show, episodes, existing, root, env, 0));
    for n := 0 to |episodes|
      invariant SelectShow(show, episodes, existing, root, env, 0) ==
                Prepend(part, SelectShow(show, episodes[n..], existing, root, env, i))
    {
      ghost var rest := episodes[n..];
      var episode := episodes[n];
      assert rest[0] == episode && rest[1..] == episodes[n + 1..];
      if |show.excludePatterns| > 0 {
        if Excluded(show.excludePatterns, episode.title, env.search) {
          SelectShowSkips(show, rest, existing, root, env, i);
          continue;
        }
      }
      var meta := FetchMeta(episode.torrent.url, env.download(episode.torrent.url), env.codecs);
      if meta.Err? {
        SelectShowFails(show, rest, existing, root, env, i);
        return Err(meta.error);
      }
      var original := episode;
      episode := episode.(torrent := meta.value);
      if Known(episode.torrent, existing) {
        SelectShowSkips(show, rest, existing, root, env, i);
        continue;
      }
      SelectShowAppends(show, rest, existing, root, env, i);
      i := i + 1;
      var folderName := FallbackFolder(show.title, show.season, i);
      if NameText(episode.torrent) != "" {
        folderName := Paths.Stem(Paths.Name(Paths.Parse(NameText(episode.torrent))));
      }
      episode := episode.(savePath := Some(SavePath(root, show, folderName)));
      episode := episode.(season := Some(show.season));
      episode := episode.(showTitle := Some(show.title));
      episode := episode.(category := Some(show.category));
      assert episode == Assigned(show, original, meta.value, i, root);
      PrependTwice(part, [episode], SelectShow(show, episodes[n + 1..], existing, root, env, i));
      part := part + [episode];
    }
    assert episodes[|episodes|..] == [];
    assert SelectShow(show, [], existing, root, env, i) == Ok([]);
    assert part + [] == part;
    return Ok(part);
  }

  /** The selection loops of `operation` (cli.py:80-119): `episodes_to_download`. */
  method SelectEpisodes(config: Configs.BangumiConfig, existing: set<string>, env: Env)
    returns (r: Result<seq<Episode>, Error>)
    ensures r == SelectAll(config.shows, existing, Root(config, env), env)
  {
    var root := Root(config, env);
    var shows := config.shows;
    var toDownload: seq<Episode> := [];
    assert shows[0..] == shows;
    PrependNothing(SelectAll(shows, existing, root, env));
    for s := 0 to |shows|
      invariant SelectAll(shows, existing, root, env) == Prepend(toDownload, SelectAll(shows[s..], existing, root, env))
    {
      var show := shows[s];
      assert shows[s..][0] == show && shows[s..][1..] == shows[s + 1..];
      var fetched := Rss.FetchEpisodes(env.feed(show.url), true);
      SelectAllStep(shows[s..], existing, root, env);
      if fetched.Err? {
        assert ShowPart(show, existing, root, env) == Err(fetched.error);
        return Err(fetched.error);
      }
      var part := SelectShowEpisodes(show, fetched.value, existing, root, env);
      assert ShowPart(show, existing, root, env) == part;
      if part.Err? {
        return Err(part.error);
      }
      PrependTwice(toDownload, part.value, SelectAll(shows[s + 1..], existing, root, env));
      toDownload := toDownload + part.value;
    }
    assert shows[|shows|..] == [];
    assert toDownload + [] == toDownload;
    return Ok(toDownload);
  }

  /** The selection of a show fails exactly when some episode that is not excluded fails to
      fetch; the known hashes and the counter play no part in it. */
  lemma {:induction false} SelectShowSucceeds(show: Configs.ShowConfig, eps: seq<Episode>, existing: set<string>,
                                              root: Paths.Path, env: Env, count: nat)
    ensures SelectShow(show, eps, existing, root, env, count).Ok? <==>
            forall k :: 0 <= k < |eps| && !Excluded(show.excludePatterns, eps[k].title, env.search) ==>
              Meta(eps[k], env).Ok?
  {
    if eps != [] {
      assert forall k :: 1 <= k < |eps| ==> eps[k] == eps[1..][k - 1];
      if Excluded(show.excludePatterns, eps[0].title, env.search) {
        SelectShowSkips(show, eps, existing, root, env, count);
        SelectShowSucceeds(show, eps[1..], existing, root, env, count);
      } else if Meta(eps[0], env).Err? {
        SelectShowFails(show, eps, existing, root, env, count);
      } else if Known(Meta(eps[0], env).value, existing) {
        SelectShowSkips(show, eps, existing, root, env, count);
        SelectShowSucceeds(show, eps[1..], existing, root, env, count);
      } else {
        SelectShowAppends(show, eps, existing, root, env, count);
        SelectShowSucceeds(show, eps[1..], existing, root, env, count + 1);
      }
    }
  }

  /** The kept episodes numbered from i on: the k-th of them (from 0) becomes
      assign(episode, torrent, i + k). */
  function Numbered(kept: seq<(Episode, Torrent)>, assign: (Episode, Torrent, nat) -> Episode, i: nat): (out: seq<Episode>)
    ensures |out| == |kept|
    decreases |kept|
  {
    if kept == [] then []
    else [assign(kept[0].0, kept[0].1, i)] + Numbered(kept[1..], assign, i + 1)
  }

  lemma {:induction false} NumberedAt(kept: seq<(Episode, Torrent)>, assign: (Episode, Torrent, nat) -> Episode, i: nat, k: nat)
    requires k < |kept|
    ensures Numbered(kept, assign, i)[k] == assign(kept[k].0, kept[k].1, i + k)
    decreases |kept|
  {
    if k > 0 {
      NumberedAt(kept[1..], assign, i + 1, k - 1);
      assert kept[1..][k - 1] == kept[k];
    }
  }

  /** How the inner loop assigns the n-th new episode of a show. */
  function AssignFor(show: Configs.ShowConfig, root: Paths.Path): (Episode, Torrent, nat) -> Episode {
    (e: Episode, t: Torrent, n: nat) => Assigned(show, e, t, n, root)
  }

  lemma AssignForAt(show: Configs.ShowConfig, root: Paths.Path, e: Episode, t: Torrent, n: nat)
    ensures AssignFor(show, root)(e, t, n) == Assigned(show, e, t, n, root)
  {
  }

  /** A successful selection is the kept episodes, in order, numbered from count + 1. */
  lemma {:induction false} SelectShowKept(show: Configs.ShowConfig, eps: seq<Episode>, existing: set<string>,
                                          root: Paths.Path, env: Env, count: nat)
    requires SelectShow(show, eps, existing, root, env, count).Ok?
    ensures SelectShow(show, eps, existing, root, env, count).value ==
            Numbered(Kept(show, eps, existing, env), AssignFor(show, root), count + 1)
  {
    if eps != [] {
      KeptStep(show, eps, existing, env);
      if Excluded(show.excludePatterns, eps[0].title, env.search) {
        SelectShowSkips(show, eps, existing, root, env, count);
        SelectShowKept(show, eps[1..], existing, root, env, count);
      } else if Meta(eps[0], env).Err? {
        SelectShowFails(show, eps, existing, root, env, count);
      } else if Known(Meta(eps[0], env).value, existing) {
        SelectShowSkips(show, eps, existing, root, env, count);
        SelectShowKept(show, eps[1..], existing, root, env, count);
      } else {
        SelectShowAppends(show, eps, existing, root, env, count);
        SelectShowKept(show, eps[1..], existing, root, env, count + 1);
        var kept := Kept(show, eps, existing, env);
        assert kept[0] == (eps[0], Meta(eps[0], env).value) && kept[1..] == Kept(show, eps[1..], existing, env);
      }
    }
  }

  /** What the i-th new episode of a show looks like once selected: not excluded, its hash
      fetched and not already known, season, title and category copied from the show, and
      saved under root / title / "Season n" / folder, the folder numbered i when the torrent
      has no name. */
  predicate SelectedAs(show: Configs.ShowConfig, existing: set<string>, root: Paths.Path, env: Env,
                       i: nat, a: Episode) {
    !Excluded(show.excludePatterns, a.title, env.search) &&
    a.torrent.hash.Some? && a.torrent.hash.value !in existing &&
    a.season == Some(show.season) && a.showTitle == Some(show.title) &&
    a.category == Some(show.category) &&
    a.savePath == Some(SavePath(root, show, FolderName(show, NameText(a.torrent), i)))
  }

  /** What every selected episode of a show looks like, numbered by its place among the new
      ones. */
  lemma SelectShowShape(show: Configs.ShowConfig, eps: seq<Episode>, existing: set<string>,
                        root: Paths.Path, env: Env, count: nat)
    requires SelectShow(show, eps, existing, root, env, count).Ok?
    ensures var out := SelectShow(show, eps, existing, root, env, count).value;
            |out| <= |eps| &&
            forall k :: 0 <= k < |out| ==> SelectedAs(show, existing, root, env, count + k + 1, out[k])
  {
    SelectShowKept(show, eps, existing, root, env, count);
    var kept := Kept(show, eps, existing, env);
    forall k | 0 <= k < |kept| ensures kept[k].1.hash.Some? {
      FetchedHash(kept[k].0, kept[k].1, env);
    }
    NumberedShape(show, kept, existing, root, env, count,
                  SelectShow(show, eps, existing, root, env, count).value);
  }

  /** Where every selected episode comes from: the k-th is the feed episode at the k-th
      position the inner loop keeps, with the torrent `fetch_meta` gave for it, assigned as
      new episode count + k + 1. Nothing the loop keeps is missing. */
  lemma SelectShowSource(show: Configs.ShowConfig, eps: seq<Episode>, existing: set<string>,
                         root: Paths.Path, env: Env, count: nat)
    requires SelectShow(show, eps, existing, root, env, count).Ok?
    ensures var out := SelectShow(show, eps, existing, root, env, count).value;
            var ix := Filters.Where(KeepsAt(show, existing, env, eps), 0, |eps|);
            |out| == |ix| &&
            forall k :: 0 <= k < |out| ==>
              Meta(eps[ix[k]], env) == Ok(out[k].torrent) &&
              out[k] == Assigned(show, eps[ix[k]], out[k].torrent, count + k + 1, root)
  {
    SelectShowKept(show, eps, existing, root, env, count);
    KeptExactly(show, eps, existing, env);
    NumberedFrom(Kept(show, eps, existing, env), SelectShow(show, eps, existing, root, env, count).value,
                 eps, Filters.Where(KeepsAt(show, existing, env, eps), 0, |eps|), show, root, env, count);
  }

  /** Numbering pairs taken from positions `ix` of `eps`. */
  lemma NumberedFrom(kept: seq<(Episode, Torrent)>, out: seq<Episode>, eps: seq<Episode>, ix: seq<nat>,
                     show: Configs.ShowConfig, root: Paths.Path, env: Env, count: nat)
    requires |kept| == |ix| && forall i :: 0 <= i < |ix| ==> ix[i] < |eps| && kept[i].0 == eps[ix[i]]
    requires forall i :: 0 <= i < |kept| ==> Meta(kept[i].0, env) == Ok(kept[i].1)
    requires out == Numbered(kept, AssignFor(show, root), count + 1)
    ensures |out| == |ix| &&
            forall k :: 0 <= k < |out| ==>
              Meta(eps[ix[k]], env) == Ok(out[k].torrent) &&
              out[k] == Assigned(show, eps[ix[k]], out[k].torrent, count + k + 1, root)
  {
    forall k | 0 <= k < |out|
      ensures Meta(eps[ix[k]], env) == Ok(out[k].torrent) &&
              out[k] == Assigned(show, eps[ix[k]], out[k].torrent, count + k + 1, root)
    {
      NumberedSource(kept, show, root, env, count, k, out[k], eps[ix[k]]);
    }
  }

  /** The k-th numbered episode carries the k-th kept torrent. */
  lemma NumberedSource(kept: seq<(Episode, Torrent)>, show: Configs.ShowConfig, root: Paths.Path, env: Env,
                       count: nat, k: nat, a: Episode, e: Episode)
    requires k < |kept| && kept[k].0 == e && Meta(e, env) == Ok(kept[k].1)
    requires a == Numbered(kept, AssignFor(show, root), count + 1)[k]
    ensures Meta(e, env) == Ok(a.torrent) && a == Assigned(show, e, a.torrent, count + k + 1, root)
  {
    var t := kept[k].1;
    NumberedAssigned(kept, show, root, count + 1, k);
    assert a == Assigned(show, e, t, count + k + 1, root);
    AssignedTorrent(show, e, t, count + k + 1, root);
  }

  /** An assigned episode carries the torrent fetched for it. */
  lemma AssignedTorrent(show: Configs.ShowConfig, e: Episode, t: Torrent, i: int, root: Paths.Path)
    ensures Assigned(show, e, t, i, root).torrent == t
  {
  }

  /** Each pair passes the inner loop's tests: not excluded, and a hash not already known. */
  predicate KeptFor(show: Configs.ShowConfig, existing: set<string>, env: Env, kept: seq<(Episode, Torrent)>) {
    forall k :: 0 <= k < |kept| ==>
      !Excluded(show.excludePatterns, kept[k].0.title, env.search) &&
      kept[k].1.hash.Some? && kept[k].1.hash.value !in existing
  }

  lemma NumberedShape(show: Configs.ShowConfig, kept: seq<(Episode, Torrent)>, existing: set<string>,
                      root: Paths.Path, env: Env, count: nat, out: seq<Episode>)
    requires KeptFor(show, existing, env, kept)
    requires out == Numbered(kept, AssignFor(show, root), count + 1)
    ensures forall k :: 0 <= k < |out| ==> SelectedAs(show, existing, root, env, count + k + 1, out[k])
  {
    forall k | 0 <= k < |out| ensures SelectedAs(show, existing, root, env, count + k + 1, out[k]) {
      NumberedAssigned(kept, show, root, count + 1, k);
      AssignedShape(show, kept[k].0, kept[k].1, count + k + 1, root, env, existing, out[k]);
    }
  }

  /** The k-th numbered episode is the k-th kept one, assigned as new episode i + k. */
  lemma NumberedAssigned(kept: seq<(Episode, Torrent)>, show: Configs.ShowConfig, root: Paths.Path, i: nat, k: nat)
    requires k < |kept|
    ensures Numbered(kept, AssignFor(show, root), i)[k] == Assigned(show, kept[k].0, kept[k].1, i + k, root)
  {
    NumberedAt(kept, AssignFor(show, root), i, k);
    AssignForAt(show, root, kept[k].0, kept[k].1, i + k);
  }

  /** An episode kept for its show, once assigned as the i-th new one. */
  lemma AssignedShape(show: Configs.ShowConfig, e: Episode, t: Torrent, i: nat, root: Paths.Path,
                      env: Env, existing: set<string>, a: Episode)
    requires !Excluded(show.excludePatterns, e.title, env.search)
    requires t.hash.Some? && t.hash.value !in existing
    requires a == Assigned(show, e, t, i, root)
    ensures SelectedAs(show, existing, root, env, i, a)
  {
  }

  /** A torrent fetched for an episode has its hash set. */
  lemma FetchedHash(e: Episode, t: Torrent, env: Env)
    requires Meta(e, env) == Ok(t)
    ensures t.hash.Some?
  {
  }

  /** `fetch_meta` is never called for an excluded episode: what the download gives for those
      URLs does not change the selection. */
  lemma {:induction false} ExcludedNotFetched(show: Configs.ShowConfig, eps: seq<Episode>, existing: set<string>,
                                              root: Paths.Path, env: Env, other: string -> Result<Value, Error>,
                                              count: nat)
    requires forall k :: 0 <= k < |eps| && !Excluded(show.excludePatterns, eps[k].title, env.search) ==>
               other(eps[k].torrent.url) == env.download(eps[k].torrent.url)
    ensures SelectShow(show, eps, existing, root, env.(download := other), count) ==
            SelectShow(show, eps, existing, root, env, count)
  {
    if eps != [] {
      var env' := env.(download := other);
      assert forall k :: 1 <= k < |eps| ==> eps[k] == eps[1..][k - 1];
      ExcludedNotFetched(show, eps[1..], existing, root, env, other, count);
      ExcludedNotFetched(show, eps[1..], existing, root, env, other, count + 1);
      if !Excluded(show.excludePatterns, eps[0].title, env.search) {
        assert Meta(eps[0], env') == Meta(eps[0], env);
      }
    }
  }

  /** The selection over a list of shows is the selection over its front then over its back:
      the parts are concatenated in configuration order. */
  lemma {:induction false} SelectAllAppend(a: seq<Configs.ShowConfig>, b: seq<Configs.ShowConfig>,
                                           existing: set<string>, root: Paths.Path, env: Env)
    ensures SelectAll(a + b, existing, root, env) ==
            match SelectAll(a, existing, root, env)
            case Err(e) => Err(e)
            case Ok(x) => Prepend(x, SelectAll(b, existing, root, env))
  {
    if a == [] {
      assert a + b == b;
      PrependNothing(SelectAll(b, existing, root, env));
    } else {
      assert (a + b)[0] == a[0] && (a + b)[1..] == a[1..] + b;
      SelectAllStep(a + b, existing, root, env);
      SelectAllStep(a, existing, root, env);
      SelectAllAppend(a[1..], b, existing, root, env);
      var part := ShowPart(a[0], existing, root, env);
      var rest := SelectAll(a[1..], existing, root, env);
      if part.Ok? && rest.Ok? {
        PrependTwice(part.value, rest.value, SelectAll(b, existing, root, env));
      }
    }
  }

  /** One show alone selects what its feed gives. */
  lemma SelectAllOne(show: Configs.ShowConfig, existing: set<string>, root: Paths.Path, env: Env)
    ensures SelectAll([show], existing, root, env) == ShowPart(show, existing, root, env)
  {
    SelectAllStep([show], existing, root, env);
    assert [show][1..] == [];
    PrependNothing(Ok([]));
    var p := ShowPart(show, existing, root, env);
    if p.Ok? { assert p.value + [] == p.value; }
  }

  /** `f"{x}"` of an optional text field: None prints as "None". */
  function OptText(o: Option<string>): string {
    match o
    case Some(s) => s
    case None => "None"
  }

  function OptIntText(o: Option<int>): string {
    match o
    case Some(n) => Decimal.IntToString(n)
    case None => "None"
  }

  /** `str(episode.save_path)`. */
  function PathText(o: Option<Paths.Path>): string {
    match o
    case Some(p) => Paths.ToString(p)
    case None => "None"
  }

  /** The `client.torrents_add` call made for an episode. */
  function RequestFor(e: Episode): AddRequest {
    AddRequest(e.torrent.url, PathText(e.savePath), false, false, "NoSubfolder",
               ["FILTER:s==" + OptIntText(e.season), "NAME:" + OptText(e.showTitle), "DIRECT:true"],
               e.category)
  }

  /** The requests for `eps`, one per episode, in order. */
  function Requests(eps: seq<Episode>): (rs: seq<AddRequest>)
    ensures |rs| == |eps|
    ensures forall k :: 0 <= k < |eps| ==> rs[k] == RequestFor(eps[k])
  {
    if eps == [] then [] else Requests(eps[..|eps| - 1]) + [RequestFor(eps[|eps| - 1])]
  }

  lemma RequestsStep(eps: seq<Episode>, n: nat)
    requires n < |eps|
    ensures Requests(eps[..n + 1]) == Requests(eps[..n]) + [RequestFor(eps[n])]
  {
    assert eps[..n + 1][..n] == eps[..n];
  }

  /** The request for a selected episode: its torrent URL, the text of its save path, the three
      tags built from the show, and the show's category. */
  lemma {:induction false} SelectedRequests(show: Configs.ShowConfig, eps: seq<Episode>, existing: set<string>,
                                            root: Paths.Path, env: Env, count: nat)
    requires SelectShow(show, eps, existing, root, env, count).Ok?
    ensures var out := SelectShow(show, eps, existing, root, env, count).value;
            forall k :: 0 <= k < |out| ==>
              RequestFor(out[k]) ==
              AddRequest(out[k].torrent.url,
                         Paths.ToString(SavePath(root, show, FolderName(show, NameText(out[k].torrent), count + k + 1))),
                         false, false, "NoSubfolder",
                         ["FILTER:s==" + Decimal.IntToString(show.season), "NAME:" + show.title, "DIRECT:true"],
                         Some(show.category))
  {
    SelectShowShape(show, eps, existing, root, env, count);
  }

  /** Whether the k-th `torrents_add` call replied exactly "Ok.". */
  function OkAt(reply: nat -> Reply): nat -> bool {
    (k: nat) => reply(k) == Replied("Ok.")
  }

  /** The episodes among `eps` whose call (the k-th call for eps[k]) replied exactly "Ok.":
      in their original order, the episodes at the positions whose reply was "Ok.", and no
      others. */
  function Accepted(eps: seq<Episode>, reply: nat -> Reply): (acc: seq<Episode>)
    ensures |acc| <= |eps|
    ensures forall k :: 0 <= k < |acc| ==> acc[k] in eps
    ensures var ix := Filters.Where(OkAt(reply), 0, |eps|);
            |acc| == |ix| && forall i :: 0 <= i < |ix| ==> acc[i] == eps[ix[i]]
  {
    if eps == [] then []
    else
      var n := |eps| - 1;
      var front := Accepted(eps[..n], reply);
      Filters.WhereSnoc(OkAt(reply), 0, n);
      assert forall k :: 0 <= k < |front| ==> front[k] in eps;
      assert forall j :: 0 <= j < n ==> eps[..n][j] == eps[j];
      if reply(n) == Replied("Ok.") then front + [eps[n]] else front
  }

  lemma AcceptedStep(eps: seq<Episode>, reply: nat -> Reply, n: nat)
    requires n < |eps|
    ensures Accepted(eps[..n + 1], reply) ==
            Accepted(eps[..n], reply) + if reply(n) == Replied("Ok.") then [eps[n]] else []
  {
    assert eps[..n + 1][..n] == eps[..n];
  }

  lemma LastSplit(eps: seq<Episode>)
    requires eps != []
    ensures eps[..|eps|] == eps && eps[..|eps| - 1] + [eps[|eps| - 1]] == eps
  {
  }

  /** When every call replies "Ok.", every episode is accepted. */
  lemma {:induction false} AcceptedAll(eps: seq<Episode>, reply: nat -> Reply)
    requires forall k :: 0 <= k < |eps| ==> reply(k) == Replied("Ok.")
    ensures Accepted(eps, reply) == eps
  {
    if eps != [] {
      var n := |eps| - 1;
      AcceptedAll(eps[..n], reply);
      AcceptedStep(eps, reply, n);
      LastSplit(eps);
    }
  }

  /** When no call replies "Ok.", nothing is accepted. */
  lemma {:induction false} AcceptedNone(eps: seq<Episode>, reply: nat -> Reply)
    requires forall k :: 0 <= k < |eps| ==> reply(k) != Replied("Ok.")
    ensures Accepted(eps, reply) == []
  {
    if eps != [] {
      var n := |eps| - 1;
      AcceptedNone(eps[..n], reply);
      AcceptedStep(eps, reply, n);
      assert eps[..n + 1] == eps;
    }
  }

  /** None of the first n calls raised. */
  predicate Calm(reply: nat -> Reply, n: nat)
    decreases n
  {
    n == 0 || (!reply(n - 1).Raised? && Calm(reply, n - 1))
  }

  lemma {:induction false} CalmAt(reply: nat -> Reply, n: nat, k: nat)
    requires Calm(reply, n) && k < n
    ensures !reply(k).Raised?
    decreases n
  {
    if k < n - 1 {
      CalmAt(reply, n - 1, k);
    }
  }

  /** What the submit loop did with `episodes`: one call per episode in order, stopping right
      after the first call that raised; `added` holds the episodes whose call replied "Ok.". */
  predicate Submitted(episodes: seq<Episode>, reply: nat -> Reply, sent: seq<AddRequest>, added: seq<Episode>) {
    |sent| <= |episodes| &&
    sent == Requests(episodes[..|sent|]) &&
    (|sent| > 0 ==> Calm(reply, |sent| - 1)) &&
    (|sent| == |episodes| || (|sent| > 0 && reply(|sent| - 1).Raised?)) &&
    added == Accepted(episodes[..|sent|], reply)
  }

  /** The submit loop (cli.py:125-146): a reply other than "Ok." moves on to the next episode,
      an exception abandons all that remain. */
  method Submit(episodes: seq<Episode>, reply: nat -> Reply) returns (sent: seq<AddRequest>, added: seq<Episode>)
    ensures Submitted(episodes, reply, sent, added)
  {
    sent := [];
    added := [];
    for n := 0 to |episodes|
      invariant sent == Requests(episodes[..n])
      invariant Calm(reply, n)
      invariant added == Accepted(episodes[..n], reply)
    {
      var episode := episodes[n];
      RequestsStep(episodes, n);
      AcceptedStep(episodes, reply, n);
      sent := sent + [RequestFor(episode)];
      match reply(n)
      case Raised(_) =>
        SubmittedAtRaise(episodes, reply, sent, added, n);
        return;
      case Replied(text) =>
        if text != "Ok." {
          continue;
        }
        added := added + [episode];
    }
    SubmittedAtEnd(episodes, reply, sent, added);
  }

  lemma SubmittedAtRaise(episodes: seq<Episode>, reply: nat -> Reply, sent: seq<AddRequest>, added: seq<Episode>, n: nat)
    requires n < |episodes| && sent == Requests(episodes[..n + 1]) && Calm(reply, n)
    requires reply(n).Raised? && added == Accepted(episodes[..n + 1], reply)
    ensures Submitted(episodes, reply, sent, added)
  {
  }

  lemma SubmittedAtEnd(episodes: seq<Episode>, reply: nat -> Reply, sent: seq<AddRequest>, added: seq<Episode>)
    requires sent == Requests(episodes[..|episodes|]) && Calm(reply, |episodes|)
    requires added == Accepted(episodes[..|episodes|], reply)
    ensures Submitted(episodes, reply, sent, added)
  {
    if |episodes| > 0 {
      assert Calm(reply, |episodes| - 1);
    }
  }

  /** Submission is determined by the episodes and the replies. */
  lemma SubmittedUnique(episodes: seq<Episode>, reply: nat -> Reply,
                        sent: seq<AddRequest>, added: seq<Episode>, sent': seq<AddRequest>, added': seq<Episode>)
    requires Submitted(episodes, reply, sent, added) && Submitted(episodes, reply, sent', added')
    ensures sent == sent' && added == added'
  {
    if |sent| < |sent'| {
      CalmAt(reply, |sent'| - 1, |sent| - 1);
    } else if |sent'| < |sent| {
      CalmAt(reply, |sent| - 1, |sent'| - 1);
    }
  }

  /** An exception on the j-th call, the first one, means no later episode is submitted. */
  lemma SubmittedAbandons(episodes: seq<Episode>, reply: nat -> Reply, sent: seq<AddRequest>, added: seq<Episode>, j: nat)
    requires Submitted(episodes, reply, sent, added)
    requires j < |episodes| && reply(j).Raised? && forall k :: 0 <= k < j ==> !reply(k).Raised?
    ensures |sent| == j + 1
  {
    if |sent| > j + 1 {
      CalmAt(reply, |sent| - 1, j);
    }
  }

  /** Without exceptions every episode is submitted; when all reply "Ok." all are added. */
  lemma SubmittedAll(episodes: seq<Episode>, reply: nat -> Reply, sent: seq<AddRequest>, added: seq<Episode>)
    requires Submitted(episodes, reply, sent, added)
    requires forall k :: 0 <= k < |episodes| ==> !reply(k).Raised?
    ensures |sent| == |episodes|
    ensures (forall k :: 0 <= k < |episodes| ==> reply(k) == Replied("Ok.")) ==> added == episodes
  {
    assert episodes[..|sent|] == episodes || |sent| < |episodes|;
    if forall k :: 0 <= k < |episodes| ==> reply(k) == Replied("Ok.") {
      AcceptedAll(episodes, reply);
    }
  }

  /** `operation` after `existing_hashes` has been read: selection, then submission. An error
      while selecting leaves `operation` before anything is submitted. */
  method Operation(config: Configs.BangumiConfig, existing: set<string>, env: Env, reply: nat -> Reply)
    returns (selected: Result<seq<Episode>, Error>, sent: seq<AddRequest>, added: seq<Episode>)
    ensures selected == SelectAll(config.shows, existing, Root(config, env), env)
    ensures selected.Err? ==> sent == [] && added == []
    ensures selected.Ok? ==> Submitted(selected.value, reply, sent, added)
  {
    selected := SelectEpisodes(config, existing, env);
    if selected.Err? {
      return selected, [], [];
    }
    sent, added := Submit(selected.value, reply);
  }

  lemma SeasonDirComponent(season: int)
    ensures Paths.IsComponent(SeasonDir(season))
  {
    var d := Decimal.IntToString(season);
    assert forall k :: 0 <= k < |d| ==> d[k] != '/' by {
      if season < 0 {
        var m := Decimal.NatToString(-season);
        assert forall k :: 1 <= k < |d| ==> d[k] == m[k - 1];
      }
    }
    var s := SeasonDir(season);
    assert forall k :: 7 <= k < |s| ==> s[k] == d[k - 7];
  }

  /** A save path adds three components to the root: the show title, the season directory and
      the folder. */
  lemma SavePathParts(root: Paths.Path, show: Configs.ShowConfig, folder: string)
    requires Paths.IsComponent(show.title) && Paths.IsComponent(folder)
    ensures SavePath(root, show, folder) ==
            Paths.Path(root.absolute, root.parts + [show.title, SeasonDir(show.season), folder])
  {
    SeasonDirComponent(show.season);
    var p1 := Paths.Join(root, show.title);
    Paths.JoinComponent(root, show.title);
    var p2 := Paths.Join(p1, SeasonDir(show.season));
    Paths.JoinComponent(p1, SeasonDir(show.season));
    Paths.JoinComponent(p2, folder);
    assert root.parts + [show.title] + [SeasonDir(show.season)] + [folder] ==
           root.parts + [show.title, SeasonDir(show.season), folder];
  }

  /** The text of a save path: root, show title, season directory and folder joined by "/". */
  lemma SavePathText(root: Paths.Path, show: Configs.ShowConfig, folder: string)
    requires Paths.Normal(root) && root.parts != []
    requires Paths.IsComponent(show.title) && Paths.IsComponent(folder)
    ensures Paths.ToString(SavePath(root, show, folder)) ==
            Paths.ToString(root) + "/" + show.title + "/" + SeasonDir(show.season) + "/" + folder
  {
    SeasonDirComponent(show.season);
    var p1 := Paths.Join(root, show.title);
    Paths.JoinComponent(root, show.title);
    Paths.ToStringAppend(root, show.title);
    var p2 := Paths.Join(p1, SeasonDir(show.season));
    Paths.JoinComponent(p1, SeasonDir(show.season));
    Paths.ToStringAppend(p1, SeasonDir(show.season));
    Paths.JoinComponent(p2, folder);
    Paths.ToStringAppend(p2, folder);
  }

  /** Three episodes: A matches an exclude pattern, B is new, C is already known. Only B is
      selected, and as the first new episode of the show. */
  lemma ExcludeKnownAndNumber(show: Configs.ShowConfig, a: Episode, b: Episode, c: Episode,
                              existing: set<string>, root: Paths.Path, env: Env)
    requires Excluded(show.excludePatterns, a.title, env.search)
    requires !Excluded(show.excludePatterns, b.title, env.search) && Meta(b, env).Ok? && !Known(Meta(b, env).value, existing)
    requires !Excluded(show.excludePatterns, c.title, env.search) && Meta(c, env).Ok? && Known(Meta(c, env).value, existing)
    ensures SelectShow(show, [a, b, c], existing, root, env, 0) == Ok([Assigned(show, b, Meta(b, env).value, 1, root)])
  {
    var eps := [a, b, c];
    SelectShowSkips(show, eps, existing, root, env, 0);
    assert eps[1..] == [b, c] && [b, c][1..] == [c] && [c][1..] == [];
    SelectShowAppends(show, [b, c], existing, root, env, 0);
    SelectShowSkips(show, [c], existing, root, env, 1);
    var b' := Assigned(show, b, Meta(b, env).value, 1, root);
    assert [b'] + [] == [b'];
  }

  /** An episode whose torrent has an empty name is saved under the fallback folder. */
  lemma UnnamedSavePath(show: Configs.ShowConfig, e: Episode, t: Torrent, i: nat, root: Paths.Path)
    requires NameText(t) == ""
    requires Paths.IsComponent(show.title) && Paths.IsComponent(FallbackFolder(show.title, show.season, i))
    ensures Assigned(show, e, t, i, root).savePath ==
            Some(Paths.Path(root.absolute, root.parts + [show.title, SeasonDir(show.season),
                                                         FallbackFolder(show.title, show.season, i)]))
  {
    SavePathParts(root, show, FallbackFolder(show.title, show.season, i));
  }

  /** The first fallback folder of season 1 of "Show". */
  lemma FirstFolder()
    ensures FallbackFolder("Show", 1, 1) == "Show - S01E01"
  {
    assert Decimal.Pad2(1) == "01";
  }

  lemma SeasonOne()
    ensures SeasonDir(1) == "Season 1"
  {
    assert Decimal.IntToString(1) == "1";
  }
}
