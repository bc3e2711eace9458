/** `bangumi_tracker/configs.py`: the configuration records and `load_config`, which reads them
    out of the dictionary `tomllib` parsed from the configuration file. */
module Configs {
  import opened Results

  /** A value of a parsed TOML document. Floats, dates and times are `Other`. */
  datatype Toml =
    | Str(s: string)
    | Integer(i: int)
    | Boolean(b: bool)
    | Array(items: seq<Toml>)
    | Table(entries: seq<(string, Toml)>)
    | Other

  datatype QbittorrentConfig = QbittorrentConfig(
    host: string, port: int, username: string, password: string, savePathRoot: string)

  datatype ShowConfig = ShowConfig(
    url: string, title: string, season: int, excludePatterns: seq<string>, category: string)

  datatype BangumiConfig = BangumiConfig(
    qbittorrent: QbittorrentConfig, shows: seq<ShowConfig>, pullIntervalSec: int)

  /** Why loading fails. */
  datatype ConfigError =
    | MissingKey(key: string)        // KeyError from `v[key]`
    | NotSubscriptable(key: string)  // TypeError from `v[key]` on a value that is not a table
    | NotIterable                    // TypeError from iterating `shows`
    | NoGetMethod(key: string)       // AttributeError from `v.get(key, ...)` on a value that is not a table
    | WrongType(key: string)         // the value under `key` lacks the field's declared type

  const DefaultCategory: string := "anime"
  const DefaultPullIntervalSec: int := 1800

  /** The value stored under `key` in a table, if any. */
  function Lookup(entries: seq<(string, Toml)>, key: string): (r: Option<Toml>)
    ensures r.None? <==> forall k :: 0 <= k < |entries| ==> entries[k].0 != key
    ensures r.Some? ==> exists k :: 0 <= k < |entries| && entries[k] == (key, r.value) &&
                                   forall j :: 0 <= j < k ==> entries[j].0 != key
  {
    if entries == [] then None
    else if entries[0].0 == key then Some(entries[0].1)
    else
      var r := Lookup(entries[1..], key);
      assert forall k :: 1 <= k < |entries| ==> entries[k] == entries[1..][k - 1];
      r
  }

  /** `v[key]`. */
  function Index(v: Toml, key: string): Result<Toml, ConfigError> {
    match v
    case Table(entries) =>
      (match Lookup(entries, key)
       case Some(x) => Ok(x)
       case None => Err(MissingKey(key)))
    case _ => Err(NotSubscriptable(key))
  }

  /** `v.get(key, default)`. */
  function GetOr(v: Toml, key: string, default: Toml): Result<Toml, ConfigError> {
    match v
    case Table(entries) =>
      (match Lookup(entries, key)
       case Some(x) => Ok(x)
       case None => Ok(default))
    case _ => Err(NoGetMethod(key))
  }

  function AsString(v: Result<Toml, ConfigError>, key: string): Result<string, ConfigError> {
    match v
    case Err(e) => Err(e)
    case Ok(Str(s)) => Ok(s)
    case Ok(_) => Err(WrongType(key))
  }

  function AsInt(v: Result<Toml, ConfigError>, key: string): Result<int, ConfigError> {
    match v
    case Err(e) => Err(e)
    case Ok(Integer(n)) => Ok(n)
    case Ok(_) => Err(WrongType(key))
  }

  /** The texts of an array whose items are all strings; None when one is not. */
  function Strings(items: seq<Toml>): (r: Option<seq<string>>)
    ensures r.Some? <==> forall k :: 0 <= k < |items| ==> items[k].Str?
    ensures r.Some? ==> |r.value| == |items| && forall k :: 0 <= k < |items| ==> items[k] == Str(r.value[k])
  {
    if items == [] then Some([])
    else
      assert forall k :: 1 <= k < |items| ==> items[k] == items[1..][k - 1];
      if !items[0].Str? then None
      else match Strings(items[1..])
        case None => None
        case Some(rest) => Some([items[0].s] + rest)
  }

  function AsStrings(v: Result<Toml, ConfigError>, key: string): Result<seq<string>, ConfigError> {
    match v
    case Err(e) => Err(e)
    case Ok(Array(items)) =>
      (match Strings(items)
       case Some(ss) => Ok(ss)
       case None => Err(WrongType(key)))
    case Ok(_) => Err(WrongType(key))
  }

  /** `for feed in v`: an array gives its items, a table its keys and a string its characters. */
  function Iterate(v: Toml): Result<seq<Toml>, ConfigError> {
    match v
    case Array(items) => Ok(items)
    case Table(entries) => Ok(seq(|entries|, k requires 0 <= k < |entries| => Str(entries[k].0)))
    case Str(s) => Ok(seq(|s|, k requires 0 <= k < |s| => Str([s[k]])))
    case _ => Err(NotIterable)
  }

  /** The five `qbittorrent` fields, read in source order. */
  function LoadQbittorrent(data: seq<(string, Toml)>): (r: Result<QbittorrentConfig, ConfigError>)
    ensures Lookup(data, "qbittorrent").None? ==> r == Err(MissingKey("qbittorrent"))
  {
    var section :- Index(Table(data), "qbittorrent");
    var host :- AsString(Index(section, "host"), "host");
    var port :- AsInt(Index(section, "port"), "port");
    var username :- AsString(Index(section, "username"), "username");
    var password :- AsString(Index(section, "password"), "password");
    var root :- AsString(Index(section, "save_path_root"), "save_path_root");
    Ok(QbittorrentConfig(host, port, username, password, root))
  }

  /** One element of `shows` turned into a `ShowConfig`: `url`, `title` and `season` are
      required; `exclude_patterns` defaults to [] and `category` to "anime". */
  function LoadShow(feed: Toml): (r: Result<ShowConfig, ConfigError>)
    ensures !feed.Table? ==> r == Err(NotSubscriptable("url"))
    ensures feed.Table? && Lookup(feed.entries, "url").None? ==> r == Err(MissingKey("url"))
  {
    var url :- AsString(Index(feed, "url"), "url");
    var title :- AsString(Index(feed, "title"), "title");
    var season :- AsInt(Index(feed, "season"), "season");
    var patterns :- AsStrings(GetOr(feed, "exclude_patterns", Array([])), "exclude_patterns");
    var category :- AsString(GetOr(feed, "category", Str(DefaultCategory)), "category");
    Ok(ShowConfig(url, title, season, patterns, category))
  }

  /** A loaded show: `url`, `title` and `season` are the table's own values; a missing
      `exclude_patterns` gives [] and a present one gives the array's strings in order; a
      missing `category` gives "anime". */
  lemma LoadedShow(feed: Toml)
    requires LoadShow(feed).Ok?
    ensures var c := LoadShow(feed).value;
      feed.Table? &&
      Lookup(feed.entries, "url") == Some(Str(c.url)) &&
      Lookup(feed.entries, "title") == Some(Str(c.title)) &&
      Lookup(feed.entries, "season") == Some(Integer(c.season))
    ensures var c := LoadShow(feed).value;
      (Lookup(feed.entries, "exclude_patterns").None? ==> c.excludePatterns == []) &&
      (Lookup(feed.entries, "exclude_patterns").Some? ==>
         Lookup(feed.entries, "exclude_patterns").value.Array? &&
         PatternsFrom(Lookup(feed.entries, "exclude_patterns").value.items, c.excludePatterns)) &&
      (Lookup(feed.entries, "category").None? ==> c.category == DefaultCategory) &&
      (Lookup(feed.entries, "category").Some? ==> Lookup(feed.entries, "category") == Some(Str(c.category)))
  {
    var c := LoadShow(feed).value;
    LoadShowSteps(feed);
    var v := GetOr(feed, "exclude_patterns", Array([])).value;
    assert Strings(v.items) == Some(c.excludePatterns);
  }

  /** The array items are the patterns, one string each, in order. */
  predicate PatternsFrom(items: seq<Toml>, patterns: seq<string>) {
    |items| == |patterns| && forall k :: 0 <= k < |items| ==> items[k] == Str(patterns[k])
  }

  /** A loaded show went through every step of the constructor call. */
  lemma LoadShowSteps(feed: Toml)
    requires LoadShow(feed).Ok?
    ensures var c := LoadShow(feed).value;
      feed.Table? &&
      AsString(Index(feed, "url"), "url") == Ok(c.url) &&
      AsString(Index(feed, "title"), "title") == Ok(c.title) &&
      AsInt(Index(feed, "season"), "season") == Ok(c.season) &&
      AsStrings(GetOr(feed, "exclude_patterns", Array([])), "exclude_patterns") == Ok(c.excludePatterns) &&
      AsString(GetOr(feed, "category", Str(DefaultCategory)), "category") == Ok(c.category)
  {
  }

  /** The list comprehension over `shows`: one `ShowConfig` per element, in order; the first
      element that fails stops the load. */
  function LoadShows(items: seq<Toml>): (r: Result<seq<ShowConfig>, ConfigError>)
    ensures r.Ok? <==> forall k :: 0 <= k < |items| ==> LoadShow(items[k]).Ok?
    ensures r.Ok? ==>
      |r.value| == |items| && forall k :: 0 <= k < |items| ==> LoadShow(items[k]) == Ok(r.value[k])
  {
    if items == [] then Ok([])
    else
      var first := LoadShow(items[0]);
      var rest := LoadShows(items[1..]);
      assert forall k :: 1 <= k < |items| ==> items[k] == items[1..][k - 1];
      if first.Err? then Err(first.error)
      else if rest.Err? then Err(rest.error)
      else Ok([first.value] + rest.value)
  }

  /** `load_config`. */
  function LoadConfig(data: seq<(string, Toml)>): (r: Result<BangumiConfig, ConfigError>)
    ensures r.Ok? ==> LoadQbittorrent(data) == Ok(r.value.qbittorrent)
  {
    var qbittorrent :- LoadQbittorrent(data);
    var feeds :- Index(Table(data), "shows");
    var items :- Iterate(feeds);
    var shows :- LoadShows(items);
    var settings :- Index(Table(data), "settings");
    var interval :- AsInt(GetOr(settings, "pull_interval_sec", Integer(DefaultPullIntervalSec)), "pull_interval_sec");
    Ok(BangumiConfig(qbittorrent, shows, interval))
  }

  /** A successful load went through every step of `load_config`. */
  lemma LoadConfigSteps(data: seq<(string, Toml)>)
    requires LoadConfig(data).Ok?
    ensures var c := LoadConfig(data).value;
      LoadQbittorrent(data) == Ok(c.qbittorrent) &&
      Lookup(data, "shows").Some? && Iterate(Lookup(data, "shows").value).Ok? &&
      LoadShows(Iterate(Lookup(data, "shows").value).value) == Ok(c.shows) &&
      Lookup(data, "settings").Some? &&
      AsInt(GetOr(Lookup(data, "settings").value, "pull_interval_sec", Integer(DefaultPullIntervalSec)),
            "pull_interval_sec") == Ok(c.pullIntervalSec)
  {
  }

  /** The five `qbittorrent` fields are copied verbatim, and all five are required. */
  lemma QbittorrentFields(data: seq<(string, Toml)>)
    requires LoadQbittorrent(data).Ok?
    ensures var q := LoadQbittorrent(data).value;
      Lookup(data, "qbittorrent").Some? && Lookup(data, "qbittorrent").value.Table? &&
      var section := Lookup(data, "qbittorrent").value.entries;
      Lookup(section, "host") == Some(Str(q.host)) &&
      Lookup(section, "port") == Some(Integer(q.port)) &&
      Lookup(section, "username") == Some(Str(q.username)) &&
      Lookup(section, "password") == Some(Str(q.password)) &&
      Lookup(section, "save_path_root") == Some(Str(q.savePathRoot))
  {
    QbittorrentSteps(data);
  }

  /** A loaded `qbittorrent` section went through every step of the constructor call. */
  lemma QbittorrentSteps(data: seq<(string, Toml)>)
    requires LoadQbittorrent(data).Ok?
    ensures var q := LoadQbittorrent(data).value;
      var section := Index(Table(data), "qbittorrent");
      section.Ok? && section.value.Table? &&
      AsString(Index(section.value, "host"), "host") == Ok(q.host) &&
      AsInt(Index(section.value, "port"), "port") == Ok(q.port) &&
      AsString(Index(section.value, "username"), "username") == Ok(q.username) &&
      AsString(Index(section.value, "password"), "password") == Ok(q.password) &&
      AsString(Index(section.value, "save_path_root"), "save_path_root") == Ok(q.savePathRoot)
  {
  }

  /** The loaded `qbittorrent` section: all five fields required, each copied verbatim. */
  lemma LoadedQbittorrent(data: seq<(string, Toml)>)
    requires LoadConfig(data).Ok?
    ensures var q := LoadConfig(data).value.qbittorrent;
      Lookup(data, "qbittorrent").Some? && Lookup(data, "qbittorrent").value.Table? &&
      var section := Lookup(data, "qbittorrent").value.entries;
      Lookup(section, "host") == Some(Str(q.host)) &&
      Lookup(section, "port") == Some(Integer(q.port)) &&
      Lookup(section, "username") == Some(Str(q.username)) &&
      Lookup(section, "password") == Some(Str(q.password)) &&
      Lookup(section, "save_path_root") == Some(Str(q.savePathRoot))
  {
    LoadConfigSteps(data);
    QbittorrentFields(data);
  }

  /** `shows` has one entry per element of the `shows` array, in the same order. */
  lemma LoadedShows(data: seq<(string, Toml)>, items: seq<Toml>)
    requires LoadConfig(data).Ok?
    requires Lookup(data, "shows") == Some(Array(items))
    ensures var shows := LoadConfig(data).value.shows;
      |shows| == |items| && forall k :: 0 <= k < |items| ==> LoadShow(items[k]) == Ok(shows[k])
  {
    LoadConfigSteps(data);
  }

  /** `pull_interval_sec` is the configured integer, or 1800 when `settings` lacks it;
      a missing `settings` section fails the load. */
  lemma LoadedPullInterval(data: seq<(string, Toml)>)
    ensures Lookup(data, "settings").None? ==> LoadConfig(data).Err?
    ensures LoadConfig(data).Ok? ==>
      Lookup(data, "settings").Some? && Lookup(data, "settings").value.Table? &&
      var settings := Lookup(data, "settings").value.entries;
      var n := LoadConfig(data).value.pullIntervalSec;
      (Lookup(settings, "pull_interval_sec").None? ==> n == DefaultPullIntervalSec) &&
      (Lookup(settings, "pull_interval_sec").Some? ==> Lookup(settings, "pull_interval_sec") == Some(Integer(n)))
  {
    if LoadConfig(data).Ok? {
      LoadConfigSteps(data);
    }
  }

  /** A show table holding only its required keys gets the defaults. */
  lemma ShowDefaults(url: string, title: string, season: int)
    ensures LoadShow(Table([("url", Str(url)), ("title", Str(title)), ("season", Integer(season))])) ==
            Ok(ShowConfig(url, title, season, [], "anime"))
  {
    RequiredOnly(url, title, season);
  }

  /** The lookups in a table of the three required keys. */
  lemma RequiredOnly(url: string, title: string, season: int)
    ensures var entries := [("url", Str(url)), ("title", Str(title)), ("season", Integer(season))];
      Lookup(entries, "url") == Some(Str(url)) &&
      Lookup(entries, "title") == Some(Str(title)) &&
      Lookup(entries, "season") == Some(Integer(season)) &&
      Lookup(entries, "exclude_patterns").None? && Lookup(entries, "category").None?
  {
    var entries := [("url", Str(url)), ("title", Str(title)), ("season", Integer(season))];
    assert Lookup(entries, "exclude_patterns").None? by {
      assert |"exclude_patterns"| != |"url"| && |"exclude_patterns"| != |"title"| && |"exclude_patterns"| != |"season"|;
    }
    assert Lookup(entries, "category").None? by {
      assert |"category"| != |"url"| && |"category"| != |"title"| && |"category"| != |"season"|;
    }
    assert Lookup(entries, "title") == Some(Str(title)) by { assert "url" != "title"; }
    assert Lookup(entries, "season") == Some(Integer(season)) by {
      assert entries[1..][1..] == entries[2..] && entries[2..][0] == ("season", Integer(season));
      assert Lookup(entries[2..], "season") == Some(Integer(season));
      assert "title" != "season";
      assert Lookup(entries[1..], "season") == Some(Integer(season));
      assert "url" != "season";
    }
  }

  /** Any missing required key of a show fails the whole load. */
  lemma MissingShowKeyFails(data: seq<(string, Toml)>, items: seq<Toml>, k: nat, key: string)
    requires Lookup(data, "shows") == Some(Array(items))
    requires k < |items| && items[k].Table?
    requires key == "url" || key == "title" || key == "season"
    requires Lookup(items[k].entries, key).None?
    ensures LoadConfig(data).Err?
  {
    if LoadConfig(data).Ok? {
      LoadedShows(data, items);
      LoadedShow(items[k]);
    }
  }
}
