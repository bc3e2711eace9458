# bangumi-tracker, modelled in Dafny

bangumi-tracker watches anime RSS feeds and sends new episodes to qBittorrent. For every
configured show it reads the feed, turns the entries with a torrent link into episodes, and
drops the episodes whose title matches one of the show's exclude patterns. It then fetches
each remaining torrent's metadata and drops the torrents whose info-hash qBittorrent already
has. Every new episode gets a folder name, a save path and the show's season, title and
category. Finally the episodes are submitted one by one.

This project models that core:

- `Cli` (`cli.py`, `operation`): the selection loops and the submission loop. Both loops are
  methods. The selection loops are proved equal to recursive specification functions
  (`SelectShow`, `SelectAll`). The submission loop is proved to reach the state the predicate
  `Submitted` describes. The properties are lemmas about those definitions.
- `Torrents` (`torrent.py`): the `Torrent` record. Also the dictionary check in `fetch`,
  `_calculate_hash`, `_extract_size`, `_extract_name` and `fetch_meta`. All of it works on a
  decoded bencode value (`Bencode`, the "bencoding" section of BEP 3). The hash is BEP 3's
  info-hash: the SHA-1 of the bencoded `info` value, as lower-case hex.
- `Rss` (`rss.py`): `RssFeed.fetch_episodes` over feed entries that are already parsed. It is
  a method with the outer loop and the inner loop over links, proved equal to `FeedEpisodes`.
- `Configs` (`configs.py`): the three configuration records and `load_config`, working on a
  parsed TOML table.
- `Episodes` (`episode.py`): the `Episode` record.
- Support modules: `Results` (Option, Result and the exceptions), `Decimal` (Python's `str(n)`,
  `f"{n:02d}"` and `int(s)`), `Paths` (the part of `pathlib.PurePosixPath` the code uses) and
  `Filters` (the positions a filtering loop keeps, used to state that a filter keeps every
  qualifying element, in order, and nothing else).

Foreign code is passed in as function values. This covers `re.search`, `bencodepy.encode`,
`hashlib.sha1`, UTF-8 decoding with replacement, the HTTP download with its decoding, the
feed, `Path.resolve`, and qBittorrent's replies. The model assumes only what the code relies
on about them: a SHA-1 digest has 20 bytes, and decoding no bytes gives "".

## Model

| member | source | states |
|---|---|---|
| Bencode.Get | bangumi_tracker/torrent.py:60 | `d.get(key)` is None exactly when no entry has the key; otherwise the result is a value stored under that key |
| Bencode.GetStored | bangumi_tracker/torrent.py:60 | in a dictionary with unique keys, looking up a stored key gives the value stored with it |
| Bencode.GetSkipsOtherKeys | bangumi_tracker/torrent.py:60 | entries under other keys in front do not change a lookup |
| Bencode.GetOr | bangumi_tracker/torrent.py:79 | `d.get(key, default)`: the value stored under the key, or the default when the key is absent (also the `.get` calls at torrent.py:71 and 83) |
| Torrents.CheckMetadata | bangumi_tracker/torrent.py:29-31 | only a decoded dictionary passes, and yields its entries; a decode failure propagates; any other value raises "Unexpected metadata format" |
| Torrents.FetchMetaRejectsNonDict | bangumi_tracker/torrent.py:30-31 | `fetch_meta` of a top-level value that is not a dictionary raises that error, whatever the value holds |
| Torrents.CalculateHash | bangumi_tracker/torrent.py:58-64 | succeeds exactly when `info` is present and is bytes, a list or a dictionary (else missing 'info'); the hash is 40 lower-case hex digits that decode to sha1(encode(info)) |
| Torrents.Hex | bangumi_tracker/torrent.py:64 | `hexdigest` writes two lower-case hex digits per byte |
| Torrents.UnhexHex | bangumi_tracker/torrent.py:64 | hex encoding loses nothing: decoding the hex gives back the digest |
| Torrents.FetchMetaIgnoresOtherKeys | bangumi_tracker/torrent.py:59-64 | changing the value of any top-level key other than `info` changes neither the hash nor anything else `fetch_meta` returns |
| Torrents.ItemLength | bangumi_tracker/torrent.py:83 | one item of a `length` list: a dict gives its integer `length`, or 0 when that key is absent; a non-dict item raises (it has no `.get`), and so does a `length` that is not an integer (`sum` cannot add it) |
| Torrents.SumLengths | bangumi_tracker/torrent.py:83 | the generator sum succeeds exactly when every item gives a length (a dictionary whose `length` is an integer or absent); on failure the exception is the first failing item's |
| Torrents.SumLengthsAppend | bangumi_tracker/torrent.py:83 | the sum over a concatenation is the sum of the sums of the parts |
| Torrents.SumLengthsItems | bangumi_tracker/torrent.py:82-83 | an empty list sums to 0; an item's integer `length` counts as itself, and a missing one counts as 0 |
| Torrents.ExtractSize | bangumi_tracker/torrent.py:76-78 | `_extract_size` raises missing 'info' when `info` is not a dictionary |
| Torrents.SizeOfList | bangumi_tracker/torrent.py:82-83 | a list `length` gives the generator sum over its items: their total, or the first failing item's exception |
| Torrents.SizeOfInteger | bangumi_tracker/torrent.py:79-81 | an integer `length` is returned unchanged |
| Torrents.SizeWhenAbsent | bangumi_tracker/torrent.py:79-81 | a missing `length` gives 0, not an error |
| Torrents.SizeRejectsOtherTypes | bangumi_tracker/torrent.py:84-85 | a bytes or dictionary `length` raises "not an integer or list" |
| Torrents.SizeOfMultiFileInfo | bangumi_tracker/torrent.py:79 | `files` is never read: a multi-file `info` without `length` has size 0 |
| Torrents.ExtractName | bangumi_tracker/torrent.py:66-72 | `_extract_name` succeeds exactly when `info` is a dictionary and its `name` (default b"") is bytes |
| Torrents.NameWhenAbsent | bangumi_tracker/torrent.py:71-72 | a missing `name` gives "" |
| Torrents.NameOfBytes | bangumi_tracker/torrent.py:71-72 | any bytes `name` decodes without raising, with invalid UTF-8 replaced |
| Torrents.FetchMeta | bangumi_tracker/torrent.py:41-49 | a fetched torrent has the input URL and has its size, hash and name set |
| Torrents.FetchMetaSucceeds | bangumi_tracker/torrent.py:41-49 | `fetch_meta` succeeds exactly when the value is a dictionary whose `info` is a dictionary with a readable size and name; the torrent then carries the three extracted values |
| Torrents.FetchMetaNeedsInfoDict | bangumi_tracker/torrent.py:44-49 | because the size is computed first, metadata whose `info` is not a dictionary fails with missing 'info', even where a hash could be computed |
| Rss.FirstTorrentLink | bangumi_tracker/rss.py:26-29 | the inner loop stops at the first link of type application/x-bittorrent; it finds none exactly when no link has that type |
| Rss.NewEpisode | bangumi_tracker/rss.py:28-36 | the new episode: id, title and link from the entry; the torrent's url is the link's href and its size the parsed length; hash, name, save path, season, show title and category unset |
| Rss.EpisodeOf | bangumi_tracker/rss.py:23-37 | one pass of the outer loop: no episode when the entry has no torrent link, the episode of its first torrent link otherwise, and the ValueError of `int()` when that link's length is not an integer |
| Rss.EpisodesOf | bangumi_tracker/rss.py:21-37 | the `episodes` list after the outer loop: the entries' episodes appended in entry order; the first failing entry ends it with its error |
| Rss.Reversed | bangumi_tracker/rss.py:38-39 | `episodes.reverse()`: the same elements in the opposite order |
| Rss.FeedEpisodes | bangumi_tracker/rss.py:17-40 | what `fetch_episodes` returns for the entries: `EpisodesOf`, reversed when `reverse` is set |
| Rss.FetchEpisodes | bangumi_tracker/rss.py:17-40 | the loops return `FeedEpisodes(entries, reverse)`. That is the entries' episodes in feed order, reversed when asked, or the first exception `int(str(length))` raises |
| Rss.FetchSkips | bangumi_tracker/rss.py:30-32 | an entry without a torrent link leaves the list unchanged |
| Rss.FetchKeeps | bangumi_tracker/rss.py:26-37 | an entry whose first torrent link has an integer length appends its episode |
| Rss.FetchFails | bangumi_tracker/rss.py:28 | a first torrent link whose length is not an integer ends the whole fetch with that error |
| Rss.ErrorPersists | bangumi_tracker/rss.py:22-28 | after an exception no later entry matters |
| Rss.EpisodesOfKept | bangumi_tracker/rss.py:22-37 | the k-th episode comes from the k-th entry that has a torrent link, and there are at most as many episodes as entries. Its id, title and link are the entry's. Its torrent is the first torrent link's href and parsed length. Show title, season, save path and category are unset |
| Rss.EpisodeOfFails | bangumi_tracker/rss.py:26-29 | an entry fails exactly when it has a torrent link and the first one's length does not parse |
| Rss.EpisodesOfOk | bangumi_tracker/rss.py:22-37 | a list that comes out whole had no failing entry |
| Rss.EpisodesOfFirstError | bangumi_tracker/rss.py:22-37 | a failing list carries the exception of its first failing entry |
| Rss.EpisodesOfFails | bangumi_tracker/rss.py:22-37 | the list fails exactly when some entry fails, and then with the first failing entry's exception |
| Rss.ReversedAt | bangumi_tracker/rss.py:38-39 | after `reverse()` the k-th element is the k-th from the end |
| Rss.FeedEpisodesOrder | bangumi_tracker/rss.py:37-40 | with `reverse=False` the result is the episodes in entry order; with `reverse=True` it is exactly their reverse |
| Rss.TorrentEntries | bangumi_tracker/rss.py:26-32 | the entries the outer loop does not skip: in feed order, exactly the entries at the positions whose entry has a torrent link, and no others |
| Configs.Lookup | bangumi_tracker/configs.py:32 | a table lookup is None exactly when the key is absent; otherwise it is the value of the first entry with that key |
| Configs.Index | bangumi_tracker/configs.py:32-36 | `v[key]`: the stored value; KeyError when a table lacks the key, and TypeError when `v` is not a table |
| Configs.GetOr | bangumi_tracker/configs.py:49-51 | `v.get(key, default)`: the stored value or the default; AttributeError when `v` is not a table (also the calls at configs.py:44-45) |
| Configs.AsString | bangumi_tracker/configs.py:32-36 | a field that the typed record holds as a string: the text of a TOML string; any other value is a `WrongType` error (see "## Left out") |
| Configs.AsInt | bangumi_tracker/configs.py:33 | a field that the typed record holds as an integer: the value of a TOML integer; any other value is a `WrongType` error (also `pull_interval_sec`, configs.py:49-51) |
| Configs.AsStrings | bangumi_tracker/configs.py:44 | `exclude_patterns` as a list of strings: the texts of an array whose items are all strings; anything else is a `WrongType` error |
| Configs.Iterate | bangumi_tracker/configs.py:47 | `for feed in config_data["shows"]`: an array gives its items, a table its keys and a string its characters; any other value raises TypeError |
| Configs.Strings | bangumi_tracker/configs.py:44 | an array gives its texts exactly when every item is a string; the texts are the items' strings, one each, in order |
| Configs.LoadQbittorrent | bangumi_tracker/configs.py:31-37 | a missing `qbittorrent` section raises KeyError("qbittorrent") |
| Configs.LoadShow | bangumi_tracker/configs.py:40-47 | a show that is not a table fails on its first subscript; a table without `url` raises KeyError("url") |
| Configs.LoadedShow | bangumi_tracker/configs.py:41-45 | `url`, `title` and `season` are the table's own values; missing `exclude_patterns` gives [] and a present one is an array whose strings, in order, are the patterns; missing `category` gives "anime", a present `category` is copied |
| Configs.LoadShows | bangumi_tracker/configs.py:39-48 | the comprehension succeeds exactly when every element loads; the result then has one show per element, in the same order |
| Configs.LoadConfig | bangumi_tracker/configs.py:30-57 | a loaded configuration holds the loaded `qbittorrent` section |
| Configs.LoadedQbittorrent | bangumi_tracker/configs.py:31-37 | the five `qbittorrent` fields are all required and are copied verbatim |
| Configs.LoadedShows | bangumi_tracker/configs.py:39-48 | `shows` has the length and order of the `shows` array, each element loaded by itself |
| Configs.LoadedPullInterval | bangumi_tracker/configs.py:49-51 | a missing `settings` section fails the load; `pull_interval_sec` is the configured integer, or 1800 when absent |
| Configs.ShowDefaults | bangumi_tracker/configs.py:41-45 | a show with only the required keys gets exclude patterns [] and category "anime" |
| Configs.MissingShowKeyFails | bangumi_tracker/configs.py:41-43 | a show missing `url`, `title` or `season` fails the whole load |
| Decimal.IntToString | bangumi_tracker/cli.py:112 | `str(n)` and `f"{n}"`: a "-" in front of the digits of a negative number, the digits of `NatToString` otherwise (also the tag at cli.py:134) |
| Decimal.ParseInt | bangumi_tracker/rss.py:28 | `int(s)` on a str: the whitespace `int()` skips around an optional sign and a group of ASCII digits with single underscores between them; None where Python raises ValueError |
| Decimal.ParseIntKeepsSeparator | bangumi_tracker/rss.py:28 | `int("\x1c5")` raises: U+001C is not skipped, though `str.isspace` accepts it |
| Decimal.NatToString | bangumi_tracker/cli.py:112 | `str(n)` of a non-negative number is decimal digits with no leading zero |
| Decimal.Pad2 | bangumi_tracker/cli.py:104 | `f"{n:02d}"` has at least two characters, is `str(n)` when that is already two long, and is "0" then the digit for 0 to 9 |
| Decimal.ParseIntToString | bangumi_tracker/rss.py:28 | `int(str(n)) == n` for every integer |
| Decimal.ParseIntPad2 | bangumi_tracker/cli.py:104 | `int(f"{n:02d}") == n`: the zero padding loses nothing |
| Paths.Parse | bangumi_tracker/cli.py:106 | a parsed path's components are non-empty, not ".", and have no "/" |
| Paths.Join | bangumi_tracker/cli.py:109-114 | `p / s`: an absolute `s` replaces `p`; otherwise the components of `s` are appended to those of `p` |
| Paths.ToString | bangumi_tracker/cli.py:129 | `str(p)`: the components joined with "/", after a "/" for an absolute path; "." for the empty relative path |
| Paths.Name | bangumi_tracker/cli.py:106 | `p.name`: the last component, or "" when there is none |
| Paths.Stem | bangumi_tracker/cli.py:106 | `.stem` is a prefix of the name; it is the name itself or drops exactly the final suffix (a last "." that is neither first nor last); a name without "." is its own stem |
| Paths.StemDropsSuffix | bangumi_tracker/cli.py:106 | the stem differs from the name exactly when the name has a suffix, a last "." that is neither its first nor its last character; with `Paths.Stem` the stem is then the name cut at that dot |
| Paths.JoinComponent | bangumi_tracker/cli.py:109-113 | `p / c` with a plain component `c` appends exactly `c` |
| Paths.ToStringAppend | bangumi_tracker/cli.py:129 | `str(p / c)` is `str(p)`, "/", then `c` |
| Paths.ParseToString | bangumi_tracker/cli.py:129 | parsing the text of a normal path gives the same path back |
| Filters.WhereExactly | bangumi_tracker/rss.py:30-32 | the positions a filter keeps are increasing, and a position is among them exactly when the test holds there |
| Filters.WhereUnique | bangumi_tracker/rss.py:30-32 | those two facts determine the kept positions: any increasing list of exactly the positions that pass is that list |
| Filters.WhereSnoc | bangumi_tracker/cli.py:140-143 | one more element adds its position exactly when it passes the test |
| Cli.Excluded | bangumi_tracker/cli.py:87-91 | an episode is excluded exactly when some pattern is found in its title, so an empty pattern list excludes nothing |
| Cli.Known | bangumi_tracker/cli.py:98 | `episode.torrent.hash in existing_hashes`: the torrent has a hash and it is in the set |
| Cli.Meta | bangumi_tracker/cli.py:94 | `torrent_fetcher.fetch_meta(episode.torrent.url)`: `FetchMeta` on the download of the episode's torrent url |
| Cli.NameText | bangumi_tracker/cli.py:105 | the torrent name as `if episode.torrent.name:` sees it: an unset name counts as "" |
| Cli.FallbackFolder | bangumi_tracker/cli.py:104 | `f"{show.title} - S{show.season:02d}E{i:02d}"` |
| Cli.FolderName | bangumi_tracker/cli.py:104-106 | `folder_name`: `Path(name).stem` when the torrent name is non-empty, else the `title - SxxEyy` fallback |
| Cli.SeasonDir | bangumi_tracker/cli.py:112 | `f"Season {show.season}"` |
| Cli.SavePath | bangumi_tracker/cli.py:109-114 | `root / show.title / f"Season {show.season}" / folder_name`, each `/` a `Paths.Join` |
| Cli.Root | bangumi_tracker/cli.py:110 | `Path(save_path_root).expanduser().resolve()`: the resolved text (an input function), parsed as a path |
| Cli.Assigned | bangumi_tracker/cli.py:94-117 | the episode as it is appended: its fetched torrent, the save path for folder number i, and the show's season, title and category; its other fields unchanged |
| Cli.SelectShow | bangumi_tracker/cli.py:84-119 | the inner loop from counter `count`: an excluded episode is skipped before any fetch; a `fetch_meta` error ends everything; a known hash is skipped; any other episode is assigned number count + 1 and the counter advances |
| Cli.ShowPart | bangumi_tracker/cli.py:81-84 | one show's contribution: its feed read with `reverse=True`, then `SelectShow` from counter 0 |
| Cli.SelectAll | bangumi_tracker/cli.py:80-119 | `episodes_to_download`: the shows' parts concatenated in configuration order; the first error ends it |
| Cli.SelectShowSkips | bangumi_tracker/cli.py:87-100 | an excluded episode or one with a known hash is passed over, and the counter does not advance |
| Cli.SelectShowFails | bangumi_tracker/cli.py:94 | an exception from `fetch_meta` ends the selection with that exception |
| Cli.SelectShowAppends | bangumi_tracker/cli.py:102-119 | a new episode is appended as the next numbered one, and the counter advances |
| Cli.Kept | bangumi_tracker/cli.py:84-100 | the episodes the inner loop keeps, with their torrents: each is from the feed, not excluded, fetched without error, and has a hash not already known |
| Cli.KeptExactly | bangumi_tracker/cli.py:84-100 | nothing that passes the loop's three tests is dropped: the kept episodes are, in feed order, exactly those at the positions that pass them |
| Cli.SelectShowEpisodes | bangumi_tracker/cli.py:83-119 | the inner loop, with its early exits, computes `SelectShow` from a counter of 0 |
| Cli.SelectEpisodes | bangumi_tracker/cli.py:80-119 | the two selection loops compute `SelectAll` over the configured shows |
| Cli.SelectShowSucceeds | bangumi_tracker/cli.py:94 | a show's selection fails exactly when some episode that is not excluded fails to fetch |
| Cli.SelectShowKept | bangumi_tracker/cli.py:83-119 | a successful selection is the kept episodes in feed order; the k-th of them is new episode count + 1 + k |
| Cli.SelectShowShape | bangumi_tracker/cli.py:102-117 | every selected episode is not excluded and has a fetched hash that was not already known. It gets the show's season, title and category. It is saved at root / title / "Season n" / folder, where the folder is numbered by the episode's place among the new ones |
| Cli.SelectShowSource | bangumi_tracker/cli.py:84-119 | the k-th selected episode is the feed episode at the k-th position the loop keeps, with the torrent `fetch_meta` returned for it, completed as new episode count + k + 1; there is one selected episode per kept position |
| Cli.ExcludedNotFetched | bangumi_tracker/cli.py:87-94 | `fetch_meta` is never called for an excluded episode: what the download gives for those URLs cannot change the selection |
| Cli.SelectAllAppend | bangumi_tracker/cli.py:81-119 | the selection over a list of shows is the front's parts then the back's, in configuration order |
| Cli.SelectAllOne | bangumi_tracker/cli.py:81-84 | one show alone selects exactly its own part |
| Cli.SeasonDirComponent | bangumi_tracker/cli.py:112 | "Season n" is one plain path component for every season |
| Cli.SavePathParts | bangumi_tracker/cli.py:109-113 | the save path is the root's components followed by the show title, "Season n" and the folder |
| Cli.SavePathText | bangumi_tracker/cli.py:109-113 | the save path's text is root/title/Season n/folder |
| Cli.UnnamedSavePath | bangumi_tracker/cli.py:104-113 | a torrent with an empty name is saved in the fallback folder "{title} - S{season:02d}E{i:02d}" |
| Cli.FirstFolder | bangumi_tracker/cli.py:104 | the first fallback folder of season 1 of "Show" is "Show - S01E01" |
| Cli.SeasonOne | bangumi_tracker/cli.py:112 | season 1's directory is "Season 1" |
| Cli.ExcludeKnownAndNumber | bangumi_tracker/cli.py:87-102 | of three episodes (excluded, new, known) only the new one is selected, as new episode 1 |
| Cli.OptText | bangumi_tracker/cli.py:135 | an f-string of an optional string: the string, or "None" when unset |
| Cli.OptIntText | bangumi_tracker/cli.py:134 | an f-string of an optional integer: `str(n)`, or "None" when unset |
| Cli.PathText | bangumi_tracker/cli.py:129 | `str(episode.save_path)`: `str(p)`, or "None" when unset |
| Cli.RequestFor | bangumi_tracker/cli.py:127-139 | the arguments of one `torrents_add` call: the torrent url, the save path text, not paused, no automatic management, layout "NoSubfolder", the three tags `FILTER:s==season`, `NAME:show title` and `DIRECT:true`, and the category |
| Cli.Requests | bangumi_tracker/cli.py:125-139 | one `torrents_add` request per episode, in order |
| Cli.SelectedRequests | bangumi_tracker/cli.py:127-139 | the request for a selected episode has its URL and the text of its save path. It is not paused and does not use automatic management. Its layout is "NoSubfolder". Its tags are exactly FILTER:s=={season}, NAME:{title} and DIRECT:true. Its category is the show's |
| Cli.Accepted | bangumi_tracker/cli.py:140-143 | the accepted episodes are, in submission order, exactly the episodes whose call replied "Ok.", and no others |
| Cli.AcceptedAll | bangumi_tracker/cli.py:140-143 | when every reply is "Ok.", every episode is accepted |
| Cli.AcceptedNone | bangumi_tracker/cli.py:140-142 | when no reply is "Ok.", none is accepted |
| Cli.CalmAt | bangumi_tracker/cli.py:144-146 | none of the first n calls raised, so neither did any earlier one |
| Cli.Submitted | bangumi_tracker/cli.py:125-146 | the state after the submit loop: the requests sent are those of the first episodes, in order; all episodes are sent unless a call raised, and then that call is the last one sent; `added` is the sent episodes whose reply was "Ok." |
| Cli.Submit | bangumi_tracker/cli.py:125-146 | one call per episode, in order, stopping right after the first call that raises. A reply other than "Ok." goes on to the next episode. `added` records the episodes for which the loop logs "Send torrent" (cli.py:143) |
| Cli.SubmittedUnique | bangumi_tracker/cli.py:125-146 | what is sent and accepted is determined by the episodes and the replies |
| Cli.SubmittedAbandons | bangumi_tracker/cli.py:144-146 | an exception on the j-th call, the first one, means exactly j + 1 calls are made: every later episode is abandoned |
| Cli.SubmittedAll | bangumi_tracker/cli.py:125-143 | without exceptions every episode is submitted, and when all reply "Ok." all are accepted |
| Cli.Operation | bangumi_tracker/cli.py:80-146 | `operation` selects, then submits the selection. An exception while selecting ends it before any call is sent |

## Left out

- `main`, `parse_args` and `configure_logging`, which are argument parsing, file reading,
  logging, the client login and the sleep loop. All of these are I/O.
- The logging calls in the modelled code, including the "No new episodes found" warning.
- `client.torrents_info()`: `existing_hashes` is an input set of strings.
- `TorrentFetcher.fetch` apart from its dictionary check. HTTP, timeouts, `raise_for_status`
  and `bencodepy.decode` are one input function. Its failures arrive as a single `FetchFailed`
  exception.
- `bencodepy.encode`, `hashlib.sha1` and UTF-8 decoding with replacement are abstract
  functions. No bencode encoder or SHA-1 is modelled, so no concrete info-hash is computed.
- `RssFeed.fetch_raw` (feedparser): entries are inputs. They carry every attribute the loop
  reads, so the AttributeError on a missing attribute is not modelled. Each `str(...)` call
  leaves its string unchanged.
- `re.search` is an abstract predicate, so invalid patterns (`re.error`) are not modelled.
- `Path(...).expanduser().resolve()` depends on the file system. Its result is taken from an
  input function, as text.
- `Paths.Parse`: a leading "//" is read as "/". Python keeps it. The resolved root never
  starts with "//".
- `Paths.Stem`: a final "." is not taken as a suffix, so a name ending in "." is its own
  stem. Python versions that count such a dot as a suffix are not modelled.
- `Decimal.ParseInt`: `int()` is modelled for ASCII digits, single underscores, a sign and
  the whitespace `int()` skips. Other Unicode digits and the 4300-digit limit are not modelled.
- Configs.LoadShow: the source stores whatever TOML value it finds. The typed records reject
  a show field of the wrong type with `WrongType`.
- Configs.LoadQbittorrent: likewise, any of the five `qbittorrent` fields of the wrong type is
  rejected with `WrongType`, where the source stores it.
- Configs.LoadConfig: likewise, a `pull_interval_sec` that is not an integer is rejected with
  `WrongType`, where the source stores it.
- Configs.LoadConfig: a TOML float, date or time stands as `Other`, and is rejected wherever a
  field has a type.
- Cli.Operation: the `Episode` objects are changed in place in the source (its lines 94 and
  109-117). The model builds new `Episode` values. Nothing else holds these objects, so no
  aliasing is lost.
- Rss.FetchEpisodes: `episodes.reverse()` works in place. The model returns the reversed
  sequence.
- Multi-file sizes: in a multi-file torrent (BEP 3) the `info` dictionary has a `files` list,
  each with its own `length`, and no top-level `length`. `_extract_size`
  (bangumi_tracker/torrent.py:75-85) never reads `files`, so it gives such a torrent size 0.
  The model follows the code (`Torrents.SizeOfMultiFileInfo`).
