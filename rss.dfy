/** `bangumi_tracker/rss.py`: `RssFeed.fetch_episodes` applied to the entries feedparser returned. */
module Rss {
  import opened Results
  import opened Torrents
  import opened Episodes
  import Decimal
  import Filters

  /** One of an entry's `links`, with feedparser's `type`, `href` and `length` attributes. */
  datatype Link = Link(mimeType: string, href: string, length: string)

  /** A feed entry: the attributes `fetch_episodes` reads. */
  datatype Entry = Entry(id: string, title: string, link: string, links: seq<Link>)

  const TorrentType: string := "application/x-bittorrent"

  /** Where the inner loop stops: the index of the first torrent link, if any. */
  function FirstTorrentLink(links: seq<Link>): (r: Option<nat>)
    ensures r.None? <==> forall k :: 0 <= k < |links| ==> links[k].mimeType != TorrentType
    ensures r.Some? ==> r.value < |links| && links[r.value].mimeType == TorrentType &&
                        forall j :: 0 <= j < r.value ==> links[j].mimeType != TorrentType
  {
    if links == [] then None
    else if links[0].mimeType == TorrentType then Some(0)
    else
      match FirstTorrentLink(links[1..])
      case None => None
      case Some(k) => Some(k + 1)
  }

  /** A new episode: fields from the entry, the torrent from the link, the rest unset. */
  function NewEpisode(entry: Entry, link: Link, size: int): Episode {
    Episode(entry.id, entry.title, entry.link, Torrent(link.href, Some(size), None, None),
            None, None, None, None)
  }

  /** What one pass of the outer loop makes of an entry: no episode when it has no torrent
      link, else the episode, unless `int(str(link.length))` raises. */
  function EpisodeOf(entry: Entry): Result<Option<Episode>, Error> {
    match FirstTorrentLink(entry.links)
    case None => Ok(None)
    case Some(k) =>
      var link := entry.links[k];
      match Decimal.ParseInt(link.length)
      case None => Err(InvalidLength(link.length))
      case Some(size) => Ok(Some(NewEpisode(entry, link, size)))
  }

  /** The `episodes` list once the loop has gone through `entries`, in entry order. */
  function EpisodesOf(entries: seq<Entry>): Result<seq<Episode>, Error> {
    if entries == [] then Ok([])
    else
      var episodes :- EpisodesOf(entries[..|entries| - 1]);
      var last :- EpisodeOf(entries[|entries| - 1]);
      Ok(if last.Some? then episodes + [last.value] else episodes)
  }

  /** One more entry: an earlier failure stands, else the entry's outcome is added. */
  lemma EpisodesOfLast(entries: seq<Entry>)
    requires entries != []
    ensures EpisodesOf(entries) ==
            match EpisodesOf(entries[..|entries| - 1])
            case Err(e) => Err(e)
            case Ok(front) =>
              match EpisodeOf(entries[|entries| - 1])
              case Err(e) => Err(e)
              case Ok(o) => Ok(if o.Some? then front + [o.value] else front)
  {
  }

  function Reversed<T>(s: seq<T>): (r: seq<T>)
    ensures |r| == |s|
  {
    if s == [] then [] else Reversed(s[1..]) + [s[0]]
  }

  /** What `fetch_episodes(url, reverse)` returns for the entries fetched from `url`. */
  function FeedEpisodes(entries: seq<Entry>, reverse: bool): Result<seq<Episode>, Error> {
    var episodes :- EpisodesOf(entries);
    Ok(if reverse then Reversed(episodes) else episodes)
  }

  lemma {:induction false} ErrorPersists(entries: seq<Entry>, more: seq<Entry>)
    requires EpisodesOf(entries).Err?
    ensures EpisodesOf(entries + more) == EpisodesOf(entries)
    decreases |more|
  {
    if more != [] {
      var all := entries + more;
      assert all[..|all| - 1] == entries + more[..|more| - 1];
      ErrorPersists(entries, more[..|more| - 1]);
      EpisodesOfLast(all);
    } else {
      assert entries + more == entries;
    }
  }

  /** `RssFeed.fetch_episodes`, with the feed's entries given. */
  method FetchEpisodes(entries: seq<Entry>, reverse: bool) returns (r: Result<seq<Episode>, Error>)
    ensures r == FeedEpisodes(entries, reverse)
  {
    var episodes: seq<Episode> := [];
    for n := 0 to |entries|
      invariant EpisodesOf(entries[..n]) == Ok(episodes)
    {
      var entry := entries[n];
      var torrent: Option<Torrent> := None;
      for j := 0 to |entry.links|
        invariant forall i :: 0 <= i < j ==> entry.links[i].mimeType != TorrentType
        invariant torrent.None?
      {
        var link := entry.links[j];
        if link.mimeType == TorrentType {
          var size := Decimal.ParseInt(link.length);
          if size.None? {
            FetchFails(entries, n, j, reverse);
            return Err(InvalidLength(link.length));
          }
          torrent := Some(Torrent(link.href, Some(size.value), None, None));
          FetchKeeps(entries, n, j, episodes);
          break;
        }
      }
      if torrent.None? {
        FetchSkips(entries, n, episodes);
        continue;
      }
      var episode := Episode(entry.id, entry.title, entry.link, torrent.value, None, None, None, None);
      episodes := episodes + [episode];
    }
    assert entries[..|entries|] == entries;
    if reverse {
      episodes := Reversed(episodes);
    }
    return Ok(episodes);
  }

  /** An entry without a torrent link leaves the list as it was. */
  lemma FetchSkips(entries: seq<Entry>, n: nat, episodes: seq<Episode>)
    requires n < |entries| && EpisodesOf(entries[..n]) == Ok(episodes)
    requires forall i :: 0 <= i < |entries[n].links| ==> entries[n].links[i].mimeType != TorrentType
    ensures EpisodesOf(entries[..n + 1]) == Ok(episodes)
  {
    assert entries[..n + 1][..n] == entries[..n];
    EpisodesOfLast(entries[..n + 1]);
  }

  /** An entry whose first torrent link `j` has an integer length adds its episode. */
  lemma FetchKeeps(entries: seq<Entry>, n: nat, j: nat, episodes: seq<Episode>)
    requires n < |entries| && EpisodesOf(entries[..n]) == Ok(episodes)
    requires j < |entries[n].links| && entries[n].links[j].mimeType == TorrentType
    requires forall i :: 0 <= i < j ==> entries[n].links[i].mimeType != TorrentType
    requires Decimal.ParseInt(entries[n].links[j].length).Some?
    ensures EpisodesOf(entries[..n + 1]) ==
            Ok(episodes + [NewEpisode(entries[n], entries[n].links[j],
                                      Decimal.ParseInt(entries[n].links[j].length).value)])
  {
    assert entries[..n + 1][..n] == entries[..n];
    assert FirstTorrentLink(entries[n].links) == Some(j);
    EpisodesOfLast(entries[..n + 1]);
  }

  /** An entry whose first torrent link `j` has a length that is not an integer ends the
      fetch with that error, whatever follows. */
  lemma FetchFails(entries: seq<Entry>, n: nat, j: nat, reverse: bool)
    requires n < |entries| && EpisodesOf(entries[..n]).Ok?
    requires j < |entries[n].links| && entries[n].links[j].mimeType == TorrentType
    requires forall i :: 0 <= i < j ==> entries[n].links[i].mimeType != TorrentType
    requires Decimal.ParseInt(entries[n].links[j].length).None?
    ensures FeedEpisodes(entries, reverse) == Err(InvalidLength(entries[n].links[j].length))
  {
    assert entries[..n + 1][..n] == entries[..n];
    assert FirstTorrentLink(entries[n].links) == Some(j);
    EpisodesOfLast(entries[..n + 1]);
    ErrorPersists(entries[..n + 1], entries[n + 1..]);
    assert entries[..n + 1] + entries[n + 1..] == entries;
  }

  /** Reversing puts the k-th element from the end at position k. */
  lemma {:induction false} ReversedAt<T>(s: seq<T>, k: nat)
    requires k < |s|
    ensures Reversed(s)[k] == s[|s| - 1 - k]
  {
    if k < |s| - 1 {
      ReversedAt(s[1..], k);
    }
  }

  predicate HasTorrentLink(entry: Entry) {
    FirstTorrentLink(entry.links).Some?
  }

  /** Whether the k-th entry has a torrent link. */
  function TorrentAt(entries: seq<Entry>): nat -> bool {
    (k: nat) => k < |entries| && HasTorrentLink(entries[k])
  }

  /** The entries that have a torrent link, in feed order: the entries at the positions whose
      entry has one, and no others. */
  function TorrentEntries(entries: seq<Entry>): (r: seq<Entry>)
    ensures |r| <= |entries|
    ensures forall k :: 0 <= k < |r| ==> HasTorrentLink(r[k])
    ensures var ix := Filters.Where(TorrentAt(entries), 0, |entries|);
            |r| == |ix| && forall i :: 0 <= i < |ix| ==> r[i] == entries[ix[i]]
  {
    if entries == [] then []
    else
      var n := |entries| - 1;
      var front := TorrentEntries(entries[..n]);
      var last := entries[n];
      Filters.WhereAgree(TorrentAt(entries[..n]), TorrentAt(entries), 0, n);
      Filters.WhereSnoc(TorrentAt(entries), 0, n);
      assert forall j :: 0 <= j < n ==> entries[..n][j] == entries[j];
      if HasTorrentLink(last) then front + [last] else front
  }

  /** One more entry adds itself when it has a torrent link. */
  lemma TorrentEntriesLast(entries: seq<Entry>)
    requires entries != []
    ensures TorrentEntries(entries) ==
            TorrentEntries(entries[..|entries| - 1]) +
            if HasTorrentLink(entries[|entries| - 1]) then [entries[|entries| - 1]] else []
  {
  }

  /** The torrent link an episode is made from. */
  function TorrentLinkOf(entry: Entry): Link
    requires HasTorrentLink(entry)
  {
    entry.links[FirstTorrentLink(entry.links).value]
  }

  /** The episode the outer loop makes of an entry with a torrent link: id, title and link
      are the entry's, the torrent is the first torrent link's href and parsed length, and the
      fields the selector fills in are unset. */
  predicate EpisodeFrom(ep: Episode, e: Entry)
    requires HasTorrentLink(e)
  {
    var link := TorrentLinkOf(e);
    ep.id == e.id && ep.title == e.title && ep.link == e.link &&
    ep.torrent == Torrent(link.href, Decimal.ParseInt(link.length), None, None) &&
    ep.showTitle.None? && ep.season.None? && ep.savePath.None? && ep.category.None?
  }

  /** When no length fails to parse, the k-th episode comes from the k-th entry that has a
      torrent link. */
  lemma {:induction false} EpisodesOfKept(entries: seq<Entry>, eps: seq<Episode>)
    requires EpisodesOf(entries) == Ok(eps)
    ensures |eps| == |TorrentEntries(entries)| <= |entries|
    ensures forall k :: 0 <= k < |eps| ==> EpisodeFrom(eps[k], TorrentEntries(entries)[k])
  {
    if entries != [] {
      var n := |entries| - 1;
      var init := entries[..n];
      EpisodesOfLast(entries);
      var front := EpisodesOf(init).value;
      EpisodesOfKept(init, front);
      TorrentEntriesLast(entries);
      var te := TorrentEntries(init);
      var all := TorrentEntries(entries);
      if HasTorrentLink(entries[n]) {
        var ep := EpisodeOf(entries[n]).value.value;
        assert eps == front + [ep];
        assert EpisodeFrom(ep, entries[n]);
        MadeFromAppend(front, te, ep, entries[n]);
      } else {
        assert eps == front && all == te;
      }
    }
  }

  /** Appending an episode made from an entry keeps the two lists in step. */
  lemma MadeFromAppend(front: seq<Episode>, te: seq<Entry>, ep: Episode, e: Entry)
    requires |front| == |te| && HasTorrentLink(e) && EpisodeFrom(ep, e)
    requires forall k :: 0 <= k < |te| ==> HasTorrentLink(te[k]) && EpisodeFrom(front[k], te[k])
    ensures forall k :: 0 <= k < |te| + 1 ==> HasTorrentLink((te + [e])[k]) && EpisodeFrom((front + [ep])[k], (te + [e])[k])
  {
    forall k | 0 <= k < |te| + 1 ensures HasTorrentLink((te + [e])[k]) && EpisodeFrom((front + [ep])[k], (te + [e])[k]) {
      if k < |te| {
        assert (front + [ep])[k] == front[k] && (te + [e])[k] == te[k];
      }
    }
  }

  /** A list that comes out whole had no failing entry. */
  lemma {:induction false} EpisodesOfOk(entries: seq<Entry>)
    requires EpisodesOf(entries).Ok?
    ensures forall k :: 0 <= k < |entries| ==> EpisodeOf(entries[k]).Ok?
  {
    if entries != [] {
      var init := entries[..|entries| - 1];
      EpisodesOfLast(entries);
      EpisodesOfOk(init);
      forall k | 0 <= k < |init| ensures EpisodeOf(entries[k]).Ok? {
        assert init[k] == entries[k];
      }
    }
  }

  /** A list that fails carries the exception of its first failing entry. */
  lemma {:induction false} EpisodesOfFirstError(entries: seq<Entry>)
    requires EpisodesOf(entries).Err?
    ensures exists k :: 0 <= k < |entries| && EpisodeOf(entries[k]) == Err(EpisodesOf(entries).error) &&
                        forall j :: 0 <= j < k ==> EpisodeOf(entries[j]).Ok?
  {
    var init := entries[..|entries| - 1];
    var last := |entries| - 1;
    EpisodesOfLast(entries);
    if EpisodesOf(init).Err? {
      EpisodesOfFirstError(init);
      var k :| 0 <= k < |init| && EpisodeOf(init[k]) == Err(EpisodesOf(init).error) &&
               forall j :: 0 <= j < k ==> EpisodeOf(init[j]).Ok?;
      forall j | 0 <= j < k ensures EpisodeOf(entries[j]).Ok? {
        assert init[j] == entries[j];
      }
      assert init[k] == entries[k];
    } else {
      EpisodesOfOk(init);
      forall j | 0 <= j < last ensures EpisodeOf(entries[j]).Ok? {
        assert init[j] == entries[j];
      }
    }
  }

  /** The list fails exactly when some entry fails, and then with the first failing entry's
      exception: an entry fails when its first torrent link's length is not an integer. */
  lemma EpisodesOfFails(entries: seq<Entry>)
    ensures EpisodesOf(entries).Err? <==> exists k :: 0 <= k < |entries| && EpisodeOf(entries[k]).Err?
    ensures EpisodesOf(entries).Err? ==>
      exists k :: 0 <= k < |entries| && EpisodeOf(entries[k]) == Err(EpisodesOf(entries).error) &&
                  forall j :: 0 <= j < k ==> EpisodeOf(entries[j]).Ok?
  {
    if EpisodesOf(entries).Err? {
      EpisodesOfFirstError(entries);
    } else {
      EpisodesOfOk(entries);
    }
  }

  /** An entry fails only on its first torrent link's length. */
  lemma EpisodeOfFails(entry: Entry)
    ensures EpisodeOf(entry).Err? <==>
      HasTorrentLink(entry) && Decimal.ParseInt(TorrentLinkOf(entry).length).None?
  {
  }

  /** With `reverse=True` the list is the kept episodes from last to first; with
      `reverse=False` it is them in feed order. */
  lemma FeedEpisodesOrder(entries: seq<Entry>, reverse: bool)
    requires FeedEpisodes(entries, reverse).Ok?
    ensures EpisodesOf(entries).Ok?
    ensures var eps := EpisodesOf(entries).value;
            var r := FeedEpisodes(entries, reverse).value;
            |r| == |eps| &&
            forall k :: 0 <= k < |r| ==> r[k] == if reverse then eps[|eps| - 1 - k] else eps[k]
  {
    var eps := EpisodesOf(entries).value;
    if reverse {
      forall k | 0 <= k < |eps| ensures Reversed(eps)[k] == eps[|eps| - 1 - k] {
        ReversedAt(eps, k);
      }
    }
  }
}
