/** `bangumi_tracker/episode.py`: the record the feed reader creates and the selector completes. */
module Episodes {
  import opened Results
  import opened Torrents
  import Paths

  /** The `Episode` dataclass. The last four fields are `None` until the selector assigns them. */
  datatype Episode = Episode(
    id: string,
    title: string,
    link: string,
    torrent: Torrent,
    showTitle: Option<string>,
    season: Option<int>,
    savePath: Option<Paths.Path>,
    category: Option<string>)
}
