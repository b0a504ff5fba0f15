/** The track records the remote catalog hands back, as far as the download pipeline reads them. */
module Catalog {
  import opened Options

  newtype byte = x: int | 0 <= x < 256

  /**
   * One entry of a track-detail or playlist response: `name`, the names in `ar`,
   * `al.name`, `id` (as the text `str.format` renders) and `al.picUrl`, which may be missing.
   */
  datatype SongInfo = SongInfo(
    name: string,
    artists: seq<string>,
    album: string,
    id: string,
    picUrl: Option<string>)
}
