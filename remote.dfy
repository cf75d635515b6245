/** The shapes of the YouTube Data API responses that the scripts read.
    The service itself is not modelled: each call's outcome is supplied
    to the model as data. */
module Remote {
  import opened Common

  /** One entry of a `playlistItems().list` page: its
      `contentDetails.videoId`, or None when that key is missing (the
      scripts then raise KeyError). */
  datatype Item = Item(videoId: Option<string>)

  /** What one `playlistItems().list(...).execute()` call gave: it raised,
      or it returned a page whose `items` key may be missing and whose
      `nextPageToken` may be missing. */
  datatype Response =
    | Raised
    | Page(items: Option<seq<Item>>, nextPageToken: Option<string>)

  /** All items carry a video id. */
  predicate WellFormed(items: seq<Item>) {
    forall i :: 0 <= i < |items| ==> items[i].videoId.Some?
  }

  /** The ids of `items` up to (not including) the first item without one. */
  function IdsBeforeMalformed(items: seq<Item>): (r: seq<string>)
    ensures |r| <= |items|
    ensures forall i :: 0 <= i < |r| ==> items[i].videoId == Some(r[i])
    ensures WellFormed(items) ==> |r| == |items|
    ensures |r| < |items| ==> items[|r|].videoId.None?
  {
    if |items| == 0 || items[0].videoId.None? then []
    else [items[0].videoId.value] + IdsBeforeMalformed(items[1..])
  }
}
