/** The image and video gallery pages, which share their logic: the local
    catalogue is shown at once with `local-` ids, the backend's entries are
    put in front of it when they arrive, and "load more" shows six more
    tiles at a time. */
module Gallery {
  import opened Wrappers
  import opened Text
  import opened Media
  import opened ImageCard
  import opened Similar

  /** A catalogue record as the JSON holds it: the entry, and its `image`
      (`video` on the video page) and `url` fields, with "" for a missing
      field. */
  datatype Record = Record(item: Item, media: string, url: string)

  /** A grid tile: the record with the id the page gives it and its size. */
  datatype Tile = Tile(id: ItemId, record: Record, size: Size)

  /** `` { ...img, id: `local-${img.id}`, size } `` for every local record. */
  function LocalTiles(records: seq<Record>): (r: seq<Tile>)
    ensures |r| == |records|
  {
    if records == [] then []
    else
      var last := records[|records| - 1];
      LocalTiles(records[..|records| - 1])
        + [Tile(Label(LocalPrefix + IntToString(last.item.id)), last, GridSize(|records| - 1))]
  }

  /** `{ ...img, size }` for every backend record: the id is kept. */
  function BackendTiles(records: seq<Record>): (r: seq<Tile>)
    ensures |r| == |records|
  {
    if records == [] then []
    else
      var last := records[|records| - 1];
      BackendTiles(records[..|records| - 1]) + [Tile(Num(last.item.id), last, GridSize(|records| - 1))]
  }

  /** A local tile carries its record, the id `local-<n>` for the record's
      number `n`, and is tall exactly at the multiples of 8. */
  lemma {:induction false} LocalTilesEntries(records: seq<Record>)
    ensures forall i :: 0 <= i < |records| ==>
      LocalTiles(records)[i] == Tile(Label(LocalPrefix + IntToString(records[i].item.id)), records[i], GridSize(i))
  {
    if records != [] {
      var p := records[..|records| - 1];
      LocalTilesEntries(p);
      assert forall i :: 0 <= i < |p| ==> p[i] == records[i];
    }
  }

  /** A backend tile keeps the record's id and is sized by its own index
      among the backend records. */
  lemma {:induction false} BackendTilesEntries(records: seq<Record>)
    ensures forall i :: 0 <= i < |records| ==>
      BackendTiles(records)[i] == Tile(Num(records[i].item.id), records[i], GridSize(i))
  {
    if records != [] {
      var p := records[..|records| - 1];
      BackendTilesEntries(p);
      assert forall i :: 0 <= i < |p| ==> p[i] == records[i];
    }
  }

  /** `img.image || img.url` (`video.video || video.url`): the media field
      when it is not empty, otherwise `url`. */
  function CardUrl(t: Tile): (r: string)
    ensures r == t.record.media || r == t.record.url
    ensures r == t.record.url <== t.record.media == []
    ensures t.record.media != [] ==> r == t.record.media
  {
    if t.record.media != [] then t.record.media else t.record.url
  }

  /** The outcome of `fetch(`${API_BASE_URL}/api/images/`)`: a response
      that is not ok, a failure with its message, or the records. */
  datatype Fetch = NotOk | Failed(message: string) | Loaded(records: seq<Record>)

  const NotOkMessage: string := "Backend məlumatları yüklənərkən xəta baş verdi."

  class GalleryPage {
    const kind: Kind
    /** `import.meta.env.VITE_API_BASE_URL`, "" when unset. */
    const apiBaseUrl: string
    var tiles: seq<Tile>
    var visibleItems: nat
    var loading: bool
    var error: Option<string>

    constructor(kind: Kind, apiBaseUrl: string)
      ensures this.kind == kind && this.apiBaseUrl == apiBaseUrl
      ensures tiles == [] && visibleItems == 6 && !loading && error.None?
    {
      this.kind := kind;
      this.apiBaseUrl := apiBaseUrl;
      tiles := [];
      visibleItems := 6;
      loading := false;
      error := None;
    }

    /** The first effect: the local catalogue, sized and relabelled. */
    method ShowLocal(records: seq<Record>)
      modifies this
      ensures tiles == LocalTiles(records)
      ensures visibleItems == old(visibleItems) && loading == old(loading) && error == old(error)
    {
      tiles := LocalTiles(records);
    }

    /** The second effect: without a base URL nothing happens; otherwise the
        backend's tiles go in front of the current ones, or the tiles stay
        and the error is recorded; loading ends false either way. */
    method FetchBackend(outcome: Fetch)
      modifies this
      ensures apiBaseUrl == [] ==> tiles == old(tiles) && loading == old(loading) && error == old(error)
      ensures apiBaseUrl != [] ==> !loading
      ensures apiBaseUrl != [] && outcome.Loaded? ==> tiles == BackendTiles(outcome.records) + old(tiles) && error.None?
      ensures apiBaseUrl != [] && outcome.NotOk? ==> tiles == old(tiles) && error == Some(NotOkMessage)
      ensures apiBaseUrl != [] && outcome.Failed? ==> tiles == old(tiles) && error == Some(outcome.message)
      ensures visibleItems == old(visibleItems)
    {
      if apiBaseUrl == [] {
        return;
      }
      loading := true;
      error := None;
      match outcome {
        case NotOk =>
          error := Some(NotOkMessage);
        case Failed(message) =>
          error := Some(message);
        case Loaded(records) =>
          var backendSized := BackendTiles(records);
          tiles := backendSized + tiles;
      }
      loading := false;
    }

    /** `loadMoreImages` (`loadMoreVideos`): nothing once every tile shows,
        otherwise six more, up to the number of tiles. */
    method LoadMore()
      modifies this
      ensures old(visibleItems) >= |tiles| ==> visibleItems == old(visibleItems)
      ensures old(visibleItems) < |tiles| ==>
        visibleItems == (if old(visibleItems) + 6 < |tiles| then old(visibleItems) + 6 else |tiles|)
      ensures old(visibleItems) < |tiles| ==> old(visibleItems) < visibleItems <= |tiles|
      ensures tiles == old(tiles) && loading == old(loading) && error == old(error)
    {
      if visibleItems >= |tiles| {
        return;
      }
      visibleItems := if visibleItems + 6 < |tiles| then visibleItems + 6 else |tiles|;
    }

    /** `images.slice(0, visibleItems)`. */
    function VisibleTiles(): (r: seq<Tile>)
      reads this
      ensures |r| == if visibleItems < |tiles| then visibleItems else |tiles|
      ensures r == tiles[..|r|]
    {
      tiles[..if visibleItems < |tiles| then visibleItems else |tiles|]
    }
  }

  /** A local label does not parse as a number: its first character is
      neither a blank, a sign nor a digit. */
  lemma LocalLabelNotNumber(n: int)
    ensures ParseInt(LocalPrefix + IntToString(n)).None?
  {
    var s := LocalPrefix + IntToString(n);
    assert s[0] == 'l';
    assert SpanLen(s, IsSpace) == 0;
    assert s[0..] == s;
    assert SpanLen(s, IsDigit) == 0;
  }

  /** The route segment of a local tile as written, `local-<n>`, does not
      parse as a number, so the similar page finds no reference item (and,
      by `Similar.SimilarWithoutReference`, lists nothing). */
  lemma LocalRouteAsWritten(records: seq<Record>, i: nat, images: seq<Item>, videos: seq<Item>)
    requires i < |records|
    ensures var segment := RouteAsWritten(LocalTiles(records)[i].id)[|"/similar/image/"|..];
      ParseInt(segment).None? && OriginalItem("image", segment, images, videos).None?
  {
    LocalTilesEntries(records);
    var s := LocalPrefix + IntToString(records[i].item.id);
    assert RouteAsWritten(Label(s))[|"/similar/image/"|..] == s;
    LocalLabelNotNumber(records[i].item.id);
  }

  /** Dropping the prefix from a local label gives back the catalogue
      number as text. */
  lemma LocalLabelSimilarId(n: int)
    ensures SimilarId(Label(LocalPrefix + IntToString(n))) == IntToString(n)
  {
    var s := LocalPrefix + IntToString(n);
    assert StartsWith(s, LocalPrefix);
    assert s[|LocalPrefix|..] == IntToString(n);
  }

  /** With the prefix dropped, the route segment of a local tile is the
      catalogue number of its record. */
  lemma LocalRouteCorrected(records: seq<Record>, i: nat)
    requires i < |records|
    ensures CardRoute(LocalTiles(records)[i].id)[|"/similar/image/"|..] == IntToString(records[i].item.id)
  {
    LocalTilesEntries(records);
    LocalLabelSimilarId(records[i].item.id);
  }

  /** That segment parses back to the number, and the similar page finds
      the image with that number as its reference. */
  lemma LocalReferenceFound(n: int, images: seq<Item>, videos: seq<Item>, x: Item)
    requires x in images && x.id == n
    ensures ParseInt(IntToString(n)) == Some(n)
    ensures OriginalItem("image", IntToString(n), images, videos).Some?
    ensures OriginalItem("image", IntToString(n), images, videos).value.id == n
  {
    ParseIntOfIntToString(n);
    SimilarHasReference("image", IntToString(n), images, videos, x);
  }
}
