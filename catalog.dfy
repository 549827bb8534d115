/**
  The catalog lookups `search_deezer(query)` (app.py:10-30) and
  `get_chart()` (app.py:32-51): each fetches one JSON document and turns the
  track items it lists into song records of seven fields. The whole body
  runs inside `try`, so any missing key or wrongly typed value anywhere ends
  the call with an empty list: the projection is all or nothing.

  The HTTP request is the parameter `fetch`, from URL to decoded document;
  None stands for a request or a decoding that raised.
 */
module Catalog {
  import opened Wrappers
  import opened JsonValue

  const SearchEndpoint := "https://api.deezer.com/search?q="
  const ChartUrl := "https://api.deezer.com/chart"

  /** The query is pasted into the URL as it is, without escaping. */
  function SearchUrl(query: string): string {
    SearchEndpoint + query
  }

  /** One song record of the result list. The values are copied from the
      catalog's document without conversion. */
  datatype Song = Song(
    id: Json,
    title: Json,
    artist: Json,
    album: Json,
    cover: Json,
    coverXl: Json,
    duration: Json)

  /** The dict literal built for one item (app.py:18-26 and 40-48); None
      when one of its seven subscripts raises. */
  function ProjectSong(item: Json): Option<Song> {
    match (Subscript(item, "id"), Subscript(item, "title"), Subscript(item, "artist"),
           Subscript(item, "album"), Subscript(item, "duration"))
    case (Some(id), Some(title), Some(artist), Some(album), Some(duration)) =>
      (match (Subscript(artist, "name"), Subscript(album, "title"),
              Subscript(album, "cover_medium"), Subscript(album, "cover_xl"))
       case (Some(name), Some(albumTitle), Some(cover), Some(coverXl)) =>
         Some(Song(id, title, name, albumTitle, cover, coverXl, duration))
       case _ => None)
    case _ => None
  }

  /**
    What `for item in v` runs over. A list gives its elements and a string
    its characters. A dict gives its keys, which are strings, and
    subscripting a string with a string raises on the first of them; the
    model therefore keeps only an empty dict's empty run and lets a
    non-empty dict raise here. Numbers, booleans and None are not iterable.
   */
  function Iterate(v: Json): Option<seq<Json>> {
    match v
    case Array(xs) => Some(xs)
    case Str(s) => Some(seq(|s|, i requires 0 <= i < |s| => Str([s[i]])))
    case Object(m) => if m == map[] then Some([]) else None
    case _ => None
  }

  /** The items `search_deezer` loops over (app.py:16-17): none when the
      document has no 'data'; None when the code raises before the loop. */
  function SearchItems(response: Option<Json>): Option<seq<Json>> {
    match response
    case None => None
    case Some(data) =>
      match Contains(data, "data")
      case None => None
      case Some(present) =>
        if !present then Some([])
        else match Subscript(data, "data")
          case None => None
          case Some(list) => Iterate(list)
  }

  /** The items `get_chart` loops over (app.py:38-39): the same, under
      'tracks' and then 'data'. */
  function ChartItems(response: Option<Json>): Option<seq<Json>> {
    match response
    case None => None
    case Some(data) =>
      match Contains(data, "tracks")
      case None => None
      case Some(false) => Some([])
      case Some(true) =>
        match Subscript(data, "tracks")
        case None => None
        case Some(tracks) =>
          match Contains(tracks, "data")
          case None => None
          case Some(false) => Some([])
          case Some(true) =>
            match Subscript(tracks, "data")
            case None => None
            case Some(list) => Iterate(list)
  }

  predicate AllProjectable(items: seq<Json>) {
    forall k | 0 <= k < |items| :: ProjectSong(items[k]).Some?
  }

  /** `songs` lists the projection of every item, in the items' order. */
  predicate ProjectsTo(items: seq<Json>, songs: seq<Song>) {
    && |songs| == |items|
    && forall k | 0 <= k < |items| :: ProjectSong(items[k]) == Some(songs[k])
  }

  /** What either lookup returns for a given run of items: all the songs,
      or the empty list when anything raised. */
  predicate Delivers(items: Option<seq<Json>>, songs: seq<Song>) {
    if items.Some? && AllProjectable(items.value) then ProjectsTo(items.value, songs)
    else songs == []
  }

  /** The loop shared by both lookups (app.py:17-26 and 39-48): append one
      record per item; None as soon as one item cannot be projected. */
  method CollectSongs(items: seq<Json>) returns (songs: Option<seq<Song>>)
    ensures songs.Some? <==> AllProjectable(items)
    ensures songs.Some? ==> ProjectsTo(items, songs.value)
  {
    var acc: seq<Song> := [];
    for i := 0 to |items|
      invariant |acc| == i
      invariant forall k | 0 <= k < i :: ProjectSong(items[k]) == Some(acc[k])
    {
      var song := ProjectSong(items[i]);
      if song.None? {
        return None;
      }
      acc := acc + [song.value];
    }
    return Some(acc);
  }

  /** `search_deezer(query)`. */
  method SearchDeezer(query: string, fetch: string -> Option<Json>) returns (songs: seq<Song>)
    ensures Delivers(SearchItems(fetch(SearchUrl(query))), songs)
  {
    var items := SearchItems(fetch(SearchUrl(query)));
    if items.None? {
      return [];
    }
    var collected := CollectSongs(items.value);
    songs := if collected.Some? then collected.value else [];
  }

  /** `get_chart()`. */
  method GetChart(fetch: string -> Option<Json>) returns (songs: seq<Song>)
    ensures Delivers(ChartItems(fetch(ChartUrl)), songs)
  {
    var items := ChartItems(fetch(ChartUrl));
    if items.None? {
      return [];
    }
    var collected := CollectSongs(items.value);
    songs := if collected.Some? then collected.value else [];
  }

  // ---------------------------------------------------------------------
  // Properties.

  /** Songs come only from a dict whose 'data' is a list of items, each
      of them projected; a document without 'data' gives no songs. */
  lemma SearchItemsShape(response: Option<Json>)
    ensures SearchItems(response).Some? && SearchItems(response).value != [] ==>
      && response.Some? && response.value.Object?
      && "data" in response.value.fields
      && (response.value.fields["data"].Array? || response.value.fields["data"].Str?)
    ensures response.Some? && response.value.Object? && "data" !in response.value.fields ==>
      SearchItems(response) == Some([])
    ensures response.Some? && response.value.Object? && "data" in response.value.fields
            && response.value.fields["data"].Array? ==>
      SearchItems(response) == Some(response.value.fields["data"].items)
  {
  }

  /** The same for the chart, under 'tracks' and 'data'. */
  lemma ChartItemsShape(response: Option<Json>)
    ensures ChartItems(response).Some? && ChartItems(response).value != [] ==>
      && response.Some? && response.value.Object?
      && "tracks" in response.value.fields
      && response.value.fields["tracks"].Object?
      && "data" in response.value.fields["tracks"].fields
    ensures response.Some? && response.value.Object? && "tracks" in response.value.fields
            && response.value.fields["tracks"].Object?
            && "data" in response.value.fields["tracks"].fields
            && response.value.fields["tracks"].fields["data"].Array? ==>
      ChartItems(response) == Some(response.value.fields["tracks"].fields["data"].items)
  {
  }

  /** A string item projects to nothing, so iterating a string of
      characters never yields songs. */
  lemma StringItemsNeverProject(s: string)
    requires s != []
    ensures !AllProjectable(Iterate(Str(s)).value)
  {
    var items := Iterate(Str(s)).value;
    assert items[0] == Str([s[0]]);
    assert ProjectSong(items[0]).None?;
  }

  /** An item projects exactly when it is a dict with 'id', 'title' and
      'duration', an 'artist' dict with 'name' and an 'album' dict with
      'title', 'cover_medium' and 'cover_xl'. */
  lemma ProjectSongDefined(item: Json)
    ensures ProjectSong(item).Some? <==>
      && item.Object?
      && "id" in item.fields && "title" in item.fields && "duration" in item.fields
      && "artist" in item.fields && item.fields["artist"].Object?
      && "name" in item.fields["artist"].fields
      && "album" in item.fields && item.fields["album"].Object?
      && "title" in item.fields["album"].fields
      && "cover_medium" in item.fields["album"].fields
      && "cover_xl" in item.fields["album"].fields
  {
  }

  /** The result is all or nothing: one item that cannot be projected
      empties the whole list, whatever the others are. */
  lemma OneBadItemEmptiesAll(items: seq<Json>, k: nat, songs: seq<Song>)
    requires k < |items| && ProjectSong(items[k]).None?
    requires Delivers(Some(items), songs)
    ensures songs == []
  {
  }

  /** The records are determined by the items: two runs over the same
      items give the same list. */
  lemma {:induction false} DeliversIsFunctional(items: Option<seq<Json>>, a: seq<Song>, b: seq<Song>)
    requires Delivers(items, a) && Delivers(items, b)
    ensures a == b
  {
    if items.Some? && AllProjectable(items.value) {
      forall k | 0 <= k < |a| ensures a[k] == b[k] {
        assert ProjectSong(items.value[k]) == Some(a[k]) == Some(b[k]);
      }
    }
  }
}
