/**
  The search cascade of `fetch_lyrics(artist, title)` (app.py:77-117).

  Each request to the lyrics search endpoint is a Query; the endpoint is a
  function `api` from the query to the decoded response, None standing for a
  request or a decoding that raised. Three strategies are tried in turn:
   1. artist and title as given;
   2. artist and the cleaned title, only when cleaning changed the title;
   3. the cleaned title alone, keeping only items whose artist name and the
      requested artist contain one another, ignoring case.
  The first item with non-empty synced lyrics wins. Any exception ends the
  whole lookup with None.
 */
module Lyrics {
  import opened Wrappers
  import opened Text
  import opened JsonValue
  import CleanString

  /** The query parameters of one request. Every request goes to
      https://lrclib.net/api/search with the User-Agent header
      `PySpotifyClone/1.0` (app.py:81-82); only the parameters differ. */
  datatype Query =
    | ByArtistAndTrack(artistName: string, trackName: string)  // {'artist_name': ..., 'track_name': ...}
    | ByText(q: string)                                         // {'q': ...}

  /** What one strategy's loop over a response comes to. */
  datatype Scan = Hit(lyrics: Json) | Miss | Raised

  /** The result of the whole cascade: the lyrics returned (None for
      Python's None) and the requests issued, in order. */
  datatype Answer = Answer(lyrics: Option<Json>, queries: seq<Query>)

  /** app.py:112: either lower-cased name contains the other. */
  predicate ArtistMatches(artist: string, name: string) {
    IsSubstring(Lower(artist), Lower(name)) || IsSubstring(Lower(name), Lower(artist))
  }

  /** The loop of strategies 1 and 2 (app.py:90-91 and 100-101): the first
      item whose `get('syncedLyrics')` is truthy. An item that is not a dict
      has no `get`, which raises. */
  function ScanSynced(items: seq<Json>): Scan {
    if items == [] then Miss
    else match Get(items[0], "syncedLyrics")
      case None => Raised
      case Some(l) => if Truthy(l) then Hit(l) else ScanSynced(items[1..])
  }

  /** The loop of strategy 3 (app.py:109-113): as ScanSynced, but an item
      with lyrics also needs a string `artistName` (a missing key raises
      KeyError, a non-string has no `lower`) that matches the artist. */
  function ScanSyncedByArtist(items: seq<Json>, artist: string): Scan {
    if items == [] then Miss
    else match Get(items[0], "syncedLyrics")
      case None => Raised
      case Some(l) =>
        if !Truthy(l) then ScanSyncedByArtist(items[1..], artist)
        else match Subscript(items[0], "artistName")
          case None => Raised
          case Some(name) =>
            if !name.Str? then Raised
            else if ArtistMatches(artist, name.s) then Hit(l)
            else ScanSyncedByArtist(items[1..], artist)
  }

  /** One strategy applied to its response: a failed request raises, a
      response that is not a list is skipped (`isinstance(data, list)`). */
  function Consult(q: Query, response: Option<Json>, artist: string): Scan {
    match response
    case None => Raised
    case Some(data) =>
      if !data.Array? then Miss
      else if q.ByText? then ScanSyncedByArtist(data.items, artist)
      else ScanSynced(data.items)
  }

  /** The requests the cascade may issue, in order. */
  function Plan(artist: string, title: string): seq<Query> {
    var cleanTitle := CleanString.Clean(title);
    [ByArtistAndTrack(artist, title)]
      + (if cleanTitle != title then [ByArtistAndTrack(artist, cleanTitle)] else [])
      + [ByText(cleanTitle)]
  }

  /** What `fetch_lyrics(artist, title)` returns, and which requests it makes. */
  function Cascade(artist: string, title: string, api: Query -> Option<Json>): (r: Answer)
    ensures 1 <= |r.queries| <= 3
  {
    var cleanTitle := CleanString.Clean(title);
    var first := ByArtistAndTrack(artist, title);
    match Consult(first, api(first), artist)
    case Hit(l) => Answer(Some(l), [first])
    case Raised => Answer(None, [first])
    case Miss =>
      var second := ByArtistAndTrack(artist, cleanTitle);
      var tried := if cleanTitle != title then [first, second] else [first];
      match (if cleanTitle != title then Consult(second, api(second), artist) else Miss)
      case Hit(l) => Answer(Some(l), tried)
      case Raised => Answer(None, tried)
      case Miss =>
        var third := ByText(cleanTitle);
        match Consult(third, api(third), artist)
        case Hit(l) => Answer(Some(l), tried + [third])
        case _ => Answer(None, tried + [third])
  }

  // ---------------------------------------------------------------------
  // The implementation, loop by loop.

  method FirstSynced(items: seq<Json>) returns (s: Scan)
    ensures s == ScanSynced(items)
  {
    for i := 0 to |items|
      invariant ScanSynced(items[i..]) == ScanSynced(items)
    {
      assert items[i..][1..] == items[i + 1..];
      var item := items[i];
      if !item.Object? {
        return Raised;
      }
      var synced := Get(item, "syncedLyrics").value;
      if Truthy(synced) {
        return Hit(synced);
      }
    }
    return Miss;
  }

  method FirstSyncedByArtist(items: seq<Json>, artist: string) returns (s: Scan)
    ensures s == ScanSyncedByArtist(items, artist)
  {
    var artistLower := Lower(artist);
    for i := 0 to |items|
      invariant ScanSyncedByArtist(items[i..], artist) == ScanSyncedByArtist(items, artist)
    {
      assert items[i..][1..] == items[i + 1..];
      var item := items[i];
      if !item.Object? {
        return Raised;
      }
      var synced := Get(item, "syncedLyrics").value;
      if Truthy(synced) {
        if "artistName" !in item.fields || !item.fields["artistName"].Str? {
          return Raised;
        }
        var nameLower := Lower(item.fields["artistName"].s);
        if IsSubstring(artistLower, nameLower) || IsSubstring(nameLower, artistLower) {
          return Hit(synced);
        }
      }
    }
    return Miss;
  }

  /** `fetch_lyrics` (app.py:77-117), with the three requests answered by `api`. */
  method FetchLyrics(artist: string, title: string, api: Query -> Option<Json>)
    returns (lyrics: Option<Json>, queries: seq<Query>)
    ensures Answer(lyrics, queries) == Cascade(artist, title, api)
  {
    // Strategy 1: exact match
    var params := ByArtistAndTrack(artist, title);
    queries := [params];
    var data := api(params);
    if data.None? {
      return None, queries;
    }
    if data.value.Array? {
      var s := FirstSynced(data.value.items);
      if s.Hit? {
        return Some(s.lyrics), queries;
      } else if s.Raised? {
        return None, queries;
      }
    }
    // Strategy 2: cleaned title
    var cleanTitle := CleanString.Clean(title);
    if cleanTitle != title {
      params := params.(trackName := cleanTitle);
      queries := queries + [params];
      data := api(params);
      if data.None? {
        return None, queries;
      }
      if data.value.Array? {
        var s := FirstSynced(data.value.items);
        if s.Hit? {
          return Some(s.lyrics), queries;
        } else if s.Raised? {
          return None, queries;
        }
      }
    }
    // Strategy 3: title only, filtered by artist
    params := ByText(cleanTitle);
    queries := queries + [params];
    data := api(params);
    if data.None? {
      return None, queries;
    }
    if data.value.Array? {
      var s := FirstSyncedByArtist(data.value.items, artist);
      if s.Hit? {
        return Some(s.lyrics), queries;
      }
    }
    return None, queries;
  }

  // ---------------------------------------------------------------------
  // Properties of the cascade.

  /** An item the loops of strategies 1 and 2 pass over. */
  predicate LacksSynced(item: Json) {
    item.Object? && !Truthy(Get(item, "syncedLyrics").value)
  }

  predicate HasSynced(item: Json) {
    item.Object? && Truthy(Get(item, "syncedLyrics").value)
  }

  /** The loop returns the lyrics of the first item that has any. */
  lemma {:induction false} ScanSyncedFindsFirst(items: seq<Json>, i: nat)
    requires i < |items| && HasSynced(items[i])
    requires forall j | 0 <= j < i :: LacksSynced(items[j])
    ensures ScanSynced(items) == Hit(items[i].fields["syncedLyrics"])
    decreases i
  {
    if i > 0 {
      assert LacksSynced(items[0]);
      ScanSyncedFindsFirst(items[1..], i - 1);
    }
  }

  /** An item with lyrics and a string 'artistName' that matches the
      artist: strategy 3 returns its lyrics. */
  predicate MatchesArtist(item: Json, artist: string) {
    && HasSynced(item)
    && "artistName" in item.fields
    && item.fields["artistName"].Str?
    && ArtistMatches(artist, item.fields["artistName"].s)
  }

  /** A dict item that strategy 3 passes over without raising: no lyrics,
      or a string 'artistName' that does not match. */
  predicate PassedOver(item: Json, artist: string) {
    || LacksSynced(item)
    || (&& HasSynced(item)
        && "artistName" in item.fields
        && item.fields["artistName"].Str?
        && !ArtistMatches(artist, item.fields["artistName"].s))
  }

  /** Strategy 3 returns the lyrics of the first matching item, provided
      every item before it is passed over. */
  lemma {:induction false} ScanSyncedByArtistFindsFirst(items: seq<Json>, artist: string, i: nat)
    requires i < |items| && MatchesArtist(items[i], artist)
    requires forall j | 0 <= j < i :: PassedOver(items[j], artist)
    ensures ScanSyncedByArtist(items, artist) == Hit(items[i].fields["syncedLyrics"])
    decreases i
  {
    if i > 0 {
      assert PassedOver(items[0], artist);
      ScanSyncedByArtistFindsFirst(items[1..], artist, i - 1);
    }
  }

  /** What a hit of either loop is: the truthy lyrics of some dict item,
      which in strategy 3 also carries a matching string artist name. */
  predicate SyncedAt(items: seq<Json>, i: int, l: Json, byArtist: bool, artist: string) {
    && 0 <= i < |items|
    && items[i].Object?
    && "syncedLyrics" in items[i].fields
    && items[i].fields["syncedLyrics"] == l
    && Truthy(l)
    && (byArtist ==>
          "artistName" in items[i].fields
          && items[i].fields["artistName"].Str?
          && ArtistMatches(artist, items[i].fields["artistName"].s))
  }

  lemma {:induction false} ScanSyncedHitIsSynced(items: seq<Json>, l: Json, artist: string)
    requires ScanSynced(items) == Hit(l)
    ensures exists i :: SyncedAt(items, i, l, false, artist)
    decreases |items|
  {
    if Truthy(Get(items[0], "syncedLyrics").value) {
      assert SyncedAt(items, 0, l, false, artist);
    } else {
      ScanSyncedHitIsSynced(items[1..], l, artist);
      var i :| SyncedAt(items[1..], i, l, false, artist);
      assert SyncedAt(items, i + 1, l, false, artist);
    }
  }

  lemma {:induction false} ScanByArtistHitIsSynced(items: seq<Json>, artist: string, l: Json)
    requires ScanSyncedByArtist(items, artist) == Hit(l)
    ensures exists i :: SyncedAt(items, i, l, true, artist)
    decreases |items|
  {
    var item := items[0];
    if Truthy(Get(item, "syncedLyrics").value) && ArtistMatches(artist, item.fields["artistName"].s) {
      assert SyncedAt(items, 0, l, true, artist);
    } else {
      ScanByArtistHitIsSynced(items[1..], artist, l);
      var i :| SyncedAt(items[1..], i, l, true, artist);
      assert SyncedAt(items, i + 1, l, true, artist);
    }
  }

  /** The requests issued are a non-empty prefix of the plan: strategy 2 is
      asked only when cleaning changed the title, strategy 3 always with the
      cleaned title. The cascade stops at the first strategy that hits or
      raises, and returns that strategy's hit, if any. */
  lemma CascadeFollowsPlan(artist: string, title: string, api: Query -> Option<Json>)
    ensures var r := Cascade(artist, title, api);
      var plan := Plan(artist, title);
      var n := |r.queries|;
      && 1 <= n <= |plan|
      && r.queries == plan[..n]
      && (forall k | 0 <= k < n - 1 :: Consult(plan[k], api(plan[k]), artist) == Miss)
      && (n < |plan| ==> Consult(plan[n - 1], api(plan[n - 1]), artist) != Miss)
      && r.lyrics == (match Consult(plan[n - 1], api(plan[n - 1]), artist)
                      case Hit(l) => Some(l)
                      case _ => None)
  {
    var cleanTitle := CleanString.Clean(title);
    var first := ByArtistAndTrack(artist, title);
    var second := ByArtistAndTrack(artist, cleanTitle);
    var third := ByText(cleanTitle);
    var r := Cascade(artist, title, api);
    var plan := Plan(artist, title);
    if Consult(first, api(first), artist) != Miss {
      assert r.queries == [first] == plan[..1];
    } else if cleanTitle != title {
      assert plan == [first, second, third];
      if Consult(second, api(second), artist) != Miss {
        assert r.queries == [first, second] == plan[..2];
      } else {
        assert r.queries == plan == plan[..3];
      }
    } else {
      assert plan == [first, third];
      assert r.queries == plan == plan[..2];
    }
  }

  /** Strategy 1 wins whenever its response lists an item with synced
      lyrics before any item that would raise: that item's lyrics are
      returned and no other request is made. */
  lemma ExactMatchWins(artist: string, title: string, api: Query -> Option<Json>, items: seq<Json>, i: nat)
    requires api(ByArtistAndTrack(artist, title)) == Some(Array(items))
    requires i < |items| && HasSynced(items[i])
    requires forall j | 0 <= j < i :: LacksSynced(items[j])
    ensures Cascade(artist, title, api)
      == Answer(Some(items[i].fields["syncedLyrics"]), [ByArtistAndTrack(artist, title)])
  {
    ScanSyncedFindsFirst(items, i);
  }

  /** The answer depends on the responses to the requests made and on
      nothing else; with ExactMatchWins, later strategies cannot change an
      exact-match hit. */
  lemma CascadeDependsOnlyOnItsQueries(artist: string, title: string, api: Query -> Option<Json>, api': Query -> Option<Json>)
    requires forall q | q in Cascade(artist, title, api).queries :: api(q) == api'(q)
    ensures Cascade(artist, title, api') == Cascade(artist, title, api)
  {
    var plan := Plan(artist, title);
    CascadeFollowsPlan(artist, title, api);
    assert plan[0] in Cascade(artist, title, api).queries;
  }

  /** A returned value is always the non-empty synced lyrics of an item of
      the last response consulted; through strategy 3 that item's artist
      also matches. Plain lyrics are never returned. */
  lemma CascadeReturnsSyncedLyrics(artist: string, title: string, api: Query -> Option<Json>)
    ensures var r := Cascade(artist, title, api);
      r.lyrics.Some? ==>
        var q := r.queries[|r.queries| - 1];
        && api(q).Some? && api(q).value.Array?
        && exists i :: SyncedAt(api(q).value.items, i, r.lyrics.value, q.ByText?, artist)
  {
    var r := Cascade(artist, title, api);
    CascadeFollowsPlan(artist, title, api);
    if r.lyrics.Some? {
      var q := r.queries[|r.queries| - 1];
      var plan := Plan(artist, title);
      assert q == plan[|r.queries| - 1];
      var s := Consult(q, api(q), artist);
      assert s == Hit(r.lyrics.value);
      var items := api(q).value.items;
      if q.ByText? {
        ScanByArtistHitIsSynced(items, artist, r.lyrics.value);
      } else {
        ScanSyncedHitIsSynced(items, r.lyrics.value, artist);
      }
    }
  }

  /** A failed first request ends the lookup with nothing. */
  lemma FailedRequestGivesNothing(artist: string, title: string, api: Query -> Option<Json>)
    ensures var r := Cascade(artist, title, api);
      forall k | 0 <= k < |r.queries| :: api(r.queries[k]).None? ==> r.lyrics.None? && k == |r.queries| - 1
  {
    CascadeFollowsPlan(artist, title, api);
  }

  /** In strategy 3 an item with lyrics but without 'artistName' raises
      KeyError, which ends the whole lookup even when a later item would
      have matched. */
  lemma {:induction false} MissingArtistNameAborts(items: seq<Json>, artist: string, i: nat)
    requires i < |items| && HasSynced(items[i]) && "artistName" !in items[i].fields
    requires forall j | 0 <= j < i :: LacksSynced(items[j])
    ensures ScanSyncedByArtist(items, artist) == Raised
    decreases i
  {
    if i > 0 {
      assert LacksSynced(items[0]);
      MissingArtistNameAborts(items[1..], artist, i - 1);
    }
  }

  /** The artist test of strategy 3 is symmetric and reflexive, and an empty
      artist matches every name. */
  lemma ArtistMatchesProperties(artist: string, name: string)
    ensures ArtistMatches(artist, name) == ArtistMatches(name, artist)
    ensures ArtistMatches(artist, artist)
    ensures ArtistMatches("", name)
  {
    SubstringReflexive(Lower(artist));
    EmptyIsSubstring(Lower(name));
  }
}
