# PyMusic core in Dafny

A verified model of the logic in PyMusic's `app.py`, which is a Flask music player. The model covers three parts:

- **`clean_string`** removes `(…)` and `[…]` qualifiers from a song title and strips the whitespace at both ends. It is modelled as pure functions over `string` (module `CleanString`, file `clean_string.dfy`).
  - Each regular expression (`\([^)]*\)`, then `\[[^]]*\]`) becomes a left-to-right scanner, `RemoveGroups`.
  - `strip()` becomes `TrimStart` followed by `TrimEnd`, with CPython's whitespace set in `Text.IsSpace`.
- **`fetch_lyrics`** asks the lyrics search service up to three times: an exact match, then the cleaned title, then a title-only search filtered by artist (module `Lyrics`, file `lyrics.dfy`).
  - The service is a function parameter `api: Query -> Option<Json>`. `None` stands for a request or a JSON decoding that raised.
  - `Cascade` states what the function returns and which requests it makes.
  - The method `FetchLyrics` and its two loop helpers, `FirstSynced` and `FirstSyncedByArtist`, are the implementation, proved equal to `Cascade`.
- **`search_deezer` and `get_chart`** turn the catalog's JSON document into song records of seven fields (module `Catalog`, file `catalog.dfy`).
  - The HTTP fetch is a parameter from URL to decoded document.
  - The two functions share the append loop `CollectSongs`.
  - The result is all or nothing. If anything raises inside the `try`, the function returns an empty list.

`json_value.dfy` models decoded JSON and the Python operations the code applies to it: truthiness, `dict.get`, subscripting and `in`. In Python `get`, subscripting and `in` may raise; here they then return `None`. `text.dfy` holds `Option` and the string helpers: ASCII `lower`, substring, subsequence.

A missing catalog field does not fall back to a default value: the `except` at app.py:28-30 and 50-51 discards the whole result list, and `Catalog` models exactly that.

## Model

| member | source | states |
|---|---|---|
| CleanString.TrimStartIsMaximal | app.py:75 | the result is the suffix left after the maximal run of leading whitespace; it does not start with whitespace |
| CleanString.TrimEndIsMaximal | app.py:75 | the result is the prefix left before the maximal run of trailing whitespace; it does not end with whitespace |
| CleanString.StripIsMaximalTrim | app.py:75 | `strip()` returns a slice `s[i..j]` with only whitespace outside it and none at its own ends |
| CleanString.StripKeeps | app.py:75 | a string without surrounding whitespace is returned unchanged |
| CleanString.StripIsSubsequence | app.py:75 | `strip()` only deletes characters |
| CleanString.StripTrailing | app.py:75 | a word followed by whitespace is stripped to exactly the word |
| CleanString.RemoveGroupsIsSubsequence | app.py:73-74 | each substitution only deletes characters: its output is a subsequence of its input |
| CleanString.RemoveGroupsLeavesNoClosedGroup | app.py:73-74 | after a substitution, no opener is followed anywhere later by its closer |
| CleanString.RemoveGroupsKeeps | app.py:73-74 | a string with no opener followed later by a closer passes through unchanged |
| CleanString.RemoveGroupsShrinks | app.py:73-74 | a string with a closed group gets strictly shorter |
| CleanString.RemoveGroupsFixedPoint | app.py:73-74 | a substitution leaves a string unchanged if and only if the string has no closed group |
| CleanString.RemoveGroupsDropsLeadingGroup | app.py:73-74 | a closed group at the very start is deleted with its delimiters, and the scan resumes right after its closer |
| CleanString.RemoveGroupsDropsGroup | app.py:73-74 | a group `open m close`, with no earlier opener and no closer inside it, is deleted with its delimiters, and scanning resumes after it |
| CleanString.NoClosedGroupOfSubsequence | app.py:73-75 | deleting characters cannot create a closed group, so the later steps keep what the earlier ones achieved |
| CleanString.CleanIsSubsequence | app.py:71-75 | `clean_string` only deletes characters and never lengthens its input |
| CleanString.CleanIsClean | app.py:71-75 | the result has no surrounding whitespace, no `(` followed later by `)`, and no `[` followed later by `]` |
| CleanString.CleanFixedPoint | app.py:71-75 | `clean_string(s) == s` if and only if `s` has no surrounding whitespace and no closed group of either kind |
| CleanString.CleanIdempotent | app.py:71-75 | cleaning twice gives the same result as cleaning once |
| CleanString.CleanKeepsPlainTitle | app.py:71-75 | a title with none of `()[]` and no surrounding whitespace is returned as it is |
| CleanString.CleanRemastered | app.py:72-75 | `"Song (Remastered)"` becomes `"Song"`, the case the comment names |
| CleanString.CleanFeatAndRemix | app.py:72-75 | `"Title [feat. X] (Remix)"` becomes `"Title"` |
| CleanString.CleanKeepsUnclosed | app.py:73-75 | an opener with no closer after it is kept: `"Live (2020"` is unchanged |
| Text.LowerIdempotent | app.py:112 | lower-casing an already lower-cased name changes nothing |
| Text.LowerLeavesNoCapital | app.py:112 | after `lower()` no capital `A`-`Z` is left, and every character that is not a capital is kept |
| Text.LowerAppend | app.py:112 | `lower()` distributes over concatenation, so it works character by character |
| JsonValue.Get | app.py:91 | `get` answers exactly on a dict; a truthy answer is the value stored under the key |
| JsonValue.GetAgreesWithSubscript | app.py:90-91 | `d.get(k)` equals `d[k]` wherever `d[k]` succeeds, answers None where `d[k]` raises on a dict, and a truthy `get` means `d[k]` succeeds with the same value |
| Lyrics.FirstSynced | app.py:89-91 | the loop of strategies 1 and 2 computes `ScanSynced`: the first item with truthy `syncedLyrics`, or a raise on a non-dict item |
| Lyrics.FirstSyncedByArtist | app.py:108-113 | the loop of strategy 3 computes `ScanSyncedByArtist` |
| Lyrics.FetchLyrics | app.py:77-117 | the returned lyrics and the requests made are those of the specification `Cascade` |
| Lyrics.ScanSyncedFindsFirst | app.py:89-91 | the first item with synced lyrics wins if every item before it is a dict without synced lyrics |
| Lyrics.ScanSyncedHitIsSynced | app.py:90-91 | a hit is the truthy `syncedLyrics` of some dict item |
| Lyrics.ScanSyncedByArtistFindsFirst | app.py:108-113 | in strategy 3 the first item with lyrics and a matching string `artistName` wins if every item before it is a dict without lyrics or with a non-matching string `artistName` |
| Lyrics.ScanByArtistHitIsSynced | app.py:109-113 | a strategy-3 hit is the truthy `syncedLyrics` of a dict item whose string `artistName` matches the artist |
| Lyrics.CascadeFollowsPlan | app.py:84-115 | the requests made are a non-empty prefix of: exact match; cleaned title, only if cleaning changed the title; title-only search with the cleaned title. Every request except the last missed. The lookup stops early only on a hit or a raise, and it returns the last request's hit or None |
| Lyrics.ExactMatchWins | app.py:84-91 | if the exact-match list has an item with synced lyrics after only dict items without any, that item's lyrics are returned after one request |
| Lyrics.CascadeDependsOnlyOnItsQueries | app.py:84-115 | two services that agree on the requests made give the same answer, so later strategies cannot change an earlier hit |
| Lyrics.CascadeReturnsSyncedLyrics | app.py:89-117 | a returned value is the non-empty `syncedLyrics` of an item in the last list response; in strategy 3 that item's artist also matches; plain lyrics are never returned |
| Lyrics.FailedRequestGivesNothing | app.py:86-117 | a request that raises is the last one made, and the result is None |
| Lyrics.MissingArtistNameAborts | app.py:110-117 | in strategy 3, an item with lyrics but no `artistName` raises `KeyError`, and the whole lookup returns None |
| Lyrics.ArtistMatchesProperties | app.py:112 | the artist test is symmetric and reflexive, and an empty artist matches every name |
| Catalog.CollectSongs | app.py:17-26 | the append loop yields one record per item, in order, if and only if every item can be projected |
| Catalog.SearchDeezer | app.py:10-30 | the result is the projection of every item under `data`, or `[]` when the request fails, `data` is missing, or any item lacks a field |
| Catalog.GetChart | app.py:32-51 | the same, for the items under `tracks` and then `data` |
| Catalog.SearchItemsShape | app.py:16-17 | songs come only from a dict with a `data` entry; a dict without `data` gives none; a `data` list is iterated as it is |
| Catalog.ChartItemsShape | app.py:38-39 | songs come only from a dict whose `tracks` is a dict with `data`; a `data` list is iterated as it is |
| Catalog.ProjectSongDefined | app.py:18-26 | an item can be projected exactly when it is a dict with `id`, `title`, `duration`, an `artist` dict with `name`, and an `album` dict with `title`, `cover_medium` and `cover_xl` |
| Catalog.StringItemsNeverProject | app.py:17-26 | a non-empty string under `data` is iterated character by character and yields no songs |
| Catalog.OneBadItemEmptiesAll | app.py:17-30 | one item that cannot be projected makes the whole result `[]` |
| Catalog.DeliversIsFunctional | app.py:17-30 | the result list is determined by the items |

## Left out

- The network. `requests.get` (app.py:13, 35, 87, 97, 106, 154) and `response.json()` become function parameters. The catalog URLs are kept as constants; the lyrics endpoint and its `User-Agent` header are named only in the documentation of `Lyrics.Query`.
- `get_youtube_stream_url` (app.py:53-69) calls into the `yt_dlp` library, which is not part of this model.
- The Flask routes, the streaming proxy and template rendering (app.py:119-161). They are request and response plumbing, including the `if not query` check of `/search`.
- `print` calls for logging (app.py:29, 68).
- Text.Lower: models `str.lower()` for ASCII letters only. Python lowers every Unicode letter, and can change a string's length.
- Lyrics.FetchLyrics: takes `artist` and `title` as strings, so a None title or artist from `request.args.get` is not modelled. In Python strategy 1 still runs with it, and the first raise (the `clean_string` call at app.py:94 for a None title, `artist.lower()` at app.py:112 for a None artist) ends the lookup with None.
- Catalog.SearchDeezer: iterating a non-empty dict under `data` is modelled as raising straight away. Python iterates the dict's keys, and the first `key['id']` raises, so the returned value is the same `[]`.
- JSON numbers are `real`. Python's distinctions between `int`, `float` and `NaN` are not modelled; they matter only for truthiness, where zero is false.
