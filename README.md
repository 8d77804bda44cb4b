# Six degrees of Spotify: cache layer and breadth-first search

This project models the core of a service that finds a chain of "related
artists" between two artists of a music metadata provider, and proves
properties of that model in Dafny.

Two pieces are modelled:

- **The cache layer** (`src/cache.py`). A Redis client holds three kinds of
  entries, each with a read and a store-if-absent operation. Artist names sit
  under `id + ":name"`. Related-artist id lists sit under the artist id.
  Paths sit under the canonical key `min(A,B) + ":" + max(A,B)`. A path is
  reversed on write and on read when the caller's first endpoint is the one
  `sorted` puts last: when the caller's order differs from the sorted order,
  or when both endpoints are equal. Module `Cache` holds this as the class `Cache.Store`:
  a `connected` flag for "a client is set", a string map for `GET`/`SET` and
  a list map for `LRANGE`/`RPUSH`. The store methods are proved against the
  value-level functions `StoreNameIfAbsent` and `StoreListIfAbsent`, and the
  round-trip, symmetry and idempotence lemmas are stated over those
  functions.
- **The single-direction search** (`bfs` and `trace_path` in
  `src/main.py`). Module `Search` replaces the provider's `related_artists()`
  call with a fixed map from artist id to the ordered list of related
  artists. `Search.Step` is one pass of the search loop as a function of the
  loop variables `queue`, `parent`, `visited` and `found`, and the lemmas of
  `Search` state what a pass keeps and what it guarantees. Module `Finder`
  holds the loops of the source as methods. `Finder.Pass` is one pass of the
  loop body, proved equal to `Search.Step`. `Finder.SearchLoop` runs the
  `while` loop. `Finder.Bfs` calls it and traces the result; it is proved
  sound and complete against reachability in the graph.
  `Finder.TracePath` walks the parent links back and reverses the result.

Module `Types` holds the shared vocabulary: `ArtistID` is a string, as in
`src/custom_types.py`.

The model follows `src/main.py` as it stands. The route in `src/api.py:15`
calls a `bi_bfs` that returns a name path, an id path and a count of
searched artists. `src/api.py` imports everything from `src/main.py`, which
defines no `bi_bfs`; that bidirectional search is not modelled. The search of `src/main.py` runs in one direction. Its
queue takes duplicates. Its parent map is keyed by display name. A path store
of an empty list writes nothing.

## Model

| member | source | states |
|---|---|---|
| `Cache.LexLessTotal` | src/cache.py:64 | Python's `<` on ids, which `sorted` uses, is irreflexive and total: no id is smaller than itself, and of two different ids exactly one is smaller |
| `Cache.LexLessTransitive` | src/cache.py:64 | that order is transitive, so with `LexLessTotal` it is a strict total order |
| `Cache.SortedPair` | src/cache.py:64 | `sorted([a, b])` returns the two ids themselves, the smaller one first |
| `Cache.PathKeySymmetric` | src/cache.py:64-68 | the path key of `(a, b)` equals the path key of `(b, a)` |
| `Cache.ReversesFlips` | src/cache.py:65-67 | swapping two different endpoints flips the `reverse` flag; equal endpoints always set it |
| `Cache.Pushed` | src/cache.py:50-51 | pushing items appends them to the key's list in order and changes no other key; pushing nothing changes nothing |
| `Cache.StoreListIfAbsent` | src/cache.py:46-54 | a list store writes exactly when a client is set and the key holds no list, and returns True exactly then; afterwards the key holds the items in order; otherwise the store is unchanged; other keys never change |
| `Cache.StoreNameIfAbsent` | src/cache.py:17-24 | a name store writes exactly when a client is set and the key reads as empty; afterwards the key reads as the name; otherwise nothing changes; other keys never change |
| `Cache.NameKeyInjective` | src/cache.py:10 | two different artist ids never share a name key |
| `Cache.PathRoundTrip` | src/cache.py:60-93 | on a free key, storing `p` for `(a, b)` succeeds; reading `(a, b)` then gives `p`; reading `(b, a)` gives `p` reversed, or `p` itself when `a == b` |
| `Cache.StoreListTwice` | src/cache.py:49-54 | after a successful store of a non-empty list, a second store on that key returns False and changes nothing; after storing the empty list, a second store succeeds and its list is read back |
| `Cache.Store.GetArtistName` | src/cache.py:7-14 | no client: `""`; otherwise the name stored under `id + ":name"`, `""` when there is none |
| `Cache.Store.StoreArtistName` | src/cache.py:17-24 | store-if-absent on `id + ":name"`, as `StoreNameIfAbsent`; after a write `GetArtistName` returns the artist's name |
| `Cache.Store.GetRelatedArtists` | src/cache.py:30-42 | no client: `[]`; otherwise the list stored under the id, in push order |
| `Cache.Store.PushAll` | src/cache.py:50-51 | the `rpush` loop leaves the list map as `Pushed` describes |
| `Cache.Store.StoreRelatedArtists` | src/cache.py:46-54 | store-if-absent on the id, as `StoreListIfAbsent`; after a write `GetRelatedArtists` returns the stored list in the same order |
| `Cache.Store.GetPath` | src/cache.py:60-76 | no client: `[]`; otherwise the list under the canonical key, reversed when the caller's first endpoint is the one `sorted` puts last (the caller's order differs from the sorted one, or the endpoints are equal) |
| `Cache.Store.StorePath` | src/cache.py:80-93 | store-if-absent of the oriented path on the canonical key; after a write `GetPath(a, b)` is the path and, for `a != b`, `GetPath(b, a)` is its reverse; for `a == b` both orders read one key with the flag set, so `GetPath(b, a)` is the path itself |
| `Search.WithParents` | src/main.py:45-47 | existing parent links are kept (first writer wins); every related artist's name gets a link; new links point at the expanded artist; no other name gets one |
| `Search.Step` | src/main.py:38-49 | one loop pass: FIFO (the rest of the queue keeps its order at the front, related artists join at the back in list order); `found` exactly when the popped id is the target's; the pass expands exactly when the popped id is neither the target's nor already in `visited`, and then `parent` becomes `WithParents` of the related artists with the popped name; first writer wins on `parent`; `visited` gains exactly the popped id, so ids stay distinct |
| `Search.StepKeepsInv` | src/main.py:38-49 | a pass that does not find the target keeps the loop invariant: queued artists are reachable and have a parent link, every link follows a related-artist edge out of an artist the search can meet and leads back to the source, expanded ids are closed under the relation up to the queue |
| `Search.StepSound` | src/main.py:38-49 | from a state that keeps the invariant, a pass either pops the target, which is then reachable and whose name traces back to the source's along sound links, or keeps the invariant and lowers the termination measure |
| `Search.StepDecreases` | src/main.py:43-49 | each pass expands an id not expanded before or shortens the queue, so the loop ends |
| `Search.FoundTraces` | src/main.py:40-42 | popping an artist with the target's id means the target is reachable and its name traces back to the source's name |
| `Search.ExhaustedMeansUnreachable` | src/main.py:38 | when the queue empties without a find, the target cannot be reached from the source |
| `Search.TracedPathFollowsEdges` | src/main.py:17-22 | a traced path follows related-artist edges name by name, each edge leaving an artist the search can meet (the source, the target, or one listed as related to some artist); between two artists with one id it is that name alone |
| `Finder.RecordRelated` | src/main.py:45-48 | the inner loop leaves `parent` as `WithParents` and appends every related artist, duplicates included |
| `Finder.TracePath` | src/main.py:17-22 | the result starts with `artist1`'s name, ends with `artist2`'s, each element after the first has the one before as its parent, and `artist1`'s name occurs only at the front |
| `Finder.Pass` | src/main.py:39-49 | one pass of the loop body (pop the front, stop on the target's id, otherwise expand an id not expanded before) leaves the loop variables exactly as `Step` describes |
| `Finder.SearchLoop` | src/main.py:33-49 | the loop ends; on a find the target is reachable and its name traces back to the source's along links that follow related-artist edges; otherwise the target is unreachable and the two ids differ |
| `Finder.Bfs` | src/main.py:32-52 | a path is returned exactly when the target's id is reachable from the source's; it runs from `artist1`'s name to `artist2`'s along related-artist edges, each leaving an artist the search can meet; for equal ids it is `[artist1.name]` |
| `Search.StepAsWritten` | src/main.py:43 | with the test as written, every pass that does not find the target expands again and grows `visited` |
| `Search.AsWrittenNeverStops` | src/main.py:38-49 | as written, the search from one of two mutually related artists for an artist neither reaches never ends |
| `Search.ByIdStopsOnCycle` | src/main.py:43-49 | with the id test, the same search empties its queue after three passes |

## Left out

- `get_artist` and `main` in `src/main.py`: provider search calls, environment variables, console input and output, and the event loop.
- `src/api.py`: the HTTP route and the client bootstrap. The bidirectional search it calls is not in `src/main.py` and is not part of this model.
- The Redis client itself. Strings and lists are kept in two maps, so in the model a key never holds both kinds. Redis has one keyspace and rejects a `GET` on a key that holds a list, and an `LRANGE` or `RPUSH` on a key that holds a string. Neither type error is modelled. Such a clash can happen: for ids `x < "name"`, `get_path(x, "name")` reads the key `x:name`, which is also the name key of `x` (src/cache.py:10, 68).
- The UTF-8 decoding of stored bytes. Stored values are strings already.
- The provider's `related_artists()` call, async/await, retries and rate limits. A fixed neighbour map stands in; an id missing from the map has no related artists.
- Concurrent writers racing on one cache key. The model is sequential.
- Finder.Bfs: does not prove that the returned path is a shortest one. The parent map is keyed by display name (src/main.py:46-47) and two artists may share a name, so two parent chains can merge and the traced names need not stand for a walk of any particular length; a distance bound would need names to be unique, which the model does not assume.
- Finder.Bfs, Finder.SearchLoop: require that two artist objects with the same id carry the same name. Without it `trace_path` can fail on a missing parent, and the model does not follow that failure.
- Finder.Bfs: the path is stated as edges between names. When two different artists share a display name, the name-keyed parent map can join their chains, and the model does not say which artist a name stands for.
- Finder.Bfs: "no neighbour lookup when the ids are equal" is not stated, because lookups are pure here.
- Finder.TracePath: requires that the parent chain from `artist2`'s name reaches `artist1`'s name. Otherwise the source fails on a missing key or loops forever.

## Findings

| source | as written | input that shows it | evidently intended | confidence | as-written member | corrected member |
|---|---|---|---|---|---|---|
| src/main.py:43 | `current_artist not in visited` looks an artist object up in `visited`, a list of id strings, so it is never found and every popped artist is expanded again | artists `a` and `b` related to each other; search from `a` for an artist `c` neither reaches: the queue alternates `[b]`, `[a]`, … and the loop never ends | skip an artist whose id has already been expanded, so the search ends on every finite graph | medium: it rests on the provider's artist objects never comparing equal to a string; not executed | `Search.AsWrittenNeverStops` | `Finder.Bfs` |
