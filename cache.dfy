/**
 * The cache layer of src/cache.py: three pairs of "read" and
 * "store if absent" operations over a Redis-like key-value store.
 *
 *  - artist names live under the string key `id + ":name"`;
 *  - related-artist id lists live under the list key `id`;
 *  - paths live under the list key `min(A, B) + ":" + max(A, B)`, reversed
 *    on write and on read when the caller's first endpoint is the one
 *    `sorted` puts last: when the caller's order differs from the sorted
 *    order, or when both endpoints are equal.
 *
 * Redis answers a read of a missing list with the empty list and a read of a
 * missing string with nothing, and the source treats an empty answer as
 * "absent"; the model does the same (`ListAt`, `NameAt`).
 */
module Cache {
  import opened Types

  // ---------------------------------------------------------------------
  // Python string order and the canonical path key
  // ---------------------------------------------------------------------

  /** Python's `a < b` on `str`: lexicographic by code point, a proper prefix first. */
  predicate LexLess(a: string, b: string)
  {
    if a == [] then b != []
    else if b == [] then false
    else if a[0] != b[0] then a[0] < b[0]
    else LexLess(a[1..], b[1..])
  }

  /**
   * Python's string order is irreflexive and total: no string is smaller than
   * itself, and of two different strings exactly one is smaller. Together with
   * `LexLessTransitive` it is a strict total order.
   */
  lemma {:induction false} LexLessTotal(a: string, b: string)
    ensures LexLess(a, b) <==> (a != b && !LexLess(b, a))
  {
    if a != [] && b != [] && a[0] == b[0] {
      LexLessTotal(a[1..], b[1..]);
      assert a == [a[0]] + a[1..] && b == [b[0]] + b[1..];
    }
  }

  /** Python's string order is transitive. */
  lemma {:induction false} LexLessTransitive(a: string, b: string, c: string)
    requires LexLess(a, b) && LexLess(b, c)
    ensures LexLess(a, c)
  {
    if a != [] && a[0] == b[0] && b[0] == c[0] {
      LexLessTransitive(a[1..], b[1..], c[1..]);
    }
  }

  /** `sorted([a, b])`: a two-element sort, stable on ties. */
  function SortedPair(a: string, b: string): (r: (string, string))
    ensures (r.0 == a && r.1 == b) || (r.0 == b && r.1 == a)
    ensures !LexLess(r.1, r.0)
  {
    LexLessTotal(a, b);
    if LexLess(b, a) then (b, a) else (a, b)
  }

  /** The list key a path between `a` and `b` is stored under (src/cache.py:64, 68, 83, 87). */
  function PathKey(a: ArtistID, b: ArtistID): string
  {
    var (lo, hi) := SortedPair(a, b);
    lo + ":" + hi
  }

  /** The `reverse` flag: the caller's first endpoint is the larger one, or both are equal. */
  predicate Reverses(a: ArtistID, b: ArtistID)
  {
    SortedPair(a, b).1 == a
  }

  /** The path key does not depend on the order of the endpoints. */
  lemma PathKeySymmetric(a: ArtistID, b: ArtistID)
    ensures PathKey(a, b) == PathKey(b, a)
  {
    LexLessTotal(a, b);
  }

  /** Swapping two different endpoints flips the reverse flag; equal endpoints always set it. */
  lemma ReversesFlips(a: ArtistID, b: ArtistID)
    ensures a != b ==> (Reverses(a, b) <==> !Reverses(b, a))
    ensures a == b ==> Reverses(a, b)
  {
    LexLessTotal(a, b);
  }

  /** A path as the caller sees it, turned into stored order or back. */
  function Oriented(a: ArtistID, b: ArtistID, p: seq<ArtistID>): seq<ArtistID>
  {
    if Reverses(a, b) then Reversed(p) else p
  }

  // ---------------------------------------------------------------------
  // The store as values
  // ---------------------------------------------------------------------

  /** `LRANGE key 0 -1`: the list held under `key`, empty when there is none. */
  function ListAt(lists: map<string, seq<string>>, key: string): seq<string>
  {
    if key in lists then lists[key] else []
  }

  /** `GET key` read through `if not val: return ""`. */
  function NameAt(names: map<string, string>, key: string): string
  {
    if key in names then names[key] else ""
  }

  /** One `RPUSH key x` per element of `items`, in order. */
  function Pushed(lists: map<string, seq<string>>, key: string, items: seq<string>): (r: map<string, seq<string>>)
    ensures ListAt(r, key) == ListAt(lists, key) + items
    ensures forall k :: k != key ==> ListAt(r, k) == ListAt(lists, k)
    ensures items == [] ==> r == lists
  {
    if items == [] then lists else lists[key := ListAt(lists, key) + items]
  }

  /**
   * The shared shape of `store_related_artists` and `store_path`: when a
   * client is present and `key` holds no list, push `items` and report a
   * write; otherwise report none and leave the store as it is.
   */
  function StoreListIfAbsent(connected: bool, lists: map<string, seq<string>>, key: string, items: seq<string>)
    : (r: (bool, map<string, seq<string>>))
    ensures r.0 <==> connected && ListAt(lists, key) == []
    ensures r.0 ==> ListAt(r.1, key) == items
    ensures !r.0 ==> r.1 == lists
    ensures forall k :: k != key ==> ListAt(r.1, k) == ListAt(lists, k)
  {
    if connected && ListAt(lists, key) == [] then (true, Pushed(lists, key, items)) else (false, lists)
  }

  /** Store-if-absent on a string key, as `store_artist_name` does it. */
  function StoreNameIfAbsent(connected: bool, names: map<string, string>, key: string, name: string)
    : (r: (bool, map<string, string>))
    ensures r.0 <==> connected && NameAt(names, key) == ""
    ensures r.0 ==> NameAt(r.1, key) == name
    ensures !r.0 ==> r.1 == names
    ensures forall k :: k != key ==> NameAt(r.1, k) == NameAt(names, k)
  {
    if connected && NameAt(names, key) == "" then (true, names[key := name]) else (false, names)
  }

  /** The key an artist's name is cached under. */
  function NameKey(id: ArtistID): string
  {
    id + ":name"
  }

  /** Different artists never share a name key. */
  lemma NameKeyInjective(a: ArtistID, b: ArtistID)
    ensures NameKey(a) == NameKey(b) ==> a == b
  {
    if NameKey(a) == NameKey(b) {
      assert |a| == |b|;
      assert a == NameKey(a)[..|a|];
    }
  }

  /** What `get_path(a, b)` reads from a connected store. */
  function ReadPath(lists: map<string, seq<string>>, a: ArtistID, b: ArtistID): seq<ArtistID>
  {
    Oriented(a, b, ListAt(lists, PathKey(a, b)))
  }

  /**
   * Round trip of the path cache: after a successful store of `p` for
   * `(a, b)`, reading `(a, b)` gives `p` and reading `(b, a)` gives `p`
   * reversed (for `a == b` the same key and flag are used, so `p` itself).
   */
  lemma {:induction false} PathRoundTrip(lists: map<string, seq<string>>, a: ArtistID, b: ArtistID, p: seq<ArtistID>)
    requires ListAt(lists, PathKey(a, b)) == []
    ensures var (stored, after) := StoreListIfAbsent(true, lists, PathKey(a, b), Oriented(a, b, p));
      && stored
      && ReadPath(after, a, b) == p
      && ReadPath(after, b, a) == (if a == b then p else Reversed(p))
  {
    var (stored, after) := StoreListIfAbsent(true, lists, PathKey(a, b), Oriented(a, b, p));
    ReversedTwice(p);
    PathKeySymmetric(a, b);
    ReversesFlips(a, b);
  }

  /**
   * A store that already holds a non-empty list for `key` turns down every
   * further store there: store-if-absent is idempotent. Storing the empty
   * list, in contrast, leaves the key free for a later store.
   */
  lemma {:induction false} StoreListTwice(connected: bool, lists: map<string, seq<string>>, key: string, first: seq<string>, second: seq<string>)
    ensures var (ok1, after1) := StoreListIfAbsent(connected, lists, key, first);
      var (ok2, after2) := StoreListIfAbsent(connected, after1, key, second);
      && (ok1 && first != [] ==> !ok2 && after2 == after1)
      && (ok1 && first == [] ==> ok2 && ListAt(after2, key) == second)
  {
    var (ok1, after1) := StoreListIfAbsent(connected, lists, key, first);
    if ok1 && first == [] {
      assert ListAt(after1, key) == [];
    }
  }

  // ---------------------------------------------------------------------
  // The cache client
  // ---------------------------------------------------------------------

  /** The Redis client behind `clients.redis`, with its string and list keyspaces. */
  class Store {
    /** `clients.redis` is set. */
    var connected: bool
    /** String values: `GET` / `SET`. */
    var names: map<string, string>
    /** List values: `LRANGE` / `RPUSH`. */
    var lists: map<string, seq<string>>

    constructor (connected: bool)
      ensures this.connected == connected
      ensures names == map[] && lists == map[]
    {
      this.connected := connected;
      names := map[];
      lists := map[];
    }

    /** `get_artist_name` (src/cache.py:7-14). */
    function GetArtistName(artist: Artist): (r: string)
      reads this
      ensures !connected ==> r == ""
      ensures connected ==> r == NameAt(names, NameKey(artist.id))
    {
      if !connected then "" else NameAt(names, NameKey(artist.id))
    }

    /** `store_artist_name` (src/cache.py:17-24). */
    method StoreArtistName(artist: Artist) returns (stored: bool)
      modifies this`names
      ensures (stored, names) == StoreNameIfAbsent(connected, old(names), NameKey(artist.id), artist.name)
      ensures stored ==> GetArtistName(artist) == artist.name
      ensures !stored ==> names == old(names)
    {
      if !connected {
        return false;
      }
      if NameAt(names, NameKey(artist.id)) == "" {
        names := names[NameKey(artist.id) := artist.name];
        return true;
      } else {
        return false;
      }
    }

    /** `get_related_artists` (src/cache.py:30-42): the stored list, in stored order. */
    function GetRelatedArtists(id: ArtistID): (r: seq<ArtistID>)
      reads this
      ensures !connected ==> r == []
      ensures connected ==> r == ListAt(lists, id)
    {
      if !connected then [] else ListAt(lists, id)
    }

    /** `RPUSH key x` for each `x` of `items`, in order (the loops of src/cache.py:50-51 and 89-90). */
    method PushAll(key: string, items: seq<string>)
      modifies this`lists
      ensures lists == Pushed(old(lists), key, items)
    {
      for i := 0 to |items|
        invariant lists == Pushed(old(lists), key, items[..i])
      {
        assert items[..i + 1] == items[..i] + [items[i]];
        assert ListAt(old(lists), key) + items[..i + 1] == ListAt(lists, key) + [items[i]];
        lists := lists[key := ListAt(lists, key) + [items[i]]];
        assert lists == old(lists)[key := ListAt(old(lists), key) + items[..i + 1]];
      }
      assert items[..|items|] == items;
    }

    /** `store_related_artists` (src/cache.py:46-54). */
    method StoreRelatedArtists(id: ArtistID, ids: seq<ArtistID>) returns (stored: bool)
      modifies this`lists
      ensures (stored, lists) == StoreListIfAbsent(connected, old(lists), id, ids)
      ensures stored ==> GetRelatedArtists(id) == ids
    {
      if !connected {
        return false;
      }
      if ListAt(lists, id) == [] {
        PushAll(id, ids);
        return true;
      } else {
        return false;
      }
    }

    /** `get_path` (src/cache.py:60-76). */
    function GetPath(a: ArtistID, b: ArtistID): (r: seq<ArtistID>)
      reads this
      ensures !connected ==> r == []
      ensures connected ==> r == ReadPath(lists, a, b)
    {
      if !connected then [] else
      var (lo, hi) := SortedPair(a, b);
      var reverse := hi == a;
      var stored := ListAt(lists, lo + ":" + hi);
      if stored == [] then [] else if reverse then Reversed(stored) else stored
    }

    /** `store_path` (src/cache.py:80-93). */
    method StorePath(a: ArtistID, b: ArtistID, path: seq<ArtistID>) returns (stored: bool)
      modifies this`lists
      ensures (stored, lists) == StoreListIfAbsent(connected, old(lists), PathKey(a, b), Oriented(a, b, path))
      ensures stored ==> GetPath(a, b) == path
      ensures stored && a != b ==> GetPath(b, a) == Reversed(path)
    {
      if !connected {
        return false;
      }
      var (lo, hi) := SortedPair(a, b);
      var p := path;
      if hi == a {
        p := Reversed(p);
      }
      var key := lo + ":" + hi;
      if ListAt(lists, key) == [] {
        PathRoundTrip(old(lists), a, b, path);
        PushAll(key, p);
        return true;
      } else {
        return false;
      }
    }
  }
}
