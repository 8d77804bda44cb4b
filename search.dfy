/**
 * The single-direction breadth-first search of src/main.py: `bfs` walks the
 * "related artists" graph from `artist1` with a FIFO queue until it dequeues
 * an artist whose id is `artist2`'s, recording for each newly seen display
 * name the name of the artist it was first seen from; `trace_path` then
 * follows those parent links back from `artist2`'s name to `artist1`'s.
 *
 * The provider's `related_artists()` call is replaced by a fixed, finite
 * neighbour map from artist id to the ordered list of related artists.
 */
module Search {
  import opened Types

  /** The related-artists relation, as the provider would answer it. */
  type Graph = map<ArtistID, seq<Artist>>

  /** `artist.related_artists()` for the artist with this id; none for an unknown id. */
  function Related(g: Graph, id: ArtistID): seq<Artist>
  {
    if id in g then g[id] else []
  }

  // ---------------------------------------------------------------------
  // Graph vocabulary
  // ---------------------------------------------------------------------

  /** Every artist a search between `source` and `target` can meet. */
  ghost function Artists(g: Graph, source: Artist, target: Artist): set<Artist>
  {
    {source, target} + set k, a | k in g && a in g[k] :: a
  }

  /** The ids of a set of artists. */
  ghost function Ids(s: set<Artist>): set<ArtistID>
  {
    set a | a in s :: a.id
  }

  /** The ids of the artists waiting in a queue. */
  ghost function QueuedIds(q: seq<Artist>): set<ArtistID>
  {
    set a | a in q :: a.id
  }

  /**
   * The data the provider hands out is consistent: two artist objects with
   * the same id carry the same display name.
   */
  ghost predicate IdsDetermineNames(g: Graph, source: Artist, target: Artist)
  {
    forall a, b :: a in Artists(g, source, target) && b in Artists(g, source, target) && a.id == b.id ==> a.name == b.name
  }

  /** Some artist related to the artist with id `x` has id `y`. */
  ghost predicate Linked(g: Graph, x: ArtistID, y: ArtistID)
  {
    exists b :: b in Related(g, x) && b.id == y
  }

  /** A non-empty sequence of ids, each related to the one before. */
  ghost predicate IsWalk(g: Graph, w: seq<ArtistID>)
  {
    |w| > 0 && forall i :: 0 < i < |w| ==> Linked(g, w[i - 1], w[i])
  }

  /** There is a walk from id `x` to id `y`. */
  ghost predicate Reachable(g: Graph, x: ArtistID, y: ArtistID)
  {
    exists w :: IsWalk(g, w) && w[0] == x && w[|w| - 1] == y
  }

  /** Some artist of `known` named `x` has a related artist named `y`. */
  ghost predicate NameEdge(g: Graph, known: set<Artist>, x: string, y: string)
  {
    exists a, b :: a in known && b in Related(g, a.id) && a.name == x && b.name == y
  }

  /** No id occurs twice. */
  predicate Distinct(s: seq<ArtistID>)
  {
    forall i, j :: 0 <= i < j < |s| ==> s[i] != s[j]
  }

  // ---------------------------------------------------------------------
  // Parent links
  // ---------------------------------------------------------------------

  /** Following `parent` from `x` reaches `root` in at most `n` links. */
  predicate ReachesWithin(parent: map<string, string>, x: string, root: string, n: nat)
    decreases n
  {
    x == root || (n > 0 && x in parent && ReachesWithin(parent, parent[x], root, n - 1))
  }

  /** Following `parent` from `x` reaches `root`. */
  ghost predicate Traces(parent: map<string, string>, x: string, root: string)
  {
    exists n: nat :: ReachesWithin(parent, x, root, n)
  }

  /** Adding parent links never breaks a chain that already reaches the root. */
  lemma {:induction false} ReachesWithinKept(p: map<string, string>, q: map<string, string>, x: string, root: string, n: nat)
    requires ReachesWithin(p, x, root, n)
    requires forall m :: m in p ==> m in q && q[m] == p[m]
    ensures ReachesWithin(q, x, root, n)
    decreases n
  {
    if x != root {
      ReachesWithinKept(p, q, p[x], root, n - 1);
    }
  }

  /**
   * The parent updates of one expansion (src/main.py:45-47): each related
   * artist whose name has no parent yet gets the expanded artist's name;
   * names that already have one keep it.
   */
  function WithParents(parent: map<string, string>, related: seq<Artist>, from: string): (r: map<string, string>)
    ensures forall m :: m in parent ==> m in r && r[m] == parent[m]
    ensures forall m :: m in r && m !in parent ==> r[m] == from
    ensures forall a :: a in related ==> a.name in r
    ensures forall m :: m in r && m !in parent ==> exists a :: a in related && a.name == m
  {
    if related == [] then parent
    else
      var q := WithParents(parent, related[..|related| - 1], from);
      var a := related[|related| - 1];
      assert forall b :: b in related ==> b in related[..|related| - 1] || b == a;
      if a.name in q then q else q[a.name := from]
  }

  /** Recording one more related artist: its name gets a link unless it has one. */
  lemma WithParentsSnoc(parent: map<string, string>, related: seq<Artist>, i: nat, from: string)
    requires i < |related|
    ensures var q := WithParents(parent, related[..i], from);
      WithParents(parent, related[..i + 1], from) == if related[i].name in q then q else q[related[i].name := from]
  {
    assert related[..i + 1][..i] == related[..i];
  }

  // ---------------------------------------------------------------------
  // One iteration of the search loop
  // ---------------------------------------------------------------------

  /** The variables of `bfs`: `queue`, `parent`, `visited` and `found`. */
  datatype LoopState = LoopState(queue: seq<Artist>, parent: map<string, string>, visited: seq<ArtistID>, found: bool)

  /** The start state: only `artist1` queued, nothing recorded. */
  function Start(source: Artist): LoopState
  {
    LoopState([source], map[], [], false)
  }

  /** Expanding `cur` after it has been popped, leaving `rest` queued (src/main.py:44-49). */
  function Expand(g: Graph, s: LoopState, cur: Artist, rest: seq<Artist>): LoopState
  {
    var related := Related(g, cur.id);
    LoopState(rest + related, WithParents(s.parent, related, cur.name), s.visited + [cur.id], s.found)
  }

  /**
   * One pass of the `while` loop of src/main.py:38-49, with the visited test
   * of line 43 read as "the current artist's id has been expanded".
   */
  function Step(g: Graph, target: Artist, s: LoopState): (r: LoopState)
    requires s.queue != [] && !s.found
    ensures |r.queue| >= |s.queue| - 1
    // FIFO: the artists behind the front keep their places, the related ones join at the back
    ensures r.queue[..|s.queue| - 1] == s.queue[1..]
    ensures r.visited != s.visited ==> r.queue[|s.queue| - 1..] == Related(g, s.queue[0].id)
    ensures r.visited == s.visited ==> |r.queue| == |s.queue| - 1 && r.parent == s.parent
    // the search stops exactly on an artist with the target's id
    ensures r.found <==> s.queue[0].id == target.id
    // first writer wins, and every new link points at the expanded artist
    ensures forall m :: m in s.parent ==> m in r.parent && r.parent[m] == s.parent[m]
    ensures forall m :: m in r.parent && m !in s.parent ==> r.parent[m] == s.queue[0].name
    // a pass expands exactly when the popped id is neither the target's nor expanded before (the id test)
    ensures r.visited != s.visited <==> s.queue[0].id != target.id && s.queue[0].id !in s.visited
    ensures r.visited != s.visited ==> r.parent == WithParents(s.parent, Related(g, s.queue[0].id), s.queue[0].name)
    // an expansion adds exactly the expanded id, which had not been expanded before
    ensures r.visited == s.visited || (r.visited == s.visited + [s.queue[0].id] && s.queue[0].id !in s.visited)
    ensures Distinct(s.visited) ==> Distinct(r.visited)
  {
    var cur := s.queue[0];
    var rest := s.queue[1..];
    if cur.id == target.id then s.(queue := rest, found := true)
    else if cur.id in s.visited then s.(queue := rest)
    else Expand(g, s, cur, rest)
  }

  // ---------------------------------------------------------------------
  // The loop invariant and its preservation
  // ---------------------------------------------------------------------

  /**
   * Every link of `parent` follows a related-artist edge out of an artist of
   * `known`, and leads back to `root`.
   */
  ghost predicate LinksSound(g: Graph, known: set<Artist>, parent: map<string, string>, root: string)
  {
    && (forall m :: m in parent ==> NameEdge(g, known, parent[m], m))
    && (forall m :: m in parent ==> Traces(parent, m, root))
  }

  /** What holds at the head of the search loop. */
  ghost predicate Inv(g: Graph, source: Artist, target: Artist, s: LoopState)
  {
    && !s.found
    && (forall a :: a in s.queue ==> a in Artists(g, source, target))
    && (forall v :: v in s.visited ==> v in Ids(Artists(g, source, target)))
    && Distinct(s.visited)
    && target.id !in s.visited
    && (source.id in s.visited || source.id in QueuedIds(s.queue))
    && (forall v, b :: v in s.visited && b in Related(g, v) ==> b.id in s.visited || b.id in QueuedIds(s.queue))
    && (forall a :: a in s.queue ==> Reachable(g, source.id, a.id))
    && (forall a :: a in s.queue ==> a.name == source.name || a.name in s.parent)
    && LinksSound(g, Artists(g, source, target), s.parent, source.name)
  }

  /** How many ids the search can still expand. */
  ghost function Unexpanded(g: Graph, source: Artist, target: Artist, visited: seq<ArtistID>): nat
  {
    |Ids(Artists(g, source, target)) - (set v | v in visited)|
  }

  lemma InvStart(g: Graph, source: Artist, target: Artist)
    ensures Inv(g, source, target, Start(source))
  {
    var s := Start(source);
    assert source.id in QueuedIds(s.queue);
    assert IsWalk(g, [source.id]);
  }

  /** A walk extended by one related artist is a walk. */
  lemma WalkExtend(g: Graph, w: seq<ArtistID>, b: Artist)
    requires IsWalk(g, w) && b in Related(g, w[|w| - 1])
    ensures IsWalk(g, w + [b.id]) && (w + [b.id])[0] == w[0]
  {
    var w' := w + [b.id];
    forall i | 0 < i < |w'|
      ensures Linked(g, w'[i - 1], w'[i])
    {
      if i < |w| {
        assert w'[i - 1] == w[i - 1] && w'[i] == w[i];
      } else {
        assert w'[i - 1] == w[|w| - 1];
      }
    }
  }

  /** The parent links stay sound when one expansion adds its links. */
  lemma {:induction false} LinksSoundExpand(g: Graph, known: set<Artist>, parent: map<string, string>, root: string, cur: Artist)
    requires LinksSound(g, known, parent, root)
    requires cur in known
    requires cur.name == root || cur.name in parent
    ensures LinksSound(g, known, WithParents(parent, Related(g, cur.id), cur.name), root)
  {
    var related := Related(g, cur.id);
    var q := WithParents(parent, related, cur.name);
    var n: nat :| ReachesWithin(parent, cur.name, root, n);
    ReachesWithinKept(parent, q, cur.name, root, n);
    forall m | m in q
      ensures NameEdge(g, known, q[m], m) && Traces(q, m, root)
    {
      if m in parent {
        var k: nat :| ReachesWithin(parent, m, root, k);
        ReachesWithinKept(parent, q, m, root, k);
      } else {
        var b :| b in related && b.name == m;
        assert b in Related(g, cur.id) && cur.name == q[m];
        assert ReachesWithin(q, m, root, n + 1);
      }
    }
  }

  /** Everything queued after one pass was queued before or is related to the popped artist. */
  lemma StepQueueFrom(g: Graph, target: Artist, s: LoopState)
    requires s.queue != [] && !s.found
    ensures var r := Step(g, target, s);
      forall a :: a in r.queue ==> a in s.queue || (r.visited != s.visited && a in Related(g, s.queue[0].id))
  {
    var r := Step(g, target, s);
    forall a | a in r.queue
      ensures a in s.queue || (r.visited != s.visited && a in Related(g, s.queue[0].id))
    {
      var k :| 0 <= k < |r.queue| && r.queue[k] == a;
      if k < |s.queue| - 1 {
        assert a == s.queue[1..][k];
      } else {
        assert r.visited != s.visited;
        assert a == r.queue[|s.queue| - 1..][k - (|s.queue| - 1)];
      }
    }
  }

  /** The artists queued by one pass are all artists of the search. */
  lemma StepQueueKnown(g: Graph, source: Artist, target: Artist, s: LoopState)
    requires s.queue != [] && !s.found
    requires forall a :: a in s.queue ==> a in Artists(g, source, target)
    ensures forall a :: a in Step(g, target, s).queue ==> a in Artists(g, source, target)
  {
    var cur := s.queue[0];
    StepQueueFrom(g, target, s);
    forall a | a in Related(g, cur.id)
      ensures a in Artists(g, source, target)
    {
      assert cur.id in g && a in g[cur.id];
    }
  }

  /** The artists queued by one pass can all be reached from the source. */
  lemma StepQueueReachable(g: Graph, source: Artist, target: Artist, s: LoopState)
    requires s.queue != [] && !s.found
    requires forall a :: a in s.queue ==> Reachable(g, source.id, a.id)
    ensures forall a :: a in Step(g, target, s).queue ==> Reachable(g, source.id, a.id)
  {
    var cur := s.queue[0];
    StepQueueFrom(g, target, s);
    var w :| IsWalk(g, w) && w[0] == source.id && w[|w| - 1] == cur.id;
    forall a | a in Related(g, cur.id)
      ensures Reachable(g, source.id, a.id)
    {
      WalkExtend(g, w, a);
    }
  }

  /** The artists queued by one pass all have a parent link, or are the source. */
  lemma StepQueueNamed(g: Graph, source: Artist, target: Artist, s: LoopState)
    requires s.queue != [] && !s.found
    requires forall a :: a in s.queue ==> a.name == source.name || a.name in s.parent
    ensures var r := Step(g, target, s);
      forall a :: a in r.queue ==> a.name == source.name || a.name in r.parent
  {
    var cur := s.queue[0];
    var r := Step(g, target, s);
    StepQueueFrom(g, target, s);
    if r.visited != s.visited {
      assert r.parent == WithParents(s.parent, Related(g, cur.id), cur.name);
    }
  }

  /** What a pass keeps queued: the rest of the queue and, after an expansion, every related artist. */
  lemma StepQueueKeeps(g: Graph, target: Artist, s: LoopState)
    requires s.queue != [] && !s.found
    ensures var r := Step(g, target, s);
      && (forall a :: a in s.queue && a != s.queue[0] ==> a in r.queue)
      && (r.visited != s.visited ==> forall b :: b in Related(g, s.queue[0].id) ==> b in r.queue)
  {
    var r := Step(g, target, s);
    forall a | a in s.queue && a != s.queue[0] ensures a in r.queue {
      var k :| 0 <= k < |s.queue| && s.queue[k] == a;
      assert r.queue[k - 1] == a;
    }
    if r.visited != s.visited {
      forall b | b in Related(g, s.queue[0].id) ensures b in r.queue {
        assert b in r.queue[|s.queue| - 1..];
      }
    }
  }

  /** After one pass every related artist of an expanded id is expanded or queued, the source included. */
  lemma StepKeepsClosure(g: Graph, source: Artist, target: Artist, s: LoopState)
    requires s.queue != [] && !s.found && s.queue[0].id != target.id
    requires source.id in s.visited || source.id in QueuedIds(s.queue)
    requires forall v, b :: v in s.visited && b in Related(g, v) ==> b.id in s.visited || b.id in QueuedIds(s.queue)
    ensures var r := Step(g, target, s);
      && (source.id in r.visited || source.id in QueuedIds(r.queue))
      && (forall v, b :: v in r.visited && b in Related(g, v) ==> b.id in r.visited || b.id in QueuedIds(r.queue))
  {
    var cur := s.queue[0];
    var r := Step(g, target, s);
    StepQueueKeeps(g, target, s);
    assert cur.id in r.visited;
    forall v, b | v in r.visited && b in Related(g, v) && b.id !in r.visited
      ensures b.id in QueuedIds(r.queue)
    {
      if v == cur.id && r.visited != s.visited {
        assert b in r.queue;
      } else {
        var a :| a in s.queue && a.id == b.id;
        assert a in r.queue;
      }
    }
    if source.id !in r.visited {
      var a :| a in s.queue && a.id == source.id;
      assert a in r.queue;
    }
  }

  /** One pass of the loop that does not find the target keeps the invariant. */
  lemma StepKeepsInv(g: Graph, source: Artist, target: Artist, s: LoopState)
    requires Inv(g, source, target, s) && s.queue != [] && s.queue[0].id != target.id
    ensures Inv(g, source, target, Step(g, target, s))
  {
    var cur := s.queue[0];
    assert cur in Artists(g, source, target);
    StepQueueKnown(g, source, target, s);
    StepQueueReachable(g, source, target, s);
    StepQueueNamed(g, source, target, s);
    StepKeepsClosure(g, source, target, s);
    if cur.id !in s.visited {
      LinksSoundExpand(g, Artists(g, source, target), s.parent, source.name, cur);
    }
  }

  /** Each pass that does not find the target expands a new id or shortens the queue. */
  lemma StepDecreases(g: Graph, source: Artist, target: Artist, s: LoopState)
    requires s.queue != [] && !s.found && s.queue[0] in Artists(g, source, target)
    ensures var r := Step(g, target, s);
      || Unexpanded(g, source, target, r.visited) < Unexpanded(g, source, target, s.visited)
      || (r.visited == s.visited && |r.queue| < |s.queue|)
  {
    var r := Step(g, target, s);
    var cur := s.queue[0];
    if r.visited != s.visited {
      var all := Ids(Artists(g, source, target));
      var before := set v | v in s.visited;
      var after := set v | v in r.visited;
      assert cur.id in all;
      assert after == before + {cur.id};
      FewerLeft(all, before, cur.id);
    }
  }

  /** Taking one more member out of a finite set leaves fewer behind. */
  lemma FewerLeft(all: set<ArtistID>, done: set<ArtistID>, x: ArtistID)
    requires x in all && x !in done
    ensures |all - (done + {x})| < |all - done|
  {
    assert all - (done + {x}) == (all - done) - {x};
  }

  /** Popping an artist with the target's id leaves links that trace the target back to the source. */
  lemma FoundTraces(g: Graph, source: Artist, target: Artist, s: LoopState)
    requires Inv(g, source, target, s) && s.queue != [] && s.queue[0].id == target.id
    requires IdsDetermineNames(g, source, target)
    ensures Traces(s.parent, target.name, source.name)
    ensures Reachable(g, source.id, target.id)
    ensures LinksSound(g, Artists(g, source, target), s.parent, source.name)
  {
    var cur := s.queue[0];
    assert cur in Artists(g, source, target);
    assert cur.name == target.name;
    if cur.name == source.name {
      assert ReachesWithin(s.parent, target.name, source.name, 0);
    }
  }

  /**
   * One pass of the loop, from a state that keeps the invariant: either it
   * pops the target, which is then reachable and traced back to the source,
   * or it keeps the invariant and lowers the termination measure.
   */
  lemma StepSound(g: Graph, source: Artist, target: Artist, s: LoopState)
    requires Inv(g, source, target, s) && s.queue != []
    requires IdsDetermineNames(g, source, target)
    ensures var r := Step(g, target, s);
      if r.found then
        && Traces(r.parent, target.name, source.name)
        && Reachable(g, source.id, target.id)
        && LinksSound(g, Artists(g, source, target), r.parent, source.name)
      else
        && Inv(g, source, target, r)
        && (|| Unexpanded(g, source, target, r.visited) < Unexpanded(g, source, target, s.visited)
            || (r.visited == s.visited && |r.queue| < |s.queue|))
  {
    if s.queue[0].id == target.id {
      FoundTraces(g, source, target, s);
    } else {
      StepKeepsInv(g, source, target, s);
      StepDecreases(g, source, target, s);
    }
  }

  /** Walks never leave an id set closed under the related-artists relation. */
  lemma {:induction false} ClosedSetKeepsWalks(g: Graph, closed: set<ArtistID>, w: seq<ArtistID>)
    requires IsWalk(g, w) && w[0] in closed
    requires forall v, b :: v in closed && b in Related(g, v) ==> b.id in closed
    ensures w[|w| - 1] in closed
    decreases |w|
  {
    if |w| > 1 {
      var w' := w[..|w| - 1];
      forall i | 0 < i < |w'| ensures Linked(g, w'[i - 1], w'[i]) {
        assert w'[i - 1] == w[i - 1] && w'[i] == w[i];
      }
      ClosedSetKeepsWalks(g, closed, w');
      assert Linked(g, w[|w| - 2], w[|w| - 1]);
    }
  }

  /** An empty queue under the invariant means the target cannot be reached. */
  lemma ExhaustedMeansUnreachable(g: Graph, source: Artist, target: Artist, s: LoopState)
    requires Inv(g, source, target, s) && s.queue == []
    ensures !Reachable(g, source.id, target.id)
    ensures source.id != target.id
  {
    var closed := set v | v in s.visited;
    if w :| IsWalk(g, w) && w[0] == source.id && w[|w| - 1] == target.id {
      ClosedSetKeepsWalks(g, closed, w);
    }
    assert IsWalk(g, [source.id]);
  }

  /**
   * A path traced through sound parent links follows related-artist edges,
   * and between two artists with one id it is that artist's name alone.
   */
  lemma TracedPathFollowsEdges(g: Graph, source: Artist, target: Artist, parent: map<string, string>, path: seq<string>)
    requires LinksSound(g, Artists(g, source, target), parent, source.name)
    requires IdsDetermineNames(g, source, target)
    requires |path| > 0 && path[0] == source.name && path[|path| - 1] == target.name
    requires forall i :: 0 < i < |path| ==> path[i] in parent && parent[path[i]] == path[i - 1]
    requires forall i :: 0 < i < |path| ==> path[i] != source.name
    ensures forall i :: 0 < i < |path| ==> NameEdge(g, Artists(g, source, target), path[i - 1], path[i])
    ensures source.id == target.id ==> path == [source.name]
  {
    forall i | 0 < i < |path|
      ensures NameEdge(g, Artists(g, source, target), path[i - 1], path[i])
    {
      assert path[i] in parent;
    }
    if source.id == target.id {
      assert source in Artists(g, source, target) && target in Artists(g, source, target);
      assert source.name == target.name;
    }
  }

  // ---------------------------------------------------------------------
  // The visited test as written
  // ---------------------------------------------------------------------

  /**
   * One pass of the loop with the test of src/main.py:43 as written: the
   * popped artist object is looked up in `visited`, which holds id strings,
   * so it is never found there and every popped artist is expanded again.
   */
  function StepAsWritten(g: Graph, target: Artist, s: LoopState): (r: LoopState)
    requires s.queue != [] && !s.found
    ensures r.found || |r.visited| == |s.visited| + 1
  {
    var cur := s.queue[0];
    var rest := s.queue[1..];
    if cur.id == target.id then s.(queue := rest, found := true)
    else Expand(g, s, cur, rest)
  }

  /** At most `n` passes of the as-written loop, stopping when its guard fails. */
  function RunAsWritten(g: Graph, target: Artist, s: LoopState, n: nat): LoopState
    decreases n
  {
    if n == 0 || s.queue == [] || s.found then s
    else RunAsWritten(g, target, StepAsWritten(g, target, s), n - 1)
  }

  /** Two artists related to each other, and a third that neither of them reaches. */
  const CycleA := Artist("a", "A")
  const CycleB := Artist("b", "B")
  const Outside := Artist("c", "C")

  function TwoCycle(): Graph
  {
    map["a" := [CycleB], "b" := [CycleA]]
  }

  /** On the two-artist cycle the as-written loop only ever swaps one queued artist for the other. */
  lemma {:induction false} AsWrittenCycles(s: LoopState, n: nat)
    requires !s.found && (s.queue == [CycleA] || s.queue == [CycleB])
    ensures var t := RunAsWritten(TwoCycle(), Outside, s, n);
      !t.found && (t.queue == [CycleA] || t.queue == [CycleB])
    decreases n
  {
    if n > 0 {
      AsWrittenCycles(StepAsWritten(TwoCycle(), Outside, s), n - 1);
    }
  }

  /** As written, a search for an unreachable artist from inside a cycle never ends. */
  lemma AsWrittenNeverStops(n: nat)
    ensures var t := RunAsWritten(TwoCycle(), Outside, Start(CycleA), n);
      t.queue != [] && !t.found
  {
    AsWrittenCycles(Start(CycleA), n);
  }

  /** With the id test the same search empties its queue after three passes. */
  lemma ByIdStopsOnCycle()
    ensures var s1 := Step(TwoCycle(), Outside, Start(CycleA));
      && s1.queue == [CycleB] && !s1.found
      && var s2 := Step(TwoCycle(), Outside, s1);
      && s2.queue == [CycleA] && !s2.found
      && Step(TwoCycle(), Outside, s2).queue == []
  {
    var s1 := Step(TwoCycle(), Outside, Start(CycleA));
    assert Related(TwoCycle(), "a") == [CycleB];
    var s2 := Step(TwoCycle(), Outside, s1);
    assert Related(TwoCycle(), "b") == [CycleA];
    assert s2.visited == ["a", "b"];
  }
}
