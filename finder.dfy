/**
 * The loops of src/main.py: `trace_path`, the inner loop that records parent
 * links, one pass of the search loop and `bfs` itself, each proved against
 * the search functions and lemmas of module `Search`.
 */
module Finder {
  import opened Types
  import opened Search

  /**
   * `trace_path` (src/main.py:17-22): the names from `artist1` to `artist2`,
   * each one the recorded parent of the next, `artist1`'s name only at the
   * front.
   */
  method TracePath(artist1: Artist, artist2: Artist, parents: map<string, string>) returns (path: seq<string>)
    requires Traces(parents, artist2.name, artist1.name)
    ensures |path| > 0 && path[0] == artist1.name && path[|path| - 1] == artist2.name
    ensures forall i :: 0 < i < |path| ==> path[i] in parents && parents[path[i]] == path[i - 1]
    ensures forall i :: 0 < i < |path| ==> path[i] != artist1.name
  {
    ghost var n: nat :| ReachesWithin(parents, artist2.name, artist1.name, n);
    path := [artist2.name];
    while path[|path| - 1] != artist1.name
      invariant |path| > 0 && path[0] == artist2.name
      invariant ReachesWithin(parents, path[|path| - 1], artist1.name, n)
      invariant forall i :: 0 <= i < |path| - 1 ==> path[i] in parents && parents[path[i]] == path[i + 1]
      invariant forall i :: 0 <= i < |path| - 1 ==> path[i] != artist1.name
      decreases n
    {
      path := path + [parents[path[|path| - 1]]];
      n := n - 1;
    }
    path := Reversed(path);
  }

  /**
   * The `for a in related_artists` loop of src/main.py:45-48: each related
   * artist's name gets `current`'s name as parent unless it already has one,
   * and every related artist is appended to the queue, duplicates included.
   */
  method RecordRelated(parent: map<string, string>, queue: seq<Artist>, related: seq<Artist>, current: string)
    returns (parent': map<string, string>, queue': seq<Artist>)
    ensures parent' == WithParents(parent, related, current)
    ensures queue' == queue + related
  {
    parent', queue' := parent, queue;
    for i := 0 to |related|
      invariant queue' == queue + related[..i]
      invariant parent' == WithParents(parent, related[..i], current)
    {
      var a := related[i];
      WithParentsSnoc(parent, related, i, current);
      AppendNext(queue, related, i);
      if a.name !in parent' {
        parent' := parent'[a.name := current];
      }
      queue' := queue' + [a];
    }
    assert related[..|related|] == related;
  }

  /**
   * One pass of the search loop (src/main.py:39-49): pop the front artist,
   * stop on the target's id, otherwise expand it unless its id was expanded
   * before. The new loop variables are exactly those `Step` describes.
   */
  method Pass(g: Graph, target: Artist, queue: seq<Artist>, parent: map<string, string>, visited: seq<ArtistID>)
    returns (queue': seq<Artist>, parent': map<string, string>, visited': seq<ArtistID>, found': bool)
    requires queue != []
    ensures LoopState(queue', parent', visited', found') == Step(g, target, LoopState(queue, parent, visited, false))
  {
    var current := queue[0];
    queue', parent', visited', found' := queue[1..], parent, visited, false;
    if current.id == target.id {
      found' := true;
      return;
    }
    // src/main.py:43 looks the artist object up in a list of ids; here the id is looked up (see StepAsWritten)
    if current.id !in visited {
      var related := Related(g, current.id);
      parent', queue' := RecordRelated(parent', queue', related, current.name);
      visited' := visited + [current.id];
    }
  }

  /**
   * The search loop of `bfs` (src/main.py:33-49), from `artist1` alone in the
   * queue until the queue empties or the target's id is popped. On a find the
   * target's name traces back to the source's along sound links and the
   * target is reachable; otherwise it is unreachable.
   */
  method SearchLoop(g: Graph, artist1: Artist, artist2: Artist) returns (parent: map<string, string>, found: bool)
    requires IdsDetermineNames(g, artist1, artist2)
    ensures found ==>
      && Traces(parent, artist2.name, artist1.name)
      && Reachable(g, artist1.id, artist2.id)
      && LinksSound(g, Artists(g, artist1, artist2), parent, artist1.name)
    ensures !found ==> !Reachable(g, artist1.id, artist2.id) && artist1.id != artist2.id
  {
    parent, found := map[], false;
    var queue := [artist1];
    var visited: seq<ArtistID> := [];
    InvStart(g, artist1, artist2);
    while queue != [] && !found
      invariant Inv(g, artist1, artist2, LoopState(queue, parent, visited, found))
      decreases Unexpanded(g, artist1, artist2, visited), |queue|
    {
      ghost var before := LoopState(queue, parent, visited, found);
      StepSound(g, artist1, artist2, before);
      queue, parent, visited, found := Pass(g, artist2, queue, parent, visited);
      if found {
        return;
      }
    }
    ExhaustedMeansUnreachable(g, artist1, artist2, LoopState(queue, parent, visited, found));
  }

  /**
   * `bfs` (src/main.py:32-52): a name path from `artist1` to `artist2` when
   * the target's id can be reached through related artists, `None` when it
   * cannot.
   */
  method Bfs(g: Graph, artist1: Artist, artist2: Artist) returns (r: Option<seq<string>>)
    requires IdsDetermineNames(g, artist1, artist2)
    ensures r.Some? <==> Reachable(g, artist1.id, artist2.id)
    ensures r.Some? ==>
      && |r.value| > 0 && r.value[0] == artist1.name && r.value[|r.value| - 1] == artist2.name
      && forall i :: 0 < i < |r.value| ==> NameEdge(g, Artists(g, artist1, artist2), r.value[i - 1], r.value[i])
    ensures artist1.id == artist2.id ==> r == Some([artist1.name])
  {
    var parent, found := SearchLoop(g, artist1, artist2);
    if found {
      var path := TracePath(artist1, artist2, parent);
      TracedPathFollowsEdges(g, artist1, artist2, parent, path);
      r := Some(path);
    } else {
      r := None;
    }
  }
}
