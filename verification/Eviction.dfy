/** Disk eviction of the cache: oldest files first, until the total is under the threshold. */
module Eviction {
  import opened Wrappers
  import opened Lists
  import opened Torrents

  type Path = seq<string>

  /** `blocks` counts 512-byte blocks on disk; a directory has some too. */
  datatype Node = Node(path: Path, isFile: bool, hasExtension: bool, blocks: nat, atime: nat)

  const MIN_AGE := 300

  function Size(n: Node): nat { n.blocks * 512 }

  function Total(nodes: seq<Node>): nat { if nodes == [] then 0 else Size(nodes[0]) + Total(nodes[1..]) }

  predicate ByAge(nodes: seq<Node>) { forall i, j :: 0 <= i < j < |nodes| ==> nodes[i].atime <= nodes[j].atime }

  /** Behind the nodes that are as old or older. */
  function Placed(n: Node, sorted: seq<Node>): seq<Node> {
    if sorted == [] || n.atime < sorted[0].atime then [n] + sorted else [sorted[0]] + Placed(n, sorted[1..])
  }

  /** A stable sort, oldest first. */
  function SortedByAge(nodes: seq<Node>): seq<Node> {
    if nodes == [] then [] else Placed(nodes[|nodes| - 1], SortedByAge(nodes[..|nodes| - 1]))
  }

  lemma {:induction false} PlacedKeeps(n: Node, sorted: seq<Node>)
    ensures multiset(Placed(n, sorted)) == multiset(sorted) + multiset{n}
    ensures Total(Placed(n, sorted)) == Size(n) + Total(sorted)
  {
    if sorted != [] && n.atime >= sorted[0].atime {
      var rest := Placed(n, sorted[1..]);
      PlacedKeeps(n, sorted[1..]);
      hide Placed, Size;
      assert sorted == [sorted[0]] + sorted[1..] && ([sorted[0]] + rest)[1..] == rest;
    } else {
      assert ([n] + sorted)[1..] == sorted;
    }
  }

  lemma PlacedHas(n: Node, sorted: seq<Node>, x: Node)
    ensures x in Placed(n, sorted) <==> x == n || x in sorted
  {
    PlacedKeeps(n, sorted);
    hide Placed;
    assert x in Placed(n, sorted) <==> x in multiset(Placed(n, sorted));
  }

  lemma {:induction false} PlacedByAge(n: Node, sorted: seq<Node>)
    requires ByAge(sorted)
    ensures ByAge(Placed(n, sorted))
  {
    if sorted != [] && n.atime >= sorted[0].atime {
      var rest := Placed(n, sorted[1..]);
      PlacedByAge(n, sorted[1..]);
      forall x | x in rest ensures sorted[0].atime <= x.atime { PlacedHas(n, sorted[1..], x); }
      hide Placed;
    }
  }

  lemma OneMore(nodes: seq<Node>)
    requires nodes != []
    ensures var init, n := nodes[..|nodes| - 1], nodes[|nodes| - 1];
      multiset(nodes) == multiset(init) + multiset{n} && Total(nodes) == Total(init) + Size(n)
  {
    var init, n := nodes[..|nodes| - 1], nodes[|nodes| - 1];
    assert nodes == init + [n];
    TotalConcat(init, [n]);
  }

  lemma {:induction false} SortedMeaning(nodes: seq<Node>)
    ensures var r := SortedByAge(nodes);
      ByAge(r) && multiset(r) == multiset(nodes) && Total(r) == Total(nodes)
  {
    hide Placed, ByAge, Size, Total;
    if nodes == [] {
      assert SortedByAge(nodes) == nodes;
      NoneByAge();
    } else {
      var init, n := nodes[..|nodes| - 1], nodes[|nodes| - 1];
      SortedMeaning(init);
      PlacedByAge(n, SortedByAge(init));
      PlacedKeeps(n, SortedByAge(init));
      OneMore(nodes);
    }
  }

  function AgedAt(a: nat): Node -> bool { (n: Node) => n.atime == a }

  /** Nodes of one age keep their order: with the order by age this leaves one result only. */
  lemma {:induction false} SortIsStable(nodes: seq<Node>, a: nat)
    ensures Filtered(SortedByAge(nodes), AgedAt(a)) == Filtered(nodes, AgedAt(a))
  {
    if nodes != [] {
      var init, n := nodes[..|nodes| - 1], nodes[|nodes| - 1];
      assert nodes == init + [n];
      SortIsStable(init, a);
      SortedMeaning(init);
      PlacedIsStable(n, SortedByAge(init), a);
      FilteredConcat(init, [n], AgedAt(a));
      hide Placed, Filtered, AgedAt;
    }
  }

  lemma {:induction false} PlacedIsStable(n: Node, sorted: seq<Node>, a: nat)
    requires ByAge(sorted)
    ensures Filtered(Placed(n, sorted), AgedAt(a)) == Filtered(sorted, AgedAt(a)) + Filtered([n], AgedAt(a))
  {
    hide ByAge, Filtered, AgedAt;
    if sorted == [] {
      assert Placed(n, sorted) == [] + [n];
      FilteredConcat([], [n], AgedAt(a));
    } else if n.atime < sorted[0].atime {
      FilteredConcat([n], sorted, AgedAt(a));
      OlderNode(n, sorted, a);
    } else {
      var first, rest := [sorted[0]], sorted[1..];
      TailByAge(sorted);
      PlacedIsStable(n, rest, a);
      FilteredConcat(first, Placed(n, rest), AgedAt(a));
      FilteredConcat(first, rest, AgedAt(a));
      assert sorted == first + rest && Placed(n, sorted) == first + Placed(n, rest);
    }
  }

  lemma TailByAge(sorted: seq<Node>)
    requires ByAge(sorted) && sorted != []
    ensures ByAge(sorted[1..]) && forall x | x in sorted :: sorted[0].atime <= x.atime
  {}

  lemma OlderNode(n: Node, sorted: seq<Node>, a: nat)
    requires sorted != [] && ByAge(sorted) && n.atime < sorted[0].atime
    ensures var before, one := Filtered(sorted, AgedAt(a)), Filtered([n], AgedAt(a)); one + before == before + one
  {
    FilteredOne(n, AgedAt(a));
    TailByAge(sorted);
    var before := Filtered(sorted, AgedAt(a));
    if before != [] { assert before[0] in before; }
    assert before == [] || n.atime != a;
  }

  lemma NoneByAge()
    ensures ByAge([]) && Total([]) == 0
  {}

  lemma SortedHas(nodes: seq<Node>)
    ensures forall x :: x in SortedByAge(nodes) <==> x in nodes
  {
    SortedMeaning(nodes);
    hide SortedByAge;
    forall x ensures x in SortedByAge(nodes) <==> x in nodes {
      assert x in SortedByAge(nodes) <==> x in multiset(SortedByAge(nodes));
      assert x in nodes <==> x in multiset(nodes);
    }
  }

  lemma {:induction false} TotalConcat(a: seq<Node>, b: seq<Node>)
    ensures Total(a + b) == Total(a) + Total(b)
  {
    if a == [] {
      assert a + b == b;
    } else {
      assert (a + b)[1..] == a[1..] + b;
      TotalConcat(a[1..], b);
    }
  }

  /** What the walk takes: an entry two levels below the cache directory whose name has no extension. */
  predicate Candidate(n: Node) { |n.path| == 2 && !n.hasExtension }

  function Candidates(nodes: seq<Node>): seq<Node> { Filtered(nodes, Candidate) }

  lemma TotalFrom(nodes: seq<Node>, i: nat)
    requires i < |nodes|
    ensures Total(nodes[i..]) == Size(nodes[i]) + Total(nodes[i + 1..])
  {
    assert nodes[i..][1..] == nodes[i + 1..];
  }

  lemma TotalPushed(nodes: seq<Node>, n: Node)
    ensures Total(nodes + [n]) == Total(nodes) + Size(n)
    ensures forall k | 0 <= k <= |nodes| :: Total((nodes + [n])[..k]) == Total(nodes[..k])
  {
    TotalConcat(nodes, [n]);
    forall k | 0 <= k <= |nodes| ensures (nodes + [n])[..k] == nodes[..k] {}
  }

  /** `n` is a file that may go, and goes. */
  predicate Goes(n: Node, now: nat, pinned: set<Path>, removes: Node -> bool) {
    n.path !in pinned && n.atime + MIN_AGE <= now && n.isFile && removes(n)
  }

  /** All of `seen` that can go went, in order of age, while the rest was over the threshold. */
  ghost predicate Evicted(seen: seq<Node>, removed: seq<Node>, limit: int, now: nat, pinned: set<Path>,
                          removes: Node -> bool)
  {
    && ByAge(removed)
    && (forall n :: n in removed <==> n in seen && Goes(n, now, pinned, removes))
    && (forall k | 0 <= k < |removed| :: Total(removed[..k]) < limit)
  }

  lemma OneGoes(seen: seq<Node>, n: Node, removed: seq<Node>, limit: int, now: nat, pinned: set<Path>,
                removes: Node -> bool)
    requires Evicted(seen, removed, limit, now, pinned, removes) && ByAge(seen + [n])
    ensures !Goes(n, now, pinned, removes) ==> Evicted(seen + [n], removed, limit, now, pinned, removes)
    ensures Goes(n, now, pinned, removes) && Total(removed) < limit ==>
      Evicted(seen + [n], removed + [n], limit, now, pinned, removes)
  {
    TotalPushed(removed, n);
    hide Goes, Total;
    forall x | x in seen ensures x.atime <= n.atime {
      var i :| 0 <= i < |seen| && seen[i] == x;
      assert (seen + [n])[i] == x && (seen + [n])[|seen|] == n;
    }
  }

  /** `nodes` is the tree below the cache directory; `removes` is what deleting a file comes to, and a
      directory is never deleted. Evicts oldest first, never a pinned or young entry, no more than
      needed, and, unless it got under the threshold, all that it could. */
  method EvictDiskLru(nodes: seq<Node>, threshold: nat, now: nat, pinned: set<Path>, removes: Node -> bool)
    returns (removed: seq<Node>)
    ensures forall n | n in removed ::
      && n in nodes && |n.path| == 2 && !n.hasExtension
      && n.isFile && n.path !in pinned && n.atime + MIN_AGE <= now && removes(n)
    ensures ByAge(removed)
    ensures Total(removed) <= Total(Candidates(nodes))
    ensures forall k | 0 <= k < |removed| :: Total(removed[..k]) + threshold < Total(Candidates(nodes))
    ensures Total(Candidates(nodes)) > threshold + Total(removed) ==>
      forall n | n in nodes && Candidate(n) && Goes(n, now, pinned, removes) :: n in removed
  {
    var candidates, total := Gather(nodes);
    removed := [];
    NoneByAge();
    if total <= threshold { return; }
    var order := SortedByAge(candidates);
    SortedMeaning(candidates);
    SortedHas(candidates);
    hide SortedByAge, Candidates, Candidate, Goes, ByAge, Total, Size;
    removed := EvictInOrder(order, total, threshold, now, pinned, removes);
    forall n | n in removed ensures
      && n in nodes && |n.path| == 2 && !n.hasExtension
      && n.isFile && n.path !in pinned && n.atime + MIN_AGE <= now && removes(n)
    {
      GoneMeaning(n, now, pinned, removes);
    }
  }

  lemma GoneMeaning(n: Node, now: nat, pinned: set<Path>, removes: Node -> bool)
    requires Candidate(n) && Goes(n, now, pinned, removes)
    ensures |n.path| == 2 && !n.hasExtension
    ensures n.isFile && n.path !in pinned && n.atime + MIN_AGE <= now && removes(n)
  {}

  lemma OneMoreNode(nodes: seq<Node>, i: nat)
    requires i < |nodes|
    ensures var n, before := nodes[i], Candidates(nodes[..i]);
      && Candidates(nodes[..i + 1]) == (if Candidate(n) then before + [n] else before)
      && Total(before + [n]) == Total(before) + n.blocks * 512
  {
    assert nodes[..i + 1] == nodes[..i] + [nodes[i]];
    FilteredConcat(nodes[..i], [nodes[i]], Candidate);
    FilteredOne(nodes[i], Candidate);
    TotalConcat(Candidates(nodes[..i]), [nodes[i]]);
    hide Filtered, Candidate;
  }

  /** The walk: what it takes, and how much that is. */
  method Gather(nodes: seq<Node>) returns (candidates: seq<Node>, total: nat)
    ensures candidates == Candidates(nodes) && total == Total(candidates)
  {
    candidates, total := [], 0;
    for i := 0 to |nodes|
      invariant candidates == Candidates(nodes[..i]) && total == Total(candidates)
    {
      var n := nodes[i];
      OneMoreNode(nodes, i);
      hide Candidates, Total;
      if |n.path| == 2 && !n.hasExtension {
        candidates := candidates + [n];
        total := total + n.blocks * 512;
      }
    }
    assert nodes[..|nodes|] == nodes;
  }

  /** The loop over the candidates, oldest first. */
  method EvictInOrder(order: seq<Node>, total: nat, threshold: nat, now: nat, pinned: set<Path>,
                      removes: Node -> bool) returns (removed: seq<Node>)
    requires ByAge(order) && total == Total(order)
    ensures Total(removed) <= total
    ensures exists i | 0 <= i <= |order| ::
      && Evicted(order[..i], removed, total - threshold, now, pinned, removes)
      && (i < |order| ==> total <= threshold + Total(removed))
  {
    removed := [];
    NoneByAge();
    assert order[..0] == [] && order[0..] == order && order[..|order|] == order;
    assert Evicted([], [], total - threshold, now, pinned, removes);
    var freed := 0;
    for i := 0 to |order|
      invariant freed == Total(removed) && freed + Total(order[i..]) <= total
      invariant Evicted(order[..i], removed, total - threshold, now, pinned, removes)
    {
      hide Evicted, Goes, ByAge, Total, Size;
      var n := order[i];
      TotalFrom(order, i);
      if total - freed <= threshold { return; }
      assert order[..i + 1] == order[..i] + [n];
      PrefixByAge(order, i + 1);
      OneGoes(order[..i], n, removed, total - threshold, now, pinned, removes);
      TotalPushed(removed, n);
      var gone := TryRemove(n, now, pinned, removes);
      if gone {
        removed := removed + [n];
        freed := freed + Size(n);
      }
    }
  }

  /** An entry that is open stays, a young one stays, and a directory cannot be removed as a file. */
  method TryRemove(n: Node, now: nat, pinned: set<Path>, removes: Node -> bool) returns (gone: bool)
    ensures gone == Goes(n, now, pinned, removes)
  {
    if n.path in pinned { return false; }
    var idle := if now < n.atime then 0 else now - n.atime;
    if idle < MIN_AGE { return false; }
    return n.isFile && removes(n);
  }

  lemma PrefixByAge(order: seq<Node>, i: nat)
    requires ByAge(order) && i <= |order|
    ensures ByAge(order[..i])
  {}

  // ----- Where cache files are -----

  predicate InRun(s: string) { s != "" && s[|s| - 1] != '/' }

  /** One more character: a slash ends the run, anything else goes on with it or starts one. */
  function Extended(before: seq<string>, inRun: bool, c: char): seq<string>
    requires inRun ==> before != []
  {
    if c == '/' then before
    else if inRun then before[..|before| - 1] + [before[|before| - 1] + [c]]
    else before + [[c]]
  }

  /** Components of a relative path: the runs between slashes. */
  function Components(s: string): (r: seq<string>)
    ensures InRun(s) ==> r != []
  {
    if s == "" then [] else Extended(Components(s[..|s| - 1]), InRun(s[..|s| - 1]), s[|s| - 1])
  }

  lemma ExtendedJoin(a: seq<string>, b: seq<string>, inRun: bool, c: char)
    requires inRun ==> b != []
    ensures Extended(a + b, inRun, c) == a + Extended(b, inRun, c)
  {
    if inRun { assert (a + b)[..|a + b| - 1] == a + b[..|b| - 1]; }
  }

  lemma {:induction false} ComponentsJoin(a: string, b: string)
    ensures Components(a + "/" + b) == Components(a) + Components(b)
  {
    var s := a + "/" + b;
    if b == "" {
      assert s[..|s| - 1] == a;
    } else {
      var init := b[..|b| - 1];
      assert s[..|s| - 1] == a + "/" + init && s[|s| - 1] == b[|b| - 1];
      assert InRun(a + "/" + init) == InRun(init);
      ComponentsJoin(a, init);
      hide Extended;
      ExtendedJoin(Components(a), Components(init), InRun(init), b[|b| - 1]);
    }
  }

  /** Where a walk along `parts` comes to: "." stays, ".." climbs, and above the top it is lost. */
  function Walked(parts: seq<string>): Option<Path> {
    if parts == [] then Some([])
    else
      var before, last := Walked(parts[..|parts| - 1]), parts[|parts| - 1];
      if before.None? || last == "." then before
      else if last == ".." then if before.value == [] then None else Some(before.value[..|before.value| - 1])
      else Some(before.value + [last])
  }

  predicate IsAbsolute(path: string) { path != "" && path[0] == '/' }

  /** Where the cache keeps a torrent's file, below the cache directory; an absolute key leads out of it. */
  function CachePath(hash: string, name: string, filename: string): Option<Path> {
    var key := AccessKey(hash, name);
    if IsAbsolute(key) then None
    else
      var dir := Walked(Components(key));
      if dir.None? then None else Some(dir.value + [filename])
  }

  /** The walk goes two levels deep, but an access key already has a component for the hash and one
      for the name: the file of a torrent is within reach if and only if hash and name together lead to
      a single directory, as with an empty name or one that is ".", and its name has no extension. */
  lemma ReachOfEviction(n: Node, hash: string, name: string, filename: string)
    requires CachePath(hash, name, filename) == Some(n.path)
    ensures var dir := Walked(Components(hash) + Components(name));
      dir.Some? && (Candidate(n) <==> |dir.value| == 1 && !n.hasExtension)
  {
    ComponentsJoin(hash, name);
  }

  /** One ordinary component. */
  predicate Plain(s: string) {
    s != "" && s[0] != '/' && |Components(s)| == 1 && Components(s)[0] != "." && Components(s)[0] != ".."
  }

  /** With an ordinary hash and name the file lies three levels deep, and eviction never finds it. */
  lemma PlainFilesAreOutOfReach(n: Node, hash: string, name: string, filename: string)
    requires Plain(hash) && Plain(name)
    ensures CachePath(hash, name, filename) == Some([Components(hash)[0], Components(name)[0], filename])
    ensures CachePath(hash, name, filename) == Some(n.path) ==> !Candidate(n)
  {
    ComponentsJoin(hash, name);
    var h, m := Components(hash)[0], Components(name)[0];
    assert Walked([]) == Some([]);
    var key := AccessKey(hash, name);
    assert key == hash + "/" + name && key[0] == hash[0] && !IsAbsolute(key);
    hide Components, Walked, AccessKey, IsAbsolute;
    WalkedOn([], h);
    WalkedOn([h], m);
    assert [] + [h] == [h] && [h] + [m] == [h, m];
    assert Components(hash) == [h] && Components(name) == [m];
    assert Walked(Components(key)) == Some([h, m]);
    assert [h, m] + [filename] == [h, m, filename];
  }

  lemma WalkedOn(parts: seq<string>, next: string)
    requires Walked(parts).Some? && next != "." && next != ".."
    ensures Walked(parts + [next]) == Some(Walked(parts).value + [next])
  {
    assert (parts + [next])[..|parts|] == parts;
  }
}
