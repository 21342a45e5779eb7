/** src/sentinel.cpp: the accounts that look like one person, gathered into groups for the report. */
module Sentinel {

  // ---------------------------------------------------------------- the forest

  /** parent leads every account, by smaller and smaller ranks, to the root of its group, which is its own parent. */
  ghost predicate Forest(parent: seq<nat>, rank: seq<nat>, root: seq<nat>) {
    && |parent| == |rank| == |root|
    && (forall i | 0 <= i < |parent| :: parent[i] < |parent| && root[i] < |parent|)
    && (forall i | 0 <= i < |parent| :: parent[i] == i <==> root[i] == i)
    && (forall i | 0 <= i < |parent| :: root[parent[i]] == root[i] && root[root[i]] == root[i])
    && (forall i | 0 <= i < |parent| && parent[i] != i :: rank[parent[i]] < rank[i])
  }

  /** Halving a step of the path leaves every root where it was. */
  lemma Halved(parent: seq<nat>, rank: seq<nat>, root: seq<nat>, index: nat)
    requires Forest(parent, rank, root) && index < |parent| && parent[index] != index
    ensures Forest(parent[index := parent[parent[index]]], rank, root)
  {
    var above := parent[index];
    assert parent[above] != index;
  }

  /** Where a step up leads. */
  lemma StepUp(parent: seq<nat>, rank: seq<nat>, root: seq<nat>, index: nat)
    requires Forest(parent, rank, root) && index < |parent|
    ensures |rank| == |root| == |parent|
    ensures parent[index] < |parent| && root[index] < |parent|
    ensures parent[index] == index <==> root[index] == index
    ensures root[parent[index]] == root[index] == root[root[index]]
    ensures parent[index] != index ==> rank[parent[index]] < rank[index]
  {
  }

  /** root: the way up, each step halved for whoever comes after. */
  method FindRoot(parent: array<nat>, start: nat, ghost rank: seq<nat>, ghost root: seq<nat>) returns (index: nat)
    requires Forest(parent[..], rank, root) && start < parent.Length
    modifies parent
    ensures Forest(parent[..], rank, root)
    ensures start < |root| && index == root[start] < parent.Length
  {
    hide Forest;
    index := start;
    StepUp(parent[..], rank, root, index);
    while parent[index] != index
      invariant Forest(parent[..], rank, root)
      invariant start < |root| == |rank| == parent.Length
      invariant index < parent.Length && root[index] == root[start]
      decreases rank[index]
    {
      StepUp(parent[..], rank, root, index);
      StepUp(parent[..], rank, root, parent[index]);
      Halved(parent[..], rank, root, index);
      ghost var before := parent[..];
      var above := parent[parent[index]];
      parent[index] := above;
      assert parent[..] == before[index := above];
      index := above;
    }
    StepUp(parent[..], rank, root, index);
  }

  /** The roots once two groups are one, and ranks that fit. */
  ghost function Joined(root: seq<nat>, from: nat, to: nat): (joined: seq<nat>)
    ensures |joined| == |root|
    ensures forall i | 0 <= i < |root| :: joined[i] == if root[i] == from then to else root[i]
  {
    seq(|root|, i requires 0 <= i < |root| => if root[i] == from then to else root[i])
  }

  ghost function Lifted(rank: seq<nat>, root: seq<nat>, from: nat, lift: nat): (lifted: seq<nat>)
    requires |rank| == |root|
    ensures |lifted| == |rank|
    ensures forall i | 0 <= i < |rank| :: lifted[i] == if root[i] == from then rank[i] + lift else rank[i]
  {
    seq(|rank|, i requires 0 <= i < |rank| => if root[i] == from then rank[i] + lift else rank[i])
  }

  lemma Hangs(parent: seq<nat>, rank: seq<nat>, root: seq<nat>, from: nat, to: nat)
    requires Forest(parent, rank, root) && from < |parent| && to < |parent|
    requires root[from] == from && root[to] == to && from != to
    ensures Forest(parent[from := to], Lifted(rank, root, from, rank[to] + 1), Joined(root, from, to))
  {
  }

  lemma JoinedSame(root: seq<nat>, to: nat)
    ensures Joined(root, to, to) == root
  {
  }

  // ---------------------------------------------------------------- one person behind several names

  /** Two accounts, the first one listed first, that look like one person. */
  datatype Pair = Pair(left: nat, right: nat)

  ghost predicate Step(pairs: seq<Pair>, one: nat, other: nat) {
    Pair(one, other) in pairs || Pair(other, one) in pairs
  }

  ghost predicate Chain(pairs: seq<Pair>, path: seq<nat>) {
    path != [] && forall k | 0 < k < |path| :: Step(pairs, path[k - 1], path[k])
  }

  ghost predicate Joins(pairs: seq<Pair>, path: seq<nat>, one: nat, other: nat) {
    Chain(pairs, path) && path[0] == one && path[|path| - 1] == other
  }

  /** A chain of pairs leads from one to the other. */
  ghost predicate Connected(pairs: seq<Pair>, one: nat, other: nat) {
    exists path :: Joins(pairs, path, one, other)
  }

  lemma ConnectedSelf(pairs: seq<Pair>, one: nat)
    ensures Connected(pairs, one, one)
  {
    assert Joins(pairs, [one], one, one);
  }

  lemma ConnectedOn(pairs: seq<Pair>, one: nat, between: nat, other: nat)
    requires Connected(pairs, one, between) && Connected(pairs, between, other)
    ensures Connected(pairs, one, other)
  {
    var p: seq<nat> :| Joins(pairs, p, one, between);
    var q: seq<nat> :| Joins(pairs, q, between, other);
    assert Joins(pairs, p + q[1..], one, other);
  }

  lemma ConnectedBack(pairs: seq<Pair>, one: nat, other: nat)
    requires Connected(pairs, one, other)
    ensures Connected(pairs, other, one)
  {
    var p: seq<nat> :| Joins(pairs, p, one, other);
    var n := |p|;
    var q := seq(n, k requires 0 <= k < n => p[n - 1 - k]);
    forall k | 0 < k < n
      ensures Step(pairs, q[k - 1], q[k])
    {
      assert Step(pairs, p[n - k - 1], p[n - k]);
    }
    assert Joins(pairs, q, other, one);
  }

  lemma ConnectedStill(pairs: seq<Pair>, pair: Pair, one: nat, other: nat)
    requires Connected(pairs, one, other)
    ensures Connected(pairs + [pair], one, other)
  {
    var p: seq<nat> :| Joins(pairs, p, one, other);
    assert Joins(pairs + [pair], p, one, other);
  }

  lemma ConnectedPair(pairs: seq<Pair>, pair: Pair)
    requires pair in pairs
    ensures Connected(pairs, pair.left, pair.right)
  {
    assert Joins(pairs, [pair.left, pair.right], pair.left, pair.right);
  }

  /** The roots are those of the groups the pairs make: each pair is of one root, and whoever has the same root is connected. */
  ghost predicate Gathers(root: seq<nat>, pairs: seq<Pair>) {
    && (forall k | 0 <= k < |pairs| :: pairs[k].left < |root| && pairs[k].right < |root|
                                       && root[pairs[k].left] == root[pairs[k].right])
    && (forall i: nat, j: nat | i < |root| && j < |root| && root[i] == root[j] :: Connected(pairs, i, j))
  }

  /** One pair more: its two groups are one. */
  lemma GathersMore(root: seq<nat>, pairs: seq<Pair>, pair: Pair)
    requires Gathers(root, pairs) && pair.left < |root| && pair.right < |root|
    requires forall i | 0 <= i < |root| :: root[i] < |root| && root[root[i]] == root[i]
    ensures Gathers(Joined(root, root[pair.left], root[pair.right]), pairs + [pair])
  {
    hide Connected;
    var joined, more := Joined(root, root[pair.left], root[pair.right]), pairs + [pair];
    ConnectedPair(more, pair);
    ConnectedBack(more, pair.left, pair.right);
    forall i: nat, j: nat | i < |root| && j < |root| && joined[i] == joined[j]
      ensures Connected(more, i, j)
    {
      if root[i] in {root[pair.left], root[pair.right]} {
        var a := if root[i] == root[pair.left] then pair.left else pair.right;
        var b := if root[j] == root[pair.left] then pair.left else pair.right;
        assert root[i] == root[a] && root[j] == root[b];
        ConnectedStill(pairs, pair, i, a);
        ConnectedStill(pairs, pair, b, j);
        ConnectedSelf(more, a);
        ConnectedOn(more, i, a, b);
        ConnectedOn(more, i, b, j);
      } else {
        ConnectedStill(pairs, pair, i, j);
      }
    }
  }

  /** Two accounts have the same root exactly when a chain of pairs joins them. */
  lemma {:induction false} RootsAreGroups(root: seq<nat>, pairs: seq<Pair>, one: nat, other: nat)
    requires Gathers(root, pairs) && one < |root| && other < |root|
    ensures root[one] == root[other] <==> Connected(pairs, one, other)
  {
    if Connected(pairs, one, other) {
      var path: seq<nat> :| Joins(pairs, path, one, other);
      ChainOfOne(root, pairs, path);
    }
  }

  lemma {:induction false} ChainOfOne(root: seq<nat>, pairs: seq<Pair>, path: seq<nat>)
    requires Gathers(root, pairs) && Chain(pairs, path) && path[0] < |root|
    ensures path[|path| - 1] < |root| && root[path[|path| - 1]] == root[path[0]]
  {
    if |path| > 1 {
      var before := path[..|path| - 1];
      ChainOfOne(root, pairs, before);
      assert Step(pairs, path[|path| - 2], path[|path| - 1]);
    }
  }

  // ---------------------------------------------------------------- the groups of the report

  /** All pairs of accounts, the first one listed first, with points enough. */
  ghost predicate Lists(pairs: seq<Pair>, alike: (nat, nat) -> bool, left: nat, right: nat, n: nat) {
    && (forall k | 0 <= k < |pairs| :: pairs[k].left < pairs[k].right < n && alike(pairs[k].left, pairs[k].right))
    && (forall a: nat, b: nat | a < b < n && alike(a, b) && (a < left || (a == left && b < right)) :: Pair(a, b) in pairs)
    && (forall j, k | 0 <= j < k < |pairs| :: pairs[j] != pairs[k])
    && (forall k | 0 <= k < |pairs| :: pairs[k].left < left || (pairs[k].left == left && pairs[k].right < right))
  }

  /** What the two loops keep: the forest of the pairs listed so far. */
  ghost predicate Gathered(parent: seq<nat>, rank: seq<nat>, root: seq<nat>, pairs: seq<Pair>) {
    Forest(parent, rank, root) && Gathers(root, pairs)
  }

  lemma NothingGathered(n: nat)
    ensures Gathered(seq(n, i => i), seq(n, _ => 0), seq(n, i => i), [])
  {
    forall i: nat, j: nat | i < n && j < n && i == j
      ensures Connected([], i, j)
    {
      ConnectedSelf([], i);
    }
  }

  /** parent[root(left)] = root(right). */
  lemma GatheredMore(parent: seq<nat>, rank: seq<nat>, root: seq<nat>, pairs: seq<Pair>, left: nat, right: nat)
    returns (rank': seq<nat>, root': seq<nat>)
    requires Gathered(parent, rank, root, pairs) && left < |parent| && right < |parent|
    ensures left < |root| && right < |root| && root[left] < |parent| && root[right] < |parent|
    ensures Gathered(parent[root[left] := root[right]], rank', root', pairs + [Pair(left, right)])
  {
    hide Gathers;
    StepUp(parent, rank, root, left);
    StepUp(parent, rank, root, right);
    GathersMore(root, pairs, Pair(left, right));
    var from, to := root[left], root[right];
    root' := Joined(root, from, to);
    if from != to {
      Hangs(parent, rank, root, from, to);
      rank' := Lifted(rank, root, from, rank[to] + 1);
    } else {
      JoinedSame(root, to);
      assert parent[to] == to;
      assert parent[from := to] == parent;
      rank' := rank;
    }
  }

  lemma ForestOf(parent: seq<nat>, rank: seq<nat>, root: seq<nat>, pairs: seq<Pair>)
    ensures Gathered(parent, rank, root, pairs) <==> Forest(parent, rank, root) && Gathers(root, pairs)
  {
  }

  /** The two loops over the accounts: each pair alike enough makes one group of two. */
  method Gather(n: nat, alike: (nat, nat) -> bool)
    returns (parent: array<nat>, pairs: seq<Pair>, ghost rank: seq<nat>, ghost root: seq<nat>)
    ensures fresh(parent) && parent.Length == n
    ensures Gathered(parent[..], rank, root, pairs)
    ensures Lists(pairs, alike, n, 0, n)
  {
    hide Gathered; hide Lists; hide Forest; hide Gathers;
    parent := new nat[n](i => i);
    rank, root, pairs := seq(n, _ => 0), seq(n, i => i), [];
    assert parent[..] == seq(n, i => i);
    NothingGathered(n);
    ListsNone(alike, n);
    var left := 0;
    while left < n
      invariant left <= n
      invariant Gathered(parent[..], rank, root, pairs)
      invariant Lists(pairs, alike, left, 0, n)
    {
      ListsRow(pairs, alike, left, n);
      var right := left + 1;
      while right < n
        invariant left < right <= n
        invariant Gathered(parent[..], rank, root, pairs)
        invariant Lists(pairs, alike, left, right, n)
      {
        if alike(left, right) {
          ForestOf(parent[..], rank, root, pairs);
          var to := FindRoot(parent, right, rank, root);
          var from := FindRoot(parent, left, rank, root);
          ForestOf(parent[..], rank, root, pairs);
          ghost var before := parent[..];
          parent[from] := to;
          assert parent[..] == before[from := to];
          rank, root := GatheredMore(before, rank, root, pairs, left, right);
          ListsOne(pairs, alike, left, right, n);
          pairs := pairs + [Pair(left, right)];
        } else {
          ListsNot(pairs, alike, left, right, n);
        }
        right := right + 1;
      }
      ListsNext(pairs, alike, left, n);
      left := left + 1;
    }
  }

  lemma ListsNone(alike: (nat, nat) -> bool, n: nat)
    ensures Lists([], alike, 0, 0, n)
  {
  }

  lemma ListsRow(pairs: seq<Pair>, alike: (nat, nat) -> bool, left: nat, n: nat)
    requires Lists(pairs, alike, left, 0, n)
    ensures Lists(pairs, alike, left, left + 1, n)
  {
  }

  lemma ListsNext(pairs: seq<Pair>, alike: (nat, nat) -> bool, left: nat, n: nat)
    requires Lists(pairs, alike, left, n, n)
    ensures Lists(pairs, alike, left + 1, 0, n)
  {
  }

  lemma ListsNot(pairs: seq<Pair>, alike: (nat, nat) -> bool, left: nat, right: nat, n: nat)
    requires Lists(pairs, alike, left, right, n) && !alike(left, right)
    ensures Lists(pairs, alike, left, right + 1, n)
  {
  }

  lemma ListsOne(pairs: seq<Pair>, alike: (nat, nat) -> bool, left: nat, right: nat, n: nat)
    requires Lists(pairs, alike, left, right, n) && left < right < n && alike(left, right)
    ensures Lists(pairs + [Pair(left, right)], alike, left, right + 1, n)
  {
  }

  /** One paragraph of the report: who is in the group, and the pairs that made it one. */
  datatype Group = Group(members: seq<nat>, pairs: seq<Pair>)

  predicate Occurs(pairs: seq<Pair>, one: nat) {
    exists k :: 0 <= k < |pairs| && (pairs[k].left == one || pairs[k].right == one)
  }

  ghost predicate Ascending(list: seq<nat>) {
    forall j, k | 0 <= j < k < |list| :: list[j] < list[k]
  }

  /** The members of a group filed under its root, as often as they come in its pairs. */
  ghost predicate Files(filed: map<nat, seq<nat>>, root: seq<nat>, pairs: seq<Pair>) {
    && (forall g | g in filed :: forall one: nat :: one in filed[g] <==> one < |root| && root[one] == g && Occurs(pairs, one))
    && (forall one: nat | one < |root| && Occurs(pairs, one) :: root[one] in filed)
  }

  function UnderRoot(filed: map<nat, seq<nat>>, g: nat): seq<nat> {
    if g in filed then filed[g] else []
  }

  lemma FilesMore(filed: map<nat, seq<nat>>, root: seq<nat>, pairs: seq<Pair>, pair: Pair)
    requires Files(filed, root, pairs) && pair.left < |root| && pair.right < |root| && root[pair.left] == root[pair.right]
    ensures var g := root[pair.left];
            Files(filed[g := UnderRoot(filed, g) + [pair.left, pair.right]], root, pairs + [pair])
  {
    var more := pairs + [pair];
    forall one: nat
      ensures Occurs(more, one) <==> Occurs(pairs, one) || one == pair.left || one == pair.right
    {
      assert more[|pairs|] == pair;
      if Occurs(pairs, one) {
        var k :| 0 <= k < |pairs| && (pairs[k].left == one || pairs[k].right == one);
        assert more[k] == pairs[k];
      }
    }
  }

  /** The pairs of one root, in their order. */
  function PairsUnder(root: seq<nat>, pairs: seq<Pair>, g: nat): (under: seq<Pair>)
    requires forall k | 0 <= k < |pairs| :: pairs[k].left < |root|
    ensures forall pair :: pair in under <==> pair in pairs && root[pair.left] == g
  {
    if pairs == [] then [] else
    var last, before := pairs[|pairs| - 1], PairsUnder(root, pairs[..|pairs| - 1], g);
    if root[last.left] == g then before + [last] else before
  }

  /** std::sort and std::unique: each member once, in ascending order. */
  method SortedUnique(list: seq<nat>) returns (sorted: seq<nat>)
    ensures Ascending(sorted)
    ensures forall one: nat :: one in sorted <==> one in list
  {
    sorted := [];
    for k := 0 to |list|
      invariant Ascending(sorted)
      invariant forall one: nat :: one in sorted <==> one in list[..k]
    {
      var at := 0;
      while at < |sorted| && sorted[at] < list[k]
        invariant at <= |sorted|
        invariant forall j | 0 <= j < at :: sorted[j] < list[k]
      {
        at := at + 1;
      }
      ghost var before := sorted;
      assert before == before[..at] + before[at..];
      assert list[..k + 1] == list[..k] + [list[k]];
      if at == |sorted| || sorted[at] != list[k] {
        sorted := sorted[..at] + [list[k]] + sorted[at..];
      }
    }
    assert list[..|list|] == list;
  }

  /** A group of the report is all there is under one root: its members, each once, and its pairs. */
  ghost predicate IsGroup(group: Group, root: seq<nat>, pairs: seq<Pair>, g: nat)
    requires forall k | 0 <= k < |pairs| :: pairs[k].left < |root|
  {
    && Ascending(group.members)
    && (forall one: nat :: one in group.members <==> one < |root| && root[one] == g && Occurs(pairs, one))
    && group.pairs == PairsUnder(root, pairs, g)
  }

  /** The groups told so far: one for every root that has any, in the order of the roots. */
  ghost predicate Tells(groups: seq<Group>, keys: seq<nat>, root: seq<nat>, pairs: seq<Pair>, upTo: nat)
    requires forall k | 0 <= k < |pairs| :: pairs[k].left < |root|
  {
    && |keys| == |groups| && Ascending(keys)
    && (forall j | 0 <= j < |keys| :: keys[j] < upTo && IsGroup(groups[j], root, pairs, keys[j]))
    && (forall one: nat | one < |root| && Occurs(pairs, one) && root[one] < upTo :: root[one] in keys)
  }

  /** What the report promises of its groups: two accounts are told together exactly when a chain of pairs joins them, and
      each pair is told in one group only, the one of its accounts. */
  ghost predicate Told(groups: seq<Group>, pairs: seq<Pair>, n: nat) {
    && (forall one: nat, other: nat | one < n && other < n && one != other ::
          TogetherIn(groups, one, other) <==> Connected(pairs, one, other))
    && (forall pair | pair in pairs :: exists j :: IsListedOnly(groups, pair, j))
    && (forall j | 0 <= j < |groups| :: Ascending(groups[j].members) && forall pair | pair in groups[j].pairs :: pair in pairs)
  }

  ghost predicate TogetherIn(groups: seq<Group>, one: nat, other: nat) {
    exists j :: 0 <= j < |groups| && one in groups[j].members && other in groups[j].members
  }

  ghost predicate IsListedOnly(groups: seq<Group>, pair: Pair, j: int) {
    && 0 <= j < |groups| && pair in groups[j].pairs && pair.left in groups[j].members && pair.right in groups[j].members
    && forall k | 0 <= k < |groups| && k != j :: pair !in groups[k].pairs
  }

  lemma ConnectedOccurs(pairs: seq<Pair>, one: nat, other: nat)
    requires Connected(pairs, one, other) && one != other
    ensures Occurs(pairs, one) && Occurs(pairs, other)
  {
    var path: seq<nat> :| Joins(pairs, path, one, other);
    assert Step(pairs, path[0], path[1]);
    assert Step(pairs, path[|path| - 2], path[|path| - 1]);
  }

  lemma PairOccurs(pairs: seq<Pair>, pair: Pair)
    requires pair in pairs
    ensures Occurs(pairs, pair.left) && Occurs(pairs, pair.right)
  {
  }

  lemma TellsAll(groups: seq<Group>, keys: seq<nat>, root: seq<nat>, pairs: seq<Pair>, n: nat)
    requires Gathers(root, pairs) && |root| == n && Tells(groups, keys, root, pairs, n)
    requires forall i | 0 <= i < n :: root[i] < n
    ensures Told(groups, pairs, n)
  {
    hide Connected; hide Occurs;
    forall one: nat, other: nat | one < n && other < n && one != other
      ensures TogetherIn(groups, one, other) <==> Connected(pairs, one, other)
    {
      RootsAreGroups(root, pairs, one, other);
      if Connected(pairs, one, other) {
        ConnectedOccurs(pairs, one, other);
        var j :| 0 <= j < |keys| && keys[j] == root[one];
        assert IsGroup(groups[j], root, pairs, keys[j]);
      }
      if TogetherIn(groups, one, other) {
        var j :| 0 <= j < |groups| && one in groups[j].members && other in groups[j].members;
        assert IsGroup(groups[j], root, pairs, keys[j]);
      }
    }
    forall pair | pair in pairs
      ensures exists j :: IsListedOnly(groups, pair, j)
    {
      PairOccurs(pairs, pair);
      var j :| 0 <= j < |keys| && keys[j] == root[pair.left];
      assert IsGroup(groups[j], root, pairs, keys[j]);
      forall k | 0 <= k < |groups| && k != j
        ensures pair !in groups[k].pairs
      {
        assert IsGroup(groups[k], root, pairs, keys[k]);
      }
      assert IsListedOnly(groups, pair, j);
    }
    forall j | 0 <= j < |groups|
      ensures Ascending(groups[j].members) && forall pair | pair in groups[j].pairs :: pair in pairs
    {
      assert IsGroup(groups[j], root, pairs, keys[j]);
    }
  }

  /** The part of report that tells the groups. */
  method Report(n: nat, alike: (nat, nat) -> bool) returns (groups: seq<Group>, pairs: seq<Pair>)
    ensures Lists(pairs, alike, n, 0, n)
    ensures Told(groups, pairs, n)
  {
    hide Gathered; hide Gathers; hide Lists; hide Forest; hide Files; hide Tells; hide IsGroup; hide Told; hide Occurs; hide PairsUnder;
    var parent: array<nat>;
    ghost var rank: seq<nat>, root: seq<nat>;
    parent, pairs, rank, root := Gather(n, alike);
    ForestOf(parent[..], rank, root, pairs);
    PairsFit(parent[..], rank, root, pairs);
    var filed: map<nat, seq<nat>> := map[];
    FilesNone(root);
    for k := 0 to |pairs|
      invariant Forest(parent[..], rank, root)
      invariant Files(filed, root, pairs[..k])
    {
      var g := FindRoot(parent, pairs[k].left, rank, root);
      FilesMore(filed, root, pairs[..k], pairs[k]);
      assert pairs[..k] + [pairs[k]] == pairs[..k + 1];
      filed := filed[g := UnderRoot(filed, g) + [pairs[k].left, pairs[k].right]];
    }
    assert pairs[..|pairs|] == pairs;
    groups := [];
    ghost var keys: seq<nat> := [];
    TellsNone(root, pairs);
    for g := 0 to n
      invariant Forest(parent[..], rank, root)
      invariant Tells(groups, keys, root, pairs, g)
    {
      if g in filed {
        var members := SortedUnique(filed[g]);
        var told := [];
        PairsUnderNone(root, g);
        for k := 0 to |pairs|
          invariant Forest(parent[..], rank, root)
          invariant told == PairsUnder(root, pairs[..k], g)
        {
          var group := FindRoot(parent, pairs[k].left, rank, root);
          PairsUnderMore(root, pairs, k, g);
          if group == g {
            told := told + [pairs[k]];
          }
        }
        assert pairs[..|pairs|] == pairs;
        GroupTold(filed, root, pairs, g, members);
        TellsMore(groups, keys, root, pairs, g, Group(members, told));
        groups := groups + [Group(members, told)];
        keys := keys + [g];
      } else {
        TellsNobody(groups, keys, root, pairs, g, filed);
      }
    }
    TellsAll(groups, keys, root, pairs, n);
  }

  lemma PairsFit(parent: seq<nat>, rank: seq<nat>, root: seq<nat>, pairs: seq<Pair>)
    requires Gathered(parent, rank, root, pairs)
    ensures |root| == |parent| && forall i | 0 <= i < |root| :: root[i] < |root|
    ensures forall k | 0 <= k < |pairs| :: pairs[k].left < |root| && pairs[k].right < |root|
                                          && root[pairs[k].left] == root[pairs[k].right]
  {
  }

  lemma FilesNone(root: seq<nat>)
    ensures Files(map[], root, [])
  {
  }

  lemma TellsNone(root: seq<nat>, pairs: seq<Pair>)
    requires forall k | 0 <= k < |pairs| :: pairs[k].left < |root|
    ensures Tells([], [], root, pairs, 0)
  {
  }

  lemma PairsUnderNone(root: seq<nat>, g: nat)
    ensures PairsUnder(root, [], g) == []
  {
  }

  lemma PairsUnderMore(root: seq<nat>, pairs: seq<Pair>, k: nat, g: nat)
    requires k < |pairs| && forall j | 0 <= j < |pairs| :: pairs[j].left < |root|
    ensures PairsUnder(root, pairs[..k + 1], g)
         == if root[pairs[k].left] == g then PairsUnder(root, pairs[..k], g) + [pairs[k]] else PairsUnder(root, pairs[..k], g)
  {
    assert pairs[..k + 1][..k] == pairs[..k];
  }

  lemma GroupTold(filed: map<nat, seq<nat>>, root: seq<nat>, pairs: seq<Pair>, g: nat, members: seq<nat>)
    requires Files(filed, root, pairs) && g in filed && Ascending(members)
    requires forall one: nat :: one in members <==> one in filed[g]
    requires forall k | 0 <= k < |pairs| :: pairs[k].left < |root|
    ensures IsGroup(Group(members, PairsUnder(root, pairs, g)), root, pairs, g)
  {
    hide Occurs; hide PairsUnder; hide Ascending;
    assert forall one: nat :: one in members <==> one < |root| && root[one] == g && Occurs(pairs, one);
  }

  lemma TellsMore(groups: seq<Group>, keys: seq<nat>, root: seq<nat>, pairs: seq<Pair>, g: nat, group: Group)
    requires forall k | 0 <= k < |pairs| :: pairs[k].left < |root|
    requires Tells(groups, keys, root, pairs, g) && IsGroup(group, root, pairs, g)
    ensures Tells(groups + [group], keys + [g], root, pairs, g + 1)
  {
    hide Occurs; hide IsGroup;
  }

  lemma TellsNobody(groups: seq<Group>, keys: seq<nat>, root: seq<nat>, pairs: seq<Pair>, g: nat, filed: map<nat, seq<nat>>)
    requires forall k | 0 <= k < |pairs| :: pairs[k].left < |root|
    requires Tells(groups, keys, root, pairs, g) && Files(filed, root, pairs) && g !in filed
    ensures Tells(groups, keys, root, pairs, g + 1)
  {
    hide Occurs; hide IsGroup;
  }

  // ---------------------------------------------------------------- sitting

  const PAUSE := 15 * 60

  /** A sitting begins with the first act, after a pause, and after an act at the instant zero, which stands for none at all. */
  predicate Begins(acts: seq<int>, k: int)
    requires 0 <= k < |acts|
  {
    k == 0 || acts[k - 1] == 0 || acts[k] - acts[k - 1] >= PAUSE
  }

  /** He played from one act to another without a pause. */
  ghost predicate Sits(acts: seq<int>, from: int, to: int) {
    0 <= from <= to < |acts| && forall k | from < k <= to :: !Begins(acts, k)
  }

  /** How far back he sits at an act: to the first one after the last pause. */
  ghost predicate SitsDown(acts: seq<int>, start: int, to: int) {
    Sits(acts, start, to) && Begins(acts, start)
  }

  /** A sitting does not begin before the last pause. */
  lemma NoEarlier(acts: seq<int>, start: int, from: int, to: int)
    requires SitsDown(acts, start, to) && Sits(acts, from, to)
    ensures start <= from
  {
  }

  ghost predicate InTime(acts: seq<int>) {
    forall j, k | 0 <= j <= k < |acts| :: acts[j] <= acts[k]
  }

  /** He sits on without a pause, or down again after one. */
  lemma SitsOn(acts: seq<int>, start: int, k: int)
    requires 0 <= k < |acts|
    ensures k > 0 && SitsDown(acts, start, k - 1) && !Begins(acts, k) ==> SitsDown(acts, start, k)
    ensures Begins(acts, k) ==> SitsDown(acts, k, k)
  {
  }

  /** Of the sittings up to there, each measured from its first act, one is that long and none longer. */
  ghost predicate IsLongest(acts: seq<int>, longest: int, upTo: int) {
    && (forall start, to | SitsDown(acts, start, to) && to < upTo :: acts[to] - acts[start] <= longest)
    && exists start, to :: SitsDown(acts, start, to) && acts[to] - acts[start] == longest
  }

  lemma FirstSitting(acts: seq<int>)
    requires acts != []
    ensures IsLongest(acts, 0, 1)
  {
    assert SitsDown(acts, 0, 0);
  }

  lemma LongestOn(acts: seq<int>, longest: int, start: int, k: int)
    requires IsLongest(acts, longest, k) && SitsDown(acts, start, k)
    ensures IsLongest(acts, if longest >= acts[k] - acts[start] then longest else acts[k] - acts[start], k + 1)
  {
    forall from | SitsDown(acts, from, k)
      ensures from == start
    {
      NoEarlier(acts, start, from, k);
      NoEarlier(acts, from, start, k);
    }
  }

  /** In the order of time, no stretch of play without a pause is longer than the longest sitting. */
  lemma NoneLonger(acts: seq<int>, longest: int, from: int, to: int)
    requires IsLongest(acts, longest, |acts|) && InTime(acts) && Sits(acts, from, to)
    ensures acts[to] - acts[from] <= longest
  {
    var start := SatDown(acts, to);
    NoEarlier(acts, start, from, to);
  }

  lemma {:induction false} SatDown(acts: seq<int>, to: int) returns (start: int)
    requires 0 <= to < |acts|
    ensures SitsDown(acts, start, to)
  {
    if Begins(acts, to) {
      start := to;
    } else {
      start := SatDown(acts, to - 1);
    }
  }

  /** longest_sitting, over the instants of his acts. */
  method LongestSitting(acts: seq<int>) returns (longest: int)
    ensures acts == [] ==> longest == 0
    ensures acts != [] ==> IsLongest(acts, longest, |acts|)
    ensures InTime(acts) ==> forall from, to | Sits(acts, from, to) :: acts[to] - acts[from] <= longest
  {
    hide IsLongest; hide Sits; hide SitsDown; hide InTime;
    longest := 0;
    var since, last := 0, 0;
    ghost var start := 0;
    for k := 0 to |acts|
      invariant last == if k == 0 then 0 else acts[k - 1]
      invariant k > 0 ==> SitsDown(acts, start, k - 1) && 0 <= start < |acts| && since == acts[start]
      invariant if k > 0 then IsLongest(acts, longest, k) else longest == 0
    {
      SitsOn(acts, start, k);
      if last == 0 || acts[k] - last >= PAUSE {
        since := acts[k];
        start := k;
      }
      last := acts[k];
      if k == 0 {
        FirstSitting(acts);
      } else {
        LongestOn(acts, longest, start, k);
      }
      longest := if longest >= last - since then longest else last - since;
    }
    AllShorter(acts, longest);
  }

  lemma AllShorter(acts: seq<int>, longest: int)
    requires acts != [] ==> IsLongest(acts, longest, |acts|)
    ensures InTime(acts) ==> forall from, to | Sits(acts, from, to) :: acts[to] - acts[from] <= longest
  {
    if InTime(acts) {
      forall from, to | Sits(acts, from, to)
        ensures acts[to] - acts[from] <= longest
      {
        NoneLonger(acts, longest, from, to);
      }
    }
  }
}
