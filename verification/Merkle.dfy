/** The Merkle tree over committed leaves, with odd layers padded by the empty
    node, and its inclusion paths. */
module Merkle {
  import opened Primitives
  import opened Commitments

  datatype StepSide = Left | Right

  datatype Step = Step(side: StepSide, sibling: Digest)

  // ---- Layers, root and path ----

  ghost function NextLayer(layer: seq<Digest>): seq<Digest>
  {
    seq((|layer| + 1) / 2, i requires 0 <= i < (|layer| + 1) / 2 => Parent(layer, i))
  }

  ghost function Parent(layer: seq<Digest>, i: nat): Digest
    requires 2 * i < |layer|
  {
    Node(layer[2 * i], if 2 * i + 1 < |layer| then layer[2 * i + 1] else Empty)
  }

  ghost function Layers(layer: seq<Digest>): seq<seq<Digest>>
    decreases |layer|
  {
    if |layer| <= 1 then [layer] else [layer] + Layers(NextLayer(layer))
  }

  lemma {:induction false} NextIsShorter(layer: seq<Digest>)
    requires |layer| > 1
    ensures 0 < |NextLayer(layer)| < |layer|
  {
  }

  ghost function TopOf(layer: seq<Digest>): Digest
    requires layer != []
    decreases |layer|
  {
    if |layer| == 1 then layer[0] else TopOf(NextLayer(layer))
  }

  ghost function Root(leaves: seq<Digest>): Digest
  {
    if leaves == [] then Empty else TopOf(leaves)
  }

  function StepAt(layer: seq<Digest>, idx: nat): Step
    requires idx < |layer|
  {
    if idx % 2 == 1 then Step(Left, layer[idx - 1])
    else Step(Right, if idx + 1 < |layer| then layer[idx + 1] else Empty)
  }

  ghost function Path(layer: seq<Digest>, idx: nat): seq<Step>
    requires idx < |layer|
    decreases |layer|
  {
    if |layer| == 1 then [] else [StepAt(layer, idx)] + Path(NextLayer(layer), idx / 2)
  }

  function Combine(step: Step, d: Digest): Digest
  {
    if step.side.Left? then Node(step.sibling, d) else Node(d, step.sibling)
  }

  ghost function Fold(path: seq<Step>, d: Digest): Digest
  {
    if path == [] then d else Combine(path[|path|-1], Fold(path[..|path|-1], d))
  }

  lemma {:induction false} FoldFront(path: seq<Step>, d: Digest)
    requires path != []
    ensures Fold(path, d) == Fold(path[1..], Combine(path[0], d))
  {
    if |path| > 1 {
      var n := |path| - 1;
      FoldFront(path[..n], d);
      assert path[1..][..n-1] == path[..n][1..];
    } else {
      assert path[..0] == [] && path[1..] == [];
    }
  }

  // ---- The tree as it is built and queried ----

  class MerkleTree {
    var leaves: seq<Digest>
    var layers: seq<seq<Digest>>

    ghost predicate Valid()
      reads this
    {
      layers == if leaves == [] then [] else Layers(leaves)
    }

    constructor (committed: seq<Digest>)
      ensures Valid() && leaves == committed
    {
      hide NextLayer;
      leaves := committed;
      layers := [];
      new;
      if leaves != [] {
        layers := [leaves];
        var current := leaves;
        while |current| > 1
          invariant current != [] && leaves == committed && layers != []
          invariant layers + Layers(current)[1..] == Layers(leaves)
          decreases |current|
        {
          var next := PairUp(current);
          NextIsShorter(current);
          assert Layers(current)[1..] == Layers(next) == [next] + Layers(next)[1..];
          layers := layers + [next];
          current := next;
        }
        assert Layers(current)[1..] == [];
      }
    }

    static method PairUp(layer: seq<Digest>) returns (next: seq<Digest>)
      ensures next == NextLayer(layer)
    {
      next := [];
      var i := 0;
      while i < |layer|
        invariant i == 2 * |next| && |next| <= (|layer| + 1) / 2
        invariant forall k :: 0 <= k < |next| ==> next[k] == Parent(layer, k)
      {
        if i + 1 < |layer| {
          next := next + [Node(layer[i], layer[i + 1])];
        } else {
          next := next + [Node(layer[i], Empty)];
        }
        i := i + 2;
      }
    }

    method GetRoot() returns (r: Digest)
      requires Valid()
      ensures r == Root(leaves)
    {
      if leaves == [] { return Empty; }
      TopIsLast(leaves);
      return layers[|layers| - 1][0];
    }

    method GenerateProof(leafIndex: nat) returns (r: Option<seq<Step>>)
      requires Valid()
      ensures r == if leafIndex < |leaves| then Some(Path(leaves, leafIndex)) else None
    {
      if leafIndex >= |leaves| { return None; }
      var path: seq<Step> := [];
      var idx: nat := leafIndex;
      var k := 0;
      LayerSuffix(leaves, 0);
      while k + 1 < |layers|
        invariant k < |layers| && layers[k] != [] && idx < |layers[k]|
        invariant layers[k..] == Layers(layers[k])
        invariant path + Path(layers[k], idx) == Path(leaves, leafIndex)
      {
        LayerSuffix(layers[k], 1);
        var layer := layers[k];
        assert |layer| > 1;
        assert layers[k..][1..] == layers[k + 1..] && layers[k..][1] == layers[k + 1];
        assert Path(layer, idx) == [StepAt(layer, idx)] + Path(layers[k + 1], idx / 2);
        path := path + [StepAt(layer, idx)];
        idx := idx / 2;
        k := k + 1;
      }
      LayerSuffix(layers[k], 1);
      assert |layers[k]| == 1;
      assert Path(layers[k], idx) == [] && path + [] == path;
      return Some(path);
    }
  }

  lemma {:induction false} TopIsLast(layer: seq<Digest>)
    requires layer != []
    ensures Layers(layer) != [] && Layers(layer)[|Layers(layer)|-1] != []
    ensures Layers(layer)[|Layers(layer)|-1][0] == TopOf(layer)
    decreases |layer|
  {
    if |layer| > 1 {
      TopIsLast(NextLayer(layer));
    }
  }

  lemma {:induction false} LayerSuffix(layer: seq<Digest>, k: nat)
    requires layer != [] && k <= 1
    ensures Layers(layer)[0] == layer
    ensures k < |Layers(layer)| ==> Layers(layer)[k] != [] && Layers(layer)[k..] == Layers(Layers(layer)[k])
    ensures |Layers(layer)| > 1 <==> |layer| > 1
    ensures |layer| > 1 ==> Layers(layer)[1] == NextLayer(layer)
  {
    if |layer| > 1 {
      assert Layers(NextLayer(layer))[0] == NextLayer(layer);
      assert Layers(layer)[1..] == Layers(NextLayer(layer));
    }
  }

  method VerifyProof(path: seq<Step>, root: Digest, leaf: Digest) returns (ok: bool)
    ensures ok <==> Fold(path, leaf) == root
  {
    var current := leaf;
    for i := 0 to |path|
      invariant current == Fold(path[..i], leaf)
    {
      assert path[..i+1][..i] == path[..i];
      current := Combine(path[i], current);
    }
    assert path[..|path|] == path;
    ok := current == root;
  }

  // ---- Completeness ----

  /** The generated path of every index verifies that leaf against the root. */
  lemma {:induction false} InclusionComplete(leaves: seq<Digest>, idx: nat)
    requires idx < |leaves|
    ensures Fold(Path(leaves, idx), leaves[idx]) == Root(leaves)
    decreases |leaves|
  {
    if |leaves| > 1 {
      var next := NextLayer(leaves);
      InclusionComplete(next, idx / 2);
      var path := Path(leaves, idx);
      FoldFront(path, leaves[idx]);
      assert path[1..] == Path(next, idx / 2);
      assert next[idx / 2] == Combine(path[0], leaves[idx]);
    }
  }

  /** The smallest trees, leaf by leaf. */
  lemma {:induction false} SmallTrees(a: Digest, b: Digest, c: Digest)
    ensures Root([]) == Empty && Root([a]) == a
    ensures Root([a, b]) == Node(a, b)
    ensures Root([a, b, c]) == Node(Node(a, b), Node(c, Empty))
  {
    var pair := [Node(a, b), Node(c, Empty)];
    assert NextLayer([a, b]) == [Node(a, b)];
    assert NextLayer([a, b, c]) == pair && NextLayer(pair) == [Node(pair[0], pair[1])];
    assert TopOf([Node(a, b)]) == Node(a, b) && TopOf([Node(pair[0], pair[1])]) == Node(pair[0], pair[1]);
    assert TopOf(pair) == TopOf(NextLayer(pair));
  }

  function Halved(n: nat, k: nat): nat
  {
    if k == 0 then n else Halved(n / 2, k - 1)
  }

  /** The path spells the index in binary, lowest bit first: the sibling stands
      on the left exactly at the one bits. */
  lemma {:induction false} PathSpellsIndex(layer: seq<Digest>, idx: nat, k: nat)
    requires idx < |layer| && k < |Path(layer, idx)|
    ensures Path(layer, idx)[k].side.Left? <==> Halved(idx, k) % 2 == 1
    decreases |layer|
  {
    if k > 0 {
      PathSpellsIndex(NextLayer(layer), idx / 2, k - 1);
    }
  }

  // ---- Soundness ----

  lemma {:induction false} FoldInjective(path: seq<Step>, x: Digest, y: Digest)
    requires Fold(path, x) == Fold(path, y)
    ensures x == y
  {
    if path != [] {
      FoldInjective(path[..|path|-1], x, y);
    }
  }

  /** The generated path verifies that leaf and no other. */
  lemma {:induction false} InclusionSound(leaves: seq<Digest>, idx: nat, claimed: Digest)
    requires idx < |leaves|
    ensures Fold(Path(leaves, idx), claimed) == Root(leaves) <==> claimed == leaves[idx]
  {
    InclusionComplete(leaves, idx);
    if Fold(Path(leaves, idx), claimed) == Root(leaves) {
      FoldInjective(Path(leaves, idx), claimed, leaves[idx]);
    }
  }

  /** A padded perfect tree: every leaf of the tree lies at depth `h`. */
  ghost predicate Perfect(d: Digest, h: nat)
  {
    if h == 0 then d.Leaf?
    else d.Node? && Perfect(d.left, h - 1) && (d.right == Empty || Perfect(d.right, h - 1))
  }

  ghost predicate AllPerfect(layer: seq<Digest>, h: nat)
  {
    forall i :: 0 <= i < |layer| ==> Perfect(layer[i], h)
  }

  ghost function Levels(n: nat): nat
    decreases n
  {
    if n <= 1 then 0 else 1 + Levels((n + 1) / 2)
  }

  lemma {:induction false} TopIsPerfect(layer: seq<Digest>, h: nat)
    requires layer != [] && AllPerfect(layer, h)
    ensures Perfect(TopOf(layer), h + Levels(|layer|))
    decreases |layer|
  {
    if |layer| > 1 {
      TopIsPerfect(NextLayer(layer), h + 1);
    }
  }

  lemma {:induction false} PathLength(path: seq<Step>, x: Digest, h: nat)
    requires x.Leaf? && Perfect(Fold(path, x), h)
    ensures |path| == h
  {
    if path != [] {
      var front := path[..|path|-1];
      assert Fold(front, x) != Empty;
      PathLength(front, x, h - 1);
    }
  }

  lemma {:induction false} ParentStep(layer: seq<Digest>, up: nat, step: Step, x: Digest) returns (idx: nat)
    requires 2 * up < |layer| && Parent(layer, up) == Combine(step, x) && x != Empty
    ensures idx < |layer| && idx / 2 == up && layer[idx] == x && step == StepAt(layer, idx)
  {
    idx := if step.side.Right? then 2 * up else 2 * up + 1;
  }

  lemma {:induction false} PathIsGenerated(layer: seq<Digest>, path: seq<Step>, x: Digest) returns (idx: nat)
    requires layer != [] && x != Empty
    requires |path| == Levels(|layer|) && Fold(path, x) == TopOf(layer)
    ensures idx < |layer| && layer[idx] == x && path == Path(layer, idx)
    decreases |layer|
  {
    if |layer| == 1 {
      idx := 0;
    } else {
      FoldFront(path, x);
      var up := PathIsGenerated(NextLayer(layer), path[1..], Combine(path[0], x));
      assert NextLayer(layer)[up] == Parent(layer, up);
      idx := ParentStep(layer, up, path[0], x);
      assert path == [path[0]] + path[1..];
    }
  }

  /** Even against a path of the prover's own making, a leaf commitment that
      verifies is the committed leaf at the index the path spells, and the path
      is the generated one: an internal node cannot pass for a leaf, nor a
      padded position for a committed one. */
  lemma {:induction false} AnyPathSound(leaves: seq<Digest>, path: seq<Step>, x: Digest) returns (idx: nat)
    requires leaves != [] && AllPerfect(leaves, 0) && x.Leaf?
    requires Fold(path, x) == Root(leaves)
    ensures idx < |leaves| && leaves[idx] == x && path == Path(leaves, idx)
  {
    TopIsPerfect(leaves, 0);
    PathLength(path, x, Levels(|leaves|));
    idx := PathIsGenerated(leaves, path, x);
  }

  // ---- The root determines the leaves ----

  lemma {:induction false} HeightUnique(d: Digest, h: nat, k: nat)
    requires Perfect(d, h) && Perfect(d, k)
    ensures h == k
  {
    if h > 0 && k > 0 {
      HeightUnique(d.left, h - 1, k - 1);
    }
  }

  lemma {:induction false} NextLayerInjective(a: seq<Digest>, b: seq<Digest>)
    requires NextLayer(a) == NextLayer(b) && Empty !in a && Empty !in b
    ensures a == b
  {
    var n := |NextLayer(a)|;
    forall i | 0 <= i < n ensures Parent(a, i) == Parent(b, i) {
      assert NextLayer(a)[i] == Parent(a, i) && NextLayer(b)[i] == Parent(b, i);
    }
    if n > 0 {
      assert Parent(a, n - 1) == Parent(b, n - 1);
      assert |a| == |b|;
      forall i | 0 <= i < |a| ensures a[i] == b[i] {
        assert Parent(a, i / 2) == Parent(b, i / 2);
      }
    }
  }

  lemma {:induction false} TopInjective(a: seq<Digest>, b: seq<Digest>)
    requires a != [] && b != [] && Empty !in a && Empty !in b
    requires Levels(|a|) == Levels(|b|) && TopOf(a) == TopOf(b)
    ensures a == b
    decreases |a|
  {
    if |a| > 1 {
      TopInjective(NextLayer(a), NextLayer(b));
      NextLayerInjective(a, b);
    }
  }

  /** Equal roots mean equal leaf lists, of whatever lengths. */
  lemma {:induction false} RootDeterminesLeaves(a: seq<Digest>, b: seq<Digest>)
    requires AllPerfect(a, 0) && AllPerfect(b, 0) && Root(a) == Root(b)
    ensures a == b
  {
    if a != [] { TopIsPerfect(a, 0); }
    if b != [] { TopIsPerfect(b, 0); }
    if a != [] && b != [] {
      HeightUnique(Root(a), Levels(|a|), Levels(|b|));
      TopInjective(a, b);
    }
  }
}
