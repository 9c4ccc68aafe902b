/** The splitter's union-find: path halving, no ranks. */
module UnionFind {

  /** A package key: (ecosystem, name). */
  datatype Key = Key(ecosystem: string, name: string)

  type Parents = map<Key, Key>

  /**
   What justifies a parent map: `rep` is the root of each key's tree, and `height` strictly grows
   along every parent link, up to `top`. It stands in for the ranks the code does not keep.
  */
  datatype Proof = Proof(rep: map<Key, Key>, height: map<Key, nat>, top: nat)

  ghost predicate NodeOk(parent: Parents, w: Proof, x: Key)
    requires w.rep.Keys == parent.Keys && w.height.Keys == parent.Keys && x in parent
  {
    && parent[x] in parent && w.rep[x] in parent
    && w.rep[parent[x]] == w.rep[x]
    && (parent[x] == x <==> w.rep[x] == x)
    && w.rep[w.rep[x]] == w.rep[x]
    && w.height[x] <= w.top
    && (parent[x] != x ==> w.height[x] < w.height[parent[x]])
  }

  /** `parent` is an acyclic forest whose roots are given by `w.rep`. */
  ghost predicate Forest(parent: Parents, w: Proof) {
    && w.rep.Keys == parent.Keys && w.height.Keys == parent.Keys
    && forall x {:trigger NodeOk(parent, w, x)} :: x in parent ==> NodeOk(parent, w, x)
  }

  /** The roots are a property of the parent map alone. */
  lemma {:induction false} RootsAreUnique(parent: Parents, w: Proof, w': Proof, x: Key)
    requires Forest(parent, w) && Forest(parent, w') && x in parent
    ensures w.rep[x] == w'.rep[x]
    decreases w.top - w.height[x]
  {
    assert NodeOk(parent, w, x) && NodeOk(parent, w', x);
    if parent[x] != x {
      assert NodeOk(parent, w, parent[x]);
      RootsAreUnique(parent, w, w', parent[x]);
    }
  }

  /** Path halving keeps the forest, its roots and its heights. */
  lemma HalvingKeepsRoots(parent: Parents, w: Proof, x: Key)
    requires Forest(parent, w) && x in parent && parent[x] != x
    ensures parent[x] in parent && parent[parent[x]] in parent
    ensures Forest(parent[x := parent[parent[x]]], w)
    ensures w.height[x] < w.height[parent[parent[x]]]
  {
    assert NodeOk(parent, w, x) && NodeOk(parent, w, parent[x]);
    var halved := parent[x := parent[parent[x]]];
    forall y | y in halved ensures NodeOk(halved, w, y) {
      assert NodeOk(parent, w, y);
      if y == x { assert NodeOk(parent, w, parent[parent[x]]); }
    }
  }

  function LinkProof(w: Proof, ra: Key, rb: Key): Proof
    requires ra in w.height && rb in w.height && w.rep.Keys == w.height.Keys
  {
    var h := if w.height[ra] > w.height[rb] then w.height[ra] else w.height[rb] + 1;
    Proof(map k | k in w.rep :: if w.rep[k] == rb then ra else w.rep[k],
          w.height[ra := h], if w.top >= h then w.top else h)
  }

  /** Hanging one root under another joins exactly their two trees. */
  lemma LinkingJoins(parent: Parents, w: Proof, ra: Key, rb: Key)
    requires Forest(parent, w) && ra in parent && rb in parent && ra != rb
    requires w.rep[ra] == ra && w.rep[rb] == rb
    ensures Forest(parent[rb := ra], LinkProof(w, ra, rb))
  {
    var linked, w' := parent[rb := ra], LinkProof(w, ra, rb);
    assert NodeOk(parent, w, ra) && NodeOk(parent, w, rb);
    forall y | y in linked ensures NodeOk(linked, w', y) {
      assert NodeOk(parent, w, y);
      assert NodeOk(parent, w, w.rep[y]);
    }
  }

  class Union {
    var parent: Parents
    ghost var proof: Proof

    ghost predicate Valid()
      reads this
    {
      Forest(parent, proof)
    }

    /** The roots after `x` has been looked up: a new key becomes its own root. */
    ghost function With(x: Key): map<Key, Key>
      reads this
    {
      if x in proof.rep then proof.rep else proof.rep[x := x]
    }

    constructor ()
      ensures Valid() && parent == map[]
    {
      parent, proof := map[], Proof(map[], map[], 0);
    }

    /** Returns the root of x; path halving changes parents but never a root. */
    method Find(x: Key) returns (r: Key)
      requires Valid()
      modifies this
      ensures Valid()
      ensures proof.rep == old(With(x)) && r == proof.rep[x]
    {
      if x !in parent {
        AddingKeeps(parent, proof, x);
        parent, proof := parent[x := x], proof.(rep := proof.rep[x := x], height := proof.height[x := 0]);
      }
      r := x;
      while parent[r] != r
        invariant Valid() && proof.rep == old(With(x)) && r in parent && proof.rep[r] == proof.rep[x]
        decreases proof.top - proof.height[r]
      {
        HalvingKeepsRoots(parent, proof, r);
        assert NodeOk(parent, proof, r) && NodeOk(parent, proof, parent[r]) && NodeOk(parent, proof, parent[parent[r]]);
        parent := parent[r := parent[parent[r]]];
        r := parent[r];
      }
      assert NodeOk(parent, proof, r);
    }

    /** Hangs b's root under a's root. */
    method Merge(a: Key, b: Key)
      requires Valid() && a in parent && b in parent
      modifies this
      ensures Valid() && parent.Keys == old(parent.Keys)
      ensures forall k :: k in old(proof.rep) ==>
                k in proof.rep
                && proof.rep[k] == if old(proof.rep[k]) == old(proof.rep[b]) then old(proof.rep[a]) else old(proof.rep[k])
    {
      var ra := Find(a);
      var rb := Find(b);
      if ra != rb {
        assert NodeOk(parent, proof, a) && NodeOk(parent, proof, b);
        LinkingJoins(parent, proof, ra, rb);
        parent, proof := parent[rb := ra], LinkProof(proof, ra, rb);
      }
    }
  }

  lemma AddingKeeps(parent: Parents, w: Proof, x: Key)
    requires Forest(parent, w) && x !in parent
    ensures Forest(parent[x := x], w.(rep := w.rep[x := x], height := w.height[x := 0]))
  {
    var w' := w.(rep := w.rep[x := x], height := w.height[x := 0]);
    forall y | y in parent ensures NodeOk(parent[x := x], w', y) {
      assert NodeOk(parent, w, y);
    }
  }
}
