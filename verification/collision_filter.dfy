/** The bitmask collision filter: a group/mask layer over the engine's
    body-level exclusion rule. Group and mask words are the bits of the
    source's `int` values. */
module CollisionFilter {

  /** The filter's two tables, keyed by shape-node identity. */
  datatype BitmaskFilter<Node> = BitmaskFilter(groups: map<Node, bv32>, masks: map<Node, bv32>)

  /** The engine's own exclusion rule for a pair of shape nodes (same body,
      adjacent bodies, ...), which this layer does not interpret. */
  type BaseFilter<!Node> = (Node, Node) -> bool

  /** Both nodes have registered a group and a mask. */
  predicate Registered<Node>(f: BitmaskFilter<Node>, a: Node, b: Node) {
    a in f.groups && b in f.groups && a in f.masks && b in f.masks
  }

  /** A group word shares at least one bit with a mask word. */
  predicate Meets(group: bv32, mask: bv32) {
    group & mask != 0
  }

  /** Neither node's group meets the other node's mask. */
  predicate MasksExclude<Node>(f: BitmaskFilter<Node>, a: Node, b: Node)
    requires Registered(f, a, b)
  {
    !Meets(f.groups[a], f.masks[b]) && !Meets(f.groups[b], f.masks[a])
  }

  /** Whether the pair (a, b) is skipped by collision detection. */
  function IgnoresCollision<Node>(f: BitmaskFilter<Node>, base: BaseFilter<Node>, a: Node, b: Node): (r: bool)
    ensures base(a, b) ==> r
    ensures !Registered(f, a, b) ==> r == base(a, b)
    ensures Registered(f, a, b) ==> (r <==> base(a, b) || MasksExclude(f, a, b))
  {
    if base(a, b) then true
    else if a !in f.groups || b !in f.groups || a !in f.masks || b !in f.masks then false
    else
      var affinityAB := Meets(f.groups[a], f.masks[b]);
      var affinityBA := Meets(f.groups[b], f.masks[a]);
      !(affinityAB || affinityBA)
  }

  /** Records the group of one node; every other entry, and the mask table,
      is left as it was. */
  function SetCollisionGroup<Node>(f: BitmaskFilter<Node>, n: Node, group: bv32): (r: BitmaskFilter<Node>)
    ensures r.masks == f.masks
    ensures r.groups.Keys == f.groups.Keys + {n}
    ensures n in r.groups && r.groups[n] == group
    ensures forall m :: m in f.groups && m != n ==> r.groups[m] == f.groups[m]
  {
    f.(groups := f.groups[n := group])
  }

  /** Records the mask of one node; every other entry, and the group table,
      is left as it was. */
  function SetCollisionMask<Node>(f: BitmaskFilter<Node>, n: Node, mask: bv32): (r: BitmaskFilter<Node>)
    ensures r.groups == f.groups
    ensures r.masks.Keys == f.masks.Keys + {n}
    ensures n in r.masks && r.masks[n] == mask
    ensures forall m :: m in f.masks && m != n ==> r.masks[m] == f.masks[m]
  {
    f.(masks := f.masks[n := mask])
  }

  /** The bitmask layer is symmetric: swapping the pair changes nothing as
      long as the base rule is itself symmetric on that pair. */
  lemma IgnoresSymmetric<Node>(f: BitmaskFilter<Node>, base: BaseFilter<Node>, a: Node, b: Node)
    requires base(a, b) == base(b, a)
    ensures IgnoresCollision(f, base, a, b) == IgnoresCollision(f, base, b, a)
  {
  }

  /** Registering a group and a mask for both nodes of a pair makes the
      pair's fate depend only on those four words (and the base rule). */
  lemma RegisterPairDecides<Node>(f: BitmaskFilter<Node>, base: BaseFilter<Node>,
                                   a: Node, b: Node, ga: bv32, ma: bv32, gb: bv32, mb: bv32)
    requires a != b
    ensures var f' := SetCollisionMask(SetCollisionGroup(SetCollisionMask(SetCollisionGroup(f, a, ga), a, ma), b, gb), b, mb);
            IgnoresCollision(f', base, a, b) <==> base(a, b) || (!Meets(ga, mb) && !Meets(gb, ma))
  {
  }

  /** Group 1 / mask 0 against group 0 / mask 1: the first node's group meets
      the second node's mask, so the bitmask layer does not separate them. */
  lemma OneWayAffinityCollides<Node>(f: BitmaskFilter<Node>, base: BaseFilter<Node>, a: Node, b: Node)
    requires a != b
    ensures var f' := SetCollisionMask(SetCollisionGroup(SetCollisionMask(SetCollisionGroup(f, a, 1), a, 0), b, 0), b, 1);
            IgnoresCollision(f', base, a, b) == base(a, b)
  {
  }

  /** Disjoint groups that each mask only themselves are separated. */
  lemma DisjointSelfMasksIgnored<Node>(f: BitmaskFilter<Node>, base: BaseFilter<Node>, a: Node, b: Node)
    requires a != b
    ensures var f' := SetCollisionMask(SetCollisionGroup(SetCollisionMask(SetCollisionGroup(f, a, 1), a, 1), b, 2), b, 2);
            IgnoresCollision(f', base, a, b)
  {
  }
}
