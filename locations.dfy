/** The location hierarchy of the standalone tree
    (src/main/java/travelfinder/model/Location.java): the full name built by
    walking the parent pointers, the child list and identity by id. The list
    of accommodations at a location is not part of this model. */
module Locations {
  import opened Common

  class Location {
    var locationId: int
    var name: string
    var parentId: Option<int>
    var locationType: string
    var parent: Location?
    var children: seq<Location>

    /** The three-argument constructor: no parent, no children. */
    constructor (locationId: int, name: string, locationType: string)
      ensures this.locationId == locationId && this.name == name && this.locationType == locationType
      ensures parentId == None && parent == null && children == []
    {
      this.locationId, this.name, this.locationType := locationId, name, locationType;
      parentId, parent, children := None, null, [];
    }

    method SetParent(p: Location?)
      modifies this`parent
      ensures parent == p
    {
      parent := p;
    }

    /** `addChild` */
    method AddChild(child: Location)
      modifies this`children
      ensures children == old(children) + [child]
    {
      children := children + [child];
    }

    /** `getFullName`: starts from the own name and, walking up one parent at
        a time, inserts "<parent name>, " at the front. The walk ends only
        when the chain reaches a location without a parent, so the caller
        names that chain: `ancestors` is the parent, the grandparent, and so
        on up to the root. */
    method GetFullName(ghost ancestors: seq<Location>) returns (fullName: string)
      requires AncestryOf(this, ancestors)
      ensures fullName == Prefix(ancestors) + name
    {
      fullName := name;
      var current := parent;
      ghost var i := 0;
      while current != null
        invariant 0 <= i <= |ancestors|
        invariant current == (if i < |ancestors| then ancestors[i] else null)
        invariant fullName == Prefix(ancestors[..i]) + name
        decreases |ancestors| - i
      {
        assert ancestors[..i + 1][..i] == ancestors[..i];
        fullName := current.name + ", " + fullName;
        current := current.parent;
        i := i + 1;
      }
      assert ancestors[..i] == ancestors;
    }

    /** `equals`: the same object, or another location with the same id. */
    predicate Equals(other: Location?)
      reads this, other
    {
      this == other || (other != null && locationId == other.locationId)
    }

    /** `hashCode` */
    function HashCode(): int
      reads this
    {
      locationId
    }
  }

  /** `ancestors` lists the parent chain of `loc` in order, ending with a
      location that has no parent. Such a list exists only for a chain
      without a cycle. */
  ghost predicate AncestryOf(loc: Location, ancestors: seq<Location>)
    reads loc, ancestors
  {
    && (if ancestors == [] then loc.parent == null else loc.parent == ancestors[0])
    && (forall i :: 0 <= i < |ancestors| - 1 ==> ancestors[i].parent == ancestors[i + 1])
    && (ancestors != [] ==> ancestors[|ancestors| - 1].parent == null)
  }

  /** "<name>, " for each ancestor, the outermost first. */
  function Prefix(ancestors: seq<Location>): string
    reads ancestors
  {
    if ancestors == [] then ""
    else ancestors[|ancestors| - 1].name + ", " + Prefix(ancestors[..|ancestors| - 1])
  }

  /** The number of characters the ancestors contribute: each name and its
      ", " separator. */
  function NamesLength(ancestors: seq<Location>): nat
    reads ancestors
  {
    if ancestors == [] then 0 else NamesLength(ancestors[..|ancestors| - 1]) + |ancestors[|ancestors| - 1].name| + 2
  }

  /** The parent chain is determined by the location: two ancestries of one
      location are the same list, so the result of `getFullName` does not
      depend on which one the caller names. */
  lemma {:induction false} AncestryUnique(loc: Location, a: seq<Location>, b: seq<Location>)
    requires AncestryOf(loc, a) && AncestryOf(loc, b)
    ensures a == b
  {
    if a != [] && b != [] {
      assert a[0] == b[0];
      AncestryUnique(a[0], a[1..], b[1..]);
    }
  }

  /** A root location's full name is its own name. */
  lemma RootFullName(loc: Location)
    requires loc.parent == null
    ensures AncestryOf(loc, [])
    ensures Prefix([]) + loc.name == loc.name
  {
  }

  /** Exactly one "<name>, " per ancestor: the prefix has the length of all
      ancestor names plus two per ancestor. */
  lemma {:induction false} PrefixLength(ancestors: seq<Location>)
    ensures |Prefix(ancestors)| == NamesLength(ancestors)
  {
    if ancestors != [] {
      PrefixLength(ancestors[..|ancestors| - 1]);
    }
  }

  /** The outermost ancestor comes first and the immediate parent last, each
      followed by ", "; the location's own name ends the full name. */
  lemma {:induction false} PrefixOrder(ancestors: seq<Location>)
    requires ancestors != []
    ensures var root := ancestors[|ancestors| - 1].name;
            |Prefix(ancestors)| >= |root| + 2 && Prefix(ancestors)[..|root| + 2] == root + ", "
    ensures var p := ancestors[0].name;
            |Prefix(ancestors)| >= |p| + 2 && Prefix(ancestors)[|Prefix(ancestors)| - |p| - 2..] == p + ", "
  {
    var root := ancestors[|ancestors| - 1].name;
    var rest := Prefix(ancestors[..|ancestors| - 1]);
    assert Prefix(ancestors) == root + ", " + rest;
    if |ancestors| > 1 {
      PrefixOrder(ancestors[..|ancestors| - 1]);
      assert ancestors[..|ancestors| - 1][0] == ancestors[0];
    }
  }

  /** `equals` agrees with comparing ids, and equal locations hash alike. */
  lemma EqualsMatchesHash(a: Location, b: Location)
    ensures a.Equals(b) <==> a.locationId == b.locationId
    ensures a.Equals(b) ==> a.HashCode() == b.HashCode()
    ensures a.Equals(b) <==> b.Equals(a)
  {
  }
}
