/** `groupByParentTerritory`: two filters that split records into those
    without a parent reference (the roots) and those with one. */
module Grouping {
  import opened JsValues

  /** The field this grouping tests. (The hierarchy loop reads a different one,
      `ParentTerritory2Id`.) */
  const ParentField := "ParentTerritoryId"

  predicate HasParent(r: Record) {
    Truthy(Get(r, ParentField))
  }

  /** `records.filter(r => !r.ParentTerritoryId)` */
  function Roots(records: seq<Record>): (roots: seq<Record>)
    ensures forall r :: r in roots <==> r in records && !HasParent(r)
    ensures |roots| <= |records|
  {
    if records == [] then []
    else (if HasParent(records[0]) then [] else [records[0]]) + Roots(records[1..])
  }

  /** `records.filter(r => r.ParentTerritoryId)` */
  function Children(records: seq<Record>): (children: seq<Record>)
    ensures forall r :: r in children <==> r in records && HasParent(r)
    ensures |children| <= |records|
  {
    if records == [] then []
    else (if HasParent(records[0]) then [records[0]] else []) + Children(records[1..])
  }

  datatype Groups = Groups(rootTerritories: seq<Record>, children: seq<Record>)

  function GroupByParentTerritory(records: seq<Record>): (g: Groups)
    ensures forall r :: r in g.rootTerritories ==> r in records && !HasParent(r)
    ensures forall r :: r in g.children ==> r in records && HasParent(r)
    ensures forall r :: r in records ==> r in g.rootTerritories || r in g.children
  {
    Groups(Roots(records), Children(records))
  }

  /** The two groups partition the input: together they hold every record
      exactly as often as the input does. */
  lemma {:induction false} GroupIsPartition(records: seq<Record>)
    ensures |GroupByParentTerritory(records).rootTerritories|
          + |GroupByParentTerritory(records).children| == |records|
    ensures multiset(GroupByParentTerritory(records).rootTerritories)
          + multiset(GroupByParentTerritory(records).children) == multiset(records)
    decreases |records|
  {
    if records != [] {
      GroupIsPartition(records[1..]);
      assert records == [records[0]] + records[1..];
    }
  }

  lemma {:induction false} RootsConcat(a: seq<Record>, b: seq<Record>)
    ensures Roots(a + b) == Roots(a) + Roots(b)
    decreases |a|
  {
    if a == [] {
      assert a + b == b;
    } else {
      assert (a + b)[0] == a[0] && (a + b)[1..] == a[1..] + b;
      RootsConcat(a[1..], b);
    }
  }

  lemma {:induction false} ChildrenConcat(a: seq<Record>, b: seq<Record>)
    ensures Children(a + b) == Children(a) + Children(b)
    decreases |a|
  {
    if a == [] {
      assert a + b == b;
    } else {
      assert (a + b)[0] == a[0] && (a + b)[1..] == a[1..] + b;
      ChildrenConcat(a[1..], b);
    }
  }

  /** Both filters keep the input order: grouping a concatenation concatenates
      the groups. */
  lemma GroupConcat(a: seq<Record>, b: seq<Record>)
    ensures GroupByParentTerritory(a + b).rootTerritories
         == GroupByParentTerritory(a).rootTerritories + GroupByParentTerritory(b).rootTerritories
    ensures GroupByParentTerritory(a + b).children
         == GroupByParentTerritory(a).children + GroupByParentTerritory(b).children
  {
    RootsConcat(a, b);
    ChildrenConcat(a, b);
  }
}
