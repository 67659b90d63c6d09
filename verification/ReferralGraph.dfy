/** Who referred whom: the recursive path query, and why a guarded attachment never closes a cycle. */
module ReferralGraph {
  datatype Edge = Edge(referrer: int, referred: int)

  // ---------------------------------------------------------------- paths

  predicate IsPath(edges: set<Edge>, p: seq<int>) {
    |p| >= 2 && forall i :: 0 <= i < |p| - 1 ==> Edge(p[i], p[i + 1]) in edges
  }

  /** A chain of one or more referrals leads from `a` to `b`. */
  ghost predicate Reaches(edges: set<Edge>, a: int, b: int) {
    exists p :: IsPath(edges, p) && p[0] == a && p[|p| - 1] == b
  }

  ghost predicate Acyclic(edges: set<Edge>) {
    forall x :: !Reaches(edges, x, x)
  }

  lemma EdgeReaches(edges: set<Edge>, a: int, b: int)
    requires Edge(a, b) in edges
    ensures Reaches(edges, a, b)
  {
    assert IsPath(edges, [a, b]);
  }

  lemma PathHasEdge(edges: set<Edge>, p: seq<int>)
    requires IsPath(edges, p)
    ensures edges != {}
  {
    assert Edge(p[0], p[1]) in edges;
  }

  lemma ReachesOn(edges: set<Edge>, a: int, b: int, c: int)
    requires Reaches(edges, a, b) && Reaches(edges, b, c)
    ensures Reaches(edges, a, c)
  {
    var p :| IsPath(edges, p) && p[0] == a && p[|p| - 1] == b;
    var q :| IsPath(edges, q) && q[0] == b && q[|q| - 1] == c;
    var r := p + q[1..];
    forall i | 0 <= i < |r| - 1
      ensures Edge(r[i], r[i + 1]) in edges
    {
      if i >= |p| - 1 {
        assert Edge(q[i - (|p| - 1)], q[i - (|p| - 1) + 1]) in edges;
      }
    }
    assert IsPath(edges, r) && r[0] == a && r[|r| - 1] == c;
  }

  // ---------------------------------------------------------------- the recursive query

  function Children(edges: set<Edge>, parents: set<int>): set<int> {
    set e | e in edges && e.referrer in parents :: e.referred
  }

  /** A set that holds the children of `a` and is closed under children holds everything a path leads to. */
  lemma {:induction false} ClosedHoldsPath(edges: set<Edge>, a: int, closed: set<int>, p: seq<int>)
    requires Children(edges, {a}) <= closed && Children(edges, closed) <= closed
    requires IsPath(edges, p) && p[0] == a
    ensures p[|p| - 1] in closed
    decreases |p|
  {
    var last := Edge(p[|p| - 2], p[|p| - 1]);
    assert last in edges;
    if |p| > 2 {
      ClosedHoldsPath(edges, a, closed, p[..|p| - 1]);
      assert last.referred in Children(edges, closed);
    } else {
      assert last.referred in Children(edges, {a});
    }
  }

  lemma ChildrenAreReached(edges: set<Edge>, a: int, parents: set<int>)
    requires forall x :: x in parents ==> x == a || Reaches(edges, a, x)
    ensures forall x :: x in Children(edges, parents) ==> Reaches(edges, a, x)
  {
    forall x | x in Children(edges, parents)
      ensures Reaches(edges, a, x)
    {
      var e :| e in edges && e.referrer in parents && e.referred == x;
      EdgeReaches(edges, e.referrer, x);
      if e.referrer != a {
        ReachesOn(edges, a, e.referrer, x);
      }
    }
  }

  /** The common table expression: new rows are joined again until a round adds none, UNION dropping repeats. */
  method Descendants(edges: set<Edge>, ancestor: int) returns (found: set<int>)
    ensures forall x :: x in found <==> Reaches(edges, ancestor, x)
  {
    ghost var all := set e | e in edges :: e.referred;
    found := Children(edges, {ancestor});
    ChildrenAreReached(edges, ancestor, {ancestor});
    var work := found;
    while work != {}
      invariant work <= found <= all
      invariant Children(edges, {ancestor}) <= found && Children(edges, found - work) <= found
      invariant forall x :: x in found ==> Reaches(edges, ancestor, x)
      decreases all - found, work
    {
      var next := Children(edges, work) - found;
      ChildrenAreReached(edges, ancestor, work);
      assert Children(edges, found) <= found + next;
      assert (found + next) - next == found;
      assert next != {} ==> found < found + next && all - (found + next) < all - found;
      found, work := found + next, next;
    }
    forall x | Reaches(edges, ancestor, x)
      ensures x in found
    {
      var p :| IsPath(edges, p) && p[0] == ancestor && p[|p| - 1] == x;
      assert found - work == found;
      ClosedHoldsPath(edges, ancestor, found, p);
    }
  }

  /** `referral_path_statement`: the count is never more than one, however many paths there are. */
  method PathCount(edges: set<Edge>, ancestor: int, descendant: int) returns (count: nat)
    ensures count == if Reaches(edges, ancestor, descendant) then 1 else 0
  {
    var found := Descendants(edges, ancestor);
    count := if descendant in found then 1 else 0;
  }

  // ---------------------------------------------------------------- attachment

  /** A path over one more edge either avoids it, or comes to its start and goes on from its end. */
  lemma {:induction false} PathOverNewEdge(edges: set<Edge>, e: Edge, p: seq<int>)
    requires IsPath(edges + {e}, p)
    ensures var a, b := p[0], p[|p| - 1];
            || Reaches(edges, a, b)
            || ((a == e.referrer || Reaches(edges, a, e.referrer)) && (b == e.referred || Reaches(edges, e.referred, b)))
    decreases |p|
  {
    var last := Edge(p[|p| - 2], p[|p| - 1]);
    assert last in edges + {e};
    if |p| == 2 {
      if last != e {
        EdgeReaches(edges, p[0], p[1]);
      }
    } else {
      var front := p[..|p| - 1];
      PathOverNewEdge(edges, e, front);
      if last in edges {
        EdgeReaches(edges, last.referrer, last.referred);
        if Reaches(edges, p[0], last.referrer) {
          ReachesOn(edges, p[0], last.referrer, last.referred);
        } else if last.referrer != e.referred {
          ReachesOn(edges, e.referred, last.referrer, last.referred);
        }
      }
    }
  }

  lemma MoreEdgesReachMore(edges: set<Edge>, more: set<Edge>, a: int, b: int)
    requires edges <= more && Reaches(edges, a, b)
    ensures Reaches(more, a, b)
  {
    var p :| IsPath(edges, p) && p[0] == a && p[|p| - 1] == b;
    assert IsPath(more, p);
  }

  /** A new referral keeps the graph free of cycles exactly when nobody refers himself and no path leads the other way. */
  lemma AttachKeepsAcyclicIff(edges: set<Edge>, referrer: int, referred: int)
    requires Acyclic(edges)
    ensures Acyclic(edges + {Edge(referrer, referred)}) <==> referrer != referred && !Reaches(edges, referred, referrer)
  {
    var e := Edge(referrer, referred);
    var more := edges + {e};
    EdgeReaches(more, referrer, referred);
    if Reaches(edges, referred, referrer) {
      MoreEdgesReachMore(edges, more, referred, referrer);
      ReachesOn(more, referrer, referred, referrer);
    }
    if referrer != referred && !Reaches(edges, referred, referrer) {
      forall x
        ensures !Reaches(more, x, x)
      {
        if Reaches(more, x, x) {
          var p :| IsPath(more, p) && p[0] == x && p[|p| - 1] == x;
          PathOverNewEdge(edges, e, p);
          if Reaches(edges, x, referrer) && Reaches(edges, referred, x) {
            ReachesOn(edges, referred, x, referrer);
          }
        }
      }
    }
  }

  predicate OneReferrerEach(edges: set<Edge>) {
    forall e, f :: e in edges && f in edges && e.referred == f.referred ==> e == f
  }

  datatype Attachment = Attached | SelfReferral | AlreadyReferred | WouldCycle

  class ReferralStore {
    var edges: set<Edge>

    ghost predicate Valid()
      reads this
    {
      Acyclic(edges) && OneReferrerEach(edges)
    }

    constructor ()
      ensures Valid() && edges == {}
    {
      edges := {};
      new;
      forall x
        ensures !Reaches(edges, x, x)
      {
        if Reaches(edges, x, x) {
          var p :| IsPath(edges, p) && p[0] == x;
          PathHasEdge(edges, p);
        }
      }
    }

    /** The attachment's checks, in its order, under the graph lock; both users exist. */
    method Attach(referrer: int, referred: int) returns (outcome: Attachment)
      requires Valid()
      modifies this
      ensures Valid()
      ensures edges == if outcome == Attached then old(edges) + {Edge(referrer, referred)} else old(edges)
      ensures outcome == SelfReferral <==> referrer == referred
      ensures outcome == AlreadyReferred <==> referrer != referred && exists e :: e in old(edges) && e.referred == referred
      ensures outcome == Attached <==>
                && (forall e :: e in old(edges) ==> e.referred != referred)
                && Acyclic(old(edges) + {Edge(referrer, referred)})
    {
      AttachKeepsAcyclicIff(edges, referrer, referred);
      if referrer == referred {
        return SelfReferral;
      }
      if exists e :: e in edges && e.referred == referred {
        return AlreadyReferred;
      }
      var paths := PathCount(edges, referred, referrer);
      if paths > 0 {
        return WouldCycle;
      }
      edges := edges + {Edge(referrer, referred)};
      outcome := Attached;
    }
  }
}
