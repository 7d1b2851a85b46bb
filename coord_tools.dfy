/**
 * Grouping of neighbouring objects, `astwro.coord.coord_tools.grouping`.
 *
 * Each object `i` of a catalogue matched against itself has a nearest
 * neighbour `index[i]` at distance `dist[i]`. The grouping walks from every
 * object along nearest neighbours closer than a radius, gathering the objects
 * it passes into a group, and joins the group already owning the object where
 * the walk stops. Optional labels (sets of tags per object) can forbid two
 * objects sharing a tag from meeting in one group.
 *
 * Groups are named by their position in creation order, which is the number
 * the source's final translation gives them. The nearest-neighbour match and
 * the sorting by distance are inputs.
 */
module CoordTools {
  import opened Common

  /** The `labels` argument: a list of label sets, or a list of single labels. */
  datatype Labels<T> = Sets(sets: seq<set<T>>) | Singles(items: seq<T>)

  /**
   * `_prepare_labels`: nothing for no or empty labels, a list of sets as it
   * is, and each single label in a set of its own.
   */
  function PrepareLabels<T>(labels: Option<Labels<T>>): (r: Option<seq<set<T>>>)
    ensures r.Some? <==> labels.Some? && LabelCount(labels.value) > 0
    ensures r.Some? && labels.value.Sets? ==> r.value == labels.value.sets
    ensures r.Some? && labels.value.Singles? ==>
      |r.value| == |labels.value.items| && forall k :: 0 <= k < |r.value| ==> r.value[k] == {labels.value.items[k]}
  {
    match labels
    case None => None
    case Some(Sets(sets)) => if sets == [] then None else Some(sets)
    case Some(Singles(items)) =>
      if items == [] then None else Some(seq(|items|, k requires 0 <= k < |items| => {items[k]}))
  }

  function LabelCount<T>(labels: Labels<T>): nat
  {
    match labels
    case Sets(sets) => |sets|
    case Singles(items) => |items|
  }

  /** Preparing prepared labels changes nothing. */
  lemma PrepareIdempotent<T>(labels: Option<Labels<T>>)
    ensures var r := PrepareLabels(labels);
      r.Some? ==> PrepareLabels(Some(Sets(r.value))) == r
  {
  }

  /** The labels of object `i`, none when it has none (`lbl.update(labels[i])` failing silently). */
  function LabelOf<T>(labels: Option<seq<set<T>>>, i: nat): set<T>
  {
    if labels.Some? && i < |labels.value| then labels.value[i] else {}
  }

  /** The objects `0 .. n-1`. */
  function Below(n: nat): (r: set<nat>)
    ensures forall e: nat :: e in r <==> e < n
  {
    if n == 0 then {} else Below(n - 1) + {n - 1}
  }

  /** `range(n)`. */
  function Range(n: nat): (r: seq<nat>)
    ensures |r| == n && forall k :: 0 <= k < n ==> r[k] == k
  {
    seq(n, k requires 0 <= k < n => k)
  }

  /** An order of visiting `0 .. n-1` that visits each of them. */
  predicate Visits(order: seq<nat>, n: nat)
  {
    (forall k :: 0 <= k < |order| ==> order[k] < n) && (forall e :: 0 <= e < n ==> e in order)
  }

  /** `np.argsort(dist)`: every object, in ascending distance. */
  predicate ArgSorted(order: seq<nat>, dist: seq<real>)
  {
    |order| == |dist| && Visits(order, |dist|) &&
    forall j, k :: 0 <= j < k < |order| ==> dist[order[j]] <= dist[order[k]]
  }

  /** Once an order visiting every object has had each of them assigned, every object is. */
  lemma VisitedAll(order: seq<nat>, n: nat, owner: map<nat, nat>)
    requires Visits(order, n) && forall k :: 0 <= k < |order| ==> order[k] in owner
    ensures forall e: nat :: e < n ==> e in owner
  {
    forall e: nat | e < n
      ensures e in owner
    {
      assert e in order;
      var k :| 0 <= k < |order| && order[k] == e;
    }
  }

  /** The range visits every object. */
  lemma RangeVisits(n: nat)
    ensures Visits(Range(n), n)
  {
    var r := Range(n);
    forall e | 0 <= e < n
      ensures e in r
    {
      assert r[e] == e;
    }
  }

  /**
   * The state of the walk: each assigned object `e` names in `owner[e]` a
   * group holding it, and each member of a group is assigned to it.
   */
  predicate Partition(groups: seq<set<nat>>, owner: map<nat, nat>, n: nat)
  {
    (forall e :: e in owner ==> e < n && owner[e] < |groups| && e in groups[owner[e]]) &&
    (forall g, e :: 0 <= g < |groups| && e in groups[g] ==> e in owner && owner[e] == g) &&
    (forall g :: 0 <= g < |groups| ==> groups[g] != {})
  }

  /** Every owner object close enough to its neighbour shares its group. */
  predicate Linked(index: seq<nat>, dist: seq<real>, radius: real, owner: map<nat, nat>)
    requires |dist| == |index|
  {
    forall e :: e in owner && e < |index| && dist[e] < radius ==>
      index[e] in owner && owner[index[e]] == owner[e]
  }

  /**
   * A set of objects that each link between an object and its neighbour
   * closer than `radius` keeps whole or leaves alone: a union of linked
   * components.
   */
  ghost predicate LinkClosed(index: seq<nat>, dist: seq<real>, radius: real, c: set<nat>)
    requires |dist| == |index|
  {
    forall e {:trigger dist[e]} :: 0 <= e < |index| && dist[e] < radius ==> (e in c <==> index[e] in c)
  }

  /** No link-closed set holds one of `a` and `b` without the other: they are in one linked component. */
  ghost predicate Connected(index: seq<nat>, dist: seq<real>, radius: real, a: nat, b: nat)
    requires |dist| == |index|
  {
    forall c {:trigger LinkClosed(index, dist, radius, c)} :: LinkClosed(index, dist, radius, c) ==> (a in c <==> b in c)
  }

  /** A step to a neighbour closer than `radius` stays in the component. */
  lemma ConnectedStep(index: seq<nat>, dist: seq<real>, radius: real, a: nat, b: nat)
    requires |dist| == |index| && a < |index| && dist[a] < radius
    requires Connected(index, dist, radius, a, b)
    ensures Connected(index, dist, radius, index[a], b)
  {
    forall c | LinkClosed(index, dist, radius, c)
      ensures index[a] in c <==> b in c
    {
      assert a in c <==> index[a] in c;
    }
  }

  /** The members of each group are in one linked component. */
  ghost predicate Separated(index: seq<nat>, dist: seq<real>, radius: real, groups: seq<set<nat>>)
    requires |dist| == |index|
  {
    forall g, a, b :: 0 <= g < |groups| && a in groups[g] && b in groups[g] ==> Connected(index, dist, radius, a, b)
  }

  /** The group labels hold the labels of every member. */
  predicate LabelsHeld<T>(groups: seq<set<nat>>, grlabels: seq<set<T>>, labels: Option<seq<set<T>>>)
  {
    |grlabels| == |groups| &&
    forall g, e :: 0 <= g < |groups| && e in groups[g] ==> LabelOf(labels, e) <= grlabels[g]
  }

  /** No two members of a group share a label. */
  predicate LabelsApart<T>(groups: seq<set<nat>>, labels: Option<seq<set<T>>>)
  {
    forall g, a, b :: 0 <= g < |groups| && a in groups[g] && b in groups[g] && a != b ==>
      LabelOf(labels, a) !! LabelOf(labels, b)
  }

  /** A result of `grouping` over `n` objects: `n in groups[assignation[n]]`, and nothing else in them. */
  predicate Grouped(groups: seq<set<nat>>, assignation: seq<nat>, n: nat)
  {
    |assignation| == n &&
    (forall e :: 0 <= e < n ==> assignation[e] < |groups| && e in groups[assignation[e]]) &&
    (forall g, e :: 0 <= g < |groups| && e in groups[g] ==> e < n) &&
    (forall g, e :: 0 <= g < |groups| && e in groups[g] && e < n ==> assignation[e] == g) &&
    (forall g :: 0 <= g < |groups| ==> groups[g] != {})
  }

  /** The objects in some group. */
  function Members(groups: seq<set<nat>>): set<nat>
  {
    set g, e | 0 <= g < |groups| && e in groups[g] :: e
  }

  /** The groups of a result partition the objects. */
  lemma GroupedPartition(groups: seq<set<nat>>, assignation: seq<nat>, n: nat)
    requires Grouped(groups, assignation, n)
    ensures forall g, h :: 0 <= g < h < |groups| ==> groups[g] !! groups[h]
    ensures Members(groups) == Below(n)
  {
    forall g, h | 0 <= g < h < |groups|
      ensures groups[g] !! groups[h]
    {
      forall e: nat | e in groups[g]
        ensures e !in groups[h]
      {
        assert e < n;
        assert assignation[e] == g;
      }
    }
    forall e: nat | e in Below(n)
      ensures e in Members(groups)
    {
      assert e in groups[assignation[e]];
    }
    forall e: nat | e in Members(groups)
      ensures e in Below(n)
    {
      var g :| 0 <= g < |groups| && e in groups[g];
      assert e < n;
    }
  }

  /** The values of a dictionary keyed by `0 .. n-1`, as a list. */
  function Listed(m: map<nat, nat>, n: nat): (r: seq<nat>)
    requires forall e :: 0 <= e < n ==> e in m
    ensures |r| == n && forall e :: 0 <= e < n ==> r[e] == m[e]
  {
    seq(n, e requires 0 <= e < n && e in m => m[e])
  }

  /** The walk's end: the object reached, the objects passed and their labels. */
  datatype WalkEnd<T> = WalkEnd(reached: nat, grp: set<nat>, lbl: set<T>)

  /**
   * What the walk from `start` promises: it gathers unassigned objects,
   * starting with `start` unless that is assigned already, with their labels
   * gathered, pairwise apart when labels are unique; it stops at an assigned
   * object whose group shares no label with them, or at one of its own; and
   * without unique labels, each object it passes that is close enough to its
   * neighbour leads to an object passed or to where it stops.
   */
  ghost predicate WalkSpec<T>(index: seq<nat>, dist: seq<real>, radius: real, prepared: Option<seq<set<T>>>, unique: bool,
                        grlabels: seq<set<T>>, owner: map<nat, nat>, n: nat, start: nat, w: WalkEnd<T>)
    requires |index| == |dist| == n
    requires forall e :: e in owner ==> owner[e] < |grlabels|
  {
    var WalkEnd(i, grp, lbl) := w;
    i < n && (forall e :: e in grp ==> e < n && e !in owner) &&
    (grp == {} <==> start in owner) && (grp != {} ==> start in grp) &&
    (grp != {} ==> i in owner || i in grp) &&
    (forall e :: e in grp ==> LabelOf(prepared, e) <= lbl) &&
    (unique ==> forall a, b :: a in grp && b in grp && a != b ==> LabelOf(prepared, a) !! LabelOf(prepared, b)) &&
    (unique && grp != {} && i in owner ==> lbl !! grlabels[owner[i]]) &&
    (!unique ==> forall e :: e in grp && dist[e] < radius ==> index[e] in grp || index[e] == i)
  }

  /** Without unique labels the walk stays in the linked component of `start`. */
  ghost predicate WalkConnected<T>(index: seq<nat>, dist: seq<real>, radius: real, start: nat, w: WalkEnd<T>)
    requires |dist| == |index|
  {
    Connected(index, dist, radius, w.reached, start) && forall e :: e in w.grp ==> Connected(index, dist, radius, e, start)
  }

  /**
   * The inner `while` of `grouping`: from `start`, step to the nearest
   * neighbour while it is closer than `radius` and, with unique labels, while
   * the labels gathered are apart from those of the neighbour's group, or of
   * the neighbour itself when it has no group yet; stop at an object already
   * assigned or already passed. Looking up the labels of an object past the
   * end of the label list fails.
   */
  method Walk<T>(index: seq<nat>, dist: seq<real>, radius: real, prepared: Option<seq<set<T>>>, unique: bool,
                 grlabels: seq<set<T>>, owner: map<nat, nat>, n: nat, start: nat) returns (r: Result<WalkEnd<T>>)
    requires |index| == |dist| == n && forall k :: 0 <= k < n ==> index[k] < n
    requires forall e :: e in owner ==> owner[e] < |grlabels|
    requires unique ==> prepared.Some?
    requires start < n
    ensures r.Err? ==> unique && |prepared.value| < n
    ensures r.Ok? ==> WalkSpec(index, dist, radius, prepared, unique, grlabels, owner, n, start, r.value)
    ensures r.Ok? && !unique ==> WalkConnected(index, dist, radius, start, r.value)
  {
    var i: nat := start;
    var grp: set<nat> := {};
    var lbl: set<T> := {};
    while i !in owner && i !in grp
      invariant i < n && forall e :: e in grp ==> e < n && e !in owner
      invariant grp == {} ==> i == start
      invariant start in owner ==> grp == {}
      invariant i != start ==> start in grp
      invariant forall e :: e in grp ==> LabelOf(prepared, e) <= lbl
      invariant unique ==> forall a, b :: a in grp && b in grp && a != b ==> LabelOf(prepared, a) !! LabelOf(prepared, b)
      invariant unique && i !in grp && i !in owner ==> lbl !! LabelOf(prepared, i)
      invariant unique && grp != {} && i in owner ==> lbl !! grlabels[owner[i]]
      invariant !unique ==> forall e :: e in grp && dist[e] < radius ==> index[e] in grp || index[e] == i
      invariant !unique ==> Connected(index, dist, radius, i, start)
      invariant !unique ==> forall e :: e in grp ==> Connected(index, dist, radius, e, start)
      decreases Below(n) - grp
    {
      grp := grp + {i};
      lbl := lbl + LabelOf(prepared, i);
      if dist[i] < radius {
        if !unique {
          ConnectedStep(index, dist, radius, i, start);
          i := index[i];
        } else {
          var next := index[i];
          var ilabels;
          if next in owner {
            ilabels := grlabels[owner[next]];
          } else if next < |prepared.value| {
            ilabels := prepared.value[next];
          } else {
            return Err(IndexError(next));
          }
          if lbl !! ilabels {
            i := next;
          }
        }
      }
    }
    return Ok(WalkEnd(i, grp, lbl));
  }

  /**
   * The end of an iteration of `grouping`: the objects passed join the
   * group of the object reached, or form a new group, and are assigned to it.
   */
  function Join<T>(groups: seq<set<nat>>, grlabels: seq<set<T>>, owner: map<nat, nat>, w: WalkEnd<T>):
    (seq<set<nat>>, seq<set<T>>, map<nat, nat>)
    requires |grlabels| == |groups| && (w.reached in owner ==> owner[w.reached] < |groups|)
  {
    var WalkEnd(i, grp, lbl) := w;
    if i in owner then
      var g := owner[i];
      (groups[g := groups[g] + grp], grlabels[g := grlabels[g] + lbl], owner + map e | e in grp :: g)
    else
      (groups + [grp], grlabels + [lbl], owner + map e | e in grp :: |groups|)
  }

  /** Joining keeps the partition, assigns the start, and unassigns nothing. */
  lemma JoinPartition<T>(index: seq<nat>, dist: seq<real>, radius: real, prepared: Option<seq<set<T>>>, unique: bool,
                         groups: seq<set<nat>>, grlabels: seq<set<T>>, owner: map<nat, nat>, n: nat, start: nat, w: WalkEnd<T>)
    requires |index| == |dist| == n
    requires Partition(groups, owner, n) && |grlabels| == |groups|
    requires WalkSpec(index, dist, radius, prepared, unique, grlabels, owner, n, start, w) && w.grp != {}
    ensures var (groups', grlabels', owner') := Join(groups, grlabels, owner, w);
      Partition(groups', owner', n) && start in owner' && owner.Keys <= owner'.Keys && |grlabels'| == |groups'|
  {
    JoinKeepsPartition(groups, grlabels, owner, n, start, w);
  }

  /** What joining needs of the walk: new objects, among them the start, and an end that is owned or new. */
  lemma JoinKeepsPartition<T>(groups: seq<set<nat>>, grlabels: seq<set<T>>, owner: map<nat, nat>, n: nat, start: nat, w: WalkEnd<T>)
    requires Partition(groups, owner, n) && |grlabels| == |groups|
    requires w.reached < n && (forall e :: e in w.grp ==> e < n && e !in owner)
    requires start in w.grp && (w.reached in owner || w.reached in w.grp)
    ensures var (groups', grlabels', owner') := Join(groups, grlabels, owner, w);
      Partition(groups', owner', n) && start in owner' && owner.Keys <= owner'.Keys && |grlabels'| == |groups'|
  {
    if w.reached in owner {
      PartitionMerge(groups, owner, n, owner[w.reached], w.grp);
    } else {
      PartitionAppend(groups, owner, n, w.grp);
    }
  }

  /** A new group of unowned objects, appended, keeps the partition. */
  lemma PartitionAppend(groups: seq<set<nat>>, owner: map<nat, nat>, n: nat, grp: set<nat>)
    requires Partition(groups, owner, n) && grp != {}
    requires forall e :: e in grp ==> e < n && e !in owner
    ensures Partition(groups + [grp], owner + map e | e in grp :: |groups|, n)
  {
    var groups' := groups + [grp];
    var owner' := owner + map e | e in grp :: |groups|;
    forall h, e | 0 <= h < |groups'| && e in groups'[h]
      ensures e in owner' && owner'[e] == h
    {
      if h < |groups| {
        assert e in groups[h];
      }
    }
  }

  /** Unowned objects, merged into group `g`, keep the partition. */
  lemma PartitionMerge(groups: seq<set<nat>>, owner: map<nat, nat>, n: nat, g: nat, grp: set<nat>)
    requires Partition(groups, owner, n) && g < |groups|
    requires forall e :: e in grp ==> e < n && e !in owner
    ensures Partition(groups[g := groups[g] + grp], owner + map e | e in grp :: g, n)
  {
    var groups' := groups[g := groups[g] + grp];
    var owner' := owner + map e | e in grp :: g;
    forall h, e | 0 <= h < |groups'| && e in groups'[h]
      ensures e in owner' && owner'[e] == h
    {
      if h == g {
        if e !in grp {
          assert e in groups[h];
        }
      } else {
        assert e in groups[h];
      }
    }
  }

  /** Joining keeps the labels of every member in its group's labels. */
  lemma JoinHeld<T>(index: seq<nat>, dist: seq<real>, radius: real, prepared: Option<seq<set<T>>>, unique: bool,
                    groups: seq<set<nat>>, grlabels: seq<set<T>>, owner: map<nat, nat>, n: nat, start: nat, w: WalkEnd<T>)
    requires |index| == |dist| == n
    requires Partition(groups, owner, n) && LabelsHeld(groups, grlabels, prepared)
    requires WalkSpec(index, dist, radius, prepared, unique, grlabels, owner, n, start, w) && w.grp != {}
    ensures var (groups', grlabels', owner') := Join(groups, grlabels, owner, w);
      LabelsHeld(groups', grlabels', prepared)
  {
  }

  /** With unique labels, joining keeps the members of every group apart. */
  lemma JoinApart<T>(index: seq<nat>, dist: seq<real>, radius: real, prepared: Option<seq<set<T>>>,
                     groups: seq<set<nat>>, grlabels: seq<set<T>>, owner: map<nat, nat>, n: nat, start: nat, w: WalkEnd<T>)
    requires |index| == |dist| == n
    requires Partition(groups, owner, n) && LabelsHeld(groups, grlabels, prepared) && LabelsApart(groups, prepared)
    requires WalkSpec(index, dist, radius, prepared, true, grlabels, owner, n, start, w) && w.grp != {}
    ensures LabelsApart(Join(groups, grlabels, owner, w).0, prepared)
  {
    var groups' := Join(groups, grlabels, owner, w).0;
    forall h, a, b | 0 <= h < |groups'| && a in groups'[h] && b in groups'[h] && a != b
      ensures LabelOf(prepared, a) !! LabelOf(prepared, b)
    {
      if w.reached in owner && h == owner[w.reached] {
        if a in w.grp && b !in w.grp {
          assert b in groups[h];
        } else if a !in w.grp && b in w.grp {
          assert a in groups[h];
        }
      }
    }
  }

  /** Without unique labels, joining keeps every close enough object with its neighbour. */
  lemma JoinLinked<T>(index: seq<nat>, dist: seq<real>, radius: real, prepared: Option<seq<set<T>>>,
                      groups: seq<set<nat>>, grlabels: seq<set<T>>, owner: map<nat, nat>, n: nat, start: nat, w: WalkEnd<T>)
    requires |index| == |dist| == n
    requires Partition(groups, owner, n) && |grlabels| == |groups| && Linked(index, dist, radius, owner)
    requires WalkSpec(index, dist, radius, prepared, false, grlabels, owner, n, start, w) && w.grp != {}
    ensures Linked(index, dist, radius, Join(groups, grlabels, owner, w).2)
  {
  }

  /** Objects in one component with a third are in one component. */
  lemma ConnectedVia(index: seq<nat>, dist: seq<real>, radius: real, a: nat, b: nat, m: nat)
    requires |dist| == |index|
    requires Connected(index, dist, radius, a, m) && Connected(index, dist, radius, b, m)
    ensures Connected(index, dist, radius, a, b)
  {
  }

  /** Without unique labels, joining keeps the members of every group in one linked component. */
  lemma JoinSeparated<T>(index: seq<nat>, dist: seq<real>, radius: real, prepared: Option<seq<set<T>>>,
                         groups: seq<set<nat>>, grlabels: seq<set<T>>, owner: map<nat, nat>, n: nat, start: nat, w: WalkEnd<T>)
    requires |index| == |dist| == n
    requires Partition(groups, owner, n) && |grlabels| == |groups| && Separated(index, dist, radius, groups)
    requires WalkSpec(index, dist, radius, prepared, false, grlabels, owner, n, start, w) && w.grp != {}
    requires WalkConnected(index, dist, radius, start, w)
    ensures Separated(index, dist, radius, Join(groups, grlabels, owner, w).0)
  {
    var groups' := Join(groups, grlabels, owner, w).0;
    var i := w.reached;
    forall h, a, b | 0 <= h < |groups'| && a in groups'[h] && b in groups'[h]
      ensures Connected(index, dist, radius, a, b)
    {
      if a in w.grp && b in w.grp {
        ConnectedVia(index, dist, radius, a, b, start);
      } else if i in owner && h == owner[i] {
        assert i in groups[h];
        if a in w.grp {
          assert b in groups[h];
          ConnectedVia(index, dist, radius, a, i, start);
          ConnectedVia(index, dist, radius, a, b, i);
        } else if b in w.grp {
          assert a in groups[h];
          ConnectedVia(index, dist, radius, b, i, start);
          ConnectedVia(index, dist, radius, a, b, i);
        }
      }
    }
  }

  /** What holds of the walk's state between iterations of `grouping`. */
  ghost predicate Kept<T>(index: seq<nat>, dist: seq<real>, radius: real, prepared: Option<seq<set<T>>>, unique: bool,
                          groups: seq<set<nat>>, grlabels: seq<set<T>>, owner: map<nat, nat>, n: nat)
    requires |index| == |dist| == n
  {
    Partition(groups, owner, n) && LabelsHeld(groups, grlabels, prepared) &&
    (unique ==> LabelsApart(groups, prepared)) &&
    (!unique ==> Linked(index, dist, radius, owner) && Separated(index, dist, radius, groups))
  }

  /** Joining after a walk that passed something keeps the state, assigns the start and unassigns nothing. */
  lemma JoinKeeps<T>(index: seq<nat>, dist: seq<real>, radius: real, prepared: Option<seq<set<T>>>, unique: bool,
                     groups: seq<set<nat>>, grlabels: seq<set<T>>, owner: map<nat, nat>, n: nat, start: nat, w: WalkEnd<T>)
    requires |index| == |dist| == n
    requires Kept(index, dist, radius, prepared, unique, groups, grlabels, owner, n)
    requires WalkSpec(index, dist, radius, prepared, unique, grlabels, owner, n, start, w) && w.grp != {}
    requires !unique ==> WalkConnected(index, dist, radius, start, w)
    ensures var (groups', grlabels', owner') := Join(groups, grlabels, owner, w);
      Kept(index, dist, radius, prepared, unique, groups', grlabels', owner', n) &&
      start in owner' && owner.Keys <= owner'.Keys
  {
    JoinPartition(index, dist, radius, prepared, unique, groups, grlabels, owner, n, start, w);
    JoinHeld(index, dist, radius, prepared, unique, groups, grlabels, owner, n, start, w);
    if unique {
      JoinApart(index, dist, radius, prepared, groups, grlabels, owner, n, start, w);
    } else {
      JoinLinked(index, dist, radius, prepared, groups, grlabels, owner, n, start, w);
      JoinSeparated(index, dist, radius, prepared, groups, grlabels, owner, n, start, w);
    }
  }

  /** Once every object is assigned, the walk's state lists as a result. */
  lemma KeptGrouped<T>(index: seq<nat>, dist: seq<real>, radius: real, prepared: Option<seq<set<T>>>, unique: bool,
                       groups: seq<set<nat>>, grlabels: seq<set<T>>, owner: map<nat, nat>, n: nat)
    requires |index| == |dist| == n
    requires Kept(index, dist, radius, prepared, unique, groups, grlabels, owner, n)
    requires forall e: nat :: e < n ==> e in owner
    ensures var assignation := Listed(owner, n);
      Grouped(groups, assignation, n) && LabelsHeld(groups, grlabels, prepared) &&
      (unique ==> LabelsApart(groups, prepared)) &&
      (!unique ==> forall e :: 0 <= e < n && dist[e] < radius ==> assignation[index[e]] == assignation[e]) &&
      (!unique ==> forall a, b :: 0 <= a < n && 0 <= b < n && assignation[a] == assignation[b] ==>
        Connected(index, dist, radius, a, b))
  {
    forall g, e | 0 <= g < |groups| && e in groups[g]
      ensures e < n
    {
      assert e in owner && owner[e] == g;
    }
    var assignation := Listed(owner, n);
    forall a, b | !unique && 0 <= a < n && 0 <= b < n && assignation[a] == assignation[b]
      ensures Connected(index, dist, radius, a, b)
    {
      assert a in groups[assignation[a]] && b in groups[assignation[a]];
    }
  }

  /**
   * What `grouping` returns: a failure only with unique labels and too few of
   * them; otherwise groups partitioning the objects, each object in the group
   * it is assigned to, the group labels holding the labels of the members,
   * and either no two members of a group sharing a label (unique labels) or
   * the groups exactly the linked components: an object closer than `radius`
   * to its neighbour shares its group, and the members of a group are linked.
   */
  ghost predicate GroupingPromise<T>(index: seq<nat>, dist: seq<real>, radius: real, labels: Option<Labels<T>>,
                                     uniqueLabels: bool, r: Result<(seq<set<nat>>, seq<set<T>>, seq<nat>)>)
    requires |dist| == |index| && forall k :: 0 <= k < |index| ==> index[k] < |index|
  {
    var prepared := PrepareLabels(labels);
    (r.Err? ==> uniqueLabels && prepared.Some? && |prepared.value| < |index|) &&
    (r.Ok? ==> var (groups, grlabels, assignation) := r.value;
      Grouped(groups, assignation, |index|) && LabelsHeld(groups, grlabels, prepared) &&
      (uniqueLabels && prepared.Some? ==> LabelsApart(groups, prepared)) &&
      (!uniqueLabels || prepared.None? ==>
        (forall e :: 0 <= e < |index| && dist[e] < radius ==> assignation[index[e]] == assignation[e]) &&
        (forall a, b :: 0 <= a < |index| && 0 <= b < |index| && assignation[a] == assignation[b] ==>
          Connected(index, dist, radius, a, b))))
  }

  /**
   * One iteration of `grouping`'s `for` loop: the walk from `start`, then the
   * join of what it passed. The state is kept, `start` is assigned and no
   * object is unassigned.
   */
  method Visit<T>(index: seq<nat>, dist: seq<real>, radius: real, prepared: Option<seq<set<T>>>, unique: bool,
                  groups: seq<set<nat>>, grlabels: seq<set<T>>, owner: map<nat, nat>, start: nat)
    returns (r: Result<(seq<set<nat>>, seq<set<T>>, map<nat, nat>)>)
    requires |dist| == |index| && forall k :: 0 <= k < |index| ==> index[k] < |index|
    requires unique ==> prepared.Some?
    requires start < |index|
    requires Kept(index, dist, radius, prepared, unique, groups, grlabels, owner, |index|)
    ensures r.Err? ==> unique && |prepared.value| < |index|
    ensures r.Ok? ==> var (groups', grlabels', owner') := r.value;
      Kept(index, dist, radius, prepared, unique, groups', grlabels', owner', |index|) &&
      start in owner' && owner.Keys <= owner'.Keys
  {
    var walked := Walk(index, dist, radius, prepared, unique, grlabels, owner, |index|, start);
    if walked.Err? {
      return Err(walked.error);
    }
    var w := walked.value;
    if w.grp == {} {
      r := Ok((groups, grlabels, owner));
    } else {
      JoinKeeps(index, dist, radius, prepared, unique, groups, grlabels, owner, |index|, start, w);
      r := Ok(Join(groups, grlabels, owner, w));
    }
  }

  /** A failure for want of labels is what `grouping` promises. */
  lemma FailurePromised<T>(index: seq<nat>, dist: seq<real>, radius: real, labels: Option<Labels<T>>, uniqueLabels: bool,
                           e: Error)
    requires |dist| == |index| && forall k :: 0 <= k < |index| ==> index[k] < |index|
    requires var prepared := PrepareLabels(labels); uniqueLabels && prepared.Some? && |prepared.value| < |index|
    ensures GroupingPromise(index, dist, radius, labels, uniqueLabels, Err(e))
  {
  }

  /** Once every object is assigned, the walk's state is what `grouping` promises. */
  lemma KeptPromised<T>(index: seq<nat>, dist: seq<real>, radius: real, labels: Option<Labels<T>>, uniqueLabels: bool,
                        groups: seq<set<nat>>, grlabels: seq<set<T>>, owner: map<nat, nat>)
    requires |dist| == |index| && forall k :: 0 <= k < |index| ==> index[k] < |index|
    requires var prepared := PrepareLabels(labels);
      Kept(index, dist, radius, prepared, uniqueLabels && prepared.Some?, groups, grlabels, owner, |index|)
    requires forall e: nat :: e < |index| ==> e in owner
    ensures GroupingPromise(index, dist, radius, labels, uniqueLabels, Ok((groups, grlabels, Listed(owner, |index|))))
  {
    var prepared := PrepareLabels(labels);
    KeptGrouped(index, dist, radius, prepared, uniqueLabels && prepared.Some?, groups, grlabels, owner, |index|);
  }

  /**
   * `grouping(index, dist, radius, labels, unique_labels)`, with
   * `np.argsort(dist)` given as `byDist`: the groups, their labels and the
   * group of each object. Without labels, uniqueness is off, objects are
   * visited in index order, and every object closer to its neighbour than
   * `radius` ends up with it. With unique labels no two members of a group
   * share a label; the walk fails when it needs the labels of an object past
   * the end of the label list.
   */
  method Grouping<T>(index: seq<nat>, dist: seq<real>, radius: real, labels: Option<Labels<T>>,
                     uniqueLabels: bool, byDist: seq<nat>)
    returns (r: Result<(seq<set<nat>>, seq<set<T>>, seq<nat>)>)
    requires |dist| == |index| && forall k :: 0 <= k < |index| ==> index[k] < |index|
    requires PrepareLabels(labels).Some? ==> ArgSorted(byDist, dist)
    ensures GroupingPromise(index, dist, radius, labels, uniqueLabels, r)
  {
    var prepared := PrepareLabels(labels);
    var order := if prepared.Some? then byDist else Range(|index|);
    RangeVisits(|index|);
    var visited := VisitAll(index, dist, radius, prepared, uniqueLabels && prepared.Some?, order);
    if visited.Err? {
      r := Err(visited.error);
      FailurePromised(index, dist, radius, labels, uniqueLabels, visited.error);
    } else {
      var (groups, grlabels, owner) := visited.value;
      r := Ok((groups, grlabels, Listed(owner, |index|)));
      KeptPromised(index, dist, radius, labels, uniqueLabels, groups, grlabels, owner);
    }
  }

  /** `grouping`'s `for` loop over `order`, from no group and no object assigned. */
  method VisitAll<T>(index: seq<nat>, dist: seq<real>, radius: real, prepared: Option<seq<set<T>>>, unique: bool,
                     order: seq<nat>)
    returns (r: Result<(seq<set<nat>>, seq<set<T>>, map<nat, nat>)>)
    requires |dist| == |index| && forall k :: 0 <= k < |index| ==> index[k] < |index|
    requires unique ==> prepared.Some?
    requires Visits(order, |index|)
    ensures r.Err? ==> unique && |prepared.value| < |index|
    ensures r.Ok? ==> var (groups, grlabels, owner) := r.value;
      Kept(index, dist, radius, prepared, unique, groups, grlabels, owner, |index|) &&
      forall e: nat :: e < |index| ==> e in owner
  {
    var groups: seq<set<nat>> := [];
    var grlabels: seq<set<T>> := [];
    var owner: map<nat, nat> := map[];
    for t := 0 to |order|
      invariant Kept(index, dist, radius, prepared, unique, groups, grlabels, owner, |index|)
      invariant forall k :: 0 <= k < t ==> order[k] in owner
    {
      var visited := Visit(index, dist, radius, prepared, unique, groups, grlabels, owner, order[t]);
      if visited.Err? {
        return Err(visited.error);
      }
      groups, grlabels, owner := visited.value.0, visited.value.1, visited.value.2;
    }
    VisitedAll(order, |index|, owner);
    r := Ok((groups, grlabels, owner));
  }

  /** The number of objects below `n` is `n`. */
  lemma {:induction false} BelowSize(n: nat)
    ensures |Below(n)| == n
  {
    if n > 0 {
      var b := Below(n - 1);
      BelowSize(n - 1);
      assert b * {n - 1} == {};
      assert |Below(n)| == |b + {n - 1}|;
    }
  }

  /** A set of objects below `n` has at most `n` of them. */
  lemma SubsetBelow(s: set<nat>, n: nat)
    requires forall x :: x in s ==> x < n
    ensures |s| <= n
  {
    var rest := Below(n) - s;
    assert Below(n) == s + rest;
    BelowSize(n);
  }

  /** A set of linked components holding `a` but not `b` sets them apart. */
  lemma ClosedApart(index: seq<nat>, dist: seq<real>, radius: real, c: set<nat>, a: nat, b: nat)
    requires |dist| == |index| && LinkClosed(index, dist, radius, c) && a in c && b !in c
    ensures !Connected(index, dist, radius, a, b)
  {
  }

  /** Two objects sharing a label are in different groups of a result with unique labels. */
  lemma LabelsSplit<T>(groups: seq<set<nat>>, assignation: seq<nat>, n: nat, prepared: Option<seq<set<T>>>, a: nat, b: nat)
    requires Grouped(groups, assignation, n) && LabelsApart(groups, prepared)
    requires a < n && b < n && a != b && LabelOf(prepared, a) * LabelOf(prepared, b) != {}
    ensures assignation[a] != assignation[b]
  {
    assert a in groups[assignation[a]] && b in groups[assignation[b]];
  }

  /** The nearest neighbours of the objects of the grouping fixture of `test_coordmatch.py`. */
  function FixtureIndex(): seq<nat>
  {
    [3, 2, 3, 2, 3, 1, 7, 6, 9, 8, 9, 10, 9]
  }

  /** Their distances. */
  function FixtureDist(): seq<real>
  {
    [3.0, 1.0, 1.0, 1.0, 1.0, 1.0, 1.0, 1.0, 1.0, 1.0, 1.0, 1.0, 3.0]
  }

  /** The uniqueness labels of the fixture, one per object. */
  function FixtureUniquity(): seq<int>
  {
    [1, 1, 1, 2, 3, 4, 5, 6, 7, 8, 1, 1, 1]
  }

  lemma FixtureObject(e: int)
    requires 0 <= e < 13
    ensures e == 0 || e == 1 || e == 2 || e == 3 || e == 4 || e == 5 || e == 6 ||
            e == 7 || e == 8 || e == 9 || e == 10 || e == 11 || e == 12
  {
  }

  /** The fixture's linked components: the objects 0, 1 to 5, 6 and 7, 8 to 11, and 12. */
  lemma FixtureComponent(c: set<nat>)
    requires c == {0} || c == {1, 2, 3, 4, 5} || c == {6, 7} || c == {8, 9, 10, 11} || c == {12}
    ensures LinkClosed(FixtureIndex(), FixtureDist(), 2.0, c)
  {
    var index, dist := FixtureIndex(), FixtureDist();
    forall e | 0 <= e < |index| && dist[e] < 2.0
      ensures e in c <==> index[e] in c
    {
      FixtureObject(e);
    }
  }

  /** Linked, every object of the fixture shares the group of 0, 1, 6, 8 or 12. */
  lemma FixtureLinked(asg: seq<nat>)
    requires |asg| == 13
    requires forall e :: 0 <= e < 13 && FixtureDist()[e] < 2.0 ==> asg[FixtureIndex()[e]] == asg[e]
    ensures forall e :: 0 <= e < 13 ==> asg[e] in {asg[0], asg[1], asg[6], asg[8], asg[12]}
  {
    var index, dist := FixtureIndex(), FixtureDist();
    assert asg[1] == asg[2] == asg[3] == asg[4] == asg[5] by {
      assert dist[1] < 2.0 && dist[2] < 2.0 && dist[4] < 2.0 && dist[5] < 2.0;
    }
    assert asg[6] == asg[7] by {
      assert dist[6] < 2.0;
    }
    assert asg[8] == asg[9] == asg[10] == asg[11] by {
      assert dist[8] < 2.0 && dist[10] < 2.0 && dist[11] < 2.0;
    }
    forall e | 0 <= e < 13
      ensures asg[e] in {asg[0], asg[1], asg[6], asg[8], asg[12]}
    {
      FixtureObject(e);
    }
  }

  /** Objects of different components of the fixture are in different groups. */
  lemma FixtureApart(asg: seq<nat>)
    requires |asg| == 13
    requires forall a, b :: 0 <= a < 13 && 0 <= b < 13 && asg[a] == asg[b] ==>
      Connected(FixtureIndex(), FixtureDist(), 2.0, a, b)
    ensures |{asg[0], asg[1], asg[6], asg[8], asg[12]}| == 5
  {
    var index, dist := FixtureIndex(), FixtureDist();
    FixtureComponent({0});
    FixtureComponent({1, 2, 3, 4, 5});
    FixtureComponent({6, 7});
    FixtureComponent({8, 9, 10, 11});
    assert asg[0] != asg[1] by { ClosedApart(index, dist, 2.0, {0}, 0, 1); }
    assert asg[0] != asg[6] by { ClosedApart(index, dist, 2.0, {0}, 0, 6); }
    assert asg[0] != asg[8] by { ClosedApart(index, dist, 2.0, {0}, 0, 8); }
    assert asg[0] != asg[12] by { ClosedApart(index, dist, 2.0, {0}, 0, 12); }
    assert asg[1] != asg[6] by { ClosedApart(index, dist, 2.0, {1, 2, 3, 4, 5}, 1, 6); }
    assert asg[1] != asg[8] by { ClosedApart(index, dist, 2.0, {1, 2, 3, 4, 5}, 1, 8); }
    assert asg[1] != asg[12] by { ClosedApart(index, dist, 2.0, {1, 2, 3, 4, 5}, 1, 12); }
    assert asg[6] != asg[8] by { ClosedApart(index, dist, 2.0, {6, 7}, 6, 8); }
    assert asg[6] != asg[12] by { ClosedApart(index, dist, 2.0, {6, 7}, 6, 12); }
    assert asg[8] != asg[12] by { ClosedApart(index, dist, 2.0, {8, 9, 10, 11}, 8, 12); }
  }

  /** A result has as many groups as the objects have assigned groups. */
  lemma GroupsNamed(groups: seq<set<nat>>, assignation: seq<nat>, n: nat, named: set<nat>)
    requires Grouped(groups, assignation, n)
    requires forall e :: 0 <= e < n ==> assignation[e] in named
    requires forall x :: x in named ==> x < |groups|
    ensures |groups| == |named|
  {
    forall g: nat | g < |groups|
      ensures g in named
    {
      var e :| e in groups[g];
      assert e < n && assignation[e] == g;
    }
    assert Below(|groups|) == named;
    BelowSize(|groups|);
  }

  /**
   * `test_grouping`: without labels and with radius 2.0 the fixture falls
   * into exactly 5 groups.
   */
  lemma GroupingFixture(r: Result<(seq<set<nat>>, seq<set<int>>, seq<nat>)>)
    requires GroupingPromise(FixtureIndex(), FixtureDist(), 2.0, None, true, r)
    ensures r.Ok? && |r.value.0| == 5
  {
    assert r.Ok?;
    var (groups, grlabels, asg) := r.value;
    FixtureLinked(asg);
    FixtureApart(asg);
    GroupsNamed(groups, asg, 13, {asg[0], asg[1], asg[6], asg[8], asg[12]});
  }

  /** The six objects labelled 1 in the fixture. */
  lemma FixtureOnes(groups: seq<set<nat>>, asg: seq<nat>, prepared: Option<seq<set<int>>>)
    requires prepared == PrepareLabels(Some(Singles(FixtureUniquity())))
    requires Grouped(groups, asg, 13) && LabelsApart(groups, prepared)
    ensures |{asg[0], asg[1], asg[2], asg[10], asg[11], asg[12]}| == 6
  {
    forall a, b | a in {0, 1, 2, 10, 11, 12} && b in {0, 1, 2, 10, 11, 12} && a != b
      ensures asg[a] != asg[b]
    {
      assert LabelOf(prepared, a) == {1} && LabelOf(prepared, b) == {1};
      LabelsSplit(groups, asg, 13, prepared, a, b);
    }
  }

  /**
   * `test_grouping_uniq`: with the uniqueness labels the six objects labelled
   * 1 are in six different groups, so there are more than 5.
   */
  lemma GroupingFixtureUnique(r: Result<(seq<set<nat>>, seq<set<int>>, seq<nat>)>)
    requires GroupingPromise(FixtureIndex(), FixtureDist(), 2.0, Some(Singles(FixtureUniquity())), true, r)
    ensures r.Ok? && |r.value.0| > 5
  {
    var prepared := PrepareLabels(Some(Singles(FixtureUniquity())));
    assert |prepared.value| == 13;
    assert r.Ok?;
    var (groups, grlabels, asg) := r.value;
    FixtureOnes(groups, asg, prepared);
    SubsetBelow({asg[0], asg[1], asg[2], asg[10], asg[11], asg[12]}, |groups|);
  }
}
