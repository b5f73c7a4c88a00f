/**
 * Capacity planning for the particle arena, as pure specifications.
 *
 * Groups are named by strings; the default group has the empty name and id 0. Every
 * emitter adds to its group's size the number of particles it can have alive at once at
 * its peak rate, ceil(particlesPerSecond * (duration + variation) / 1000). The arena is
 * then laid out group after group, in the order in which the group table is iterated,
 * each group's start being the sum of the sizes laid out before it.
 */
module Planner {

  /** What the planner reads of an emitter: an identity, its target group name, its rate
      (particles per second) and its particle lifetime and lifetime variation (ms). */
  datatype Emitter = Emitter(
    id: nat,
    particle: string,
    particlesPerSecond: real,
    particleDuration: int,
    particleDurationVariation: int)

  /** The least integer not below `x`. */
  function Ceil(x: real): (r: int)
    ensures x <= r as real < x + 1.0
  {
    -((-x).Floor)
  }

  /** The slots one emitter adds to its group: ceil(pps * ((duration + variation) / 1000)). */
  function Demand(e: Emitter): int
  {
    Ceil(e.particlesPerSecond * ((e.particleDuration + e.particleDurationVariation) as real / 1000.0))
  }

  /** The group table while it is being built: name to id, id to size, next fresh id. */
  datatype Plan = Plan(ids: map<string, int>, sizes: map<int, int>, next: int)

  /** The table holding only the default group: name "" with id 0 and size 0. */
  function InitialPlan(): Plan
  {
    Plan(map["" := 0], map[0 := 0], 1)
  }

  /** Ids 0 .. next-1 are exactly the groups. */
  ghost predicate Dense(p: Plan)
  {
    && 1 <= p.next
    && (forall g :: g in p.sizes <==> 0 <= g < p.next)
  }

  /** The shape the planner keeps: ids 0 .. next-1 are exactly the groups, "" names group
      0, every other name a distinct non-zero group. */
  ghost predicate WellFormed(p: Plan)
  {
    && Dense(p)
    && "" in p.ids && p.ids[""] == 0
    && (forall n :: n in p.ids ==> 0 <= p.ids[n] < p.next)
    && (forall n :: n in p.ids && n != "" ==> p.ids[n] != 0)
    && (forall n, m :: n in p.ids && m in p.ids && p.ids[n] == p.ids[m] ==> n == m)
  }

  /** The emitter loop's fresh-id test: the name is unknown, or it is non-empty and
      mapped to 0 (a default entry left by a failed lookup). */
  predicate NeedsFreshId(p: Plan, name: string)
  {
    name !in p.ids || (name != "" && p.ids[name] == 0)
  }

  /** One pass of the emitter loop: give the emitter's group a fresh id if needed, then add
      the emitter's demand to that group's size. */
  function AddEmitter(p: Plan, e: Emitter): (r: Plan)
    requires Resolvable(p.ids, p.sizes.Keys)
    ensures Resolvable(r.ids, r.sizes.Keys)
    ensures Dense(p) ==> Dense(r)
    ensures e.particle in r.ids
    ensures r.next == if NeedsFreshId(p, e.particle) then p.next + 1 else p.next
  {
    var q := if NeedsFreshId(p, e.particle)
      then Plan(p.ids[e.particle := p.next], p.sizes[p.next := 0], p.next + 1)
      else p;
    assert Resolvable(q.ids, q.sizes.Keys) by {
      forall n ensures Lookup(q.ids, n) in q.sizes.Keys {
        if n != e.particle {
          assert Lookup(q.ids, n) == Lookup(p.ids, n);
        }
      }
    }
    assert Lookup(q.ids, e.particle) in q.sizes.Keys;
    var id := q.ids[e.particle];
    q.(sizes := q.sizes[id := q.sizes[id] + Demand(e)])
  }

  /** The emitter loop keeps the table's shape. */
  lemma AddEmitterWellFormed(p: Plan, e: Emitter)
    requires WellFormed(p) && Resolvable(p.ids, p.sizes.Keys)
    ensures WellFormed(AddEmitter(p, e))
  {
  }

  /** The table after the emitter loop has seen `es`, in order. */
  function PlanOf(es: seq<Emitter>): (r: Plan)
    ensures Dense(r)
    ensures Resolvable(r.ids, r.sizes.Keys)
    decreases |es|
  {
    if es == [] then
      WellFormedResolvable(InitialPlan());
      InitialPlan()
    else
      AddEmitter(PlanOf(es[..|es| - 1]), es[|es| - 1])
  }

  /** One more emitter: the table so far with that emitter added. */
  lemma PlanOfStep(es: seq<Emitter>, i: nat)
    requires i < |es|
    ensures PlanOf(es[..i + 1]) == AddEmitter(PlanOf(es[..i]), es[i])
  {
    assert es[..i + 1][..i] == es[..i];
  }

  /** Whatever the emitters, the planner leaves a well-formed table. */
  lemma {:induction false} PlanOfWellFormed(es: seq<Emitter>)
    ensures WellFormed(PlanOf(es))
    decreases |es|
  {
    if es != [] {
      PlanOfWellFormed(es[..|es| - 1]);
      AddEmitterWellFormed(PlanOf(es[..|es| - 1]), es[|es| - 1]);
    }
  }

  /** Inside the planner the second half of the fresh-id test never fires: a fresh table
      maps no non-empty name to 0, so a group gets a fresh id exactly when its name is new. */
  lemma {:induction false} StaleDefaultEntryNeverSeen(es: seq<Emitter>, name: string)
    ensures NeedsFreshId(PlanOf(es), name) <==> name !in PlanOf(es).ids
  {
    PlanOfWellFormed(es);
  }

  // ---------------------------------------------------------------------------------
  // Reference definitions in terms of the emitter list alone

  /** The distinct non-empty group names of `es`, in order of first appearance. */
  function FreshNames(es: seq<Emitter>): (r: seq<string>)
    decreases |es|
  {
    if es == [] then []
    else
      var prev := FreshNames(es[..|es| - 1]);
      var name := es[|es| - 1].particle;
      if name == "" || name in prev then prev else prev + [name]
  }

  /** The total demand of the emitters in `es` that target the group named `name`. */
  function GroupDemand(es: seq<Emitter>, name: string): int
    decreases |es|
  {
    if es == [] then 0
    else
      var e := es[|es| - 1];
      GroupDemand(es[..|es| - 1], name) + (if e.particle == name then Demand(e) else 0)
  }

  /** The total demand of all emitters in `es`. */
  function TotalDemand(es: seq<Emitter>): int
    decreases |es|
  {
    if es == [] then 0 else TotalDemand(es[..|es| - 1]) + Demand(es[|es| - 1])
  }

  /** Group ids are handed out 1, 2, … to the new non-empty names in the order the
      emitters are listed; the name table holds exactly "" and those names. */
  lemma {:induction false} IdsFollowFirstAppearance(es: seq<Emitter>)
    ensures PlanOf(es).next == |FreshNames(es)| + 1
    ensures forall n :: n in PlanOf(es).ids <==> n == "" || n in FreshNames(es)
    ensures forall k :: 0 <= k < |FreshNames(es)| ==>
      FreshNames(es)[k] in PlanOf(es).ids && PlanOf(es).ids[FreshNames(es)[k]] == k + 1
    decreases |es|
  {
    if es != [] {
      var pre := es[..|es| - 1];
      IdsFollowFirstAppearance(pre);
      PlanOfWellFormed(pre);
      var name := es[|es| - 1].particle;
      StaleDefaultEntryNeverSeen(pre, name);
    }
  }

  /** Each group's planned size is the total demand of the emitters that target it, and a
      name no emitter targets has no demand. */
  lemma {:induction false} SizeIsGroupDemand(es: seq<Emitter>)
    ensures forall n :: n in PlanOf(es).ids ==> PlanOf(es).sizes[PlanOf(es).ids[n]] == GroupDemand(es, n)
    ensures forall n :: n !in PlanOf(es).ids ==> GroupDemand(es, n) == 0
    decreases |es|
  {
    if es != [] {
      var pre := es[..|es| - 1];
      SizeIsGroupDemand(pre);
      PlanOfWellFormed(pre);
      StaleDefaultEntryNeverSeen(pre, es[|es| - 1].particle);
    }
  }

  /** The sum of the sizes of groups 0 .. n-1. */
  function SumRange(sizes: map<int, int>, n: nat): int
    requires forall g :: 0 <= g < n ==> g in sizes
  {
    if n == 0 then 0 else SumRange(sizes, n - 1) + sizes[n - 1]
  }

  /** Raising one group's size by `c` raises the sum by `c`. */
  lemma {:induction false} SumRangeBump(sizes: map<int, int>, n: nat, id: int, c: int)
    requires forall g :: 0 <= g < n ==> g in sizes
    requires 0 <= id < n
    ensures SumRange(sizes[id := sizes[id] + c], n) == SumRange(sizes, n) + c
  {
    if n - 1 != id {
      SumRangeBump(sizes, n - 1, id, c);
    } else {
      SumRangeAgree(sizes, sizes[id := sizes[id] + c], n - 1);
    }
  }

  /** Sums over the first n groups depend only on those groups' sizes. */
  lemma {:induction false} SumRangeAgree(a: map<int, int>, b: map<int, int>, n: nat)
    requires forall g :: 0 <= g < n ==> g in a && g in b && a[g] == b[g]
    ensures SumRange(a, n) == SumRange(b, n)
  {
    if n > 0 {
      SumRangeAgree(a, b, n - 1);
    }
  }

  /** One emitter raises the sum of all group sizes by its demand. */
  lemma AddEmitterSum(p: Plan, e: Emitter)
    requires WellFormed(p) && Resolvable(p.ids, p.sizes.Keys)
    ensures SumRange(AddEmitter(p, e).sizes, AddEmitter(p, e).next) == SumRange(p.sizes, p.next) + Demand(e)
  {
    if NeedsFreshId(p, e.particle) {
      var sizes := p.sizes[p.next := 0];
      SumRangeAgree(p.sizes, sizes, p.next);
      assert SumRange(sizes, p.next + 1) == SumRange(p.sizes, p.next);
      SumRangeBump(sizes, p.next + 1, p.next, Demand(e));
    } else {
      SumRangeBump(p.sizes, p.next, p.ids[e.particle], Demand(e));
    }
  }

  /** The sizes of all planned groups add up to the demand of all emitters. */
  lemma {:induction false} SizesSumToTotalDemand(es: seq<Emitter>)
    ensures SumRange(PlanOf(es).sizes, PlanOf(es).next) == TotalDemand(es)
    decreases |es|
  {
    if es != [] {
      var pre := es[..|es| - 1];
      SizesSumToTotalDemand(pre);
      PlanOfWellFormed(pre);
      AddEmitterSum(PlanOf(pre), es[|es| - 1]);
    }
  }

  /** With no emitter demanding a negative count, no group's size is negative. */
  lemma {:induction false} SizesNonNegative(es: seq<Emitter>)
    requires forall i :: 0 <= i < |es| ==> Demand(es[i]) >= 0
    ensures forall g :: g in PlanOf(es).sizes ==> PlanOf(es).sizes[g] >= 0
    decreases |es|
  {
    if es != [] {
      SizesNonNegative(es[..|es| - 1]);
      PlanOfWellFormed(es[..|es| - 1]);
    }
  }

  // ---------------------------------------------------------------------------------
  // Arena layout in table-iteration order

  /** The order visits every key of `keys` exactly once: how the group table is iterated. */
  predicate Enumerates(order: seq<int>, keys: set<int>)
  {
    && (forall k :: 0 <= k < |order| ==> order[k] in keys)
    && (forall g :: g in keys ==> g in order)
    && (forall j, k :: 0 <= j < k < |order| ==> order[j] != order[k])
  }

  /** The order visits each of 0 .. n-1 exactly once. */
  ghost predicate EnumeratesRange(order: seq<int>, n: int)
  {
    && (forall k :: 0 <= k < |order| ==> 0 <= order[k] < n)
    && (forall g :: 0 <= g < n ==> g in order)
    && (forall j, k :: 0 <= j < k < |order| ==> order[j] != order[k])
  }

  /** Every group the order visits has a size. */
  predicate Covers(order: seq<int>, sizes: map<int, int>)
  {
    forall k :: 0 <= k < |order| ==> order[k] in sizes
  }

  predicate NonNegative(sizes: map<int, int>)
  {
    forall g :: g in sizes ==> sizes[g] >= 0
  }

  /** The running total of the sizes of the groups in `order`: the start offset of the
      group that comes next. */
  function SumOver(order: seq<int>, sizes: map<int, int>): int
    requires Covers(order, sizes)
    decreases |order|
  {
    if order == [] then 0 else SumOver(order[..|order| - 1], sizes) + sizes[order[|order| - 1]]
  }

  /** The start offset of the k-th group visited. */
  function StartAt(order: seq<int>, sizes: map<int, int>, k: nat): int
    requires Covers(order, sizes) && k <= |order|
  {
    SumOver(order[..k], sizes)
  }

  /** The next start is this start plus this group's size. */
  lemma StartAtStep(order: seq<int>, sizes: map<int, int>, k: nat)
    requires Covers(order, sizes) && k < |order|
    ensures StartAt(order, sizes, k + 1) == StartAt(order, sizes, k) + sizes[order[k]]
  {
    assert order[..k + 1][..k] == order[..k];
  }

  /** With non-negative sizes, starts never decrease along the order. */
  lemma {:induction false} StartAtMonotone(order: seq<int>, sizes: map<int, int>, j: nat, k: nat)
    requires Covers(order, sizes) && NonNegative(sizes)
    requires j <= k <= |order|
    ensures StartAt(order, sizes, j) <= StartAt(order, sizes, k)
    decreases k - j
  {
    if j < k {
      StartAtStep(order, sizes, j);
      var g := order[j];
      assert sizes[g] >= 0;
      StartAtMonotone(order, sizes, j + 1, k);
    }
  }

  /** The arena slot `x` belongs to the group visited at the returned position. */
  function OwnerOf(order: seq<int>, sizes: map<int, int>, x: int): (k: nat)
    requires Covers(order, sizes) && NonNegative(sizes)
    requires 0 <= x < SumOver(order, sizes)
    ensures k < |order|
    ensures StartAt(order, sizes, k) <= x < StartAt(order, sizes, k) + sizes[order[k]]
    decreases |order|
  {
    var n := |order| - 1;
    var pre := order[..n];
    assert order[..|order|] == order;
    if x >= SumOver(pre, sizes) then
      n
    else
      var k := OwnerOf(pre, sizes, x);
      assert pre[..k] == order[..k];
      assert pre[..k + 1] == order[..k + 1];
      StartAtStep(pre, sizes, k);
      StartAtStep(order, sizes, k);
      k
  }

  /** Laid out in any iteration order, with non-negative sizes, the group ranges
      [start, start + size) lie inside [0, total) and are pairwise disjoint; with OwnerOf,
      which finds a range holding any slot of [0, total), they partition the arena. */
  lemma {:induction false} LayoutPartitionsArena(order: seq<int>, sizes: map<int, int>)
    requires Covers(order, sizes) && NonNegative(sizes)
    ensures forall k :: 0 <= k < |order| ==>
      0 <= StartAt(order, sizes, k) && StartAt(order, sizes, k) + sizes[order[k]] <= SumOver(order, sizes)
    ensures forall j, k :: 0 <= j < k < |order| ==>
      StartAt(order, sizes, j) + sizes[order[j]] <= StartAt(order, sizes, k)
  {
    assert order[..|order|] == order;
    forall k | 0 <= k < |order|
      ensures 0 <= StartAt(order, sizes, k) && StartAt(order, sizes, k) + sizes[order[k]] <= SumOver(order, sizes)
    {
      StartAtMonotone(order, sizes, 0, k);
      StartAtStep(order, sizes, k);
      StartAtMonotone(order, sizes, k + 1, |order|);
    }
    forall j, k | 0 <= j < k < |order|
      ensures StartAt(order, sizes, j) + sizes[order[j]] <= StartAt(order, sizes, k)
    {
      StartAtStep(order, sizes, j);
      StartAtMonotone(order, sizes, j + 1, k);
    }
  }

  /** A slot lies in exactly one group's range: every range that holds `x` is OwnerOf's. */
  lemma {:induction false} OwnerIsUnique(order: seq<int>, sizes: map<int, int>, x: int, k: nat)
    requires Covers(order, sizes) && NonNegative(sizes)
    requires k < |order| && StartAt(order, sizes, k) <= x < StartAt(order, sizes, k) + sizes[order[k]]
    ensures 0 <= x < SumOver(order, sizes)
    ensures OwnerOf(order, sizes, x) == k
  {
    LayoutPartitionsArena(order, sizes);
    var o := OwnerOf(order, sizes, x);
  }

  /** Taking one group out of the order lowers the total by that group's size. */
  lemma {:induction false} SumOverRemove(order: seq<int>, sizes: map<int, int>, j: nat)
    requires Covers(order, sizes) && j < |order|
    ensures Covers(order[..j] + order[j + 1..], sizes)
    ensures SumOver(order, sizes) == SumOver(order[..j] + order[j + 1..], sizes) + sizes[order[j]]
    decreases |order|
  {
    var n := |order| - 1;
    var rest := order[..j] + order[j + 1..];
    assert forall i :: 0 <= i < |rest| ==> rest[i] == (if i < j then order[i] else order[i + 1]);
    if j == n {
      assert rest == order[..n];
    } else {
      var pre := order[..n];
      SumOverRemove(pre, sizes, j);
      var preRest := pre[..j] + pre[j + 1..];
      assert rest[..|rest| - 1] == preRest;
      assert rest[|rest| - 1] == order[n];
    }
  }

  /** Taking the last group out of an enumeration of 0 .. n-1 leaves one of 0 .. n-2. */
  lemma RemoveLastGroup(order: seq<int>, n: nat, j: nat)
    requires 0 < n && EnumeratesRange(order, n)
    requires j < |order| && order[j] == n - 1
    ensures EnumeratesRange(order[..j] + order[j + 1..], n - 1)
  {
    var rest := order[..j] + order[j + 1..];
    assert forall i :: 0 <= i < |rest| ==> rest[i] == (if i < j then order[i] else order[i + 1]);
    forall g | 0 <= g < n - 1
      ensures g in rest
    {
      assert g in order;
      var i :| 0 <= i < |order| && order[i] == g;
      if i < j { assert rest[i] == g; } else { assert rest[i - 1] == g; }
    }
    forall k | 0 <= k < |rest|
      ensures 0 <= rest[k] < n - 1
    {
      if k < j { assert order[k] != order[j]; } else { assert order[k + 1] != order[j]; }
    }
    forall a, b | 0 <= a < b < |rest|
      ensures rest[a] != rest[b]
    {
      var a' := if a < j then a else a + 1;
      var b' := if b < j then b else b + 1;
      assert rest[a] == order[a'] && rest[b] == order[b'];
    }
  }

  /** The arena total does not depend on the iteration order: it is the sum of the sizes of
      groups 0 .. n-1, whichever order enumerates them. */
  lemma {:induction false} SumOverAnyOrder(order: seq<int>, sizes: map<int, int>, n: nat)
    requires EnumeratesRange(order, n)
    requires forall g :: 0 <= g < n ==> g in sizes
    ensures Covers(order, sizes)
    ensures SumOver(order, sizes) == SumRange(sizes, n)
    decreases n
  {
    if n == 0 {
      if order != [] {
        assert false;
      }
    } else {
      assert n - 1 in order;
      var j :| 0 <= j < |order| && order[j] == n - 1;
      RemoveLastGroup(order, n, j);
      SumOverAnyOrder(order[..j] + order[j + 1..], sizes, n - 1);
      SumOverRemove(order, sizes, j);
    }
  }

  /** The arena size for a plan laid out in any enumeration of its groups is the demand of
      all emitters. */
  lemma ArenaSizeIsTotalDemand(es: seq<Emitter>, order: seq<int>)
    requires Enumerates(order, PlanOf(es).sizes.Keys)
    ensures Covers(order, PlanOf(es).sizes)
    ensures SumOver(order, PlanOf(es).sizes) == TotalDemand(es)
  {
    var p := PlanOf(es);
    PlanOfWellFormed(es);
    assert EnumeratesRange(order, p.next);
    SumOverAnyOrder(order, p.sizes, p.next);
    SizesSumToTotalDemand(es);
  }

  // ---------------------------------------------------------------------------------
  // Particle-type counts

  /** QHash operator[] on the name table: the id of a known name, otherwise 0 (and the
      source then records that 0 for the name). */
  function Lookup(ids: map<string, int>, name: string): int
  {
    if name in ids then ids[name] else 0
  }

  /** Every name resolves through `ids` to a group of `keys`: a known name to its id, any
      other to the default group 0. */
  ghost predicate Resolvable(ids: map<string, int>, keys: set<int>)
  {
    && 0 in keys
    && forall n :: n in ids ==> ids[n] in keys
  }

  /** In a well-formed table every name resolves to a planned group. */
  lemma WellFormedResolvable(p: Plan)
    requires WellFormed(p)
    ensures Resolvable(p.ids, p.sizes.Keys)
  {
    forall n ensures Lookup(p.ids, n) in p.sizes.Keys {
      if n in p.ids {
        assert 0 <= p.ids[n] < p.next;
      }
    }
  }

  /** The sum, over a type's listed group names, of the sizes they resolve to. */
  function TargetSum(names: seq<string>, p: Plan): int
    requires Resolvable(p.ids, p.sizes.Keys)
    decreases |names|
  {
    if names == [] then 0
    else TargetSum(names[..|names| - 1], p) + p.sizes[Lookup(p.ids, names[|names| - 1])]
  }

  /** A type's particle count: the default group's size when it lists no names,
      otherwise the sum over its names. */
  function TypeCount(names: seq<string>, p: Plan): int
    requires Resolvable(p.ids, p.sizes.Keys)
  {
    if names == [] then p.sizes[0] else TargetSum(names, p)
  }

  /** The name a type's listed name resolves to: itself when an emitter targets it, the
      default group's "" otherwise, as an unknown name reads 0 from the name table. */
  function Resolve(es: seq<Emitter>, name: string): string
  {
    if name in PlanOf(es).ids then name else ""
  }

  /** The demand the listed names account for, in terms of the emitters alone. */
  function NamesDemand(es: seq<Emitter>, names: seq<string>): int
    decreases |names|
  {
    if names == [] then 0
    else NamesDemand(es, names[..|names| - 1]) + GroupDemand(es, Resolve(es, names[|names| - 1]))
  }

  /** The listed names account for the demand of the emitters feeding the groups they
      resolve to. */
  lemma {:induction false} TargetSumIsDemand(es: seq<Emitter>, names: seq<string>)
    ensures TargetSum(names, PlanOf(es)) == NamesDemand(es, names)
    decreases |names|
  {
    if names != [] {
      var p := PlanOf(es);
      var name := names[|names| - 1];
      TargetSumIsDemand(es, names[..|names| - 1]);
      SizeIsGroupDemand(es);
      PlanOfWellFormed(es);
      assert p.ids[""] == 0;
      if name in p.ids {
        assert p.sizes[p.ids[name]] == GroupDemand(es, name);
      } else {
        assert p.sizes[p.ids[""]] == GroupDemand(es, "");
      }
    }
  }

  /** A type's count is the demand of the emitters feeding the groups it reads: the default
      group's emitters if it lists no names, and for each listed name the emitters of that
      group, or those of the default group when no emitter targets that name. */
  lemma TypeCountIsDemand(es: seq<Emitter>, names: seq<string>)
    ensures TypeCount(names, PlanOf(es)) ==
      if names == [] then GroupDemand(es, "") else NamesDemand(es, names)
  {
    var p := PlanOf(es);
    SizeIsGroupDemand(es);
    PlanOfWellFormed(es);
    assert p.ids[""] == 0;
    assert p.sizes[p.ids[""]] == GroupDemand(es, "");
    TargetSumIsDemand(es, names);
  }

  /** The one-emitter scenario: 10 particles per second living 2000 ms, on the default
      group, gives the default group 20 slots, and a type with no group list counts 20. */
  lemma DefaultScenario()
    ensures PlanOf([Emitter(0, "", 10.0, 2000, 0)]).sizes[0] == 20
    ensures TypeCount([], PlanOf([Emitter(0, "", 10.0, 2000, 0)])) == 20
  {
    var es := [Emitter(0, "", 10.0, 2000, 0)];
    assert es[..0] == [];
    assert Demand(es[0]) == 20 by {
      assert 10.0 * ((2000 + 0) as real / 1000.0) == 20.0;
    }
  }
}
