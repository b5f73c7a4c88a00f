/**
 * The particle system's bookkeeping: the shared arena of particle records, the group
 * table built by the capacity planner, the ring-cursor allocator, the per-frame
 * synchroniser and the kinematic accessors of a particle record.
 *
 * Emitters, affectors and particle types are collaborators whose own code is not part of
 * this model. What the system asks of them (emitWindow, affectSystem, reset, update, load,
 * reload) is recorded, in order, as events on the ghost `trace`; what it reads of them
 * (an emitter's rate and target group, an affector's reset flag, a type's group list) is
 * plain data; what it writes into a type (its count and its reset request) are fields.
 */
module ParticleSystems {
  import opened Kinematics
  import opened Ring
  import opened Planner
  import opened FrameSync

  /** A particle's motion descriptor: reference time `t` (seconds), position, velocity and
      acceleration per axis at that time, and its start and end sizes. */
  datatype Vertex = Vertex(
    x: real, y: real, t: real, size: real, endSize: real,
    sx: real, sy: real, ax: real, ay: real)

  /** The descriptor of a freshly constructed record (reference time -1, all else 0). */
  const InitialVertex: Vertex := Vertex(0.0, 0.0, -1.0, 0.0, 0.0, 0.0, 0.0, 0.0, 0.0)

  function XAxis(v: Vertex): Axis { Axis(v.x, v.sx, v.ax) }
  function YAxis(v: Vertex): Axis { Axis(v.y, v.sy, v.ay) }

  /** `v` with its x axis replaced by `m`. */
  function WithXAxis(v: Vertex, m: Axis): (w: Vertex)
    ensures XAxis(w) == m && YAxis(w) == YAxis(v)
    ensures w.t == v.t && w.size == v.size && w.endSize == v.endSize
  {
    v.(x := m.pos, sx := m.vel, ax := m.acc)
  }

  /** `v` with its y axis replaced by `m`. */
  function WithYAxis(v: Vertex, m: Axis): (w: Vertex)
    ensures YAxis(w) == m && XAxis(w) == XAxis(v)
    ensures w.t == v.t && w.size == v.size && w.endSize == v.endSize
  {
    v.(y := m.pos, sy := m.vel, ay := m.acc)
  }

  /** What the system reads of an affector: an identity and its one-time reset request. */
  datatype Affector = Affector(id: nat, needsReset: bool)

  /** A call the system makes into a collaborator. */
  datatype Event =
    | TypeReset(particleType: ParticleType)
    | EmitterReset(emitter: Emitter)
    | TypeUpdate(particleType: ParticleType)
    | EmitWindow(emitter: Emitter, time: int)
    | AffectSystem(affector: Affector, dt: real)
    | AffectorResetAt(affector: Affector, index: int)
    | Load(particleType: ParticleType, datum: ParticleData)
    | Reload(particleType: ParticleType, datum: ParticleData)

  /** Each emitter, in order, asked to emit for the window ending at `now`. */
  function EmitCalls(es: seq<Emitter>, now: int): (r: seq<Event>)
    ensures |r| == |es| && forall i :: 0 <= i < |es| ==> r[i] == EmitWindow(es[i], now)
    decreases |es|
  {
    if es == [] then [] else EmitCalls(es[..|es| - 1], now) + [EmitWindow(es[|es| - 1], now)]
  }

  /** Each affector, in order, asked to act for a step of `dt` seconds. */
  function AffectCalls(affectors: seq<Affector>, dt: real): (r: seq<Event>)
    ensures |r| == |affectors| && forall i :: 0 <= i < |affectors| ==> r[i] == AffectSystem(affectors[i], dt)
    decreases |affectors|
  {
    if affectors == [] then []
    else AffectCalls(affectors[..|affectors| - 1], dt) + [AffectSystem(affectors[|affectors| - 1], dt)]
  }

  /** Each emitter, in order, asked to reset. */
  function EmitterResetCalls(es: seq<Emitter>): (r: seq<Event>)
    ensures |r| == |es| && forall i :: 0 <= i < |es| ==> r[i] == EmitterReset(es[i])
    decreases |es|
  {
    if es == [] then [] else EmitterResetCalls(es[..|es| - 1]) + [EmitterReset(es[|es| - 1])]
  }

  /** Each type, in order, asked to reset. */
  function TypeResetCalls(ts: seq<ParticleType>): (r: seq<Event>)
    ensures |r| == |ts| && forall i :: 0 <= i < |ts| ==> r[i] == TypeReset(ts[i])
    decreases |ts|
  {
    if ts == [] then [] else TypeResetCalls(ts[..|ts| - 1]) + [TypeReset(ts[|ts| - 1])]
  }

  /** Each type, in order, asked to redraw. */
  function TypeUpdateCalls(ts: seq<ParticleType>): (r: seq<Event>)
    ensures |r| == |ts| && forall i :: 0 <= i < |ts| ==> r[i] == TypeUpdate(ts[i])
    decreases |ts|
  {
    if ts == [] then [] else TypeUpdateCalls(ts[..|ts| - 1]) + [TypeUpdate(ts[|ts| - 1])]
  }

  /** Each type, in order, asked to load the new particle `d`. */
  function LoadCalls(ts: seq<ParticleType>, d: ParticleData): (r: seq<Event>)
    ensures |r| == |ts| && forall i :: 0 <= i < |ts| ==> r[i] == Load(ts[i], d)
    decreases |ts|
  {
    if ts == [] then [] else LoadCalls(ts[..|ts| - 1], d) + [Load(ts[|ts| - 1], d)]
  }

  /** Each type, in order, asked to reload the reset particle `d`. */
  function ReloadCalls(ts: seq<ParticleType>, d: ParticleData): (r: seq<Event>)
    ensures |r| == |ts| && forall i :: 0 <= i < |ts| ==> r[i] == Reload(ts[i], d)
    decreases |ts|
  {
    if ts == [] then [] else ReloadCalls(ts[..|ts| - 1], d) + [Reload(ts[|ts| - 1], d)]
  }

  /** The per-index reset hook of every affector that asks for one, in list order. */
  function AffectorResets(affectors: seq<Affector>, index: int): (r: seq<Event>)
    ensures forall i :: 0 <= i < |r| ==> r[i].AffectorResetAt? && r[i].index == index && r[i].affector.needsReset
    decreases |affectors|
  {
    if affectors == [] then []
    else
      var a := affectors[|affectors| - 1];
      AffectorResets(affectors[..|affectors| - 1], index) + if a.needsReset then [AffectorResetAt(a, index)] else []
  }

  /** The resets of two lists run one after the other are those of the first, then those
      of the second. */
  lemma {:induction false} AffectorResetsConcat(a: seq<Affector>, b: seq<Affector>, index: int)
    ensures AffectorResets(a + b, index) == AffectorResets(a, index) + AffectorResets(b, index)
    decreases |b|
  {
    if b == [] {
      assert a + b == a;
    } else {
      var n := |b| - 1;
      assert (a + b)[..|a + b| - 1] == a + b[..n];
      AffectorResetsConcat(a, b[..n], index);
      var last := if b[n].needsReset then [AffectorResetAt(b[n], index)] else [];
      Regroup(AffectorResets(a, index), AffectorResets(b[..n], index), last);
    }
  }

  /** Each affector contributes exactly its own reset, if it asks for one, and in its place
      in the list: after the resets of the affectors before it and before those after it. */
  lemma AffectorResetsAt(affectors: seq<Affector>, i: nat, index: int)
    requires i < |affectors|
    ensures AffectorResets(affectors, index) ==
      AffectorResets(affectors[..i], index)
        + (if affectors[i].needsReset then [AffectorResetAt(affectors[i], index)] else [])
        + AffectorResets(affectors[i + 1..], index)
  {
    var a := affectors[i];
    assert affectors == affectors[..i] + [a] + affectors[i + 1..];
    AffectorResetsConcat(affectors[..i] + [a], affectors[i + 1..], index);
    AffectorResetsConcat(affectors[..i], [a], index);
    assert [a][..0] == [];
  }

  /** One group's entry in the table: how many slots it owns, where they start in the
      arena, the allocation cursor, and the types that consume the group. */
  datatype GroupData = GroupData(size: int, start: int, nextIdx: int, types: seq<ParticleType>)

  /** The fresh entry the planner creates for a group. */
  const BlankGroup: GroupData := GroupData(0, -1, 0, [])

  /** A consumer of particles. `particles` is the list of group names it reads (empty:
      the default group); the system writes its particle count and its reset request. */
  class ParticleType {
    const particles: seq<string>
    var count: int
    var pleaseReset: bool

    constructor (groups: seq<string>)
      ensures particles == groups && count == 0 && !pleaseReset
    {
      particles := groups;
      count := 0;
      pleaseReset := false;
    }
  }

  /** The planner has set up type `t`: its count is that of the groups it reads, and it
      has been asked to reset. */
  ghost predicate TypeReady(t: ParticleType, plan: Plan)
    reads t`count, t`pleaseReset
    requires Resolvable(plan.ids, plan.sizes.Keys)
  {
    t.count == TypeCount(t.particles, plan) && t.pleaseReset
  }

  /** The copies of `t` that consuming the groups named `names` attaches to group `g`:
      one for each listed name that resolves to `g` (unknown names resolve to 0). */
  function Hits(t: ParticleType, names: seq<string>, ids: map<string, int>, g: int): seq<ParticleType>
    decreases |names|
  {
    if names == [] then []
    else Hits(t, names[..|names| - 1], ids, g) + if Lookup(ids, names[|names| - 1]) == g then [t] else []
  }

  /** The copies of `t` attached to group `g`: to group 0 once if it lists no groups. */
  function TargetsOf(t: ParticleType, ids: map<string, int>, g: int): seq<ParticleType>
  {
    if t.particles == [] then (if g == 0 then [t] else []) else Hits(t, t.particles, ids, g)
  }

  /** The types attached to group `g` after the type loop has seen `ts`, in order. */
  function Subscribers(ts: seq<ParticleType>, ids: map<string, int>, g: int): seq<ParticleType>
    decreases |ts|
  {
    if ts == [] then []
    else Subscribers(ts[..|ts| - 1], ids, g) + TargetsOf(ts[|ts| - 1], ids, g)
  }

  /** The names of `names`, as a set. */
  function Elements(names: seq<string>): (r: set<string>)
    ensures forall i :: 0 <= i < |names| ==> names[i] in r
    ensures forall n :: n in r ==> n in names
  {
    set i | 0 <= i < |names| :: names[i]
  }

  /** The table after `t` has been appended to the type list of the group each of
      `names` resolves to, in order. */
  function AttachNames(groups: map<int, GroupData>, t: ParticleType, names: seq<string>, ids: map<string, int>)
    : (r: map<int, GroupData>)
    requires Resolvable(ids, groups.Keys)
    ensures r.Keys == groups.Keys
    decreases |names|
  {
    if names == [] then groups
    else
      var r := AttachNames(groups, t, names[..|names| - 1], ids);
      var g := Lookup(ids, names[|names| - 1]);
      r[g := r[g].(types := r[g].types + [t])]
  }

  /** The table after type `t` has been attached: to the default group when it lists no
      group, otherwise once per listed name. */
  function AttachedTable(groups: map<int, GroupData>, t: ParticleType, ids: map<string, int>)
    : (r: map<int, GroupData>)
    requires Resolvable(ids, groups.Keys)
  {
    if t.particles == [] then groups[0 := groups[0].(types := groups[0].types + [t])]
    else AttachNames(groups, t, t.particles, ids)
  }

  /** Attaching by names only extends type lists: group `g` gains one copy of `t` per
      name resolving to `g`, in order, and keeps its size, start and cursor. */
  lemma {:induction false} AttachNamesAppends(groups: map<int, GroupData>, t: ParticleType, names: seq<string>, ids: map<string, int>)
    requires Resolvable(ids, groups.Keys)
    ensures forall g :: g in groups ==>
      AttachNames(groups, t, names, ids)[g] == groups[g].(types := groups[g].types + Hits(t, names, ids, g))
    decreases |names|
  {
    if names != [] {
      var n := |names| - 1;
      AttachNamesAppends(groups, t, names[..n], ids);
      forall g | g in groups
        ensures AttachNames(groups, t, names, ids)[g] == groups[g].(types := groups[g].types + Hits(t, names, ids, g))
      {
        Regroup(groups[g].types, Hits(t, names[..n], ids, g), [t]);
      }
    }
  }

  /** Attaching a type extends each group's list by exactly the copies TargetsOf names,
      and changes nothing else. */
  lemma AttachedTableAppends(groups: map<int, GroupData>, t: ParticleType, ids: map<string, int>)
    requires Resolvable(ids, groups.Keys)
    ensures AttachedTable(groups, t, ids).Keys == groups.Keys
    ensures forall g :: g in groups ==>
      AttachedTable(groups, t, ids)[g] == groups[g].(types := groups[g].types + TargetsOf(t, ids, g))
  {
    if t.particles != [] {
      AttachNamesAppends(groups, t, t.particles, ids);
    } else {
      forall g | g in groups && g != 0
        ensures AttachedTable(groups, t, ids)[g] == groups[g].(types := groups[g].types + TargetsOf(t, ids, g))
      {
        assert groups[g].types + [] == groups[g].types;
      }
    }
  }

  /** The table after the types `ts` have been attached, in order. */
  function SubscribedTable(groups: map<int, GroupData>, ts: seq<ParticleType>, ids: map<string, int>)
    : (r: map<int, GroupData>)
    requires Resolvable(ids, groups.Keys)
    ensures r.Keys == groups.Keys
    decreases |ts|
  {
    if ts == [] then groups
    else
      var r := SubscribedTable(groups, ts[..|ts| - 1], ids);
      AttachedTableAppends(r, ts[|ts| - 1], ids);
      AttachedTable(r, ts[|ts| - 1], ids)
  }

  /** One more type: the table so far with that type attached. */
  lemma SubscribedTableStep(groups: map<int, GroupData>, ts: seq<ParticleType>, t: nat, ids: map<string, int>)
    requires Resolvable(ids, groups.Keys) && t < |ts|
    ensures Resolvable(ids, SubscribedTable(groups, ts[..t], ids).Keys)
    ensures SubscribedTable(groups, ts[..t + 1], ids) == AttachedTable(SubscribedTable(groups, ts[..t], ids), ts[t], ids)
  {
    assert ts[..t + 1][..t] == ts[..t];
  }

  /** After the type loop each group's list has gained exactly its subscribers, in type
      order, and nothing else about the group has changed. */
  lemma {:induction false} SubscribedTableAppends(groups: map<int, GroupData>, ts: seq<ParticleType>, ids: map<string, int>)
    requires Resolvable(ids, groups.Keys)
    ensures forall g :: g in groups ==>
      SubscribedTable(groups, ts, ids)[g] == groups[g].(types := groups[g].types + Subscribers(ts, ids, g))
    decreases |ts|
  {
    if ts != [] {
      var n := |ts| - 1;
      var r := SubscribedTable(groups, ts[..n], ids);
      SubscribedTableAppends(groups, ts[..n], ids);
      AttachedTableAppends(r, ts[n], ids);
      forall g | g in groups
        ensures SubscribedTable(groups, ts, ids)[g] == groups[g].(types := groups[g].types + Subscribers(ts, ids, g))
      {
        Regroup(groups[g].types, Subscribers(ts[..n], ids, g), TargetsOf(ts[n], ids, g));
      }
    }
  }

  /** A group table laid out in `order`: the groups of `sizes`, with those sizes, cursors
      at 0, and each group starting at the sum of the sizes before it in `order`. */
  ghost predicate PlacedTable(groups: map<int, GroupData>, order: seq<int>, sizes: map<int, int>)
  {
    && groups.Keys == sizes.Keys
    && Covers(order, sizes)
    && (forall g :: g in groups ==> groups[g].size == sizes[g] && groups[g].nextIdx == 0)
    && (forall k :: 0 <= k < |order| ==> groups[order[k]].start == StartAt(order, sizes, k))
  }

  /** Attaching types to a laid-out table with no types yet keeps the layout and leaves
      each group's list holding exactly its subscribers, in type order. */
  lemma AttachToLaidOut(groups: map<int, GroupData>, ts: seq<ParticleType>, ids: map<string, int>,
                        order: seq<int>, sizes: map<int, int>)
    requires Resolvable(ids, groups.Keys)
    requires PlacedTable(groups, order, sizes)
    requires forall g :: g in groups ==> groups[g].types == []
    ensures PlacedTable(SubscribedTable(groups, ts, ids), order, sizes)
    ensures forall g :: g in groups ==> SubscribedTable(groups, ts, ids)[g].types == Subscribers(ts, ids, g)
  {
    SubscribedTableAppends(groups, ts, ids);
    var r := SubscribedTable(groups, ts, ids);
    forall k | 0 <= k < |order|
      ensures r[order[k]].start == StartAt(order, sizes, k)
    {
      var g := order[k];
      assert r[g].start == groups[g].start;
    }
    forall g | g in groups
      ensures r[g].types == Subscribers(ts, ids, g)
    {
      assert [] + Subscribers(ts, ids, g) == Subscribers(ts, ids, g);
    }
  }

  /** One more name adds that name. */
  lemma ElementsStep(names: seq<string>, j: nat)
    requires j < |names|
    ensures Elements(names[..j + 1]) == Elements(names[..j]) + {names[j]}
  {
    assert names[..j + 1] == names[..j] + [names[j]];
  }

  /** Every group name some type in `ts` lists. */
  function TypeNames(ts: seq<ParticleType>): set<string>
    decreases |ts|
  {
    if ts == [] then {} else TypeNames(ts[..|ts| - 1]) + Elements(ts[|ts| - 1].particles)
  }

  /** Taking one more type adds its names. */
  lemma TypeNamesStep(ts: seq<ParticleType>, t: nat)
    requires t < |ts|
    ensures TypeNames(ts[..t + 1]) == TypeNames(ts[..t]) + Elements(ts[t].particles)
  {
    assert ts[..t + 1][..t] == ts[..t];
  }

  /** QVector::resize: keep the first `n` slots, pad with empty slots. */
  function Resized(s: seq<ParticleData?>, n: nat): (r: seq<ParticleData?>)
    ensures |r| == n
    ensures forall i :: 0 <= i < n && i < |s| ==> r[i] == s[i]
    ensures forall i :: |s| <= i < n ==> r[i] == null
  {
    if n <= |s| then s[..n] else s + seq(n - |s|, _ => null)
  }

  /** A particle record. It lives in one arena slot and is recycled in place. */
  class ParticleData {
    var system: ParticleSystem?
    var group: int
    var particleIndex: int
    var systemIndex: int
    var pv: Vertex

    constructor ()
      ensures system == null && group == 0 && particleIndex == 0 && systemIndex == 0
      ensures pv == InitialVertex
    {
      system := null;
      group := 0;
      particleIndex := 0;
      systemIndex := 0;
      pv := InitialVertex;
    }

    /** Seconds since the descriptor's reference time, at the system's current time. */
    function Age(): real
      reads this, system
      requires system != null
    {
      Kinematics.Age(system.timeInt, pv.t)
    }

    function CurX(): real
      reads this, system
      requires system != null
    {
      PositionAt(XAxis(pv), Age())
    }

    function CurSX(): real
      reads this, system
      requires system != null
    {
      VelocityAt(XAxis(pv), Age())
    }

    function CurY(): real
      reads this, system
      requires system != null
    {
      PositionAt(YAxis(pv), Age())
    }

    function CurSY(): real
      reads this, system
      requires system != null
    {
      VelocityAt(YAxis(pv), Age())
    }

    /** Sets the x acceleration without disturbing the current x position or velocity. */
    method SetInstantaneousAX(ax: real)
      requires system != null
      modifies this`pv
      ensures pv == WithXAxis(old(pv), WithAcceleration(XAxis(old(pv)), ax, old(Age())))
      ensures pv.ax == ax && CurX() == old(CurX()) && CurSX() == old(CurSX())
      ensures YAxis(pv) == YAxis(old(pv)) && pv.t == old(pv.t)
    {
      pv := WithXAxis(pv, WithAcceleration(XAxis(pv), ax, Age()));
    }

    /** Sets the current x velocity without disturbing the current x position. */
    method SetInstantaneousSX(vx: real)
      requires system != null
      modifies this`pv
      ensures pv == WithXAxis(old(pv), WithVelocity(XAxis(old(pv)), vx, old(Age())))
      ensures CurSX() == vx && CurX() == old(CurX()) && pv.ax == old(pv.ax)
      ensures YAxis(pv) == YAxis(old(pv)) && pv.t == old(pv.t)
    {
      pv := WithXAxis(pv, WithVelocity(XAxis(pv), vx, Age()));
    }

    /** Sets the current x position; the stored velocity and acceleration stay. */
    method SetInstantaneousX(x: real)
      requires system != null
      modifies this`pv
      ensures pv == WithXAxis(old(pv), WithPosition(XAxis(old(pv)), x, old(Age())))
      ensures CurX() == x && pv.sx == old(pv.sx) && pv.ax == old(pv.ax) && CurSX() == old(CurSX())
      ensures YAxis(pv) == YAxis(old(pv)) && pv.t == old(pv.t)
    {
      pv := WithXAxis(pv, WithPosition(XAxis(pv), x, Age()));
    }

    /** Sets the y acceleration without disturbing the current y position or velocity. */
    method SetInstantaneousAY(ay: real)
      requires system != null
      modifies this`pv
      ensures pv == WithYAxis(old(pv), WithAcceleration(YAxis(old(pv)), ay, old(Age())))
      ensures pv.ay == ay && CurY() == old(CurY()) && CurSY() == old(CurSY())
      ensures XAxis(pv) == XAxis(old(pv)) && pv.t == old(pv.t)
    {
      pv := WithYAxis(pv, WithAcceleration(YAxis(pv), ay, Age()));
    }

    /** Sets the current y velocity without disturbing the current y position. */
    method SetInstantaneousSY(vy: real)
      requires system != null
      modifies this`pv
      ensures pv == WithYAxis(old(pv), WithVelocity(YAxis(old(pv)), vy, old(Age())))
      ensures CurSY() == vy && CurY() == old(CurY()) && pv.ay == old(pv.ay)
      ensures XAxis(pv) == XAxis(old(pv)) && pv.t == old(pv.t)
    {
      pv := WithYAxis(pv, WithVelocity(YAxis(pv), vy, Age()));
    }

    /** Sets the current y position; the stored velocity and acceleration stay. */
    method SetInstantaneousY(y: real)
      requires system != null
      modifies this`pv
      ensures pv == WithYAxis(old(pv), WithPosition(YAxis(old(pv)), y, old(Age())))
      ensures CurY() == y && pv.sy == old(pv.sy) && pv.ay == old(pv.ay) && CurSY() == old(CurSY())
      ensures XAxis(pv) == XAxis(old(pv)) && pv.t == old(pv.t)
    {
      pv := WithYAxis(pv, WithPosition(YAxis(pv), y, Age()));
    }
  }

  /** The reload calls of one frame: for each particle flagged for reset, in order, one
      call per type attached to that particle's group. */
  ghost function Reloads(ds: seq<ParticleData>, groups: map<int, GroupData>): seq<Event>
    reads ds
    decreases |ds|
  {
    if ds == [] then []
    else
      var d := ds[|ds| - 1];
      Reloads(ds[..|ds| - 1], groups) + if d.group in groups then ReloadCalls(groups[d.group].types, d) else []
  }

  /** The simulation step, in seconds, when the clock moves from `from` to `to` ms. */
  function StepSeconds(from: int, to: int): real
  {
    to as real / 1000.0 - from as real / 1000.0
  }

  /** Concatenation regroups. */
  lemma Regroup<T>(a: seq<T>, b: seq<T>, c: seq<T>)
    ensures (a + b) + c == a + (b + c)
  {
  }

  class ParticleSystem {
    var running: bool
    var initialized: bool
    var startTime: int
    var timeInt: int
    var particleCount: int
    var nextGroupId: int
    var groupData: map<int, GroupData>
    var groupIds: map<string, int>
    var data: seq<ParticleData?>
    var emitters: seq<Emitter>
    var affectors: seq<Affector>
    var particles: seq<ParticleType>
    var syncList: seq<ParticleType>
    var needsReset: seq<ParticleData>
    ghost var trace: seq<Event>

    /** A running system with no collaborators, an empty table and an empty arena. */
    constructor ()
      ensures running && !initialized && startTime == 0 && timeInt == 0
      ensures groupData == map[] && groupIds == map[] && data == []
      ensures emitters == [] && affectors == [] && particles == []
      ensures syncList == [] && needsReset == [] && trace == []
    {
      running := true;
      initialized := false;
      startTime := 0;
      timeInt := 0;
      particleCount := 0;
      nextGroupId := 1;
      groupData := map[];
      groupIds := map[];
      data := [];
      emitters := [];
      affectors := [];
      particles := [];
      syncList := [];
      needsReset := [];
      trace := [];
    }

    // -------------------------------------------------------------------------------
    // Capacity planning

    /** The table holds only the default group, unplaced, and the arena total is 0. */
    ghost predicate DefaultTableOnly()
      reads this`groupData, this`groupIds, this`nextGroupId, this`particleCount
    {
      && groupData == map[0 := BlankGroup]
      && groupIds == map["" := 0]
      && nextGroupId == 1
      && particleCount == 0
    }

    /** The groups are those of `sizes`, each with its size there. */
    ghost predicate SizesMatch(sizes: map<int, int>)
      reads this`groupData
    {
      && groupData.Keys == sizes.Keys
      && forall g :: g in groupData ==> groupData[g].size == sizes[g]
    }

    /** The table is `plan` with every group unplaced, its cursor at 0 and no types. */
    ghost predicate HoldsPlan(plan: Plan)
      reads this`groupData, this`groupIds, this`nextGroupId
    {
      && SizesMatch(plan.sizes)
      && groupIds == plan.ids
      && nextGroupId == plan.next
      && forall g :: g in groupData ==> groupData[g] == BlankGroup.(size := groupData[g].size)
    }

    /** Every name in the name table resolves as it does in `plan`'s (an extra name maps
        to 0), and `plan`'s names are all there. */
    ghost predicate IdsMatch(plan: Plan)
      reads this`groupIds
    {
      && plan.ids.Keys <= groupIds.Keys
      && forall n :: n in groupIds ==> groupIds[n] == Lookup(plan.ids, n)
    }

    /** The table after the layout loop: the groups and sizes of `plan` and the arena
        total, each group's cursor at 0 and its start at the running sum of the sizes before
        it in `order`, and the next free id. */
    ghost predicate Placed(order: seq<int>, plan: Plan)
      reads this`groupData, this`nextGroupId, this`particleCount
    {
      && PlacedTable(groupData, order, plan.sizes)
      && nextGroupId == plan.next
      && particleCount == SumOver(order, plan.sizes)
    }

    /** `Placed`, with the name table being `plan`'s and no types attached yet. */
    ghost predicate LaidOut(order: seq<int>, plan: Plan)
      reads this`groupData, this`groupIds, this`nextGroupId, this`particleCount
    {
      && Placed(order, plan)
      && groupIds == plan.ids
      && forall g :: g in groupData ==> groupData[g].types == []
    }

    /** The types attached to the groups they read, in type order; every name they list is
        in the name table and resolves as `plan` says; each type's count and reset request
        set. */
    ghost predicate Attached(plan: Plan)
      requires Resolvable(plan.ids, plan.sizes.Keys)
      reads this`groupData, this`groupIds, this`particles, particles`count, particles`pleaseReset
    {
      && (forall g :: g in groupData ==> groupData[g].types == Subscribers(particles, plan.ids, g))
      && IdsMatch(plan)
      && groupIds.Keys == plan.ids.Keys + TypeNames(particles)
      && (forall k :: 0 <= k < |particles| ==> TypeReady(particles[k], plan))
    }

    /** The state the planner leaves when it runs in full, with the group table iterated
        in `order`: the planned groups, sizes and layout, and the types attached. */
    ghost predicate Planned(order: seq<int>)
      reads this`emitters, this`particles, this`groupData, this`groupIds, this`nextGroupId
      reads this`particleCount, particles`count, particles`pleaseReset
    {
      var plan := PlanOf(emitters);
      Placed(order, plan) && Attached(plan)
    }

    /** What initializeSystem leaves when the arena was `arena` and the initialised flag
        `wasInitialized` before it: with no emitters or no types only the default group,
        the arena and the flag untouched; otherwise the planned state, the arena resized to
        the total and the system initialised. */
    ghost predicate InitializedFrom(order: seq<int>, arena: seq<ParticleData?>, wasInitialized: bool)
      reads this`emitters, this`particles, this`groupData, this`groupIds, this`nextGroupId
      reads this`particleCount, this`data, this`initialized, particles`count, particles`pleaseReset
    {
      if |emitters| == 0 || |particles| == 0 then
        && DefaultTableOnly()
        && data == arena
        && initialized == wasInitialized
      else
        && Planned(order)
        && 0 <= particleCount
        && data == Resized(arena, particleCount)
        && initialized
    }

    /** QHash operator[] on the name table: the id of `name`, recording 0 for it first if
        it is unknown. */
    method GroupIdOf(name: string) returns (id: int)
      modifies this`groupIds
      ensures id == Lookup(old(groupIds), name)
      ensures groupIds == if name in old(groupIds) then old(groupIds) else old(groupIds)[name := 0]
    {
      if name !in groupIds {
        groupIds := groupIds[name := 0];
      }
      id := groupIds[name];
    }

    /** One pass of the inner type loop: resolve `name` (recording 0 for an unknown one),
        append `p` to that group's types and return the group's size. */
    method AttachName(p: ParticleType, name: string, ghost plan: Plan) returns (size: int)
      requires Resolvable(plan.ids, plan.sizes.Keys) && SizesMatch(plan.sizes) && IdsMatch(plan)
      modifies this`groupData, this`groupIds
      ensures Lookup(plan.ids, name) in old(groupData)
      ensures var g := Lookup(plan.ids, name);
        && size == plan.sizes[g]
        && groupData == old(groupData)[g := old(groupData[g]).(types := old(groupData[g].types) + [p])]
      ensures SizesMatch(plan.sizes) && IdsMatch(plan)
      ensures groupIds.Keys == old(groupIds).Keys + {name}
    {
      var id := GroupIdOf(name);
      size := groupData[id].size;
      groupData := groupData[id := groupData[id].(types := groupData[id].types + [p])];
    }

    /** Attaches type `p` to the groups it reads and returns its particle count: the
        default group's size when it lists no groups, otherwise the sum over its listed
        names of the size of the group each resolves to. */
    method AttachType(p: ParticleType, ghost plan: Plan) returns (count: int)
      requires Resolvable(plan.ids, plan.sizes.Keys)
      requires SizesMatch(plan.sizes) && IdsMatch(plan)
      modifies this`groupData, this`groupIds
      ensures Resolvable(plan.ids, old(groupData).Keys)
      ensures count == TypeCount(p.particles, plan)
      ensures groupData == AttachedTable(old(groupData), p, plan.ids)
      ensures SizesMatch(plan.sizes) && IdsMatch(plan)
      ensures groupIds.Keys == old(groupIds).Keys + Elements(p.particles)
    {
      count := 0;
      if p.particles == [] {
        count := count + groupData[0].size;
        groupData := groupData[0 := groupData[0].(types := groupData[0].types + [p])];
      } else {
        count := AttachNamed(p, p.particles, plan);
      }
    }

    /** The loop over a type's listed names: attach `p` once per name, to the group the
        name resolves to, summing those groups' sizes. */
    method AttachNamed(p: ParticleType, names: seq<string>, ghost plan: Plan) returns (count: int)
      requires Resolvable(plan.ids, plan.sizes.Keys)
      requires SizesMatch(plan.sizes) && IdsMatch(plan)
      modifies this`groupData, this`groupIds
      ensures count == TargetSum(names, plan)
      ensures groupData == AttachNames(old(groupData), p, names, plan.ids)
      ensures SizesMatch(plan.sizes) && IdsMatch(plan)
      ensures groupIds.Keys == old(groupIds).Keys + Elements(names)
    {
      count := 0;
      for j := 0 to |names|
        invariant SizesMatch(plan.sizes) && IdsMatch(plan)
        invariant groupData == AttachNames(old(groupData), p, names[..j], plan.ids)
        invariant groupIds.Keys == old(groupIds).Keys + Elements(names[..j])
        invariant count == TargetSum(names[..j], plan)
      {
        assert names[..j + 1][..j] == names[..j];
        ElementsStep(names, j);
        var size := AttachName(p, names[j], plan);
        count := count + size;
      }
      assert names[..|names|] == names;
    }

    /** Rebuilds the group table from the emitters and types and lays out the arena, the
        table being iterated in `order`. */
    method InitializeSystem(order: seq<int>)
      requires |emitters| > 0 && |particles| > 0 ==>
        Enumerates(order, PlanOf(emitters).sizes.Keys) && TotalDemand(emitters) >= 0
      modifies this`particleCount, this`groupData, this`groupIds, this`nextGroupId
      modifies this`data, this`initialized, particles
      ensures InitializedFrom(order, old(data), old(initialized))
      ensures |emitters| == 0 || |particles| == 0 ==> unchanged(particles)
    {
      particleCount := 0;
      groupData := map[0 := BlankGroup];
      groupIds := map["" := 0];
      nextGroupId := 1;
      if |emitters| == 0 || |particles| == 0 {
        return;
      }
      Rebuild(order);
    }

    /** The part of initializeSystem after the early return: plan, lay out, resize the
        arena, attach the types and mark the system initialised. */
    method Rebuild(order: seq<int>)
      requires DefaultTableOnly()
      requires Enumerates(order, PlanOf(emitters).sizes.Keys) && TotalDemand(emitters) >= 0
      modifies this`particleCount, this`groupData, this`groupIds, this`nextGroupId
      modifies this`data, this`initialized, particles
      ensures Planned(order) && 0 <= particleCount
      ensures data == Resized(old(data), particleCount) && initialized
    {
      PlanAndLayOut(order);
      data := Resized(data, particleCount);
      // The flag is written last in initializeSystem; nothing in the type loop reads it,
      // so raising it before that loop leaves the same final state.
      initialized := true;
      AttachTypes(order);
    }

    /** The emitter loop and the layout loop. */
    method PlanAndLayOut(order: seq<int>)
      requires DefaultTableOnly()
      requires Enumerates(order, PlanOf(emitters).sizes.Keys) && TotalDemand(emitters) >= 0
      modifies this`groupData, this`groupIds, this`nextGroupId, this`particleCount
      ensures LaidOut(order, PlanOf(emitters))
      ensures particleCount >= 0
    {
      ghost var plan := PlanOf(emitters);
      PlanEmitters();
      ArenaSizeIsTotalDemand(emitters, order);
      LayOut(order, plan.sizes);
    }

    /** The type loop run on a laid-out table, leaving the planned state. */
    method AttachTypes(order: seq<int>)
      requires LaidOut(order, PlanOf(emitters))
      modifies this`groupData, this`groupIds, particles
      ensures Planned(order)
      ensures unchanged(this`data, this`particleCount, this`initialized)
    {
      ghost var plan := PlanOf(emitters);
      ghost var laid := groupData;
      AttachAll(plan);
      AttachedFromLoop(order, plan, laid);
    }

    /** The type loop's outcome on a laid-out table is the attached, still laid-out state. */
    lemma AttachedFromLoop(order: seq<int>, plan: Plan, laid: map<int, GroupData>)
      requires Resolvable(plan.ids, plan.sizes.Keys) && Resolvable(plan.ids, laid.Keys)
      requires PlacedTable(laid, order, plan.sizes)
      requires forall g :: g in laid ==> laid[g].types == []
      requires groupData == SubscribedTable(laid, particles, plan.ids)
      requires nextGroupId == plan.next && particleCount == SumOver(order, plan.sizes)
      requires IdsMatch(plan) && groupIds.Keys == plan.ids.Keys + TypeNames(particles)
      requires forall k :: 0 <= k < |particles| ==> TypeReady(particles[k], plan)
      ensures Placed(order, plan) && Attached(plan)
    {
      AttachToLaidOut(laid, particles, plan.ids, order, plan.sizes);
    }

    /** One pass of the emitter loop: give `e`'s group a fresh id if its name is unseen
        (or mapped to 0 by a failed lookup), then add `e`'s demand to that group's size. */
    method AddEmitterEntry(e: Emitter, ghost plan: Plan)
      requires WellFormed(plan) && Resolvable(plan.ids, plan.sizes.Keys) && HoldsPlan(plan)
      modifies this`groupData, this`groupIds, this`nextGroupId
      ensures HoldsPlan(AddEmitter(plan, e))
    {
      if e.particle !in groupIds || (e.particle != "" && groupIds[e.particle] == 0) {
        var id := nextGroupId;
        nextGroupId := nextGroupId + 1;
        groupIds := groupIds[e.particle := id];
        groupData := groupData[id := BlankGroup];
      }
      var id := groupIds[e.particle];
      groupData := groupData[id := groupData[id].(size := groupData[id].size + Demand(e))];
    }

    /** One pass of the type loop: attach `p`, then set its count and its reset request. */
    method PrepareType(p: ParticleType, ghost plan: Plan)
      requires Resolvable(plan.ids, plan.sizes.Keys)
      requires SizesMatch(plan.sizes) && IdsMatch(plan)
      modifies this`groupData, this`groupIds, p
      ensures Resolvable(plan.ids, old(groupData).Keys)
      ensures groupData == AttachedTable(old(groupData), p, plan.ids)
      ensures SizesMatch(plan.sizes) && IdsMatch(plan)
      ensures groupIds.Keys == old(groupIds).Keys + Elements(p.particles)
      ensures TypeReady(p, plan)
    {
      var count := AttachType(p, plan);
      p.count := count;
      p.pleaseReset := true;
    }

    /** The type loop: attaches every type to the groups it reads, sets its count and
        asks it to reset. */
    method AttachAll(ghost plan: Plan)
      requires Resolvable(plan.ids, plan.sizes.Keys) && SizesMatch(plan.sizes) && groupIds == plan.ids
      modifies this`groupData, this`groupIds, particles
      ensures Resolvable(plan.ids, old(groupData).Keys)
      ensures groupData == SubscribedTable(old(groupData), particles, plan.ids)
      ensures SizesMatch(plan.sizes) && IdsMatch(plan)
      ensures groupIds.Keys == plan.ids.Keys + TypeNames(particles)
      ensures forall k :: 0 <= k < |particles| ==> TypeReady(particles[k], plan)
      ensures unchanged(this`emitters, this`particles, this`nextGroupId, this`particleCount, this`data)
    {
      ghost var laid := groupData;
      assert particles[..0] == [];
      for t := 0 to |particles|
        invariant AttachedUpTo(t, plan, laid)
      {
        AttachStep(t, plan, laid);
      }
      assert particles[..|particles|] == particles;
    }

    /** The type loop's state after the first `t` types: the sizes and name resolution
        of `plan` kept, the table being `laid` with those types attached, their names
        recorded, and each of them set up. */
    ghost predicate AttachedUpTo(t: nat, plan: Plan, laid: map<int, GroupData>)
      requires Resolvable(plan.ids, plan.sizes.Keys) && Resolvable(plan.ids, laid.Keys)
      reads this`groupData, this`groupIds, this`particles, particles`count, particles`pleaseReset
    {
      && t <= |particles|
      && SizesMatch(plan.sizes) && IdsMatch(plan)
      && groupData == SubscribedTable(laid, particles[..t], plan.ids)
      && groupIds.Keys == plan.ids.Keys + TypeNames(particles[..t])
      && forall k :: 0 <= k < t ==> TypeReady(particles[k], plan)
    }

    /** One pass of the type loop, on type number `t`. */
    method AttachStep(t: nat, ghost plan: Plan, ghost laid: map<int, GroupData>)
      requires Resolvable(plan.ids, plan.sizes.Keys) && Resolvable(plan.ids, laid.Keys)
      requires t < |particles| && AttachedUpTo(t, plan, laid)
      modifies this`groupData, this`groupIds, particles[t]
      ensures AttachedUpTo(t + 1, plan, laid)
    {
      SubscribedTableStep(laid, particles, t, plan.ids);
      var p := particles[t];
      ghost var namesBefore := groupIds.Keys;
      label Prepared:
      PrepareType(p, plan);
      TypeNamesStep(particles, t);
      assert groupIds.Keys == namesBefore + Elements(p.particles);
      forall k | 0 <= k < t + 1
        ensures TypeReady(particles[k], plan)
      {
        if particles[k] != p {
          assert old@Prepared(TypeReady(particles[k], plan));
        }
      }
    }

    /** The emitter loop: from the default-only table, the table `PlanOf(emitters)`
        describes, every group still unplaced and with an empty type list. */
    method PlanEmitters()
      requires DefaultTableOnly()
      modifies this`groupData, this`groupIds, this`nextGroupId
      ensures HoldsPlan(PlanOf(emitters))
    {
      assert emitters[..0] == [];
      ghost var plan := PlanOf([]);
      for i := 0 to |emitters|
        invariant plan == PlanOf(emitters[..i])
        invariant HoldsPlan(plan)
      {
        PlanOfStep(emitters, i);
        PlanOfWellFormed(emitters[..i]);
        AddEmitterEntry(emitters[i], plan);
        plan := AddEmitter(plan, emitters[i]);
      }
      assert emitters[..|emitters|] == emitters;
    }

    /** The layout loop: visiting the groups in `order`, give each the running total as
        its start and add its size to the total. */
    method LayOut(order: seq<int>, ghost sizes: map<int, int>)
      requires Enumerates(order, sizes.Keys)
      requires SizesMatch(sizes) && particleCount == 0
      modifies this`groupData, this`particleCount
      ensures SizesMatch(sizes)
      ensures forall g :: g in groupData ==> groupData[g] == old(groupData[g]).(start := groupData[g].start)
      ensures forall k :: 0 <= k < |order| ==> groupData[order[k]].start == StartAt(order, sizes, k)
      ensures particleCount == SumOver(order, sizes)
    {
      for k := 0 to |order|
        invariant SizesMatch(sizes)
        invariant forall g :: g in groupData ==> groupData[g] == old(groupData[g]).(start := groupData[g].start)
        invariant forall j :: 0 <= j < k ==> groupData[order[j]].start == StartAt(order, sizes, j)
        invariant particleCount == StartAt(order, sizes, k)
      {
        var g := order[k];
        StartAtStep(order, sizes, k);
        groupData := groupData[g := groupData[g].(start := particleCount)];
        particleCount := particleCount + groupData[g].size;
      }
      assert order[..|order|] == order;
    }

    // -------------------------------------------------------------------------------
    // Reset and registration

    /** Resets every type and emitter, then, if running, rebuilds the system and has every
        type redraw. */
    method Reset(order: seq<int>)
      requires running && |emitters| > 0 && |particles| > 0 ==>
        Enumerates(order, PlanOf(emitters).sizes.Keys) && TotalDemand(emitters) >= 0
      modifies this`particleCount, this`groupData, this`groupIds, this`nextGroupId
      modifies this`data, this`initialized, this`trace, particles
      ensures trace == old(trace) + TypeResetCalls(particles) + EmitterResetCalls(emitters)
                                  + if running then TypeUpdateCalls(particles) else []
      ensures running ==> InitializedFrom(order, old(data), old(initialized))
      ensures running && (|emitters| == 0 || |particles| == 0) ==> unchanged(particles)
      ensures !running ==> unchanged(this`particleCount, this`groupData, this`groupIds, this`nextGroupId)
      ensures !running ==> unchanged(this`data, this`initialized, particles)
    {
      ResetAll();
      if running {
        Restart(order);
      }
    }

    /** The running branch of reset(): rebuild, then have every type redraw. */
    method Restart(order: seq<int>)
      requires |emitters| > 0 && |particles| > 0 ==>
        Enumerates(order, PlanOf(emitters).sizes.Keys) && TotalDemand(emitters) >= 0
      modifies this`particleCount, this`groupData, this`groupIds, this`nextGroupId
      modifies this`data, this`initialized, this`trace, particles
      ensures trace == old(trace) + TypeUpdateCalls(particles)
      ensures InitializedFrom(order, old(data), old(initialized))
      ensures |emitters| == 0 || |particles| == 0 ==> unchanged(particles)
    {
      InitializeSystem(order);
      UpdateAll(order, old(data), old(initialized));
    }

    /** The reset loops of reset(): every type, then every emitter, is told to reset. */
    method ResetAll()
      modifies this`trace
      ensures trace == old(trace) + TypeResetCalls(particles) + EmitterResetCalls(emitters)
    {
      for i := 0 to |particles|
        invariant trace == old(trace) + TypeResetCalls(particles[..i])
      {
        assert particles[..i + 1][..i] == particles[..i];
        trace := trace + [TypeReset(particles[i])];
      }
      assert particles[..|particles|] == particles;
      ghost var afterTypes := trace;
      for i := 0 to |emitters|
        invariant trace == afterTypes + EmitterResetCalls(emitters[..i])
      {
        assert emitters[..i + 1][..i] == emitters[..i];
        trace := trace + [EmitterReset(emitters[i])];
      }
      assert emitters[..|emitters|] == emitters;
    }

    /** The last loop of reset(): every type is told to redraw. The initialised state is
        carried across it, the loop touching nothing but the trace. */
    method UpdateAll(ghost order: seq<int>, ghost arena: seq<ParticleData?>, ghost wasInitialized: bool)
      requires InitializedFrom(order, arena, wasInitialized)
      modifies this`trace
      ensures trace == old(trace) + TypeUpdateCalls(particles)
      ensures InitializedFrom(order, arena, wasInitialized)
    {
      UpdateEach();
    }

    /** Every type, in turn, is told to redraw. */
    method UpdateEach()
      modifies this`trace
      ensures trace == old(trace) + TypeUpdateCalls(particles)
    {
      for i := 0 to |particles|
        invariant trace == old(trace) + TypeUpdateCalls(particles[..i])
      {
        assert particles[..i + 1][..i] == particles[..i];
        trace := trace + [TypeUpdate(particles[i])];
      }
      assert particles[..|particles|] == particles;
    }

    /** Starts or stops the system; a change of state resets it. */
    method SetRunning(arg: bool, order: seq<int>)
      requires arg && !running && |emitters| > 0 && |particles| > 0 ==>
        Enumerates(order, PlanOf(emitters).sizes.Keys) && TotalDemand(emitters) >= 0
      modifies this`running, this`particleCount, this`groupData, this`groupIds, this`nextGroupId
      modifies this`data, this`initialized, this`trace, particles
      ensures running == arg
      ensures old(running) == arg ==> unchanged(this`trace, this`particleCount, this`groupData, this`groupIds)
      ensures old(running) == arg ==> unchanged(this`nextGroupId, this`data, this`initialized, particles)
      ensures old(running) != arg ==>
        trace == old(trace) + TypeResetCalls(particles) + EmitterResetCalls(emitters)
                            + if arg then TypeUpdateCalls(particles) else []
      ensures old(running) != arg && arg ==> InitializedFrom(order, old(data), old(initialized))
      ensures !arg ==> unchanged(this`particleCount, this`groupData, this`groupIds, this`nextGroupId)
      ensures !arg ==> unchanged(this`data, this`initialized, particles)
    {
      if running != arg {
        running := arg;
        Reset(order);
      }
    }

    /** Adds a type to the system and resets it. */
    method RegisterParticleType(p: ParticleType, order: seq<int>)
      requires running && |emitters| > 0 ==>
        Enumerates(order, PlanOf(emitters).sizes.Keys) && TotalDemand(emitters) >= 0
      modifies this`particles, this`particleCount, this`groupData, this`groupIds, this`nextGroupId
      modifies this`data, this`initialized, this`trace, particles, p
      ensures particles == old(particles) + [p]
      ensures trace == old(trace) + TypeResetCalls(particles) + EmitterResetCalls(emitters)
                                  + if running then TypeUpdateCalls(particles) else []
      ensures running ==> InitializedFrom(order, old(data), old(initialized))
      ensures running && |emitters| == 0 ==> unchanged(particles)
      ensures !running ==> unchanged(this`particleCount, this`groupData, this`groupIds, this`nextGroupId)
      ensures !running ==> unchanged(this`data, this`initialized, particles)
    {
      particles := particles + [p];
      Reset(order);
    }

    /** Adds an emitter to the system and resets it. */
    method RegisterParticleEmitter(e: Emitter, order: seq<int>)
      requires running && |particles| > 0 ==>
        Enumerates(order, PlanOf(emitters + [e]).sizes.Keys) && TotalDemand(emitters + [e]) >= 0
      modifies this`emitters, this`particleCount, this`groupData, this`groupIds, this`nextGroupId
      modifies this`data, this`initialized, this`trace, particles
      ensures emitters == old(emitters) + [e]
      ensures trace == old(trace) + TypeResetCalls(particles) + EmitterResetCalls(emitters)
                                  + if running then TypeUpdateCalls(particles) else []
      ensures running ==> InitializedFrom(order, old(data), old(initialized))
      ensures running && |particles| == 0 ==> unchanged(particles)
      ensures !running ==> unchanged(this`particleCount, this`groupData, this`groupIds, this`nextGroupId)
      ensures !running ==> unchanged(this`data, this`initialized, particles)
    {
      emitters := emitters + [e];
      Reset(order);
    }

    /** Adds an affector to the system; nothing else changes. */
    method RegisterParticleAffector(a: Affector)
      modifies this`affectors
      ensures affectors == old(affectors) + [a]
    {
      affectors := affectors + [a];
    }

    // -------------------------------------------------------------------------------
    // Allocation

    /** The arena slot the next allocation in group `g` hands out. */
    function NextSlot(g: int): int
      reads this
      requires g in groupData
    {
      groupData[g].start + groupData[g].nextIdx
    }

    /** Hands out the record in the slot under group `groupId`'s cursor, recycling the
        record already there or filling an empty slot with a fresh one, tags it with its
        slot, group-relative index and group, and moves the cursor round the ring. */
    method NewDatum(groupId: int) returns (d: ParticleData)
      requires groupId in groupData
      requires 0 <= NextSlot(groupId) < |data|
      modifies this`groupData, this`data, data[NextSlot(groupId)]
      ensures var slot := old(NextSlot(groupId));
        && d.systemIndex == slot
        && d.particleIndex == slot - old(groupData[groupId].start)
        && d.group == groupId
        && d.system == this
        && data == old(data)[slot := d]
        && (old(data[slot]) != null ==> d == old(data[slot]) && d.pv == old(data[slot].pv))
        && (old(data[slot]) == null ==> fresh(d) && d.pv == InitialVertex)
      ensures groupData == old(groupData)[groupId :=
        old(groupData[groupId]).(nextIdx := NextCursor(old(groupData[groupId].nextIdx), old(groupData[groupId].size)))]
      ensures 0 <= old(groupData[groupId].nextIdx) < old(groupData[groupId].size) ==>
        && old(groupData[groupId].start) <= d.systemIndex < old(groupData[groupId].start) + old(groupData[groupId].size)
        && 0 <= groupData[groupId].nextIdx < groupData[groupId].size
    {
      var g := groupData[groupId];
      var slot := g.start + g.nextIdx;
      groupData := groupData[groupId := g.(nextIdx := NextCursor(g.nextIdx, g.size))];
      if data[slot] != null {
        d := data[slot];
      } else {
        d := new ParticleData();
        data := data[slot := d];
      }
      d.system := this;
      d.systemIndex := slot;
      d.particleIndex := slot - groupData[groupId].start;
      d.group := groupId;
    }

    /** Delivers a newly emitted particle: shifts it by the emitter's offset in the system's
        coordinates (when that offset is not zero), runs the per-index reset hook of every
        affector that asks for one, then has every type attached to its group load it. */
    method EmitParticle(d: ParticleData, offset: (real, real))
      requires d.group in groupData
      modifies d`pv, this`trace
      ensures d.pv == if offset == (0.0, 0.0) then old(d.pv)
                      else old(d.pv).(x := old(d.pv.x) + offset.0, y := old(d.pv.y) + offset.1)
      ensures trace == old(trace) + AffectorResets(affectors, d.systemIndex)
                                  + LoadCalls(groupData[d.group].types, d)
    {
      if offset != (0.0, 0.0) {
        d.pv := d.pv.(x := d.pv.x + offset.0, y := d.pv.y + offset.1);
      }
      var index := d.systemIndex;
      for i := 0 to |affectors|
        invariant trace == old(trace) + AffectorResets(affectors[..i], index)
      {
        assert affectors[..i + 1][..i] == affectors[..i];
        if affectors[i].needsReset {
          trace := trace + [AffectorResetAt(affectors[i], index)];
        }
      }
      assert affectors[..|affectors|] == affectors;
      ghost var afterResets := trace;
      var types := groupData[d.group].types;
      for i := 0 to |types|
        invariant trace == afterResets + LoadCalls(types[..i], d)
      {
        assert types[..i + 1][..i] == types[..i];
        trace := trace + [Load(types[i], d)];
      }
      assert types[..|types|] == types;
    }

    // -------------------------------------------------------------------------------
    // Frame synchronisation

    /** The synchroniser's view of the state. */
    function ClockState(): Clock<ParticleType>
      reads this
    {
      Clock(running, initialized, timeInt, syncList)
    }

    /** Every particle flagged for reset belongs to a group in the table. */
    ghost predicate ReloadReady()
      reads this`needsReset, this`groupData, needsReset
    {
      forall i :: 0 <= i < |needsReset| ==> needsReset[i].group in groupData
    }

    /** The calls one advance makes, the clock having moved from `previous` to `timeInt`:
        emitters with the new time, then affectors with the step in seconds, then the
        reloads of the particles flagged for reset. */
    ghost function FrameEvents(previous: int): seq<Event>
      reads this`timeInt, this`emitters, this`affectors, this`needsReset, this`groupData, needsReset
      requires ReloadReady()
    {
      EmitCalls(emitters, timeInt)
        + AffectCalls(affectors, StepSeconds(previous, timeInt))
        + Reloads(needsReset, groupData)
    }

    /** Asks every emitter, in order, to emit for the window ending at `now`. */
    method EmitAll(now: int)
      modifies this`trace
      ensures trace == old(trace) + EmitCalls(emitters, now)
    {
      for i := 0 to |emitters|
        invariant trace == old(trace) + EmitCalls(emitters[..i], now)
      {
        assert emitters[..i + 1][..i] == emitters[..i];
        trace := trace + [EmitWindow(emitters[i], now)];
      }
      assert emitters[..|emitters|] == emitters;
    }

    /** Asks every affector, in order, to act on the system for a step of `dt` seconds. */
    method AffectAll(dt: real)
      modifies this`trace
      ensures trace == old(trace) + AffectCalls(affectors, dt)
    {
      for i := 0 to |affectors|
        invariant trace == old(trace) + AffectCalls(affectors[..i], dt)
      {
        assert affectors[..i + 1][..i] == affectors[..i];
        trace := trace + [AffectSystem(affectors[i], dt)];
      }
      assert affectors[..|affectors|] == affectors;
    }

    /** Has every type attached to group `g` reload `d`. */
    method ReloadEach(d: ParticleData, g: int)
      requires g in groupData
      modifies this`trace
      ensures trace == old(trace) + ReloadCalls(groupData[g].types, d)
    {
      var types := groupData[g].types;
      for j := 0 to |types|
        invariant trace == old(trace) + ReloadCalls(types[..j], d)
      {
        assert types[..j + 1][..j] == types[..j];
        trace := trace + [Reload(types[j], d)];
      }
      assert types[..|types|] == types;
    }

    /** Has every type attached to a flagged particle's group reload that particle. */
    method ReloadAll()
      requires ReloadReady()
      modifies this`trace
      ensures trace == old(trace) + Reloads(needsReset, groupData)
    {
      for i := 0 to |needsReset|
        invariant trace == old(trace) + Reloads(needsReset[..i], groupData)
      {
        ghost var before := trace;
        ReloadEach(needsReset[i], needsReset[i].group);
        assert needsReset[..i + 1][..i] == needsReset[..i];
        Regroup(old(trace), Reloads(needsReset[..i], groupData), ReloadCalls(groupData[needsReset[i].group].types, needsReset[i]));
      }
      assert needsReset[..|needsReset|] == needsReset;
    }

    /** Begins a new frame at time `now`: empties the served list, moves the clock and
        notifies the collaborators. */
    method StartFrame(now: int)
      requires ReloadReady()
      modifies this`syncList, this`timeInt, this`trace
      ensures syncList == [] && timeInt == now
      ensures trace == old(trace) + FrameEvents(old(timeInt))
    {
      syncList := [];
      var previous := timeInt;
      timeInt := now;
      var dt := StepSeconds(previous, timeInt);
      ghost var start := trace;
      EmitAll(timeInt);
      AffectAll(dt);
      ReloadAll();
      Regroup(start, EmitCalls(emitters, timeInt), AffectCalls(affectors, dt));
      Regroup(start, EmitCalls(emitters, timeInt) + AffectCalls(affectors, dt), Reloads(needsReset, groupData));
    }

    /** The frame time for consumer `p`, advancing the simulation if `p` starts a new
        frame; `elapsed` is the wall-clock reading in milliseconds since initialisation. */
    method SystemSync(p: ParticleType, elapsed: int) returns (r: int)
      requires Advances(ClockState(), p) ==> ReloadReady()
      modifies this`syncList, this`timeInt, this`trace
      ensures (ClockState(), r) == Sync(old(ClockState()), p, elapsed + startTime)
      ensures Advances(old(ClockState()), p) ==> trace == old(trace) + FrameEvents(old(timeInt))
      ensures !Advances(old(ClockState()), p) ==> trace == old(trace)
    {
      if !running {
        return 0;
      }
      if !initialized {
        return 0;
      }
      if syncList == [] || p in syncList {
        StartFrame(elapsed + startTime);
      }
      syncList := syncList + [p];
      r := ToUint(timeInt);
    }
  }
}
