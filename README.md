# Particle system bookkeeping, modelled in Dafny

This project models the bookkeeping core of a real-time particle simulation: the
`ParticleSystem` and `ParticleData` classes of `src/imports/particles/particlesystem.cpp`.
It covers five parts:

- **Capacity planner (`initializeSystem`).** It rebuilds the group table from the
  registered emitters and particle types.
  - Group 0 is the default group, named `""`.
  - Each new emitter group name gets a fresh id: 1, 2, and so on.
  - Each emitter adds `ceil(pps * (duration + variation) / 1000)` slots to its group.
  - The groups are laid out in the shared arena as running prefix sums, in the order in
    which the hash table is iterated.
  - The arena is resized to the total.
  - Every particle type is attached to the groups it reads and given its count.
- **Ring-cursor allocator (`newDatum`).** Each group hands out the slot under its cursor.
  An occupied slot is recycled in place; an empty one gets a fresh record. The cursor then
  moves round the group's range.
- **Frame synchroniser (`systemSync`).** The simulation advances at most once per frame,
  however many consumers call. An advance drives the emitters, then the affectors, then
  the reloads of particles flagged for reset.
- **Closed-form kinematics (`curX`, `curSX`, `setInstantaneous*`, and so on).** Position
  and velocity are evaluated at the particle's current age. Each setter re-solves the
  stored descriptor so that the quantities it does not set keep their current value.
- **Control flow of `reset`, `setRunning` and the `register*` methods.**

The files:

- `planner.dfy` (module `Planner`): the planner as pure functions, with what they promise
  proved against reference definitions over the emitter list:
  - group ids follow first appearance;
  - a group's size is its emitters' demand;
  - the arena total does not depend on iteration order;
  - the layout partitions the arena;
  - a type's count is the demand of the groups it reads.
- `ring.dfy` (module `Ring`): the cursor arithmetic and the ring-wrap lemmas.
- `frame_sync.dfy` (module `FrameSync`): the synchroniser as a pure state machine, with a
  lemma proving it advances once per frame.
- `kinematics.dfy` (module `Kinematics`): the motion formulas and the setters' re-solves,
  with continuity, uniqueness and round-trip lemmas.
- `particle_system.dfy` (module `ParticleSystems`): the classes `ParticleData`,
  `ParticleType` and `ParticleSystem`.
  - Their methods follow the source's loops and field updates.
  - Each method is proved against the functions of the other modules.
  - The calls the system makes into emitters, affectors and types are appended, in order,
    to a ghost `trace` of events.

Inputs the source takes from the environment are method parameters:

- `order` is the iteration order of the group hash table. It may be any enumeration of
  the planned group ids.
- `elapsed` is the wall-clock reading of `systemSync`.
- `offset` is the emitter's position in the system's coordinates, which `emitParticle`
  gets from `mapFromItem`.

Three points where the code's behaviour is easy to misread:

- Arena offsets are assigned in hash-table iteration order, not in group-id order.
- With no emitters or no types, `initializeSystem` returns after recreating group 0. The
  arena keeps its old contents and the initialised flag keeps its old value; neither is
  cleared.
- A group's capacity is exactly the sum of its emitters' ceilings, with no headroom.

## Model

| member | source | states |
|---|---|---|
| Kinematics.WithAcceleration | src/imports/particles/particlesystem.cpp:216-226 | the new descriptor has acceleration `a` and the same position and velocity at age `t` |
| Kinematics.WithVelocity | src/imports/particles/particlesystem.cpp:229-238 | the new descriptor has velocity `v` at age `t`, the same acceleration and the same position at age `t` |
| Kinematics.WithPosition | src/imports/particles/particlesystem.cpp:241-245 | the new descriptor has position `x` at age `t`, keeps the stored velocity and acceleration, and so keeps the current velocity |
| Kinematics.DescriptorDeterminedAt | src/imports/particles/particlesystem.cpp:280-302 | two descriptors with equal acceleration that agree on position and velocity at one age are equal |
| Kinematics.WithAccelerationUnique | src/imports/particles/particlesystem.cpp:216-226 | a descriptor has acceleration `a` and is continuous at age `t` if and only if it is the one setInstantaneousAX stores |
| Kinematics.WithVelocityUnique | src/imports/particles/particlesystem.cpp:229-238 | a descriptor keeps the acceleration and position and has velocity `v` at age `t` if and only if it is the one setInstantaneousSX stores |
| Kinematics.WithAccelerationUndo | src/imports/particles/particlesystem.cpp:216-226 | setting the acceleration back to its old value at the same age restores the original descriptor |
| Kinematics.WithVelocityOfCurrentIsIdentity | src/imports/particles/particlesystem.cpp:229-238 | setting the current velocity to its present value changes nothing |
| Kinematics.WithPositionOfCurrentIsIdentity | src/imports/particles/particlesystem.cpp:241-245 | setting the current position to its present value changes nothing |
| Kinematics.RebaseConsistent | src/imports/particles/particlesystem.cpp:280-302 | evaluating position and velocity (curX/curSX, and curY/curSY on the other axis) at age t+u is the same as re-basing at age t and evaluating at u |
| ParticleSystems.ParticleData.SetInstantaneousAX | src/imports/particles/particlesystem.cpp:216-226 | pv's x axis becomes WithAcceleration at the current age; `ax` is the argument; curX, curSX, the y axis and `t` are unchanged |
| ParticleSystems.ParticleData.SetInstantaneousSX | src/imports/particles/particlesystem.cpp:229-238 | curSX becomes the argument; curX, `ax`, the y axis and `t` are unchanged |
| ParticleSystems.ParticleData.SetInstantaneousX | src/imports/particles/particlesystem.cpp:241-245 | curX becomes the argument; `sx`, `ax`, curSX, the y axis and `t` are unchanged |
| ParticleSystems.ParticleData.SetInstantaneousAY | src/imports/particles/particlesystem.cpp:248-258 | pv's y axis becomes WithAcceleration at the current age; `ay` is the argument; curY, curSY, the x axis and `t` are unchanged |
| ParticleSystems.ParticleData.SetInstantaneousSY | src/imports/particles/particlesystem.cpp:261-271 | curSY becomes the argument; curY, `ay`, the x axis and `t` are unchanged |
| ParticleSystems.ParticleData.SetInstantaneousY | src/imports/particles/particlesystem.cpp:274-278 | curY becomes the argument; `sy`, `ay`, curSY, the x axis and `t` are unchanged |
| ParticleSystems.ParticleData.constructor | src/imports/particles/particlesystem.cpp:9-24 | a fresh record is in group 0 with indices 0, reference time -1 and every other descriptor field 0 |
| Ring.NextCursor | src/imports/particles/particlesystem.cpp:151-153 | for a cursor inside the ring, the next cursor stays inside it and equals (c + 1) mod size |
| Ring.CursorAfterCompose | src/imports/particles/particlesystem.cpp:151-153 | a allocations followed by b more leave the cursor where a + b allocations leave it |
| Ring.CursorAfterBeforeWrap | src/imports/particles/particlesystem.cpp:151-153 | until the end of the ring the cursor moves one slot per allocation, and it is 0 exactly on passing the last slot |
| Ring.RingWraps | src/imports/particles/particlesystem.cpp:151-153 | after `size` allocations the cursor is back where it started |
| Ring.FreshRingVisitsEachSlotOnce | src/imports/particles/particlesystem.cpp:151-153 | from cursor 0, allocation j (for j < size) uses slot j, and after size allocations slot 0 comes round again |
| ParticleSystems.ParticleSystem.NewDatum | src/imports/particles/particlesystem.cpp:149-168 | the returned record sits in the old `start + nextIdx` slot and is tagged with that slot, the slot minus start, the group and the system; an occupied slot's record is reused with its descriptor, an empty slot gets a fresh record; only that slot and that group's cursor change, the cursor by NextCursor; with the cursor inside the ring, the slot lies in [start, start+size) and the new cursor stays inside the ring |
| ParticleSystems.ParticleSystem.EmitParticle | src/imports/particles/particlesystem.cpp:170-184 | the position is shifted by the offset unless the offset is zero; the trace gains each reset-requesting affector's reset at the particle's index, then a load call for each type of the particle's group, in order |
| ParticleSystems.AffectorResets | src/imports/particles/particlesystem.cpp:179-181 | every event is the reset of an affector that asked for one, at the given index |
| ParticleSystems.AffectorResetsConcat | src/imports/particles/particlesystem.cpp:179-181 | the resets for one list followed by another are the first list's resets followed by the second's |
| ParticleSystems.AffectorResetsAt | src/imports/particles/particlesystem.cpp:179-181 | each affector contributes exactly one reset at the index if it asks for one and none otherwise, placed after the resets of the affectors before it and before those of the affectors after it |
| ParticleSystems.LoadCalls | src/imports/particles/particlesystem.cpp:182-183 | one load event per type, in order |
| Planner.Ceil | src/imports/particles/particlesystem.cpp:105 | the result is the least integer not below x |
| Planner.AddEmitter | src/imports/particles/particlesystem.cpp:94-106 | every name still resolves to a group; dense ids stay dense; the emitter's name is known afterwards; the next id grows by one exactly when the line-96 test fires |
| Planner.AddEmitterWellFormed | src/imports/particles/particlesystem.cpp:94-106 | one pass of the emitter loop keeps the table well formed: ids dense, "" names 0, other names distinct non-zero ids |
| Planner.PlanOf | src/imports/particles/particlesystem.cpp:83-106 | the planned ids are 0 .. next-1 and every name resolves to a planned group |
| Planner.PlanOfWellFormed | src/imports/particles/particlesystem.cpp:83-106 | the emitter loop always leaves a well-formed table |
| Planner.StaleDefaultEntryNeverSeen | src/imports/particles/particlesystem.cpp:95-96 | within the planner the line-96 test fires if and only if the name is unseen: the failed-lookup clause is dead |
| Planner.IdsFollowFirstAppearance | src/imports/particles/particlesystem.cpp:94-104 | the name table holds exactly "" and the distinct non-empty emitter names; the k-th new name gets id k+1; next is their count plus one |
| Planner.SizeIsGroupDemand | src/imports/particles/particlesystem.cpp:105 | each group's size is the total ceiling demand of the emitters naming it; a name no emitter uses has demand 0 |
| Planner.AddEmitterSum | src/imports/particles/particlesystem.cpp:105 | one emitter raises the sum of all group sizes by exactly its demand |
| Planner.SizesSumToTotalDemand | src/imports/particles/particlesystem.cpp:94-106 | the group sizes sum to the demand of all emitters |
| Planner.SizesNonNegative | src/imports/particles/particlesystem.cpp:105 | if no emitter has negative demand, no group size is negative |
| Planner.SumOverAnyOrder | src/imports/particles/particlesystem.cpp:108-111 | the running total after the layout loop is the same for every enumeration of the groups |
| Planner.ArenaSizeIsTotalDemand | src/imports/particles/particlesystem.cpp:108-112 | for any iteration order, the arena size the layout loop computes is the demand of all emitters |
| Planner.StartAtMonotone | src/imports/particles/particlesystem.cpp:108-111 | with non-negative sizes, start offsets never decrease along the iteration order |
| Planner.OwnerOf | src/imports/particles/particlesystem.cpp:108-111 | every slot of [0, total) lies in the range of some group in the order |
| Planner.LayoutPartitionsArena | src/imports/particles/particlesystem.cpp:108-112 | the group ranges lie inside [0, total) and are pairwise disjoint |
| Planner.OwnerIsUnique | src/imports/particles/particlesystem.cpp:108-112 | a slot inside a group's range lies in the arena, and that group is the only one holding it |
| Planner.TargetSumIsDemand | src/imports/particles/particlesystem.cpp:122-125 | the sizes a type's listed names resolve to add up to the demand of the emitters feeding those groups, with names no emitter uses resolving to the default group |
| Planner.TypeCountIsDemand | src/imports/particles/particlesystem.cpp:117-127 | a type's count is the default group's demand when it lists no groups, otherwise the summed demand of the groups its names resolve to |
| Planner.DefaultScenario | src/imports/particles/particlesystem.cpp:83-127 | one emitter at 10/s with a 2000 ms lifetime on the default group gives that group 20 slots and a type with no group list a count of 20 |
| ParticleSystems.AttachNames | src/imports/particles/particlesystem.cpp:122-125 | attaching by names keeps the table's groups |
| ParticleSystems.AttachNamesAppends | src/imports/particles/particlesystem.cpp:122-125 | each group's type list gains one copy of the type per listed name resolving to it, in order; size, start and cursor are unchanged |
| ParticleSystems.AttachedTableAppends | src/imports/particles/particlesystem.cpp:118-126 | attaching a type keeps the groups and extends each group's list by exactly its targets: group 0 once if no names are listed |
| ParticleSystems.SubscribedTable | src/imports/particles/particlesystem.cpp:116-129 | the type loop keeps the table's groups |
| ParticleSystems.SubscribedTableAppends | src/imports/particles/particlesystem.cpp:116-129 | after the type loop each group's list has gained exactly its subscribers in type order, and nothing else about any group has changed |
| ParticleSystems.AttachToLaidOut | src/imports/particles/particlesystem.cpp:108-129 | the type loop on a laid-out table keeps the layout and leaves each group's list equal to its subscribers |
| ParticleSystems.Resized | src/imports/particles/particlesystem.cpp:112 | the result has length n, keeps the first n slots and pads with empty slots |
| ParticleSystems.ParticleSystem.constructor | src/imports/particles/particlesystem.cpp:26-30 | a new system is running, has start offset 0, and has no collaborators, groups or names |
| ParticleSystems.ParticleSystem.GroupIdOf | src/imports/particles/particlesystem.cpp:123 | returns the id of a known name, or 0; an unknown name is recorded as mapping to 0 |
| ParticleSystems.ParticleSystem.AttachName | src/imports/particles/particlesystem.cpp:122-125 | returns the size of the group the name resolves to; appends the type to that group only; the name is recorded; sizes and resolution are kept |
| ParticleSystems.ParticleSystem.AttachNamed | src/imports/particles/particlesystem.cpp:122-125 | the count is the sum of the sizes the names resolve to; the table is AttachNames; the name table gains exactly the listed names |
| ParticleSystems.ParticleSystem.AttachType | src/imports/particles/particlesystem.cpp:117-126 | the count is TypeCount; the table is AttachedTable; the name table gains exactly the type's names |
| ParticleSystems.ParticleSystem.PrepareType | src/imports/particles/particlesystem.cpp:116-128 | as AttachType, and the type's count is set to TypeCount with its reset request raised |
| ParticleSystems.ParticleSystem.AttachStep | src/imports/particles/particlesystem.cpp:116-129 | one pass of the type loop extends the loop invariant from t types to t+1 |
| ParticleSystems.ParticleSystem.AttachAll | src/imports/particles/particlesystem.cpp:116-129 | the table is SubscribedTable over all types; the name table is the plan's names plus every listed name; every type is ready; emitters, types, ids, total and arena are unchanged |
| ParticleSystems.ParticleSystem.AddEmitterEntry | src/imports/particles/particlesystem.cpp:95-105 | one pass of the emitter loop turns a table holding plan p into one holding AddEmitter(p, e) |
| ParticleSystems.ParticleSystem.PlanEmitters | src/imports/particles/particlesystem.cpp:94-106 | from the default-only table, the emitter loop leaves the table PlanOf(emitters): its ids, sizes and next id, with every group unplaced and untyped |
| ParticleSystems.ParticleSystem.LayOut | src/imports/particles/particlesystem.cpp:108-111 | each group's start is the sum of the sizes before it in iteration order; the total is the sum of all sizes; nothing else about any group changes |
| ParticleSystems.ParticleSystem.PlanAndLayOut | src/imports/particles/particlesystem.cpp:94-111 | from the default-only table the emitter and layout loops leave the plan laid out, with a non-negative total |
| ParticleSystems.ParticleSystem.AttachTypes | src/imports/particles/particlesystem.cpp:116-129 | on a laid-out table the type loop leaves the planned state; the arena, total and flag are unchanged |
| ParticleSystems.ParticleSystem.AttachedFromLoop | src/imports/particles/particlesystem.cpp:108-129 | the state the type loop leaves on a laid-out table is the planned layout with every type attached and ready |
| ParticleSystems.ParticleSystem.Rebuild | src/imports/particles/particlesystem.cpp:94-132 | after the early-return test: the planned state, the arena resized to the non-negative total, and the system initialised |
| ParticleSystems.ParticleSystem.InitializeSystem | src/imports/particles/particlesystem.cpp:74-134 | with no emitters or no types: only the default group (size 0, start -1), with the arena, types and flag untouched; otherwise: the plan laid out in iteration order, every type attached with its count and reset request, the arena resized to the total, and the system initialised |
| ParticleSystems.ParticleSystem.ResetAll | src/imports/particles/particlesystem.cpp:138-141 | the trace gains every type's reset and then every emitter's reset, in list order |
| ParticleSystems.ParticleSystem.UpdateEach | src/imports/particles/particlesystem.cpp:145-146 | the trace gains every type's update in list order |
| ParticleSystems.ParticleSystem.UpdateAll | src/imports/particles/particlesystem.cpp:145-146 | the update loop adds the update events and leaves the initialised state as it was |
| ParticleSystems.ParticleSystem.Restart | src/imports/particles/particlesystem.cpp:144-146 | initialises, then the trace gains every type's update |
| ParticleSystems.ParticleSystem.Reset | src/imports/particles/particlesystem.cpp:136-147 | the trace gains type resets, emitter resets and, if running, type updates; if running the state is InitializedFrom; if stopped, nothing but the trace changes |
| ParticleSystems.ParticleSystem.SetRunning | src/imports/particles/particlesystem.cpp:59-66 | the flag becomes the argument; with no change nothing changes, otherwise the system is reset as Reset states |
| ParticleSystems.ParticleSystem.RegisterParticleType | src/imports/particles/particlesystem.cpp:32-36 | the type is appended and the system reset as Reset states: the trace gains the resets and, if running, the updates; if running the state is InitializedFrom, with the types untouched when there are no emitters; if stopped, nothing but the type list and the trace changes |
| ParticleSystems.ParticleSystem.RegisterParticleEmitter | src/imports/particles/particlesystem.cpp:38-46 | the emitter is appended and the system reset as Reset states: the trace gains the resets and, if running, the updates; if running the state is InitializedFrom; if stopped, nothing but the emitter list and the trace changes |
| ParticleSystems.ParticleSystem.RegisterParticleAffector | src/imports/particles/particlesystem.cpp:48-52 | the affector is appended and nothing is reset |
| FrameSync.ToUint | src/imports/particles/particlesystem.cpp:212 | the returned value is in [0, 2^32) and equals the time when the time is in that range |
| FrameSync.Sync | src/imports/particles/particlesystem.cpp:188-213 | stopped or uninitialised: returns 0 and changes nothing; advances exactly when the list is empty or holds the caller, leaving the list [p] and the time `now`; otherwise appends p and keeps the time; a live call returns the time as uint |
| FrameSync.OneAdvancePerFrame | src/imports/particles/particlesystem.cpp:195-211 | distinct consumers pulling once each in a frame cause exactly one advance, all see its time, the list becomes exactly those consumers, and the next call by any of them starts a new frame |
| FrameSync.FirstCallerStartsFrame | src/imports/particles/particlesystem.cpp:195-211 | the call that starts a frame moves the time to its reading, returns it, and leaves itself the only consumer served |
| FrameSync.ServedCallersAdvanceNext | src/imports/particles/particlesystem.cpp:195 | once a set of consumers has been served in a frame, the next call by any of them starts a new frame |
| FrameSync.LaterCallerJoinsFrame | src/imports/particles/particlesystem.cpp:195-211 | a consumer not yet served joins the current frame without advancing it |
| FrameSync.InertWhenStopped | src/imports/particles/particlesystem.cpp:190-193 | a stopped or uninitialised system returns 0 to every caller and never changes or advances |
| ParticleSystems.EmitCalls | src/imports/particles/particlesystem.cpp:203-204 | one emitWindow event per emitter with the new time, in order |
| ParticleSystems.AffectCalls | src/imports/particles/particlesystem.cpp:205-206 | one affectSystem event per affector with the step, in order |
| ParticleSystems.ReloadCalls | src/imports/particles/particlesystem.cpp:208-209 | one reload event per type, in order |
| ParticleSystems.EmitterResetCalls | src/imports/particles/particlesystem.cpp:140-141 | one reset event per emitter, in order |
| ParticleSystems.TypeResetCalls | src/imports/particles/particlesystem.cpp:138-139 | one reset event per type, in order |
| ParticleSystems.TypeUpdateCalls | src/imports/particles/particlesystem.cpp:145-146 | one update event per type, in order |
| ParticleSystems.ParticleSystem.EmitAll | src/imports/particles/particlesystem.cpp:203-204 | the trace gains EmitCalls with the new time |
| ParticleSystems.ParticleSystem.AffectAll | src/imports/particles/particlesystem.cpp:205-206 | the trace gains AffectCalls with the step |
| ParticleSystems.ParticleSystem.ReloadEach | src/imports/particles/particlesystem.cpp:208-209 | the trace gains a reload of the particle by each type of its group |
| ParticleSystems.ParticleSystem.ReloadAll | src/imports/particles/particlesystem.cpp:207-209 | the trace gains, for each flagged particle in order, the reloads by its group's types |
| ParticleSystems.ParticleSystem.StartFrame | src/imports/particles/particlesystem.cpp:196-209 | the list is emptied and the time moved to `now`; the trace gains emitter calls, then affector calls for the step in seconds, then reloads |
| ParticleSystems.ParticleSystem.SystemSync | src/imports/particles/particlesystem.cpp:188-213 | the new clock state and the return value are exactly Sync's; an advance appends the frame's events to the trace, and any other call leaves the trace unchanged |

## Left out

- Signals (`runningChanged`, `systemInitialized`), the `connect` calls at lines 41-44, the
  warning at line 113-114 for arenas over 16000 slots, and `debugDump`: these are messages
  and output, with no effect on the modelled state.
- `countChanged` (lines 54-57) and `componentComplete` (lines 68-72) are left out because
  each only calls `reset`, which is modelled as `Reset`. The base-class call in
  `componentComplete` is framework code.
- `m_timestamp.start()` (line 131) and `m_timestamp.elapsed()` (line 200): the wall clock
  is not modelled. `SystemSync` takes its reading as the `elapsed` parameter.
- `mapFromItem` (line 173) is scene-graph geometry outside this model. `EmitParticle`
  takes the offset it returns as a parameter, and does not model the record's emitter
  pointer `e`.
- Floating-point arithmetic: `qreal` is modelled as `real`, so rounding is idealised. Group
  ids, sizes and counts are unbounded integers, so `int` overflow is not modelled.
  The `uint` return of `systemSync` is modelled as reduction modulo 2^32.
- Heap management (`new`/`delete` of group entries and records): the group table is a
  map of values, and records are objects that are allocated but never freed.
- The collaborators' own code (`emitWindow`, `affectSystem`, `load`, `reload`, `reset`,
  `update`, `setCount`) is not part of this model:
  - each call the system makes is an event on the ghost trace;
  - `setCount` is a write to the type's `count` field.
- Collaborators never call back into the system during a frame. In the source,
  `emitWindow` creates particles through `newDatum` and `emitParticle`, and affectors may
  flag particles in `m_needsReset` before the reload loop at line 207 reads it.
  `SystemSync` instead keeps the group table, the arena and `needsReset` fixed across the
  frame:
  - the reloads it records are those of the particles flagged when the frame began;
  - the emitters' own allocations, their `load` events and any re-tagging of a flagged
    record's group do not appear in the frame's trace.
  `NewDatum` and `EmitParticle` are modelled as separate operations instead.
  `needsReset` is written only by collaborators, so no operation of the model writes it.
- `ParticleSystems.ParticleSystem.SystemSync` requires, when the call advances, that every
  flagged particle's group is in the table. `ParticleSystems.ParticleSystem.EmitParticle`
  requires that the particle's group is in the table. The source looks these groups up
  with `m_groupData[...]->types` (lines 182 and 208), which dereferences a null entry for a
  missing group, so a caller that breaks either gets undefined behaviour.
- A particle type's initial state (count 0, no reset request) is chosen by the model.
  The particle type's own code is not part of this model; the planner sets both fields
  whenever it runs in full.
- The header `particlesystem.h` is not part of this model. The constructors give every
  field they do not set a definite value, since its initialisers are in that header: the
  system starts uninitialised with time 0, and a record starts with no system.
- `ParticleSystems.ParticleSystem.Rebuild`: the initialised flag is raised before the
  type loop, not after it as at line 132. The type loop does not read the flag, so the
  final state is the same. The difference matters only to an observer of the state
  during the loop, and nothing observes it there.
- `ParticleSystems.ParticleSystem.InitializeSystem` requires the iteration order to
  enumerate the planned groups, and the total demand to be non-negative. The order stands
  in for hash-table iteration. A negative arena size is not a valid argument to
  `QVector::resize` at line 112.
- `ParticleSystems.ParticleSystem.NewDatum` requires the group to exist and the slot to
  lie inside the arena. The source indexes both without checking, so a caller that
  breaks either gets undefined behaviour.
