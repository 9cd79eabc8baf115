# HiPACE++ in Dafny

A model of the quasi-static particle-in-cell code HiPACE++ and proofs about it. `dafny verify dfyconfig.toml` checks
everything. Real numbers stand for `amrex::Real`.

## What is modelled

**The longitudinal ring pipeline** (`Ring`, `Serial`, `Schedule`, `RingData`, `RingTail`, `RingInv`, `RingStep`,
`RingLinks`, `RingRun`, `RingLive`, `RingTheorems`, `RingEnd`). n ranks stand in a ring; rank r runs the steps n-1-r,
2n-1-r, ... and in each step walks the boxes from head to tail. `Ring` is a transition system: one transition per MPI
call, per solved slice and per other piece of local work, and one FIFO channel per link and tag (section 3.5 of MPI 3.1).
A send may complete at any time (section 3.7.4 of MPI 3.1); the liveness results hold even if `NotifyFinish` waits until
the previous message on its tags has been received. `Serial` is the reference: a loop nest over steps and slices, with
the field solver, the plasma reset and the beam push as arbitrary functions. The invariant (`RingRun.ReachableInv`) says
that every rank and every channel is where the serial run prescribes. From it follow refinement, exactly-once, ghost
correctness, message matching, deadlock freedom, a bound on the length of every run, and empty channels at the end.

**The local structures of the ring** (`Beam`, `BoxSort`, `MultiBeam`, `BeamDeposit`, `BeamPush`, `SkipComms`): the
counting sort by box with its escape bin, the slice bins, the ghost tail behind the real particles, packing and
unpacking, the choice of the particles that deposit on this and on the next slice, and the skipping of messages for empty
boxes. The kernels take the order of their iterations as a parameter, so every result holds for every order.

**Deposition, gather, tiling** (`Shape`, `Deposition`, `Tiling`, `Gather`): B-spline weights against the Cox-de Boor
recursion, the deposition loops with and without tiles, and the gather as their adjoint.

**The plasma push** (`PlasmaPush`, `AdamsBashforth`, `Mixing`): the force history, real and trial pushes, the
predictor-corrector loop and what it commits, whole steps, the exactness of the integrator over them, and the field
mixing.

**Grid transformations** (`Diagnostics`, `Dirichlet`, `Transpose`): accumulation of the diagnostics slice by slice, the
Dirichlet correction, and the transpose kernel under any schedule that respects its barrier.

**Constants and injection** (`Parser`, `Injection`, `TwoPass`): the recursive evaluation of input constants with cache
and cycle check, and the count, scan and fill passes that place particles.

`Orders` and `Arith` hold what the others share: orders of parallel loops, bins, counting, nonlinear arithmetic.

## Where the code does less than one might expect

Each point is a lemma.

- The plasma is reset before the physical time arrives from upstream (src/Hipace.cpp:398, 409), so with more than one rank
  a density profile that depends on time is evaluated at the time of the rank's previous step. `Serial.StaleResetTime`
  says when the reset time is right and `Serial.RingMatchesOneRank` when the ring equals a single rank.
- A real push stores the previous position before the periodic wrap takes effect in it, so a later reset moves a wrapped
  particle out of the domain again: `PlasmaPush.ResetKeepsPosition`, with the input of `PlasmaPush.WrapIsUndone`. Inside
  the predictor-corrector loop the forces are gathered at the trial position, not at the committed one
  (`PlasmaPush.Corrected`).
- New particles are written from slot 0 of the array on, not behind the particles already there: `TwoPass.AddsIff`, with
  the input of `TwoPass.OverwritesFirst`. The only call (src/particles/PlasmaParticleContainer.cpp:156) starts from an
  empty container, so the program as it stands does not reach the failing case.
- The guards of the ghost messages under `m_skip_empty_comms` test different boxes: `SkipComms.Run.GhostGuards`.
- The ghost check keeps a particle exactly on the lower face of the box: `Beam.CheckGhostWindow`. No such particle is
  among the ghosts in the runs of the model, so `RingTheorems.GhostsAreTheNextSlice` holds without exception.
- The slice index truncates toward zero: `MultiBeam.SliceIndexIsSlice`.

## Model

| member | source | states |
|---|---|---|
| RingTheorems.PipelineRefinesSerial | src/Hipace.cpp:388-457 | Pipelining refines the serial loop: in every reachable state, for every number of ranks and every interleaving, each entry of a rank's log is a slice of a step that belongs to the rank, solved on exactly the valid particles that the serial loop nest has on that slice and on the next one in that step |
| RingTheorems.EverySliceOnce | src/Hipace.cpp:388-457 | A finished rank has solved every slice of each of its steps exactly once and no slice of any other step |
| RingTheorems.PushedOnce | src/Hipace.cpp:585-587 | At any point inside a box every entry of the array is its particle as sorted until its slice is done; from then on it has the position and the attributes that the push gives it in the serial fields of its slice, and its id has changed sign exactly if the push has lost it; every valid particle of the box is there once |
| RingTheorems.FullMessagesAreTheBox | src/Hipace.cpp:1161-1172 | A full message carries every valid particle of its box once, pushed once, and no other valid particle |
| RingTheorems.GhostsAreTheNextSlice | src/Hipace.cpp:1402-1451 | The ghosts surviving the check in box it are, as a multiset, the valid particles that box it-1 has in its head slice in the same step |
| RingTheorems.FullMessageMatches | src/Hipace.cpp:1027-1051 | The full message taken for (s, it) is the one logged for (s-1, it), with the announced length |
| RingTheorems.GhostMessageMatches | src/Hipace.cpp:1027-1051 | The ghost message taken for (s, it) is the one logged for (s-1, it-1), with the announced length |
| RingTheorems.TimeIsStepTime | src/Hipace.cpp:1006-1013 | From its reception on a rank holds the physical time of its step, initial time plus s times dt |
| RingTheorems.RingSeesOneRank | src/Hipace.cpp:388-457 | When every reset of the plasma agrees with one at the time of its step, what the ring solves is what a single rank solves |
| RingEnd.NoDeadlock | src/Hipace.cpp:1119-1310 | Deadlock freedom when every send blocks until it has been received: in every reachable state with an unfinished rank, the unfinished rank of least measure can take a step |
| RingEnd.RunsEnd | src/Hipace.cpp:388-467 | Every run ends, within a bound given by ranks, steps and slices |
| RingEnd.NothingLeftOnTheWire | src/Hipace.cpp:1271-1310 | When all ranks are finished, all five channels of every link are empty |
| RingLive.LeastMoves | src/Hipace.cpp:1119-1310 | The rank least in 4*(step + n-1 - box) + phase waits neither for a message nor for the completion of a send |
| RingRun.ReachableInv | src/Hipace.cpp:388-467 | The inductive invariant: in every reachable state every rank's array and state and every channel are what the serial run prescribes for its position in the schedule |
| RingRun.StepInv | src/Hipace.cpp:388-467 | Every transition keeps the invariant |
| RingStep.DeliversOk | src/Hipace.cpp:998-1117 | Whatever a rank receives next is the serial message for its block: the time of the step, the particles of (step-1, box), the ghosts of (step-1, box-1) |
| RingTail.GhostsCorrect | src/Hipace.cpp:421-445 | Locally packed ghosts plus received ones, once checked, are the particles of the slice below the box |
| RingTail.LeftAfter | src/Hipace.cpp:1133-1144 | After the particles of a box are sent and the array is cut (or not, when the box was empty), it holds exactly the particles that belong to later boxes |
| RingData.ReceiveFull | src/Hipace.cpp:1038-1060 | What was left on a rank plus the full message is what arrives in the box |
| RingData.FullPayloadHolds | src/Hipace.cpp:1165-1171 | Once a box is solved, the particles sorted into it are the valid particles that were in it when the step began, each pushed once |
| RingData.GhostPayloadHolds | src/Hipace.cpp:1165-1171 | Once the head slice is solved, the particles binned to it are the valid particles that were in it, each pushed once |
| Schedule.Matching | src/Hipace.cpp:388-407 | At every diagonal the number of messages a rank has taken is the number its upstream rank has sent: full messages and times one diagonal back, ghosts on the same one |
| Schedule.OwnerBlock | src/Hipace.cpp:388-407 | Every block of every step is worked on by the owner of the step on its diagonal |
| Schedule.StepOfRank | src/Hipace.cpp:388-388 | A rank works on the steps dealt to it, counted down from the head rank |
| Schedule.OwnerIs | src/Hipace.cpp:388-388 | Step s belongs to rank n-1 - s mod n |
| Serial.StaleResetTime | src/Hipace.cpp:398-409 | The plasma of step s is reset at the time of step s if and only if there is one rank, s is 0, or time does not advance |
| Serial.RingMatchesOneRank | src/Hipace.cpp:398-409 | Up to step s the ring has the fields of a single rank if and only if every reset up to then gives what a reset at the time of its step gives |
| Serial.SerialWorldValid | src/Hipace.cpp:388-457 | The trajectories of the serial loop nest: particles keep their identity and never move ahead, invalid ones stay invalid |
| Serial.StepLaw | src/particles/pusher/BeamParticleAdvance.cpp:158-166 | In terms of the push alone: over a step a valid particle of the domain takes the position and the attributes that the push gives it in the fields of its slice, its id changes sign exactly if the push loses it, and nothing else about it changes; every other particle stays as it is |
| Serial.SliceLaw | src/Hipace.cpp:409-457 | In terms of the solver and the reset alone: the fields of a slice are what the solver makes of those of the slice ahead with the valid particles of the domain on this slice and on the one behind; a step starts from the plasma of the initial time, or of the time of step s-n+1 |
| Serial.TimeIs | src/Hipace.cpp:1006-1013 | The time of step s is the initial time plus s times dt |
| BeamPush.BelowLight | src/particles/pusher/BeamParticleAdvance.cpp:138-150 | The longitudinal velocity computed from momenta and their Lorentz factor is below the speed of light |
| BeamPush.Substeps | src/particles/pusher/BeamParticleAdvance.cpp:95-167 | The substep loop never moves a particle ahead, and moves it back unless it is lost at once, the time step is zero, or z is not pushed; a particle that is not lost moves by its velocity relative to light, times the time step, in every substep |
| Beam.UniformGeometry | src/particles/BoxSort.cpp:26-35 | The grid of equal boxes, with the locator by slice index, satisfies what the model asks of a geometry |
| Beam.UniformGridIs | src/particles/BoxSort.cpp:26-35 | Slice k starts at plo + k*dz and box b with slice b times the length of a box |
| Beam.CheckGhostWindow | src/Hipace.cpp:1402-1451 | A ghost survives the check if and only if it is in the slice below the box, or exactly on the lower face of the box |
| Beam.SortKeepsLive | src/particles/BoxSort.cpp:16-55 | Sorting keeps every valid particle inside the domain, with its multiplicity |
| Beam.EscapedEntry | src/particles/BoxSort.cpp:29-33 | An entry of the sorted array behind the last box is a particle that has left the domain, with its id no longer positive and all else unchanged |
| Beam.BoxedEntry | src/particles/BoxSort.cpp:29-33 | An entry in front of it is a particle of a box, unchanged |
| SkipComms.Run.SkippingAgrees | src/Hipace.cpp:1020-1036 | The receiver skips the full message of (s, it) if and only if the sender skips the one of (s-1, it), although each decides from its own running minimum |
| SkipComms.Run.SkippedIsEmpty | src/Hipace.cpp:1153-1159 | A box whose message is skipped holds no particles |
| SkipComms.SkippingChangesNothing | src/Hipace.cpp:1153-1159 | With and without skipping every rank holds the same particles in the same order and has the same plasma and fields |
| SkipComms.RunOfValid | src/Hipace.cpp:414-414 | The model of the running minima has a run |
| SkipComms.HoldLaw | src/Hipace.cpp:1133-1159 | Conservation with and without skipping: the particles of the domain on a rank are those it held in lower boxes in the block before and those the push has made of the same box one step earlier, each with its multiplicity |
| SkipComms.Run.GhostGuards | src/Hipace.cpp:1020-1025 | In every run the two guards of a ghost message disagree exactly where the box is the receiver's minimum, and at the head box when no lower box has particles: there it is received but not sent; it is never sent without being received |
| BoxSort.ResultSorted | src/particles/BoxSort.cpp:16-55 | For any order of the kernels the result is a permutation of the input with escaped particles invalidated; box b has the places from its offset to the next, the escaped particles the last ones |
| BoxSort.ResultPermutes | src/particles/BoxSort.cpp:47-54 | The sorted array is a permutation |
| BoxSort.SortingExists | src/particles/BoxSort.cpp:16-55 | Every array can be box sorted |
| BoxSort.SlotTaken | src/particles/BoxSort.cpp:37-45 | Every place of the result is the destination of some particle |
| BoxSort.SlotValue | src/particles/BoxSort.cpp:37-45 | The destination of a particle, offset of its bin plus its arrival number, holds that particle in the result |
| BoxSort.BoxSorter.SortParticlesByBox | src/particles/BoxSort.cpp:4-55 | The three kernels, each in any order, leave the array box sorted and the counts of every bin, the escape bin included; behind the last box every id is 0 or negative |
| BoxSort.BoxSorter.CountKernel | src/particles/BoxSort.cpp:26-37 | After any order of visits: the counts of all bins, the arrival number of every particle, the escaped ones invalidated, nothing else changed |
| BoxSort.BoxSorter.ShiftKernel | src/particles/BoxSort.cpp:44-49 | Every place is shifted by the offset of the particle's bin |
| BoxSort.BoxSorter.ScatterKernel | src/particles/BoxSort.cpp:51-54 | Scattering to distinct destinations yields the sorted array |
| BoxSort.BoxSorter.LeftmostBoxWithParticles | src/particles/BoxSort.cpp:57-65 | The lowest box with particles, or the last box when there are none |
| MultiBeam.SliceIndexIsSlice | src/particles/SliceSort.cpp:37-38 | The truncated slice index is the distance from the first slice for every particle inside the box; a particle less than a slice below the box is binned to its first slice |
| MultiBeam.BinPlaces | src/particles/SliceSort.cpp:30-40 | The places of a bin hold exactly the particles of the bin |
| MultiBeam.PackedGhosts | src/Hipace.cpp:1249-1253 | The packing loop of a ghost message, through the bins of the box, yields as a multiset the payload of the pipeline model |
| MultiBeam.Pack | src/Hipace.cpp:1249-1253 | A full message holds the particles of the box in array order, a ghost message those that the bin permutation lists for the head slice |
| MultiBeam.Unpack | src/Hipace.cpp:1053-1066 | The received particles are appended in order and nothing before them changes |
| MultiBeam.MultiBeam.StoreNRealParticles | src/particles/MultiBeam.cpp:113-119 | The number of particles of every beam is recorded |
| MultiBeam.MultiBeam.PackLocalGhostParticles | src/particles/MultiBeam.cpp:138-183 | The particles of the box below are appended to every beam as ghosts; the particles before them do not change |
| MultiBeam.MultiBeam.CheckGhostSlice | src/Hipace.cpp:1402-1451 | Exactly the ghosts outside the slice below the box become invalid, the real particles do not change; in box 0 nothing happens |
| MultiBeam.MultiBeam.RemoveGhosts | src/particles/MultiBeam.cpp:130-136 | Every beam is cut back to its real particles |
| MultiBeam.MultiBeam.GhostRoundTrip | src/Hipace.cpp:418-445 | Storing, packing, checking and removing ghosts gives back every beam as it was |
| BeamDeposit.DoDeposition | src/particles/deposition/BeamDepositCurrentInner.H:50-198 | For every order of the particles the arrays gain, particle by particle, amount times both spline weights of the transverse position of the valid chosen particles: jx and jy when these are deposited, jz on this slice only |
| BeamDeposit.SelectRange | src/particles/deposition/BeamDepositCurrentInner.H:68-73 | Offset and range pick bin islice on this slice, bin islice-1 or the ghost tail on the next one |
| BeamDeposit.ThisIsHere | src/particles/deposition/BeamDepositCurrentInner.H:127-129 | The valid particles chosen on this slice are those the pipeline model hands to the solver as the slice's |
| BeamDeposit.NextIsBeyond | src/particles/deposition/BeamDepositCurrentInner.H:131-133 | Inside a box the valid particles chosen for the next slice are those the pipeline model hands to the solver as the next slice's |
| BeamDeposit.GhostsAreBeyond | src/particles/deposition/BeamDepositCurrentInner.H:134-137 | At the tail slice the ghosts are |
| BeamDeposit.GhostsDepositTheNextSlice | src/particles/deposition/BeamDepositCurrentInner.H:41-43 | In any run the ghosts deposit on the next slice what the particles of that slice will deposit once the box below solves it |
| BeamDeposit.SameValidsSameCurrent | src/particles/deposition/BeamDepositCurrentInner.H:147-148 | Particle lists with the same valid particles deposit the same current in every cell |
| Shape.ComputeShapeFactor | src/particles/ShapeFactors.H:32-100 | For orders 0 to 3 the buffer holds the B-spline weights of the cells from the returned one on, and all other cells have weight zero |
| Shape.WeightIsSpline | src/particles/ShapeFactors.H:32-100 | The closed forms are the B-splines of the Cox-de Boor recursion |
| Shape.WeightsSumToOne | src/particles/ShapeFactors.H:32-100 | The weights of a particle add up to 1 |
| Shape.WeightsCentred | src/particles/ShapeFactors.H:48-100 | From order 1 on their first moment is the position of the particle |
| Deposition.GuardsSuffice | src/particles/deposition/PlasmaDepositCurrentInner.H:218-240 | With max(1, order) guard cells every write of a particle inside its region is in bounds |
| Deposition.GuardsExact | src/fields/Fields.cpp:31-32 | The writes of every particle in a region are in bounds if and only if there are at least half the order, rounded up, guard cells |
| Deposition.DepositParticle | src/particles/deposition/PlasmaDepositCurrentInner.H:218-264 | The double loop adds to every entry the product of the two spline weights and the amount |
| Deposition.DepositDirect | src/particles/deposition/PlasmaDepositCurrentInner.H:171-267 | The untiled loop adds the parts of all depositing particles to every entry; a valid particle stays valid if and only if it does not violate the quasi-static approximation |
| Deposition.DiscardLaw | src/particles/deposition/PlasmaDepositCurrentInner.H:188-197 | A valid particle deposits and stays as it is exactly if it does not violate the approximation; otherwise its id changes sign and its weight is zero; an invalid particle does not deposit and stays as it is |
| Deposition.SumPermuted | src/particles/deposition/PlasmaDepositCurrentInner.H:171-177 | The deposited sum does not depend on the order of the particles |
| Tiling.DepositTiled | src/particles/deposition/PlasmaDepositCurrentInner.H:157-294 | Tiled deposition refines the untiled loop: same grid and same discarded particles, for every tile size that divides the grid, every order of the tiles and every order of the particles in a tile, every access in bounds |
| Tiling.DepositTile | src/particles/deposition/PlasmaDepositCurrentInner.H:161-267 | The cleared tile array receives the parts of the particles of the tile |
| Tiling.AddBack | src/particles/deposition/PlasmaDepositCurrentInner.H:269-291 | Every entry of the tile array, guard cells included, is added to its entry of the grid |
| Tiling.BinInTile | src/particles/TileSort.cpp:33-43 | The particles listed for a tile are inside the tile |
| Tiling.CoordRange | src/particles/TileSort.cpp:24-43 | The truncated tile coordinate is in range and is the tile the particle is in |
| Tiling.NothingOutside | src/particles/deposition/PlasmaDepositCurrentInner.H:223-230 | Particles of a tile deposit nothing outside the tile and its guard cells |
| Gather.GatherExact | src/particles/pusher/FieldGather.H:82-135 | Constant fields are gathered exactly for all orders, affine ones from order 1 on |
| Gather.DepositAdjointGather | src/particles/pusher/FieldGather.H:82-135 | The field times the deposited charge, summed over the grid, is the sum over the particles of charge times gathered field |
| Gather.AdjointOnGrid | src/particles/pusher/FieldGather.H:82-135 | The same for the grid left by the deposition loops |
| Gather.ChargeConserved | src/particles/deposition/PlasmaDepositCurrentInner.H:232-264 | The grid entries add up to the total amount of the depositing particles |
| Gather.GatherField | src/particles/pusher/FieldGather.H:61-135 | The triple loop adds the weighted sum of the field over the grid; the order along z does not matter |
| PlasmaPush.Plasma.ShiftForceTerms | src/particles/pusher/UpdateForceTerms.H:79-107 | The chain of swaps moves every force array one slice into the past and leaves the oldest in F1 |
| PlasmaPush.Plasma.Advance | src/particles/pusher/PlasmaParticleAdvance.cpp:75-191 | For every combination of flags: which force arrays move, which particles get new forces, and what the push does to every particle |
| PlasmaPush.Plasma.PushOne | src/particles/pusher/PushPlasmaParticles.H:92-136 | The real and the trial push of one particle, the boundary condition included |
| PlasmaPush.Plasma.ResetParticles | src/particles/pusher/PlasmaParticleAdvance.cpp:197-240 | Every particle is put back to its stored previous position and committed momenta |
| PlasmaPush.TrialIsReal | src/particles/pusher/PushPlasmaParticles.H:101-135 | With the same forces a trial push gives position and momenta of a real push |
| PlasmaPush.TrialUndone | src/particles/pusher/PushPlasmaParticles.H:120-135 | A reset undoes a trial push of a particle that is not lost |
| PlasmaPush.PushLaw | src/particles/pusher/PushPlasmaParticles.H:101-135 | The stored position of either push is what the boundary condition makes of the position moved by the five weighted forces; the id turns negative exactly if the particle is lost, and then its weight is zero and its momenta and previous position are kept |
| PlasmaPush.ResetKeepsPosition | src/particles/pusher/PushPlasmaParticles.H:101-118 | A reset after a real push gives the pushed particle back if and only if the boundary condition did not wrap its position |
| PlasmaPush.WrapIsUndone | src/particles/pusher/PushPlasmaParticles.H:101-118 | An input for which it does not: a particle at 3 that moves by 2 where the domain is periodic at 4 is put at 1 and reset to 5 |
| PlasmaPush.Plasma.PredictorCorrector | src/Hipace.cpp:851-996 | Whatever the number of iterations, the loop leaves the committed state of every particle still valid, shifts the history once, stops by tolerance or by the maximum, and leaves in F1 the forces gathered at the last trial position |
| PlasmaPush.CorrectedLaw | src/Hipace.cpp:909-974 | The forces of iteration n are gathered where a real push with the forces of the iteration before would put the particle |
| PlasmaPush.ConvergedIsImplicit | src/Hipace.cpp:909-974 | When an iteration repeats the forces of the one before, the next real push is implicit: its force is the one at the position that it leads to |
| PlasmaPush.Plasma.SolveSlice | src/Hipace.cpp:519-583 | One slice: the committed state is that of one real push with the past forces, the history is shifted once, and the new entry holds the forces gathered in the last iteration of the loop |
| PlasmaPush.Plasma.SolveStep | src/Hipace.cpp:519-583 | A whole step leaves a trace in which every particle is pushed in every slice with the forces of the five slices before it, and every slice adds the forces gathered in it; F1 to F5 hold the last five |
| AdamsBashforth.ExactStep | src/particles/pusher/PushPlasmaParticles.H:95-118 | One push integrates force polynomials of degree at most 4 exactly |
| AdamsBashforth.Degree5Exact | src/particles/pusher/PushPlasmaParticles.H:95-99 | A force polynomial of degree at most 5 is integrated exactly by one push if and only if the step is zero or its degree is at most 4 |
| AdamsBashforth.HistoryFilled | src/Hipace.cpp:519-583 | From the sixth slice of a step on the history of a particle that is still there holds the forces of the slice before and of the four before that |
| AdamsBashforth.ExactRun | src/particles/pusher/PushPlasmaParticles.H:101-118 | In every trace of a step whose forces depend on the slice only, from the end of the fifth slice on every particle that is still there has moved exactly, in all five components, when one push is exact |
| AdamsBashforth.PolyRun | src/particles/pusher/PushPlasmaParticles.H:101-118 | The same without further assumption for forces that are polynomials of degree at most 4 along the slices |
| AdamsBashforth.PolyIs | src/particles/pusher/PushPlasmaParticles.H:95-99 | The polynomials of the exactness result are the ones with the usual coefficients |
| AdamsBashforth.PrimitiveIs | src/particles/pusher/PushPlasmaParticles.H:95-99 | And so are their primitives |
| Mixing.MixAndShift | src/fields/Fields.cpp:770-805 | The field is mixed with both iterates, each weighted with the error of the other, so that with a smaller error than the previous iterate the new one draws the field nearer to itself; the new iterate becomes the previous one |
| Mixing.WeightsBalance | src/fields/Fields.cpp:775-780 | Weight times error is the same for both iterates, so the larger error has the smaller weight |
| Mixing.NearerToNew | src/fields/Fields.cpp:775-780 | If the error of the new iterate is the smaller one, what is mixed in is nearer to the new iterate |
| Mixing.WeightsAreConvex | src/fields/Fields.cpp:770-786 | The two weights are nonnegative and add up to 1, also when both errors are zero |
| Mixing.StaysInside | src/fields/Fields.cpp:770-805 | With a mixing factor in [0, 1] the field stays in every interval that holds the guess and the iterates |
| Mixing.ExactRate | src/fields/Fields.cpp:770-805 | For a constant iterate C the distance after n iterations is (1-a)^(n-1) (1-a/2) times the first |
| Mixing.CorrectorLoop | src/Hipace.cpp:909-974 | The loop runs at most the maximum number of times, stops below the maximum only by tolerance, and mixes every cell as the iteration says |
| Mixing.IterationLaw | src/fields/Fields.cpp:770-805 | In terms of the errors: the first iteration mixes the iterate with the guess in equal parts, every later one with the iterate before, each weighted with the error of the other |
| Diagnostics.Copy | src/fields/Fields.cpp:304-366 | One call adds to every diagnostic slice the slice's linear share of the field; the window and the trimming drop only zero shares |
| Diagnostics.WindowSuffices | src/fields/Fields.cpp:320-329 | Outside the rounded window the share is zero |
| Diagnostics.Trim | src/fields/Fields.cpp:345-354 | The two trimming loops drop only zeros |
| Diagnostics.ScatterIsGather | src/fields/Fields.cpp:319-343 | The shares of all slices in a diagnostic slice add up to the linear interpolation of the zero-extended slices at its position |
| Diagnostics.MidIs | src/fields/Fields.cpp:318-319 | The position of a diagnostic slice, in slices from the first one on, is its position in space |
| Diagnostics.LinearExact | src/fields/Fields.cpp:304-366 | A field that is linear along z is reproduced exactly on every diagnostic slice between the first and the last slice |
| Diagnostics.Accumulate | src/fields/Fields.cpp:304-366 | After one call per slice every diagnostic slice has gained the linear interpolation along z |
| Dirichlet.CorrectionPreservesSolutions | src/fields/Fields.cpp:447-451 | A potential solves the 5-point equation with zero guard values for the corrected source if and only if it solves it with the given guard values for the given source, corners and boxes one point wide included |
| Dirichlet.SetDirichletBoundaries | src/fields/Fields.cpp:444-490 | The branch-free edge loop, in any order, subtracts exactly the correction |
| Dirichlet.Locate | src/fields/Fields.cpp:469-484 | The index arithmetic without branches: edge point, guard neighbour and spacing on all four edges |
| Dirichlet.LaplaceOfQuadratic | src/fields/Fields.cpp:447-451 | The 5-point operator of the correction gives the Laplacian of every quadratic polynomial exactly |
| Transpose.Kernel | src/fields/fft_poisson_solver/fft/WrapCuDST.cpp:187-227 | For all sizes and every order of the threads that respects the barrier the output is the transpose of the input, entry i at place (i mod nData) * nBatch + i div nData |
| Transpose.AllMoved | src/fields/fft_poisson_solver/fft/WrapCuDST.cpp:212-223 | In linear memory the transpose moves entry i to place (i mod nData) * nBatch + i div nData |
| Transpose.Partner | src/fields/fft_poisson_solver/fft/WrapCuDST.cpp:210-225 | Every tile entry read after the barrier is written before it, by the access with row and column exchanged |
| Transpose.Writer | src/fields/fft_poisson_solver/fft/WrapCuDST.cpp:218-225 | Every output entry is written by some access |
| Transpose.WrittenOnce | src/fields/fft_poisson_solver/fft/WrapCuDST.cpp:218-225 | No output entry is written by two accesses |
| Transpose.TransposeTwice | src/fields/fft_poisson_solver/fft/WrapCuDST.cpp:178-227 | Transposing twice is the identity |
| Parser.Constants.InitParser | src/utils/Parser.H:132-183 | Terminates; aborts if and only if some symbol has no value; otherwise binds exactly the symbols that are not variables to their direct values, a built-in constant that is not redefined to its built-in value, keeps the cache sound and restores the set of symbols under evaluation |
| Parser.Constants.Constant | src/utils/Parser.H:154-182 | The value of one symbol, cached or not, is its direct value; that of a built-in constant that is not redefined its built-in one |
| Parser.Constants.FillWithParser | src/utils/Parser.H:191-196 | An expression evaluates to its value at the direct values of its symbols |
| Parser.ValueIff | src/utils/Parser.H:154-182 | A symbol has no value if and only if it leads to an unknown symbol or into a cycle |
| Parser.AllIff | src/utils/Parser.H:154-182 | A call from outside succeeds if and only if no symbol of the expression leads to an unknown symbol or into a cycle |
| Parser.UserConstant | src/utils/Parser.H:146-175 | A user constant is the value of its expression, also when a built-in constant has its name |
| Parser.BuiltinConstant | src/utils/Parser.H:175-179 | A built-in constant that the user has not redefined has its built-in value |
| Parser.Independent | src/utils/Parser.H:154-172 | A value does not depend on what else is being evaluated |
| Parser.CachedAnywhere | src/utils/Parser.H:159-163 | A cached value is the direct value in every later evaluation |
| Parser.SafeCastToInt | src/utils/Parser.H:96-125 | Succeeds if and only if the truncated value fits in 32 bits, and then returns the integer next to the value on the side of zero |
| Parser.CastRounded | src/utils/Parser.H:205-210 | An int input is the nearest integer, and an error if and only if that does not fit in 32 bits |
| Injection.Decoded | src/particles/ParticleUtil.H:42-55 | Every particle index of a cell decodes to a place of the cell's lattice, and encoding that place gives the index back |
| Injection.Encoded | src/particles/ParticleUtil.H:42-55 | Every place of the lattice is the decoding of exactly its index |
| Injection.PlacesDiffer | src/particles/ParticleUtil.H:42-55 | The particles of a cell are at different places, all inside the cell |
| Injection.IndexOrder | src/particles/ParticleUtil.H:48-50 | Particles of a cell are numbered with y fastest, then z, then x |
| Injection.GetPositionUnitCell | src/particles/ParticleUtil.H:42-55 | The position of particle n is inside the cell, in the middle of a place of the lattice, and reading the place off the coordinates gives n back |
| Injection.CellIdBijective | src/particles/PlasmaParticleContainerInit.cpp:61-71 | Every cell of the box has its own id in range |
| Injection.CellOfBijective | src/particles/PlasmaParticleContainerInit.cpp:61-71 | Every id in range belongs to a cell of the box |
| Injection.CellIdOrder | src/particles/PlasmaParticleContainerInit.cpp:61-71 | Cell ids number the cells with z fastest, then y, then x |
| TwoPass.Count | src/particles/PlasmaParticleContainerInit.cpp:40-74 | For every order of the cells the first pass counts the kept places of every cell |
| TwoPass.ExclusiveSum | src/particles/PlasmaParticleContainerInit.cpp:76-76 | Offsets and total are the partial sums of the counts |
| TwoPass.Fill | src/particles/PlasmaParticleContainerInit.cpp:105-190 | For every order of the cells the second pass fills the slots from 0 on with the kept places, numbered consecutively, and changes no other slot |
| TwoPass.ParticleTile.InitParticles | src/particles/PlasmaParticleContainerInit.cpp:40-191 | The resized array, the numbering and the stored number of particles, also when there were particles before and when nothing is added; InjectedInside and InjectedEverywhere say where the particles are |
| TwoPass.PlaceInCell | src/particles/PlasmaParticleContainerInit.cpp:129-131 | Place n of cell c is the one position whose offset from the lower corner of the cell, in cells, is the middle of place n of the lattice |
| TwoPass.InjectedInside | src/particles/PlasmaParticleContainerInit.cpp:120-141 | Every injected particle is strictly inside a cell of the box, at a place of its lattice that is kept, and has the number of its slot |
| TwoPass.InjectedEverywhere | src/particles/PlasmaParticleContainerInit.cpp:120-141 | Every kept place of every cell of the box has an injected particle |
| TwoPass.PlacesExact | src/particles/PlasmaParticleContainerInit.cpp:46-74 | The list of kept places holds every kept place of the box exactly once |
| TwoPass.OnePlaceEach | src/particles/PlasmaParticleContainerInit.cpp:125-129 | No two places of the box coincide |
| TwoPass.InjectedIntoEmpty | src/particles/PlasmaParticleContainerInit.cpp:40-191 | Into an empty container: every particle is strictly inside a cell of the box at a kept place of its lattice, every such place has one, no two are at the same place, and they are numbered consecutively |
| TwoPass.AddsIff | src/particles/PlasmaParticleContainerInit.cpp:123-141 | The particles already there keep their places if and only if there were none or none are added |
| TwoPass.OverwritesFirst | src/particles/PlasmaParticleContainerInit.cpp:123-141 | An input for which they do not: a tile with one particle and a cell with one place |

## Left out

- The physics of the field solvers, of ionization and of the beam push: arbitrary functions of the plasma and field
  state and of the particles of this and the next slice. Of the push the model asks that no particle moves ahead, which
  `BeamPush.Substeps` shows of the program's pusher.
- Several beam species: the ring carries one; `MultiBeam` has any number.
- `m_boxes_in_z` greater than 1: the number of boxes is the number of ranks.
- SkipComms.SkippingChangesNothing: has full messages and the time order of the blocks, but neither ghost particles nor
  blocking nor a last step, because with skipping on the guards of the ghost messages do not match. The ring is modelled
  with skipping off.
- Adaptive time steps: dt is constant.
- Transverse positions in the ring: a flag says whether a particle is inside. Transverse loss is covered, periodic
  transverse wrap is part of the push function.
- Auxiliary fields of the ring model: the tag of a particle, the logs of a link, `orig` and `seen` of a rank. No
  transition depends on them.
- `Ring` is a transition system on values, not a set of methods: interleaving and blocking are its subject. The loops of
  `Wait`, `Notify` and `CheckGhostSlice` over particle arrays are methods in `MultiBeam`, tied to the payloads of the
  transition system by the contract of `MultiBeam.Pack` and by `MultiBeam.PackedGhosts`.
- The amounts the deposition adds, and the test of the quasi-static approximation: functions of the particle. One
  destination array stands for all of them in `Deposition` and `Tiling`; `BeamDeposit` has the three currents.
- Particles discarded by the deposition inside the predictor-corrector loop: `PlasmaPush` has no deposition.
- Positions in `Deposition`, `Tiling` and `Gather` are in cells from the corner of the domain; the conversion from metres is
  not modelled.
- The boundary condition of the plasma is a function from the new position to the position it leaves and to whether the
  particle is lost; the wrap itself is not spelled out.
- DenseBins::build, exclusive sums on the GPU and scatterParticles: stated by their results (`Orders.IsBins`) where they
  are not written out.
- Diagnostics.Copy: does not model the transverse interpolation and the loop over components, because both act on one
  slice at a time; the slice's value in a cell is a parameter.
- Tiles that run at the same time: `Tiling` runs them one after the other, in any order; the source adds their arrays to the
  grid with atomic additions.
- The guard values of `Dirichlet` are a function of the guard point, not of its coordinates.
- Parallel loops over cells in `Diagnostics` and `Mixing` run in index order; their iterations are independent.
- The text of expressions: `Parser` knows of an expression its symbols and its value for given symbols. Arrays of
  constants, and reading several words as one expression, are not modelled.
- Random positions inside a cell, symmetrized beams and fixed-weight beams: only evenly spaced injection is modelled, for
  plasma and beam alike, with one predicate for all tests that drop a place.
- The attributes of injected particles other than position and id.
- Mesh refinement, sub-slices, GPU packing, file output, reading of input files.
- Floating-point rounding and overflow; the 32-bit counters of the sort and the injection.
