# FLUID-SIM in Dafny

FLUID-SIM holds two particle-fluid solvers. This project models the core of both,
together with the keyboard and mouse handlers that drive the first one.

- **The C++ lattice solver** (`src/grid.hpp`, `src/grid.cpp`).
  - A `Grille` stores `nx * ny * nz` particles. It has a flat `vertices` list addressed through
    `idx3`, and seven 3-D per-particle fields (velocity, acceleration and density).
  - `CreateGrid` places the particles on a regular lattice.
  - `UpdateGrid` runs four phases in order:
    1. reset every acceleration to gravity;
    2. an all-pairs density;
    3. pressure, viscosity and a soft wall penalty, with an optional pressure colour;
    4. semi-implicit Euler, a hard clamp that reflects and damps the clamped axis, and an optional
       speed colour.
  - `ComputeAverageVelocity` takes the mean velocity.
  - In the model the lattice is a class over `array3<real>` fields, and each phase is a method with the
    source's nested loops. Each method is proved against a function on a value snapshot
    (`LatticePhysics.Snapshot`); the properties are lemmas about those functions.
- **The input handlers of `src/main.cpp`.**
  - The R and E keys are edge-triggered. Each toggles its own colour mode and clears the other.
  - Space flips the simulation switch on every frame it is held.
  - The scroll wheel and the mouse clamp the field of view and the pitch.
  - `InputState` is a class over those globals, and `Frame` is one pass of the render loop without
    the drawing.
- **The Python 2-D SPH simulator** (`fluid_simulator.py`, `spatial_hash.py`, `particle.py`).
  - `Particle`, `SpatialHash` and `FluidSimulator` are classes whose methods update their fields in
    place.
  - The spatial hash keeps a map from floor-cell to bucket. Its queries scan the 3x3 block of cells
    around the query point.
  - A step rebuilds the hash, computes densities (floored at the rest density) and pressures, then
    forces (pressure, viscosity and gravity), then moves every particle by one Euler step and
    bounces it back into the box.
  - The smoothing kernels are functions with their cut-offs. The physics is proved about them:
    - the kernel's sign;
    - the pressure term pushes neighbours apart, and is equal and opposite between equal-volume pairs;
    - an isolated particle feels only gravity;
    - every step leaves all particles in the box.
  - The hash queries are proved sound, duplicate-free and, when the search radius is at most the
    cell size, complete. `SphHashProperties.MissedBeyondCell` shows what happens when the radius is
    larger. The hash's cell size is fixed when the simulator is built (0.5). `examples.py:47` then
    raises `smoothing_radius` to 0.8, and a particle 0.6 away, two cells over, is then never found.

Floats are modelled as `real`. Square roots come in as a parameter `sqrt` with
`Numerics.IsSqrt(sqrt)`: a non-negative function whose square is its argument.

## Model

| member | source | states |
|---|---|---|
| Numerics.Clamp | src/grid.cpp:176 | `std::clamp`: the result lies in [lo, hi]; a value already inside is returned unchanged; a value below lo gives lo and one above hi gives hi |
| Numerics.Min | src/grid.cpp:246 | `fmin`: a lower bound of both arguments that equals one of them |
| Numerics.Max | fluid_simulator.py:113 | Python `max`: an upper bound of both arguments that equals one of them |
| LatticeIndex.Idx3InRange | src/grid.hpp:41-43 | for an in-range triple, `idx3` lies in [0, nx*ny*nz) |
| LatticeIndex.Idx3Decode | src/grid.hpp:41-43 | (id / (ny*nz), (id / nz) % ny, id % nz) recovers (i, j, k) from `idx3(i, j, k)` |
| LatticeIndex.Idx3Injective | src/grid.hpp:41-43 | two in-range triples with the same `idx3` are equal |
| LatticeIndex.CoordInRange | src/grid.hpp:41-43 | every id in [0, N) decodes to an in-range triple whose `idx3` is id, so `idx3` is onto |
| Lattice.Grille.constructor | src/grid.hpp:29-37 | stores nx, ny, nz unchanged; every per-particle field is a fresh nx×ny×nz array of zeros; `vertices` is empty |
| Lattice.Grille.IndexOf | src/grid.hpp:41-43 | `idx3` of an in-range cell, below N |
| LatticePhysics.RestDensity | src/grid.cpp:50 | the rest density (domain volume / N) is positive for a non-empty lattice |
| LatticePhysics.WallPenalty | src/grid.cpp:155-167 | on one axis the penalty is positive exactly when the sphere crosses the minimum, negative exactly when it crosses the maximum, zero when it is clear of both |
| LatticePhysics.ClampAxis | src/grid.cpp:220-226 | the clamped coordinate lies in [min+ε, max−ε]; an inside coordinate and its velocity are unchanged; a coordinate below min+ε is put on min+ε and one above max−ε on max−ε, and the clamped axis's velocity becomes −0.8·v |
| LatticeSolver.ResetAccelerations | src/grid.cpp:52-62 | phase 0 in place: the new lattice state is `ResetAccelerations` of the old one |
| LatticeSolver.NeighbourWeight | src/grid.cpp:81-89 | one density weight in the loop equals the pair weight `Weight` of the two positions |
| LatticeSolver.DensityOf | src/grid.cpp:72-94 | the inner triple loop sums the weights of every other particle, skipping the particle itself |
| LatticeSolver.ComputeDensities | src/grid.cpp:64-97 | phase 1 in place: the new state is `ComputeDensities` of the old one, the density field only |
| LatticeSolver.AddWalls | src/grid.cpp:155-167 | the six wall tests add exactly `WallAccel` of the particle's position |
| LatticeSolver.Neighbour | src/grid.cpp:119-129 | reads neighbour B's position, velocity and density as the flat-index sequences hold them |
| LatticeSolver.Visit | src/grid.cpp:117-150 | one neighbour visit adds that neighbour's pair term to the running sum, or nothing for the particle itself |
| LatticeSolver.PairRow | src/grid.cpp:117-151 | the kk loop extends the pair sum over one row of the lattice |
| LatticeSolver.ForceOf | src/grid.cpp:104-167 | a particle's local acceleration is its reset value, plus every other particle's pair term, plus the wall penalty |
| LatticeSolver.ForceCell | src/grid.cpp:104-191 | stores that acceleration, writes the phase-2 colour of this vertex only, and leaves every other cell's acceleration unchanged |
| LatticeSolver.ForceStep | src/grid.cpp:103-192 | one cell step extends the "every earlier cell done" invariant of phase 2 by one cell |
| LatticeSolver.ForceLoops | src/grid.cpp:100-194 | the three loops of phase 2 carry that invariant from the first cell to past the last |
| LatticeSolver.ComputeForces | src/grid.cpp:99-194 | phase 2 in place: the new state is `ComputeForces` of the old one, so accelerations and colours read only densities from phase 1 |
| LatticeSolver.ClampStep | src/grid.cpp:220-226 | the if / else-if clamp of one axis equals `ClampAxis` |
| LatticeSolver.EulerClamp | src/grid.cpp:212-242 | velocity then position update, then the three clamps, equal `IntegrateOne` |
| LatticeSolver.SpeedColourOf | src/grid.cpp:245-250 | the speed colour of one particle equals `SpeedColour` of its velocity |
| LatticeSolver.IntegrateCell | src/grid.cpp:201-255 | integrates one cell: its vertex and velocity become the integrated ones; no other cell's velocity changes |
| LatticeSolver.IntegrateStep | src/grid.cpp:200-256 | one cell step extends the "every earlier cell integrated" invariant of phase 3 |
| LatticeSolver.IntegrateLoops | src/grid.cpp:197-258 | the three loops of phase 3 carry that invariant over the whole lattice |
| LatticeSolver.Integrate | src/grid.cpp:196-258 | phase 3 in place: the new state is `Integrate` of the old one |
| LatticeSolver.UpdateGrid | src/grid.cpp:31-259 | the whole update is `Step`, the four phases composed in source order |
| LatticeSolver.PlaceVertices | src/grid.cpp:12-26 | every vertex at `idx3(i, j, k)` is (i·scale, j·scale + 5, k·scale) with colour (0, 0, 0) |
| LatticeSolver.CreateGrid | src/grid.cpp:6-29 | a fresh built lattice of the requested resolution with the placed vertices and every field zero |
| LatticeSolver.SumRow | src/grid.cpp:269-277 | the inner reduction loop adds one row of velocities to the running total |
| LatticeSolver.ComputeAverageVelocity | src/grid.cpp:261-280 | without changing the lattice, returns the component-wise mean velocity with a black colour, or NaN (0 / 0) for an empty lattice |
| LatticeProperties.ResetIsGravity | src/grid.cpp:52-62 | after phase 0 every acceleration is exactly (0, −9.81, 0) and nothing else changed |
| LatticeProperties.SumOthersSkipsSelf | src/grid.cpp:77 | the density sum does not depend on the particle's own weight |
| LatticeProperties.SumOthersBounds | src/grid.cpp:74-92 | with weights in [0, 1], the sum over the others is in [0, n−1] |
| LatticeProperties.SumOthersZero | src/grid.cpp:74-92 | with every other weight zero, the sum is zero |
| LatticeProperties.WeightAtRange | src/grid.cpp:85-88 | (1 − r/h)² lies in [0, 1), and is positive exactly when 0 < r² < h² |
| LatticeProperties.WeightRange | src/grid.cpp:81-88 | the same for the weight of two positions |
| LatticeProperties.DensityBounds | src/grid.cpp:72-94 | every density lies in [0, N−1] |
| LatticeProperties.SumOthersStrict | src/grid.cpp:74-92 | with weights in [0, 1) and at least one other index, the sum is strictly below the number of other indices |
| LatticeProperties.DensityStrict | src/grid.cpp:72-94 | with at least two particles, every density is strictly below N−1 |
| LatticeProperties.IsolatedDensity | src/grid.cpp:85-94 | a particle with no other particle within h has density 0 |
| LatticeProperties.DensitySkipsSelf | src/grid.cpp:77 | moving the particle itself without changing any pair weight leaves its density unchanged |
| LatticeProperties.PressureAntisymmetric | src/grid.cpp:122-141 | the pressure term B gives A is the exact negation of the one A gives B |
| LatticeProperties.ViscosityAntisymmetric | src/grid.cpp:143-150 | the viscosity term B gives A is the exact negation of the one A gives B |
| LatticeProperties.PairAntisymmetric | src/grid.cpp:122-150 | so is their sum |
| LatticeProperties.PairCutOff | src/grid.cpp:125-126 | a neighbour beyond h or at the same position contributes nothing |
| LatticeProperties.TermsVanish | src/grid.cpp:126 | when the `continue` fires, both pair terms are zero |
| LatticeProperties.SumExceptSkipsSelf | src/grid.cpp:118 | the pair sum does not depend on the particle's own term |
| LatticeProperties.FreeParticle | src/grid.cpp:104-167 | a particle with nobody within h and clear of the walls keeps its reset acceleration |
| LatticeProperties.SumExceptZero | src/grid.cpp:115-153 | when every other term is zero, the pair sum is zero |
| LatticeProperties.GradientInRange | src/grid.cpp:179-181 | the colour gradient has components in [0, 1], [0, 0.2] and [0, 1], and red + blue = 1 |
| LatticeProperties.PressureColourAtZero | src/grid.cpp:176-186 | pressure 0 gives colour (0.5, 0.1, 0.5) |
| LatticeProperties.SpeedColourInRange | src/grid.cpp:245-250 | the speed colour is the gradient at some t in [0, 1] |
| LatticeProperties.SemiImplicitEuler | src/grid.cpp:212-218 | without a clamp, velocity is updated first and position uses the new velocity |
| LatticeProperties.ClampReflects | src/grid.cpp:220-242 | after the clamp every axis is in [min+ε, max−ε]; each axis's velocity is reflected and damped only when that axis was clamped |
| LatticeProperties.StepInBox | src/grid.cpp:196-242 | after `UpdateGrid` every particle is inside the box and the count is unchanged |
| LatticeProperties.StepColour | src/grid.cpp:174-191 | the final colour is the speed colour in speed mode (overwriting a pressure colour), the pressure colour in pressure mode, otherwise blue |
| LatticeProperties.StepFreeFall | src/grid.cpp:52-218 | an isolated particle at rest, clear of the walls, falls with velocity (0, dt·g, 0) |
| LatticeProperties.SumUpToZero | src/grid.cpp:269-277 | the total of zero velocities is zero |
| LatticeProperties.MeanOfRest | src/grid.cpp:261-279 | the mean of an all-zero velocity list is (0, 0, 0) |
| LatticeSolver.FreshAverage | src/grid.cpp:261-279 | `ComputeAverageVelocity` straight after `CreateGrid` returns (0, 0, 0), or NaN for an empty lattice |
| Controls.ModesExclusive | src/main.cpp:225-232 | if pressure and speed were not both on before `processInput`, they are not both on after |
| Controls.EdgeMakesExclusive | src/main.cpp:225-232 | any rising edge leaves the two modes exclusive |
| Controls.PressureToggle | src/main.cpp:225-228 | a rising edge of R alone flips pressure and clears speed |
| Controls.SpeedToggle | src/main.cpp:229-232 | a rising edge of E alone flips speed and clears pressure |
| Controls.BothPressed | src/main.cpp:225-232 | rising edges of both in one call end with speed on and pressure off |
| Controls.NoEdgeKeepsColours | src/main.cpp:225-232 | without a rising edge both modes keep their values |
| Controls.HeldKeysToggleOnce | src/main.cpp:222-235 | the last-key flags equal the keys; holding the keys for a second call changes neither mode |
| Controls.SpaceIsLevel | src/main.cpp:218-219 | space flips the simulation switch on every call it is held, so two calls restore it |
| Controls.Zoom | src/main.cpp:291-295 | fov − yoffset clamped to [1, 45] |
| Controls.ClampPitch | src/main.cpp:274-277 | the pitch clamped to [−89, 89] |
| Controls.PitchBounded | src/main.cpp:261-277 | after a mouse move the pitch is in [−89, 89], the last position is the cursor, and the first-move flag is off |
| Controls.FirstMouseStill | src/main.cpp:254-259 | the first mouse event does not turn the camera |
| Controls.MouseTurns | src/main.cpp:261-271 | later events turn yaw and pitch by 0.1 times the cursor offset (y reversed) |
| Controls.InputState.constructor | src/main.cpp:24-35 | the initial values of the globals |
| Controls.InputState.ProcessInput | src/main.cpp:204-236 | the switches become `NextModes` of the old switches and keys; the camera and fov are unchanged |
| Controls.InputState.ScrollCallback | src/main.cpp:289-296 | fov becomes `Zoom` of the old fov; nothing else changes |
| Controls.InputState.MouseCallback | src/main.cpp:249-278 | yaw, pitch and the cursor become `MouseMoved` of the old ones; nothing else changes |
| Controls.Frame | src/main.cpp:155-170 | the switches follow `processInput` while camera and fov stay unchanged; the lattice takes one `Step` exactly when the simulation switch is on afterwards, and is unchanged otherwise; the mean velocity follows |
| SphKernels.Kernel | fluid_simulator.py:49-64 | the poly6 kernel is 0 for r ≥ h and positive for 0 ≤ r < h |
| SphKernels.GradientInward | fluid_simulator.py:78-82 | inside (1e-6 ≤ r < h) the spiky gradient is −c·r_vec with c > 0, so it points back toward the neighbour |
| SphKernels.GradientCutOff | fluid_simulator.py:78-79 | the gradient is zero for r ≥ h or r < 1e-6 |
| SphKernels.GradientOdd | fluid_simulator.py:81-82 | reversing r_vec reverses the gradient |
| SphKernels.KernelLaplacian | fluid_simulator.py:84-99 | the viscosity Laplacian is 0 for r ≥ h and positive for 0 ≤ r < h |
| SphParticle.Particle.constructor | particle.py:11-25 | a new particle has the given position, velocity and mass, density 0, pressure 0 and force (0, 0) |
| SphParticle.Particle.Update | particle.py:27-42 | the new state is `Advanced` of the old one |
| SphParticle.MomentumChange | particle.py:35-36 | mass × (velocity change) = force × dt |
| SphParticle.SemiImplicit | particle.py:35-42 | position advances with the updated velocity; force is reset to zero; mass, density and pressure are unchanged |
| SphParticle.FreeFlight | particle.py:35-39 | with no force, velocity is kept and position moves by velocity × dt |
| SphHash.Appended | spatial_hash.py:46-47 | appending touches only the bucket of cell c, which gains p at its end |
| SphHash.HashContains | spatial_hash.py:35-37 | the cell `_hash` picks contains the point: i·s ≤ x < (i+1)·s on each axis |
| SphHash.SpatialHash.constructor | spatial_hash.py:11-19 | stores the cell size with no buckets |
| SphHash.SpatialHash.Clear | spatial_hash.py:21-23 | no buckets remain; the cell size is unchanged |
| SphHash.SpatialHash.Insert | spatial_hash.py:39-47 | the particle is appended to the bucket of its own cell only |
| SphHash.SpatialHash.GetNeighbors | spatial_hash.py:49-73 | without changing the grid, returns `Neighbours`: each of the 3x3 cells in loop order, each bucket's particles closer than radius |
| SphHashProperties.NearMembers | spatial_hash.py:68-71 | a particle is kept from a bucket exactly when it is in the bucket and closer than radius |
| SphHashProperties.NearDistinct | spatial_hash.py:68-71 | filtering a bucket without repeats yields no repeats |
| SphHashProperties.GatheredMembers | spatial_hash.py:64-71 | a particle is collected exactly when it is closer than radius and in the bucket of one of the scanned cells |
| SphHashProperties.NeighboursSound | spatial_hash.py:60-73 | every result is stored and closer than radius, and, for a well-indexed grid, sits in one of the 3x3 cells around the query |
| SphHashProperties.NeighboursStored | spatial_hash.py:64-71 | every result is a stored particle |
| SphHashProperties.NeighboursComplete | spatial_hash.py:49-73 | when radius ≤ cell size, every stored particle closer than radius is returned |
| SphHashProperties.NeighboursDistinct | spatial_hash.py:64-71 | on a grid without repeated particles, no particle is returned twice |
| SphHashProperties.MissedBeyondCell | spatial_hash.py:64-71 | with cell size 0.5 and radius 0.8, a stored particle at (−0.6, 0) is within radius of the origin yet not returned |
| SphHashProperties.BuiltProperties | fluid_simulator.py:185-187 | the rebuilt hash stores exactly the simulator's particles, each in its own cell, and without repeats when the list has none |
| SphFluid.Dist | fluid_simulator.py:110 | a distance is non-negative |
| SphFluid.Contribution | fluid_simulator.py:111 | a neighbour of non-negative mass contributes ≥ 0 to the density, and > 0 when its mass is positive and it is within h |
| SphFluid.DensityNonNegative | fluid_simulator.py:104-111 | with non-negative masses the raw density sum is ≥ 0 |
| SphFluid.DensityAtLeastTerm | fluid_simulator.py:109-111 | every neighbour's contribution is at most the raw sum |
| SphFluid.MemberContribution | fluid_simulator.py:109-111 | the same for a neighbour named by membership |
| SphFluid.Density | fluid_simulator.py:101-113 | the density is at least the rest density and at least the raw sum, and equals one of them |
| SphFluid.Pressure | fluid_simulator.py:114 | pressure is ≥ 0 when gas_constant ≥ 0 and density ≥ rest, and 0 at the rest density |
| SphFluid.DensityCountsSelf | fluid_simulator.py:103-113 | when h ≤ cell size, a stored particle's density includes its own contribution |
| SphFluid.OwnContribution | fluid_simulator.py:110-111 | a particle of positive mass contributes a positive amount to its own density |
| SphFluid.SelfAmongNeighbours | spatial_hash.py:64-71 | when h ≤ cell size, a stored particle is among its own neighbours |
| SphFluid.SelfWithin | fluid_simulator.py:110 | a particle is at distance 0, so within any positive h, of itself |
| SphFluid.PressureRepels | fluid_simulator.py:137-140 | for non-negative pressures inside the radius, the pressure force points from the neighbour toward the particle |
| SphFluid.PressureReaction | fluid_simulator.py:137-140 | between two particles of equal mass / density, the pressure force each gets from the other is equal and opposite |
| SphFluid.ViscosityReaction | fluid_simulator.py:143-146 | the same for the viscosity force |
| SphFluid.NoPairForces | fluid_simulator.py:126-146 | neighbours that are the particle itself, closer than 1e-6, or beyond h add no force |
| SphFluid.IsolatedFeelsGravity | fluid_simulator.py:126-155 | so such a particle's force is exactly mass × gravity |
| SphFluid.FarTermsVanish | fluid_simulator.py:137-146 | a neighbour at r ≥ h gives zero pressure and viscosity terms |
| SphFluid.SelfSkipped | fluid_simulator.py:127-128 | the particle itself among its neighbours adds nothing |
| SphFluid.AxisBounce | fluid_simulator.py:163-180 | one axis ends in [0, hi]; an inside coordinate is untouched; a crossed wall puts it on the wall with velocity −0.5·v; speed never grows |
| SphFluid.Bounced | fluid_simulator.py:157-180 | the particle ends in the box; a particle already inside is unchanged; only position and velocity change, each axis by its own test: an axis inside its range keeps its coordinate and velocity, an axis that crossed a wall lands on that wall with velocity −0.5·v |
| SphFluid.BounceIdempotent | fluid_simulator.py:157-180 | bouncing twice is bouncing once |
| SphSimulator.FluidSimulator.constructor | fluid_simulator.py:12-35 | the given box, no particles, the default parameters, and an empty hash with cell size 0.5 |
| SphSimulator.FluidSimulator.AddParticle | fluid_simulator.py:37-47 | exactly one fresh particle with the given state is appended at the end; the earlier ones and all parameters are unchanged |
| SphSimulator.FluidSimulator.RebuildHash | fluid_simulator.py:185-187 | the hash becomes `Built` of the particle list, clear then insert in list order |
| SphSimulator.FluidSimulator.FlooredDensity | fluid_simulator.py:104-113 | one particle's floored density equals `Density` |
| SphSimulator.FluidSimulator.ComputeDensityPressure | fluid_simulator.py:101-114 | each particle's density is `Density` at its position in the state before the loop, and its pressure is `Pressure` of that density |
| SphSimulator.FluidSimulator.ParticleForce | fluid_simulator.py:118-155 | one particle's force equals `ForceOn` |
| SphSimulator.FluidSimulator.ComputeForces | fluid_simulator.py:116-155 | each particle's force is `ForceOn` in the state before the loop |
| SphSimulator.FluidSimulator.UpdateAll | fluid_simulator.py:196-197 | every particle advances by one Euler step |
| SphSimulator.FluidSimulator.Bounce | fluid_simulator.py:161-180 | one particle's new state is `Bounced` of its old one |
| SphSimulator.FluidSimulator.HandleBoundaries | fluid_simulator.py:157-180 | every particle's new state is `Bounced` of its old one |
| SphSimulator.FluidSimulator.PrepareStep | fluid_simulator.py:184-190 | the hash is rebuilt from the particles; densities and pressures are computed on the rebuilt hash |
| SphSimulator.FluidSimulator.AdvanceStep | fluid_simulator.py:192-200 | each particle is advanced with force `ForceOn` (computed before anything moves), then bounced |
| SphSimulator.FluidSimulator.Step | fluid_simulator.py:182-200 | hash, densities and pressures as above; every particle is advanced, then bounced; the particle count is unchanged and all particles end in the box |
| SphSimulator.FluidSimulator.Positions | fluid_simulator.py:202-209 | one position per particle, in list order |
| SphSimulator.FluidSimulator.Velocities | fluid_simulator.py:211-218 | one velocity per particle, in list order |
| SphSimulator.SumForces | fluid_simulator.py:119-148 | the neighbour loop accumulates exactly `PairForces`, skipping the particle itself and neighbours closer than 1e-6 |
| SphSimulator.SumDensity | fluid_simulator.py:104-111 | the neighbour loop accumulates exactly `DensitySum` |

## Left out

- Floating point: every `float` and `double` is a `real`. Rounding, NaN and infinities are not modelled; an empty lattice's mean is the explicit `NaN` case of `LatticeSolver.Average`.
- Square roots (`std::sqrt`, `sqrt`, `np.linalg.norm`) are a parameter `sqrt` satisfying `IsSqrt`, because the reals have no built-in square root.
- π is the constant 3.141592653589793; only the signs of the kernel coefficients matter to the proofs.
- C++ `int` overflow in `idx3` and `nx * ny * nz` is not modelled; resolutions are `nat`. A negative resolution would make the vector resizes throw, which is not modelled either.
- The OpenMP pragmas are not modelled: each phase is a sequential loop, and each phase ends before the next one starts.
- The `pressure` field of `Grille` is left out, because the solver never reads or writes it.
- The OpenGL, GLFW and glm code of `src/main.cpp` is left out: window setup, buffers, shaders, drawing, camera movement (W/A/S/D), the camera direction derived from yaw and pitch, and Escape. `Frame` takes the frame time `dt` as a parameter instead of reading the clock.
- `main.py`, `examples.py` and `test_simulation.py` are left out. They are animation, printing and random scenario set-up.
- Python default arguments (`width=10.0`, `height=10.0`, `mass=1.0`) are not modelled: callers pass every value.
- SphParticle.Particle.Update: requires mass ≠ 0, because numpy would return infinities for a zero mass and the model does not represent them. UpdateAll, AdvanceStep and Step carry the same requirement.
- SphSimulator.FluidSimulator.Step: requires a positive rest density, so that every floored density is non-zero before the force loop divides by it. Python would divide by zero otherwise.
- SphSimulator.FluidSimulator.Step: the forces it applies are a ghost result. It does not restate them as `ForceOn`, because they are computed in the state after the densities are written. `AdvanceStep` states that link.
