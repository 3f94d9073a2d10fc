# Allpix Squared: transient propagation and the Geant4 geometry builders, modelled in Dafny

This project models three parts of the Allpix Squared detector simulation framework.

- **Transient propagation** (`TransientPropagationModule`) takes the charge carriers deposited in a sensor. It splits each deposit into packages of at most `charge_per_step` carriers. Each package drifts step by step until one of three things happens: it leaves the sensor, it recombines or is trapped, or the integration time runs out. Every step adds the charge induced on the pixels near the carrier to each pixel's pulse. The module then sends one message holding one propagated charge per package and counts how many carriers recombined, were trapped or were propagated.
- **The Geant4 geometry builder** (`GeometryConstructionG4`) fills the material table and sizes the world box around the setup. For every detector it builds the wrapper, sensor, pixel grid, optional chip, support layers and, for hybrid pixel detectors, the bump bonds. It hands each object to the detector under a string key.
- **The passive material builder** (`PassiveMaterialConstructionG4`) builds one box, cylinder, tube or sphere of passive material, with an optional filling, inside the world. It also reports the eight corner points the geometry manager uses to size the world.

Geant4 and the physics are not reimplemented. A solid, a logical volume and a placement are plain records that name the objects they refer to (module `Geant4`). The physics models are fixed functions passed in as parameters (`TransientPropagation.Physics`):

- the Runge–Kutta drift,
- diffusion,
- recombination,
- trapping.

The sensor geometry is passed in the same way (`TransientPropagation.SensorGeometry`):

- the weighting potential,
- the pixel lookup,
- the neighbour set,
- the sensor boundary.

The random engine is a step counter. Each physics call receives the counter's value.

Each class whose methods update fields in place is a Dafny `class`. Each method is proved equal to a recursive specification function, and the properties the source promises are lemmas about those functions:

- the transient loop equals `Drift`, and a whole event equals `AddDeposits`;
- building a detector equals `DetectorAssembly`;
- building a passive volume equals `BuildPlan`.

Where the source differs from what it evidently means to do, the model keeps the as-written behaviour as a separate member and uses the corrected behaviour (see "## Findings").

The model follows the code in these places:

- A passive volume's material is looked up with `std::map::operator[]` on a copy of the table. A missing name therefore gives a logical volume without a material (`None`), not an error.
- A support layer's material is checked against the table, but the layer is built from epoxy (`GeometryConstructionG4.cpp:318-323`). The model does the same.
- The tube's filling volume is called `<name>filling_log` / `<name>filling_phys`, without an underscore. The model keeps those names.
- The passive builder creates logical volumes and placements that Geant4 owns. The fields `logicals` and `placements` record them in creation order.

## Model

| member | source | states |
|---|---|---|
| Common.Lower | src/modules/PassiveMaterialBuilderGeant4/PassiveMaterialConstructionG4.cpp:78 | lower-casing keeps the length and maps every character as `::tolower` does in the C locale (only A–Z change) |
| Common.LowerIdempotent | src/modules/PassiveMaterialBuilderGeant4/PassiveMaterialConstructionG4.cpp:76-78 | lower-casing twice is lower-casing once, and the result holds no upper-case letter |
| Common.NatToStringInjective | src/modules/GeometryBuilderGeant4/GeometryConstructionG4.cpp:292 | different support indices print as different decimal suffixes |
| PassiveMaterial.LowerCopy | src/modules/PassiveMaterialBuilderGeant4/PassiveMaterialConstructionG4.cpp:76-78 | the in-place `std::transform` loop yields `Lower` of the configured material |
| TransientPropagation.TransientPropagationModule.constructor | src/modules/TransientPropagation/TransientPropagationModule.cpp:43-62 | defaults: timestep 0.01, integration time 25, charge_per_step 10, temperature 293.15, distance 1, no plots, magnetic field off until initialised |
| TransientPropagation.InitializeOutcome | src/modules/TransientPropagation/TransientPropagationModule.cpp:83-98 | initialisation fails exactly when the weighting potential is missing, the field is linear, or building the mobility, recombination or trapping model throws; the checks come in that order, the first two with their ModuleError message and the third with the models' own error |
| TransientPropagation.TransientPropagationModule.Initialize | src/modules/TransientPropagation/TransientPropagationModule.cpp:73-110 | the verdict above, with the models' error as a parameter; the magnetic field is left alone when it fails; a missing electric field only warns; the magnetic field is used iff present and not ignored, with a warning when it is ignored |
| TransientPropagation.SplitStep | src/modules/TransientPropagation/TransientPropagationModule.cpp:187-193 | a package never exceeds what remains, package plus rest equals what remained, and the rest shrinks when charge_per_step is positive |
| TransientPropagation.ZeroChargePerStepStalls | src/modules/TransientPropagation/TransientPropagationModule.cpp:187-193 | with charge_per_step 0 the split takes nothing and the remaining charge never drops |
| TransientPropagation.PackagesAdvance | src/modules/TransientPropagation/TransientPropagationModule.cpp:187-193 | one turn of the splitting loop keeps the packages made so far a prefix of all packages |
| TransientPropagation.PackagesSum | src/modules/TransientPropagation/TransientPropagationModule.cpp:182-193 | the packages of a deposit add up to its charge |
| TransientPropagation.PackagesShape | src/modules/TransientPropagation/TransientPropagationModule.cpp:187-193 | every package holds 1..charge_per_step carriers, all but the last exactly charge_per_step, and a deposit without charge gives none |
| TransientPropagation.PackagesCount | src/modules/TransientPropagation/TransientPropagationModule.cpp:187-193 | a deposit gives ceil(charge / charge_per_step) packages |
| TransientPropagation.NextState | src/modules/TransientPropagation/TransientPropagationModule.cpp:337-371 | HALTED iff the step left the sensor; TRAPPED iff inside and trapped beyond the integration time; RECOMBINED iff neither and recombined; MOTION otherwise |
| TransientPropagation.Touched | src/modules/TransientPropagation/TransientPropagationModule.cpp:374-387 | the updated pixels are the neighbours of the new pixel, plus those of the previous pixel when it differs, and nothing else |
| TransientPropagation.Deposited | src/modules/TransientPropagation/TransientPropagationModule.cpp:393-405 | a pulse is created only for a touched pixel that has none; each touched pulse gains exactly the step's induced charge at the step's time; other pulses are unchanged |
| TransientPropagation.Step | src/modules/TransientPropagation/TransientPropagationModule.cpp:318-405 | one loop step: the position moves to the diffused point or the boundary intercept, time advances by the timestep plus any de-trapping time that fits, and the new state follows `NextState` |
| TransientPropagation.DriftUnfold | src/modules/TransientPropagation/TransientPropagationModule.cpp:315-317 | while the carrier moves and time is left, one more step leaves the loop's result unchanged and strictly fewer steps remain |
| TransientPropagation.DriftEnds | src/modules/TransientPropagation/TransientPropagationModule.cpp:315-406 | the loop ends with the carrier stopped or out of time; time and engine only advance; existing pulses are only appended to; a stopped carrier is returned unchanged |
| TransientPropagation.DriftFinalState | src/modules/TransientPropagation/TransientPropagationModule.cpp:337-371 | a final non-MOTION state is justified by the last step: HALTED iff it left the sensor, TRAPPED only if the trap time overruns, RECOMBINED only if it recombined |
| TransientPropagation.CounterOf | src/modules/TransientPropagation/TransientPropagationModule.cpp:218-224 | RECOMBINED and TRAPPED go to their own counters, MOTION and HALTED to the propagated counter |
| TransientPropagation.LocalTimeCountedTwice | src/modules/TransientPropagation/TransientPropagationModule.cpp:425 | for every deposit and package, the as-written local and global stamps exceed those of `PropagatePackage` by the deposit's local time, so they differ exactly when that time is not zero |
| TransientPropagation.PropagatePackage | src/modules/TransientPropagation/TransientPropagationModule.cpp:195-224 | one package appends exactly one propagated charge for its deposit and carrier: its local and global times are the deposit's plus the drift time of `Drift`, and its state, position, global position and pulses are those `Drift` ends with; its size goes to exactly the counter of that state, and the engine continues from `Drift` |
| TransientPropagation.AddPackagesSnoc | src/modules/TransientPropagation/TransientPropagationModule.cpp:187-225 | propagating one more package extends the deposit's result by that package |
| TransientPropagation.AddDepositsSnoc | src/modules/TransientPropagation/TransientPropagationModule.cpp:171-226 | one more deposit is skipped when late and otherwise contributes its packages |
| TransientPropagation.Processed | src/modules/TransientPropagation/TransientPropagationModule.cpp:174-179 | a deposit is processed iff it is in the message and not later than the integration time, and it is processed as many times as it occurs in the message |
| TransientPropagation.AddPackagesAccounts | src/modules/TransientPropagation/TransientPropagationModule.cpp:187-224 | each package adds one propagated charge and its size to one counter, and the charges made before are kept |
| TransientPropagation.AddDepositsAccounts | src/modules/TransientPropagation/TransientPropagationModule.cpp:171-226 | the event's charges match its packages one to one and each counter is the sum of the package sizes with that final state |
| TransientPropagation.EntriesSizes | src/modules/TransientPropagation/TransientPropagationModule.cpp:182-193 | the package entries of a deposit hold its packages' total |
| TransientPropagation.PackagingCharge | src/modules/TransientPropagation/TransientPropagationModule.cpp:171-193 | all packages of an event hold exactly the charge of the deposits that are processed |
| TransientPropagation.CountersPartition | src/modules/TransientPropagation/TransientPropagationModule.cpp:218-224 | the three counters partition the packaged charge |
| TransientPropagation.EventAccounting | src/modules/TransientPropagation/TransientPropagationModule.cpp:160-226 | one propagated charge per package in deposit order; each counter sums the package sizes with its final state; the three counters add up to the charge of the deposits in time |
| TransientPropagation.IntegrationTimeBoundary | src/modules/TransientPropagation/TransientPropagationModule.cpp:174-179 | a deposit exactly at the integration time is still propagated; a later one adds nothing |
| TransientPropagation.Messenger.DispatchMessage | src/modules/TransientPropagation/TransientPropagationModule.cpp:239-242 | dispatching appends the message to what was sent |
| TransientPropagation.TransientPropagationModule.AddInducedCharge | src/modules/TransientPropagation/TransientPropagationModule.cpp:393-405 | the loop over touched pixels yields `Deposited` |
| TransientPropagation.TransientPropagationModule.TakeStep | src/modules/TransientPropagation/TransientPropagationModule.cpp:318-405 | one loop iteration yields `Step` |
| TransientPropagation.TransientPropagationModule.Propagate | src/modules/TransientPropagation/TransientPropagationModule.cpp:250-426 | the while loop yields `Drift` from the deposit position, returning the final position, drift time, state, pulses and engine |
| TransientPropagation.TransientPropagationModule.PropagateOnePackage | src/modules/TransientPropagation/TransientPropagationModule.cpp:195-224 | one package's body yields `PropagatePackage` |
| TransientPropagation.TransientPropagationModule.PropagateDeposit | src/modules/TransientPropagation/TransientPropagationModule.cpp:182-226 | the splitting loop yields `AddPackages` over `Packages` of the deposit |
| TransientPropagation.TransientPropagationModule.PropagateDeposits | src/modules/TransientPropagation/TransientPropagationModule.cpp:171-226 | the loop over deposits yields `AddDeposits` |
| TransientPropagation.TransientPropagationModule.Run | src/modules/TransientPropagation/TransientPropagationModule.cpp:160-243 | run dispatches exactly one message holding the event's propagated charges for this detector |
| GeometryConstruction.MaterialTableKeys | src/modules/GeometryBuilderGeant4/GeometryConstructionG4.cpp:126-147 | the table gains exactly the seven short names, "air" is G4_AIR and "vacuum" is Vacuum, the detector builds' materials are present, and other entries stay |
| GeometryConstruction.GeometryConstructionG4.InitMaterials | src/modules/GeometryBuilderGeant4/GeometryConstructionG4.cpp:126-147 | the material table becomes `WithMaterialTable` of the old one |
| GeometryConstruction.HalfExtent | src/modules/GeometryBuilderGeant4/GeometryConstructionG4.cpp:72-76 | the half size before margins bounds both extremes of the axis and equals one of their magnitudes |
| GeometryConstruction.AxisMarginBounds | src/modules/GeometryBuilderGeant4/GeometryConstructionG4.cpp:79-95 | the margin is at least the minimum margin and at least the percentage of the half size, and equals one of them |
| GeometryConstruction.WorldAxisBounds | src/modules/GeometryBuilderGeant4/GeometryConstructionG4.cpp:72-95 | the world reaches past the setup on each axis by at least both margins |
| GeometryConstruction.WorldEnclosesSetup | src/modules/GeometryBuilderGeant4/GeometryConstructionG4.cpp:72-100 | the origin-centred world box holds both extreme corners of the setup when the margins cannot be negative |
| GeometryConstruction.LocalNameInjective | src/modules/GeometryBuilderGeant4/GeometryConstructionG4.cpp:175-182 | detectors with different names get different part names |
| GeometryConstruction.PartNamesDistinct | src/modules/GeometryBuilderGeant4/GeometryConstructionG4.cpp:154-182 | two different part prefixes never give the same name, whatever the detector names |
| GeometryConstruction.NamesThatCollide | src/modules/GeometryBuilderGeant4/GeometryConstructionG4.cpp:175-182 | the names the builder does reuse: the pixel box has the sensor's name, both bump logical volumes are "bumpbox_<name>_log", and the bump solids are named "bump" and "bumpbox" for every detector |
| GeometryConstruction.Detector.SetExternalObject | src/modules/GeometryBuilderGeant4/GeometryConstructionG4.cpp:342-343 | handing an object to a detector stores it under its type and key, replacing only that entry |
| GeometryConstruction.InstallElsewhere | src/modules/GeometryBuilderGeant4/GeometryConstructionG4.cpp:342-343 | objects handed to a detector leave every other type and key as it was |
| GeometryConstruction.SupportsOutcome | src/modules/GeometryBuilderGeant4/GeometryConstructionG4.cpp:287-343 | the support loop fails iff some layer's material is unknown; it stops at the first such layer with that layer's message, and otherwise builds one volume per layer |
| GeometryConstruction.SupportLogs | src/modules/GeometryBuilderGeant4/GeometryConstructionG4.cpp:317-324 | the i-th support logical volume is made of epoxy, named "<support>_log_<i>" |
| GeometryConstruction.SupportPlacements | src/modules/GeometryBuilderGeant4/GeometryConstructionG4.cpp:326-338 | the i-th support is placed in the wrapper at the layer centre relative to the model centre |
| GeometryConstruction.SupportNamesDistinct | src/modules/GeometryBuilderGeant4/GeometryConstructionG4.cpp:322-323 | different support layers get different logical volume names |
| GeometryConstruction.SupportsFailed | src/modules/GeometryBuilderGeant4/GeometryConstructionG4.cpp:318-321 | once a layer throws, no later layer is built |
| GeometryConstruction.HeadKeys | src/modules/GeometryBuilderGeant4/GeometryConstructionG4.cpp:192-281 | wrapper, sensor and pixel objects are always handed over; the chip only when its thickness exceeds 1e-9 |
| GeometryConstruction.RestKeys | src/modules/GeometryBuilderGeant4/GeometryConstructionG4.cpp:342-416 | the bump objects are handed over iff the model is a hybrid pixel detector |
| GeometryConstruction.DetectorGuards | src/modules/GeometryBuilderGeant4/GeometryConstructionG4.cpp:166-416 | one detector's build fails iff a support material is unknown; the chip exists iff thick enough; the bumps exist iff hybrid |
| GeometryConstruction.BumpParamsStored | src/modules/GeometryBuilderGeant4/GeometryConstructionG4.cpp:406-415 | both "bumps_param" objects survive, because the parameterisation and the parameterised placement have different types |
| GeometryConstruction.BumpParamsBothKept | src/modules/GeometryBuilderGeant4/GeometryConstructionG4.cpp:406-415 | after a hybrid detector is built, the detector holds both "bumps_param" objects |
| GeometryConstruction.FirstFailure | src/modules/GeometryBuilderGeant4/GeometryConstructionG4.cpp:166-321 | the detectors before the first failing one all build, and the first failure is the one that throws |
| GeometryConstruction.GeometryConstructionG4.constructor | src/modules/GeometryBuilderGeant4/GeometryConstructionG4.cpp:40-41 | a new builder has no materials, solids or world yet |
| GeometryConstruction.GeometryConstructionG4.DetectorAssemblies | src/modules/GeometryBuilderGeant4/GeometryConstructionG4.cpp:166-416 | there is one planned assembly per detector |
| GeometryConstruction.GeometryConstructionG4.Construct | src/modules/GeometryBuilderGeant4/GeometryConstructionG4.cpp:57-115 | an unknown world material throws and nothing is built; otherwise the world box (sized with its margins), its volume and placement are built, then the detectors up to and including the first that throws; the world placement is returned iff none throws |
| GeometryConstruction.GeometryConstructionG4.ConstructWorld | src/modules/GeometryBuilderGeant4/GeometryConstructionG4.cpp:61-112 | the same, for a builder whose material table is filled |
| GeometryConstruction.GeometryConstructionG4.BuildWorld | src/modules/GeometryBuilderGeant4/GeometryConstructionG4.cpp:97-109 | the world box, its logical volume in the world material, and its unrotated placement at the origin |
| GeometryConstruction.GeometryConstructionG4.BuildDetectors | src/modules/GeometryBuilderGeant4/GeometryConstructionG4.cpp:149-422 | detectors are built in order up to the first failure; later detectors are untouched; the error is that detector's |
| GeometryConstruction.GeometryConstructionG4.BuildDetectorAt | src/modules/GeometryBuilderGeant4/GeometryConstructionG4.cpp:166-421 | one loop turn builds the i-th detector's assembly |
| GeometryConstruction.GeometryConstructionG4.BuildDetector | src/modules/GeometryBuilderGeant4/GeometryConstructionG4.cpp:166-421 | building one detector appends its solids and hands it its objects as `DetectorAssembly` describes, failing with the assembly's error |
| GeometryConstruction.GeometryConstructionG4.BuildHead | src/modules/GeometryBuilderGeant4/GeometryConstructionG4.cpp:184-281 | the wrapper, sensor, pixel grid and chip parts, in order |
| GeometryConstruction.GeometryConstructionG4.BuildWrapper | src/modules/GeometryBuilderGeant4/GeometryConstructionG4.cpp:192-208 | the wrapper part |
| GeometryConstruction.GeometryConstructionG4.BuildSensor | src/modules/GeometryBuilderGeant4/GeometryConstructionG4.cpp:215-229 | the sensor part |
| GeometryConstruction.GeometryConstructionG4.BuildPixels | src/modules/GeometryBuilderGeant4/GeometryConstructionG4.cpp:232-255 | the pixel grid part |
| GeometryConstruction.GeometryConstructionG4.BuildChip | src/modules/GeometryBuilderGeant4/GeometryConstructionG4.cpp:262-281 | the chip part, empty for a chip not thicker than 1e-9 |
| GeometryConstruction.GeometryConstructionG4.BuildSupports | src/modules/GeometryBuilderGeant4/GeometryConstructionG4.cpp:287-343 | the support loop's solids, volumes, placements and error are those of `SupportsUpTo` over all layers |
| GeometryConstruction.GeometryConstructionG4.BuildSupportSolids | src/modules/GeometryBuilderGeant4/GeometryConstructionG4.cpp:292-315 | a support box, plus the hole box and the subtraction when the layer has a hole, all kept; the subtraction cuts the hole box at the hole's centre minus the layer's centre; the returned solid is the last |
| GeometryConstruction.SupportHoleCut | src/modules/GeometryBuilderGeant4/GeometryConstructionG4.cpp:299-312 | a layer with a hole is its box minus a box as wide as the hole and twice its depth, placed so that the layer's centre plus the offset is the hole's centre |
| GeometryConstruction.GeometryConstructionG4.BuildRest | src/modules/GeometryBuilderGeant4/GeometryConstructionG4.cpp:342-416 | the support lists and, for a hybrid detector, the bump part |
| GeometryConstruction.GeometryConstructionG4.BuildBumps | src/modules/GeometryBuilderGeant4/GeometryConstructionG4.cpp:346-416 | the bump part: wrapper, sphere, tube, union with its components kept, cell volume and grid |
| PassiveMaterial.OrientationConvention | src/modules/PassiveMaterialBuilderGeant4/PassiveMaterialConstructionG4.cpp:84-100 | "zyx", "xyz" and "zxz" each select their convention; any other mode is an InvalidValueError on orientation_mode |
| PassiveMaterial.Lookup | src/modules/PassiveMaterialBuilderGeant4/PassiveMaterialConstructionG4.cpp:119 | a material is found iff its name is in the table, and then it is the table's entry |
| PassiveMaterial.TubeSolids | src/modules/PassiveMaterialBuilderGeant4/PassiveMaterialConstructionG4.cpp:181-189 | the tube is the outer box minus the inner box, with no offset |
| PassiveMaterial.OrientationModeChecked | src/modules/PassiveMaterialBuilderGeant4/PassiveMaterialConstructionG4.cpp:84-100 | the build fails with the orientation error iff the mode is unknown; the default mode never gives that error |
| PassiveMaterial.MissingTypeRefused | src/modules/PassiveMaterialBuilderGeant4/PassiveMaterialConstructionG4.cpp:112 | with a valid mode, the build fails with a missing "type" key iff no type is configured |
| PassiveMaterial.TubeDiametersChecked | src/modules/PassiveMaterialBuilderGeant4/PassiveMaterialConstructionG4.cpp:176-179 | a tube fails iff an inner diameter is not smaller than the outer, and then with the tube message |
| PassiveMaterial.UnknownTypeBuildsNothing | src/modules/PassiveMaterialBuilderGeant4/PassiveMaterialConstructionG4.cpp:112-256 | an unknown type builds nothing and raises no error |
| PassiveMaterial.FillingOnlyWhenNamed | src/modules/PassiveMaterialBuilderGeant4/PassiveMaterialConstructionG4.cpp:148-169 | a cylinder, tube or sphere gets a second volume iff a non-empty filling material is named, made of that material as written; a box never does |
| PassiveMaterial.MainVolume | src/modules/PassiveMaterialBuilderGeant4/PassiveMaterialConstructionG4.cpp:62-124 | the main volume is "<name>_log" in the lower-cased material (the world's by default), placed as "<name>_phys" in the world at the position with the chosen rotation; every placement goes into the world at that position |
| PassiveMaterial.TubeAsWrittenDangles | src/modules/PassiveMaterialBuilderGeant4/PassiveMaterialConstructionG4.cpp:181-189 | as written, the kept solids contain a subtraction whose components are not kept |
| PassiveMaterial.BuildKeepsComponents | src/modules/PassiveMaterialBuilderGeant4/PassiveMaterialConstructionG4.cpp:112-256 | every composite solid built refers only to solids kept before it |
| PassiveMaterial.CylinderFillingFits | src/modules/PassiveMaterialBuilderGeant4/PassiveMaterialConstructionG4.cpp:148-169 | the cylinder filling has the cylinder's half-length and ends at its inner radius |
| PassiveMaterial.CylinderFillingAsWrittenOverhangs | src/modules/PassiveMaterialBuilderGeant4/PassiveMaterialConstructionG4.cpp:152-157 | as written, the filling's half-length is twice the cylinder's |
| PassiveMaterial.OffsetsAt | src/modules/PassiveMaterialBuilderGeant4/PassiveMaterialConstructionG4.cpp:261-263 | entry i of the offset tables: x flips sign at 4, y every 2 entries, z every entry |
| PassiveMaterial.OffsetsMirrored | src/modules/PassiveMaterialBuilderGeant4/PassiveMaterialConstructionG4.cpp:261-263 | every offset is a sign, and entry 7-i is the mirror of entry i |
| PassiveMaterial.OffsetsDistinct | src/modules/PassiveMaterialBuilderGeant4/PassiveMaterialConstructionG4.cpp:261-263 | the eight sign triples are pairwise different |
| PassiveMaterial.OffsetsCover | src/modules/PassiveMaterialBuilderGeant4/PassiveMaterialConstructionG4.cpp:261-263 | every sign triple appears in the tables |
| PassiveMaterial.CornersMirrored | src/modules/PassiveMaterialBuilderGeant4/PassiveMaterialConstructionG4.cpp:264-301 | corners i and 7-i are symmetric about the centre |
| PassiveMaterial.CornersDistinct | src/modules/PassiveMaterialBuilderGeant4/PassiveMaterialConstructionG4.cpp:264-301 | with non-zero half extents, the eight corners are pairwise different |
| PassiveMaterial.HalfExtents | src/modules/PassiveMaterialBuilderGeant4/PassiveMaterialConstructionG4.cpp:264-301 | a half extent exists iff the type is known |
| PassiveMaterial.NewPoints | src/modules/PassiveMaterialBuilderGeant4/PassiveMaterialConstructionG4.cpp:259-304 | a known type adds eight points and any other type adds none |
| PassiveMaterial.CornersSpanBuiltSolid | src/modules/PassiveMaterialBuilderGeant4/PassiveMaterialConstructionG4.cpp:264-301 | the reported corners span the main solid: box and tube half sizes, cylinder radius and half height, sphere radius |
| PassiveMaterial.PassiveMaterialConstructionG4.constructor | src/modules/PassiveMaterialBuilderGeant4/PassiveMaterialConstructionG4.cpp:50 | a new builder has built nothing |
| PassiveMaterial.PassiveMaterialConstructionG4.Build | src/modules/PassiveMaterialBuilderGeant4/PassiveMaterialConstructionG4.cpp:62-257 | on error nothing is built and the error is `BuildPlan`'s; otherwise `BuildPlan`'s solids, volumes and placements are appended |
| PassiveMaterial.PassiveMaterialConstructionG4.BuildBox | src/modules/PassiveMaterialBuilderGeant4/PassiveMaterialConstructionG4.cpp:112-124 | appends the box's solid, volume and placement |
| PassiveMaterial.PassiveMaterialConstructionG4.BuildCylinder | src/modules/PassiveMaterialBuilderGeant4/PassiveMaterialConstructionG4.cpp:126-170 | appends the cylinder and its filling when one is named |
| PassiveMaterial.PassiveMaterialConstructionG4.BuildTube | src/modules/PassiveMaterialBuilderGeant4/PassiveMaterialConstructionG4.cpp:172-210 | appends the tube's solids, with the components kept, and its filling when one is named |
| PassiveMaterial.PassiveMaterialConstructionG4.BuildSphere | src/modules/PassiveMaterialBuilderGeant4/PassiveMaterialConstructionG4.cpp:212-256 | appends the sphere and its filling when one is named |
| PassiveMaterial.PassiveMaterialConstructionG4.AddPoints | src/modules/PassiveMaterialBuilderGeant4/PassiveMaterialConstructionG4.cpp:259-304 | a missing type is a MissingKeyError and changes nothing; otherwise the type's corner points are appended and the whole list returned |

## Left out

- Geant4 itself is left out: materials, solid volumes, rotation matrices, visualisation attributes and user limits. Solids and volumes are records; a rotation is its convention plus its three angles.
- The Runge–Kutta integrator, the mobility, recombination and trapping models (including the errors their constructors raise in `initialize()`, which are a parameter of `InitializeOutcome`), the electric, magnetic and weighting fields, and the doping are left out. They are functions passed in as parameters, and the random engine is a counter.
- Floating-point rounding is left out: lengths and times are exact reals.
- Histograms, plots and logging are left out, because they do not affect the results.
- Pulse binning is left out: a pulse is its list of (time, charge) contributions. The `PulseBadAllocException` a too-long pulse raises is also left out.
- The integer widths are left out: the three counters and `charge_per_step` are `unsigned int` in the source and are unbounded here.
- Configuration parsing errors are left out: a present value of the wrong type is not modelled. Absent values and their defaults are modelled.
- Errors that other classes raise when fields are looked up are left out.
- The geometry manager's computation of the setup's extreme coordinates is left out. It is passed in as `minimumCoordinate` / `maximumCoordinate`.
- TransientPropagation.TransientPropagationModule.Propagate: returns the drift time, where `propagate()` as written returns the deposit's local time plus the drift time (see Findings); `LocalTimeCountedTwice` relates the two.
- TransientPropagation.TransientPropagationModule.Run: stamps each propagated charge with the deposit's time plus the drift time, not with the as-written stamp, which adds the deposit's local time twice (see Findings).
- TransientPropagation.TransientPropagationModule.Run: requires a positive `charge_per_step` and timestep. With `charge_per_step` 0 the source never terminates (see Findings). With a timestep that is not positive, only a state change ends its loop.
- GeometryConstruction.GeometryConstructionG4.Construct: requires the detectors to be distinct objects. The source takes them from the geometry manager, which never lists a detector twice, and the model does not track aliasing between them.
- GeometryConstruction.GeometryConstructionG4.Construct: the `make_shared_no_delete` ownership of Geant4 objects is not modelled. The builder is assumed to own every solid it records.
- PassiveMaterial.PassiveMaterialConstructionG4.Build: uses the corrected tube solids and cylinder filling, not the ones as written (see Findings).
- PassiveMaterial.PassiveMaterialConstructionG4.BuildCylinder: gives the filling half-length `height / 2`, where `build()` as written gives it `height` (see Findings).
- PassiveMaterial.PassiveMaterialConstructionG4.BuildTube: keeps the tube's outer and inner boxes, which `build()` as written does not keep (see Findings).
- TransientPropagation.PropagatePackage: stamps the propagated charge with the deposit's time plus the drift time, not with the as-written stamp (see Findings).
- TransientPropagation.TransientPropagationModule.PropagateOnePackage: yields the corrected stamp of `PropagatePackage`, not the as-written one (see Findings).

## Findings

| source | as written | input that shows it | evidently intended | confidence | as-written member | corrected member |
|---|---|---|---|---|---|---|
| src/modules/TransientPropagation/TransientPropagationModule.cpp:425 | `propagate()` returns `initial_time + runge_kutta.getTime()`. `run()` then adds the deposit's local time again (lines 206-207). | a deposit at local time 5 that drifts for 1 is stamped 11; any deposit with a non-zero local time is stamped wrong | the propagated charge is stamped with the deposit's time plus the drift time, 6 | medium, not executed | TransientPropagation.LocalTimeCountedTwice | TransientPropagation.PropagatePackage |
| src/modules/TransientPropagation/TransientPropagationModule.cpp:187-193 | each step takes `charge_per_step` carriers, and nothing rules out 0 | `charge_per_step = 0` with a deposit of 1 carrier: the loop never ends | `charge_per_step` is positive | high, not executed | TransientPropagation.ZeroChargePerStepStalls | TransientPropagation.PackagesSum |
| src/modules/PassiveMaterialBuilderGeant4/PassiveMaterialConstructionG4.cpp:181-189 | the tube's outer and inner boxes are local shared pointers that are not kept in `solids_`. The subtraction solid that is kept still refers to them. | any tube: the boxes are freed when `build()` returns | the components are kept, as the geometry builder keeps its union and subtraction components | medium, not executed | PassiveMaterial.TubeAsWrittenDangles | PassiveMaterial.BuildKeepsComponents |
| src/modules/PassiveMaterialBuilderGeant4/PassiveMaterialConstructionG4.cpp:152-157 | the cylinder filling's half-length is the full `height` | a cylinder of height 2 with a filling: the filling has half-length 2 and sticks out of the cylinder, whose half-length is 1 | half-length `height / 2`, as for the cylinder itself | high, not executed | PassiveMaterial.CylinderFillingAsWrittenOverhangs | PassiveMaterial.CylinderFillingFits |
