/**
 * The passive material builder: one configuration section describes one passive volume
 * (a box, a cylinder, a rectangular tube or a sphere) that is placed into the world, with
 * an optional filling. `Build` is `build()`, which checks the configuration and records the
 * solids, logical volumes and placements it creates; `AddPoints` is `addPoints()`, which
 * appends the eight corners of the volume's bounding box to the points the world size is
 * computed from.
 */
module PassiveMaterial {
  import opened Common
  import opened Geant4

  /**
   * The keys of one passive material section. Absent keys are `None`; `volumeType` is the
   * key "type".
   */
  datatype PassiveConfig = PassiveConfig(
    name: string,
    position: Option<Vec3>,
    orientation: Option<Vec3>,
    orientationMode: Option<string>,
    material: Option<string>,
    volumeType: Option<string>,
    size: Option<Vec2>,
    thickness: Option<real>,
    innerRadius: Option<real>,
    outerRadius: Option<real>,
    height: Option<real>,
    startingAngle: Option<real>,
    arcLength: Option<real>,
    outerDiameter: Option<Vec2>,
    innerDiameter: Option<Vec2>,
    length: Option<real>,
    startingAnglePhi: Option<real>,
    arcLengthPhi: Option<real>,
    startingAngleTheta: Option<real>,
    arcLengthTheta: Option<real>,
    fillingMaterial: Option<string>)

  const Origin := Vec3(0.0, 0.0, 0.0)
  const NoSize := Vec2(0.0, 0.0)
  const DefaultOrientationMode := "xyz"
  const OrientationModeMessage := "orientation_mode should be either 'zyx', xyz' or 'zxz'"

  /** What `build()` leaves behind: kept solids, logical volumes and placements, in creation order. */
  datatype Volumes = Volumes(solids: seq<Solid>, logicals: seq<LogicalVolume>, placements: seq<Placement>)

  const NoVolumes := Volumes([], [], [])

  // ---------------------------------------------------------------------------
  // Checks and lookups of `build()`.

  /** The Euler angle convention named by `orientation_mode`; any other mode is refused. */
  function OrientationConvention(mode: string): (r: Result<AngleConvention, Error>)
    ensures r.Ok? <==> mode == "zyx" || mode == "xyz" || mode == "zxz"
    ensures r == Ok(ZYX) <==> mode == "zyx"
    ensures r == Ok(XYZ) <==> mode == "xyz"
    ensures r == Ok(ZXZ) <==> mode == "zxz"
    ensures r.Err? ==> r.error == InvalidValueError("orientation_mode", OrientationModeMessage)
  {
    if mode == "zyx" then Ok(ZYX)
    else if mode == "xyz" then Ok(XYZ)
    else if mode == "zxz" then Ok(ZXZ)
    else Err(InvalidValueError("orientation_mode", OrientationModeMessage))
  }

  /** `materials_[key]` on the builder's copy of the table: a missing key gives a null material. */
  function Lookup(materials: map<string, Material>, key: string): (m: Option<Material>)
    ensures m.Some? <==> key in materials
    ensures m.Some? ==> m.value == materials[key]
  {
    if key in materials then Some(materials[key]) else None
  }

  /** The material key of the passive volume: "material", or the world's material name, lower-cased. */
  function MaterialKey(config: PassiveConfig, worldMaterial: string): string
  {
    Lower(config.material.GetOr(worldMaterial))
  }

  /** A tube can be built only when its inner diameter is below its outer one on both axes. */
  predicate TubeDiametersOrdered(inner: Vec2, outer: Vec2)
  {
    inner.x < outer.x && inner.y < outer.y
  }

  function TubeError(name: string): Error
  {
    ModuleError("Inner diameter of '" + name + "' is larget than its outer diameter! Can't construct the tube")
  }

  // ---------------------------------------------------------------------------
  // The volumes of each shape. `position` and `rotation` are the transform every placement
  // of the section shares, `world` the logical volume they are placed into.

  /** A logical volume and its placement into the world, named "<name><suffix>_log"/"_phys". */
  function Placed(name: string, logSuffix: string, physSuffix: string, solid: string, material: Option<Material>,
                  world: string, position: Vec3, rotation: Rotation): (LogicalVolume, Placement)
  {
    var log := LogicalVolume(name + logSuffix, solid, material);
    (log, Placement(name + physSuffix, log.name, world, position, rotation))
  }

  function BoxVolumes(c: PassiveConfig, material: Option<Material>, world: string, position: Vec3, rotation: Rotation): Volumes
  {
    var size := c.size.GetOr(NoSize);
    var box := Box(c.name + "_volume", Vec3(size.x / 2.0, size.y / 2.0, c.thickness.GetOr(0.0) / 2.0));
    var (log, phys) := Placed(c.name, "_log", "_phys", box.name, material, world, position, rotation);
    Volumes([box], [log], [phys])
  }

  /**
   * The filling of a cylinder, with the half-length of the cylinder it fills. `build()` passes
   * the full height as half-length, see `CylinderFillingAsWritten`.
   */
  function CylinderFilling(c: PassiveConfig): Solid
  {
    Tubs(c.name + "_filling_volume", 0.0, c.innerRadius.GetOr(0.0), c.height.GetOr(0.0) / 2.0,
         c.startingAngle.GetOr(0.0), c.arcLength.GetOr(0.0))
  }

  /** The cylinder's filling solid as `build()` writes it: the full height passed as half-length. */
  function CylinderFillingAsWritten(c: PassiveConfig): Solid
  {
    Tubs(c.name + "_filling_volume", 0.0, c.innerRadius.GetOr(0.0), c.height.GetOr(0.0),
         c.startingAngle.GetOr(0.0), c.arcLength.GetOr(0.0))
  }

  function CylinderVolumes(c: PassiveConfig, materials: map<string, Material>, material: Option<Material>,
                           world: string, position: Vec3, rotation: Rotation): Volumes
  {
    var tubs := Tubs(c.name + "_volume", c.innerRadius.GetOr(0.0), c.outerRadius.GetOr(0.0), c.height.GetOr(0.0) / 2.0,
                     c.startingAngle.GetOr(0.0), c.arcLength.GetOr(0.0));
    var (log, phys) := Placed(c.name, "_log", "_phys", tubs.name, material, world, position, rotation);
    var filling := c.fillingMaterial.GetOr("");
    if filling == "" then Volumes([tubs], [log], [phys])
    else
      var fill := CylinderFilling(c);
      var (fillLog, fillPhys) := Placed(c.name, "_filling_log", "_filling_phys", fill.name, Lookup(materials, filling),
                                        world, position, rotation);
      Volumes([tubs, fill], [log, fillLog], [phys, fillPhys])
  }

  /** The two boxes of a tube and their difference, which the tube's logical volume uses. */
  function TubeSolids(c: PassiveConfig): (s: seq<Solid>)
    ensures |s| == 3 && s[2].Subtraction? && s[2].minuend == s[0].name && s[2].subtrahend == s[1].name
    ensures s[2].offset == Origin
  {
    var outer := c.outerDiameter.GetOr(NoSize);
    var inner := c.innerDiameter.GetOr(NoSize);
    var len := c.length.GetOr(0.0);
    var outerBox := Box(c.name + "_outer_volume", Vec3(outer.x / 2.0, outer.y / 2.0, len / 2.0));
    var innerBox := Box(c.name + "_inner_volume", Vec3(inner.x / 2.0, inner.y / 2.0, 1.1 * len / 2.0));
    [outerBox, innerBox, Subtraction(c.name + "_final_volume", outerBox.name, innerBox.name, Origin)]
  }

  /** The solids of a tube that `build()` keeps alive as written: only the difference, not its two boxes. */
  function TubeSolidsAsWritten(c: PassiveConfig): seq<Solid>
  {
    [TubeSolids(c)[2]]
  }

  function TubeVolumes(c: PassiveConfig, materials: map<string, Material>, material: Option<Material>,
                       world: string, position: Vec3, rotation: Rotation): Volumes
  {
    var solids := TubeSolids(c);
    var (log, phys) := Placed(c.name, "_log", "_phys", solids[2].name, material, world, position, rotation);
    var filling := c.fillingMaterial.GetOr("");
    if filling == "" then Volumes(solids, [log], [phys])
    else
      var inner := c.innerDiameter.GetOr(NoSize);
      var fill := Box(c.name + "_filling_volume", Vec3(inner.x / 2.0, inner.y / 2.0, c.length.GetOr(0.0) / 2.0));
      var (fillLog, fillPhys) := Placed(c.name, "filling_log", "filling_phys", fill.name, Lookup(materials, filling),
                                        world, position, rotation);
      Volumes(solids + [fill], [log, fillLog], [phys, fillPhys])
  }

  function SphereVolumes(c: PassiveConfig, materials: map<string, Material>, material: Option<Material>,
                         world: string, position: Vec3, rotation: Rotation): Volumes
  {
    var phi, dPhi := c.startingAnglePhi.GetOr(0.0), c.arcLengthPhi.GetOr(2.0);
    var theta, dTheta := c.startingAngleTheta.GetOr(0.0), c.arcLengthTheta.GetOr(1.0);
    var sphere := Sphere(c.name + "_volume", c.innerRadius.GetOr(0.0), c.outerRadius.GetOr(0.0), phi, dPhi, theta, dTheta);
    var (log, phys) := Placed(c.name, "_log", "_phys", sphere.name, material, world, position, rotation);
    var filling := c.fillingMaterial.GetOr("");
    if filling == "" then Volumes([sphere], [log], [phys])
    else
      var fill := Sphere(c.name + "_filling_volume", 0.0, c.innerRadius.GetOr(0.0), phi, dPhi, theta, dTheta);
      var (fillLog, fillPhys) := Placed(c.name, "_filling_log", "_filling_phys", fill.name, Lookup(materials, filling),
                                        world, position, rotation);
      Volumes([sphere, fill], [log, fillLog], [phys, fillPhys])
  }

  /** The four shapes `build()` and `addPoints()` know. */
  predicate KnownType(t: string)
  {
    t == "box" || t == "cylinder" || t == "tube" || t == "sphere"
  }

  /**
   * What `build()` creates for `config`, placed into `world` with the material table
   * `materials`, or the exception it throws. The orientation mode is checked first, then
   * "type" is read; an unknown type builds nothing.
   */
  function BuildPlan(config: PassiveConfig, world: LogicalVolume, materials: map<string, Material>): Result<Volumes, Error>
    requires world.material.Some?
  {
    var material := Lookup(materials, MaterialKey(config, world.material.value.name));
    var position := config.position.GetOr(Origin);
    match OrientationConvention(config.orientationMode.GetOr(DefaultOrientationMode))
    case Err(e) => Err(e)
    case Ok(convention) =>
      var rotation := Rotated(convention, config.orientation.GetOr(Origin));
      match config.volumeType
      case None => Err(MissingKeyError("type"))
      case Some(t) =>
        if t == "box" then Ok(BoxVolumes(config, material, world.name, position, rotation))
        else if t == "cylinder" then Ok(CylinderVolumes(config, materials, material, world.name, position, rotation))
        else if t == "tube" then
          if !TubeDiametersOrdered(config.innerDiameter.GetOr(NoSize), config.outerDiameter.GetOr(NoSize))
          then Err(TubeError(config.name))
          else Ok(TubeVolumes(config, materials, material, world.name, position, rotation))
        else if t == "sphere" then Ok(SphereVolumes(config, materials, material, world.name, position, rotation))
        else Ok(NoVolumes)
  }

  // ---------------------------------------------------------------------------
  // Properties of `build()`.

  /** An orientation mode other than "zyx", "xyz" or "zxz" is refused before anything else happens. */
  lemma OrientationModeChecked(config: PassiveConfig, world: LogicalVolume, materials: map<string, Material>)
    requires world.material.Some?
    ensures var mode := config.orientationMode.GetOr("xyz");
      && (BuildPlan(config, world, materials) == Err(InvalidValueError("orientation_mode", OrientationModeMessage))
          <==> !(mode == "zyx" || mode == "xyz" || mode == "zxz"))
      && (config.orientationMode.None? ==> BuildPlan(config, world, materials).Err? ==> !BuildPlan(config, world, materials).error.InvalidValueError?)
  {
  }

  /** With a valid orientation mode, a missing "type" is the exception `build()` throws. */
  lemma MissingTypeRefused(config: PassiveConfig, world: LogicalVolume, materials: map<string, Material>)
    requires world.material.Some?
    requires OrientationConvention(config.orientationMode.GetOr(DefaultOrientationMode)).Ok?
    ensures BuildPlan(config, world, materials) == Err(MissingKeyError("type")) <==> config.volumeType.None?
  {
  }

  /** A tube is refused exactly when its inner diameter reaches the outer one on some axis. */
  lemma TubeDiametersChecked(config: PassiveConfig, world: LogicalVolume, materials: map<string, Material>)
    requires world.material.Some?
    requires OrientationConvention(config.orientationMode.GetOr(DefaultOrientationMode)).Ok?
    requires config.volumeType == Some("tube")
    ensures var inner, outer := config.innerDiameter.GetOr(NoSize), config.outerDiameter.GetOr(NoSize);
      && (BuildPlan(config, world, materials).Err? <==> inner.x >= outer.x || inner.y >= outer.y)
      && (BuildPlan(config, world, materials).Err? ==> BuildPlan(config, world, materials).error == TubeError(config.name))
  {
  }

  /** A type that is not one of the four shapes builds nothing and throws nothing. */
  lemma UnknownTypeBuildsNothing(config: PassiveConfig, world: LogicalVolume, materials: map<string, Material>)
    requires world.material.Some?
    requires OrientationConvention(config.orientationMode.GetOr(DefaultOrientationMode)).Ok?
    requires config.volumeType.Some?
    ensures BuildPlan(config, world, materials) == Ok(NoVolumes) <==> !KnownType(config.volumeType.value)
  {
  }

  /**
   * A built shape is one logical volume and one placement, plus a second of each for the
   * filling exactly when "filling_material" is set to a non-empty name; a box has none.
   */
  lemma {:induction false} FillingOnlyWhenNamed(config: PassiveConfig, world: LogicalVolume, materials: map<string, Material>)
    requires world.material.Some?
    requires BuildPlan(config, world, materials).Ok?
    requires config.volumeType.Some? && KnownType(config.volumeType.value)
    ensures var v := BuildPlan(config, world, materials).value;
      var filled := config.volumeType != Some("box") && config.fillingMaterial.GetOr("") != "";
      && |v.logicals| == |v.placements| == (if filled then 2 else 1)
      && (filled ==> v.logicals[1].material == Lookup(materials, config.fillingMaterial.value))
  {
    var t := config.volumeType.value;
    var material := Lookup(materials, MaterialKey(config, world.material.value.name));
    var position := config.position.GetOr(Origin);
    var rotation := Rotated(OrientationConvention(config.orientationMode.GetOr(DefaultOrientationMode)).value,
                            config.orientation.GetOr(Origin));
    var v := BuildPlan(config, world, materials).value;
    if t == "box" {
      assert v == BoxVolumes(config, material, world.name, position, rotation);
    } else if t == "cylinder" {
      assert v == CylinderVolumes(config, materials, material, world.name, position, rotation);
    } else if t == "tube" {
      assert v == TubeVolumes(config, materials, material, world.name, position, rotation);
    } else {
      assert v == SphereVolumes(config, materials, material, world.name, position, rotation);
    }
  }

  /**
   * The main volume "<name>_log" is made of the lower-cased material key, which defaults to
   * the world's material name; it is placed into the world with the section's position and
   * orientation, as every other placement of the section.
   */
  lemma {:induction false} MainVolume(config: PassiveConfig, world: LogicalVolume, materials: map<string, Material>)
    requires world.material.Some?
    requires BuildPlan(config, world, materials).Ok?
    requires config.volumeType.Some? && KnownType(config.volumeType.value)
    ensures var v := BuildPlan(config, world, materials).value;
      var key := MaterialKey(config, world.material.value.name);
      && |v.logicals| >= 1 && |v.placements| >= 1
      && v.logicals[0].name == config.name + "_log"
      && v.logicals[0].material == Lookup(materials, key)
      && (config.material.None? ==> key == Lower(world.material.value.name))
      && (forall i :: 0 <= i < |key| ==> !IsUpper(key[i]))
      && Lower(key) == key
      && v.placements[0] == Placement(config.name + "_phys", config.name + "_log", world.name, config.position.GetOr(Origin),
                                      Rotated(OrientationConvention(config.orientationMode.GetOr("xyz")).value,
                                              config.orientation.GetOr(Origin)))
      && forall i :: 0 <= i < |v.placements| ==>
           v.placements[i].mother == world.name && v.placements[i].position == config.position.GetOr(Origin)
           && v.placements[i].logical == v.logicals[i].name
  {
    var s := config.material.GetOr(world.material.value.name);
    LowerIdempotent(s);
    FillingOnlyWhenNamed(config, world, materials);
  }

  // ---------------------------------------------------------------------------
  // Boolean solids refer to the solids they combine by name; Geant4 keeps only pointers to
  // them, so those solids must stay alive as long as the combination.

  /** Every union or difference in `solids` refers to solids kept before it. */
  predicate SolidsClosed(solids: seq<Solid>)
  {
    forall i :: 0 <= i < |solids| ==> ComponentsBefore(solids, i)
  }

  predicate ComponentsBefore(solids: seq<Solid>, i: nat)
    requires i < |solids|
  {
    match solids[i]
    case Union(_, a, b) => Kept(solids[..i], a) && Kept(solids[..i], b)
    case Subtraction(_, a, b, _) => Kept(solids[..i], a) && Kept(solids[..i], b)
    case _ => true
  }

  predicate Kept(solids: seq<Solid>, name: string)
  {
    exists j :: 0 <= j < |solids| && solids[j].name == name
  }

  /** Appending a closed list of solids to a closed list keeps it closed. */
  lemma SolidsClosedAppend(a: seq<Solid>, b: seq<Solid>)
    requires SolidsClosed(a) && SolidsClosed(b)
    ensures SolidsClosed(a + b)
  {
    forall i | 0 <= i < |a + b|
      ensures ComponentsBefore(a + b, i)
    {
      if i < |a| {
        assert (a + b)[..i] == a[..i];
        assert ComponentsBefore(a, i);
      } else {
        var k := i - |a|;
        assert ComponentsBefore(b, k);
        forall n | Kept(b[..k], n)
          ensures Kept((a + b)[..i], n)
        {
          var j :| 0 <= j < k && b[..k][j].name == n;
          assert (a + b)[..i][|a| + j] == b[..k][j];
        }
      }
    }
  }

  /** `build()` as written keeps the difference of a tube but releases the two boxes it subtracts. */
  lemma TubeAsWrittenDangles(c: PassiveConfig)
    ensures !SolidsClosed(TubeSolidsAsWritten(c))
  {
    assert !ComponentsBefore(TubeSolidsAsWritten(c), 0);
  }

  /** Every shape keeps the solids its unions and differences refer to. */
  lemma {:induction false} BuildKeepsComponents(config: PassiveConfig, world: LogicalVolume, materials: map<string, Material>)
    requires world.material.Some?
    requires BuildPlan(config, world, materials).Ok?
    ensures SolidsClosed(BuildPlan(config, world, materials).value.solids)
  {
    var v := BuildPlan(config, world, materials).value;
    if config.volumeType == Some("tube") {
      var s := TubeSolids(config);
      assert Kept(s[..2], s[2].minuend) by { assert s[..2][0] == s[0]; }
      assert Kept(s[..2], s[2].subtrahend) by { assert s[..2][1] == s[1]; }
      assert ComponentsBefore(s, 2);
      assert SolidsClosed(s);
      if config.fillingMaterial.GetOr("") != "" {
        var fill := v.solids[3];
        assert v.solids == s + [fill];
        SolidsClosedAppend(s, [fill]);
      }
    }
  }

  /** The filling of a cylinder is as long as the cylinder it fills. */
  lemma CylinderFillingFits(c: PassiveConfig, world: LogicalVolume, materials: map<string, Material>)
    requires world.material.Some?
    requires c.volumeType == Some("cylinder") && c.fillingMaterial.GetOr("") != ""
    requires BuildPlan(c, world, materials).Ok?
    ensures var v := BuildPlan(c, world, materials).value;
      && |v.solids| == 2 && v.solids[0].Tubs? && v.solids[1].Tubs?
      && v.solids[1].halfLength == v.solids[0].halfLength
      && v.solids[1].outerRadius == v.solids[0].innerRadius
  {
  }

  /** As written, a filled cylinder of non-zero height gets a filling twice as long as itself. */
  lemma CylinderFillingAsWrittenOverhangs(c: PassiveConfig)
    requires c.height.GetOr(0.0) != 0.0
    ensures CylinderFillingAsWritten(c).halfLength == 2.0 * CylinderFilling(c).halfLength
    ensures CylinderFillingAsWritten(c).halfLength != CylinderFilling(c).halfLength
  {
  }

  // ---------------------------------------------------------------------------
  // The corners `addPoints()` appends.

  const OffsetX: seq<int> := [1, 1, 1, 1, -1, -1, -1, -1]
  const OffsetY: seq<int> := [1, 1, -1, -1, 1, 1, -1, -1]
  const OffsetZ: seq<int> := [1, -1, 1, -1, 1, -1, 1, -1]

  predicate IsSign(s: int) { s == 1 || s == -1 }

  /** Entry `i` of the offset tables: the sign of x flips at 4, of y every 2, of z every entry. */
  lemma {:induction false} OffsetsAt(i: nat)
    requires i < 8
    ensures |OffsetX| == |OffsetY| == |OffsetZ| == 8
    ensures OffsetX[i] == (if i < 4 then 1 else -1)
    ensures OffsetY[i] == (if i % 4 < 2 then 1 else -1)
    ensures OffsetZ[i] == (if i % 2 == 0 then 1 else -1)
  {
    if i == 0 {} else if i == 1 {} else if i == 2 {} else if i == 3 {}
    else if i == 4 {} else if i == 5 {} else if i == 6 {} else {}
  }

  /** Every offset is 1 or -1, and entry 7-i is entry i with every sign flipped. */
  lemma OffsetsMirrored()
    ensures |OffsetX| == |OffsetY| == |OffsetZ| == 8
    ensures forall i :: 0 <= i < 8 ==> IsSign(OffsetX[i]) && IsSign(OffsetY[i]) && IsSign(OffsetZ[i])
    ensures forall i :: 0 <= i < 8 ==>
      OffsetX[7 - i] == -OffsetX[i] && OffsetY[7 - i] == -OffsetY[i] && OffsetZ[7 - i] == -OffsetZ[i]
  {
    forall i | 0 <= i < 8
      ensures IsSign(OffsetX[i]) && IsSign(OffsetY[i]) && IsSign(OffsetZ[i])
      ensures OffsetX[7 - i] == -OffsetX[i] && OffsetY[7 - i] == -OffsetY[i] && OffsetZ[7 - i] == -OffsetZ[i]
    {
      OffsetsAt(i);
      OffsetsAt(7 - i);
    }
  }

  /** No sign combination appears twice among the eight offset triples. */
  lemma OffsetsDistinct()
    ensures forall i, j :: 0 <= i < j < 8 ==>
      OffsetX[i] != OffsetX[j] || OffsetY[i] != OffsetY[j] || OffsetZ[i] != OffsetZ[j]
  {
    forall i, j | 0 <= i < j < 8
      ensures OffsetX[i] != OffsetX[j] || OffsetY[i] != OffsetY[j] || OffsetZ[i] != OffsetZ[j]
    {
      OffsetsAt(i);
      OffsetsAt(j);
    }
  }

  /** Every sign combination appears among the eight offset triples. */
  lemma OffsetsCover(sx: int, sy: int, sz: int)
    requires IsSign(sx) && IsSign(sy) && IsSign(sz)
    ensures exists i :: 0 <= i < 8 && OffsetX[i] == sx && OffsetY[i] == sy && OffsetZ[i] == sz
  {
    var i := (if sx == 1 then 0 else 4) + (if sy == 1 then 0 else 2) + (if sz == 1 then 0 else 1);
    OffsetsAt(i);
  }

  /** `position + offset * half` on one axis, for an offset of 1 or -1. */
  function Shift(p: real, sign: int, half: real): (r: real)
    requires IsSign(sign)
    ensures r - p == half || r - p == -half
    ensures sign == 1 ==> r == p + half
    ensures sign == -1 ==> r == p - half
  {
    p + (sign as real) * half
  }

  function Corner(center: Vec3, half: Vec3, i: nat): Vec3
    requires i < 8
  {
    OffsetsAt(i);
    Vec3(Shift(center.x, OffsetX[i], half.x), Shift(center.y, OffsetY[i], half.y), Shift(center.z, OffsetZ[i], half.z))
  }

  function Corners(center: Vec3, half: Vec3): (c: seq<Vec3>)
    ensures |c| == 8
  {
    seq(8, i requires 0 <= i < 8 => Corner(center, half, i))
  }

  /** Corners `i` and `7 - i` lie opposite each other through `center`. */
  lemma CornersMirrored(center: Vec3, half: Vec3, i: nat)
    requires i < 8
    ensures var a, b := Corner(center, half, i), Corner(center, half, 7 - i);
      a.x + b.x == 2.0 * center.x && a.y + b.y == 2.0 * center.y && a.z + b.z == 2.0 * center.z
  {
    OffsetsAt(i);
    OffsetsAt(7 - i);
  }

  /** With non-zero half extents the eight corners are eight different points. */
  lemma CornersDistinct(center: Vec3, half: Vec3)
    requires half.x != 0.0 && half.y != 0.0 && half.z != 0.0
    ensures forall i, j :: 0 <= i < j < 8 ==> Corners(center, half)[i] != Corners(center, half)[j]
  {
    forall i, j | 0 <= i < j < 8
      ensures Corners(center, half)[i] != Corners(center, half)[j]
    {
      OffsetsAt(i);
      OffsetsAt(j);
      var a, b := Corner(center, half, i), Corner(center, half, j);
      if OffsetX[i] != OffsetX[j] {
        assert a.x - center.x == -(b.x - center.x);
      } else if OffsetY[i] != OffsetY[j] {
        assert a.y - center.y == -(b.y - center.y);
      } else {
        assert a.z - center.z == -(b.z - center.z);
      }
    }
  }

  /** The half extents of the bounding box `addPoints()` spans for a shape, none for an unknown type. */
  function HalfExtents(c: PassiveConfig, t: string): (h: Option<Vec3>)
    ensures h.Some? <==> KnownType(t)
  {
    if t == "box" then
      var size := c.size.GetOr(NoSize);
      Some(Vec3(size.x / 2.0, size.y / 2.0, c.thickness.GetOr(0.0) / 2.0))
    else if t == "tube" then
      var outer := c.outerDiameter.GetOr(NoSize);
      Some(Vec3(outer.x / 2.0, outer.y / 2.0, c.length.GetOr(0.0) / 2.0))
    else if t == "cylinder" then
      var r := c.outerRadius.GetOr(0.0);
      Some(Vec3(r, r, c.height.GetOr(0.0) / 2.0))
    else if t == "sphere" then
      var r := c.outerRadius.GetOr(0.0);
      Some(Vec3(r, r, r))
    else None
  }

  /** The points `addPoints()` appends for a section with a "type". */
  function NewPoints(c: PassiveConfig, t: string): (p: seq<Vec3>)
    ensures |p| == if KnownType(t) then 8 else 0
  {
    match HalfExtents(c, t)
    case None => []
    case Some(h) => Corners(c.position.GetOr(Origin), h)
  }

  /**
   * The corners span exactly the solid `build()` places: the box, the tube's outer box, and the
   * outer radius and half-length of the cylinder and the sphere.
   */
  lemma {:induction false} CornersSpanBuiltSolid(config: PassiveConfig, world: LogicalVolume, materials: map<string, Material>)
    requires world.material.Some?
    requires BuildPlan(config, world, materials).Ok?
    requires config.volumeType.Some? && KnownType(config.volumeType.value)
    ensures var t := config.volumeType.value;
      var s := BuildPlan(config, world, materials).value.solids[0];
      var h := HalfExtents(config, t).value;
      && (t == "box" || t == "tube" ==> s.Box? && s.halfSize == h)
      && (t == "cylinder" ==> s.Tubs? && s.outerRadius == h.x == h.y && s.halfLength == h.z)
      && (t == "sphere" ==> s.Sphere? && s.outerRadius == h.x == h.y == h.z)
  {
    FillingOnlyWhenNamed(config, world, materials);
  }

  // ---------------------------------------------------------------------------

  class PassiveMaterialConstructionG4 {
    const config: PassiveConfig
    var solids: seq<Solid>
    var logicals: seq<LogicalVolume>
    var placements: seq<Placement>
    var points: seq<Vec3>

    constructor(config: PassiveConfig)
      ensures this.config == config && solids == [] && logicals == [] && placements == [] && points == []
    {
      this.config := config;
      solids := [];
      logicals := [];
      placements := [];
      points := [];
    }

    /** `build(world_log, materials_)`: refuses the section or records what it creates. */
    method Build(world: LogicalVolume, materials: map<string, Material>) returns (outcome: Outcome<Error>)
      requires world.material.Some?
      modifies this`solids, this`logicals, this`placements
      ensures match BuildPlan(config, world, materials)
        case Err(e) => outcome == Fail(e)
                       && solids == old(solids) && logicals == old(logicals) && placements == old(placements)
        case Ok(v) => outcome == Pass && solids == old(solids) + v.solids
                      && logicals == old(logicals) + v.logicals && placements == old(placements) + v.placements
    {
      var name := config.name;
      var worldMaterial := world.material.value.name;
      var position := config.position.GetOr(Origin);
      var key := LowerCopy(config.material.GetOr(worldMaterial));
      var material := Lookup(materials, key);
      var orientation := config.orientation.GetOr(Origin);

      var mode := config.orientationMode.GetOr(DefaultOrientationMode);
      var convention;
      if mode == "zyx" {
        convention := ZYX;
      } else if mode == "xyz" {
        convention := XYZ;
      } else if mode == "zxz" {
        convention := ZXZ;
      } else {
        return Fail(InvalidValueError("orientation_mode", OrientationModeMessage));
      }
      var rotation := Rotated(convention, orientation);

      if config.volumeType.None? {
        return Fail(MissingKeyError("type"));
      }
      var t := config.volumeType.value;
      if t == "box" {
        BuildBox(material, world.name, position, rotation);
      }
      if t == "cylinder" {
        BuildCylinder(materials, material, world.name, position, rotation);
      }
      if t == "tube" {
        if config.innerDiameter.GetOr(NoSize).x >= config.outerDiameter.GetOr(NoSize).x
           || config.innerDiameter.GetOr(NoSize).y >= config.outerDiameter.GetOr(NoSize).y {
          return Fail(TubeError(name));
        }
        BuildTube(materials, material, world.name, position, rotation);
      }
      if t == "sphere" {
        BuildSphere(materials, material, world.name, position, rotation);
      }
      outcome := Pass;
    }

    /** The "box" branch of `build()`. */
    method BuildBox(material: Option<Material>, world: string, position: Vec3, rotation: Rotation)
      modifies this`solids, this`logicals, this`placements
      ensures var v := BoxVolumes(config, material, world, position, rotation);
        solids == old(solids) + v.solids && logicals == old(logicals) + v.logicals && placements == old(placements) + v.placements
    {
      var size := config.size.GetOr(NoSize);
      var box := Box(config.name + "_volume", Vec3(size.x / 2.0, size.y / 2.0, config.thickness.GetOr(0.0) / 2.0));
      var log := LogicalVolume(config.name + "_log", box.name, material);
      Record(box, log, Placement(config.name + "_phys", log.name, world, position, rotation));
    }

    /** The "cylinder" branch of `build()`, with the filling's half-length of `CylinderFilling`. */
    method BuildCylinder(materials: map<string, Material>, material: Option<Material>, world: string, position: Vec3, rotation: Rotation)
      modifies this`solids, this`logicals, this`placements
      ensures var v := CylinderVolumes(config, materials, material, world, position, rotation);
        solids == old(solids) + v.solids && logicals == old(logicals) + v.logicals && placements == old(placements) + v.placements
    {
      var c := config;
      var tubs := Tubs(c.name + "_volume", c.innerRadius.GetOr(0.0), c.outerRadius.GetOr(0.0), c.height.GetOr(0.0) / 2.0,
                       c.startingAngle.GetOr(0.0), c.arcLength.GetOr(0.0));
      var log := LogicalVolume(c.name + "_log", tubs.name, material);
      Record(tubs, log, Placement(c.name + "_phys", log.name, world, position, rotation));
      var filling := c.fillingMaterial.GetOr("");
      if filling != "" {
        var fill := CylinderFilling(c);
        var fillLog := LogicalVolume(c.name + "_filling_log", fill.name, Lookup(materials, filling));
        Record(fill, fillLog, Placement(c.name + "_filling_phys", fillLog.name, world, position, rotation));
      }
    }

    /** The "tube" branch of `build()` past the diameter check, keeping the two boxes it subtracts. */
    method BuildTube(materials: map<string, Material>, material: Option<Material>, world: string, position: Vec3, rotation: Rotation)
      modifies this`solids, this`logicals, this`placements
      ensures var v := TubeVolumes(config, materials, material, world, position, rotation);
        solids == old(solids) + v.solids && logicals == old(logicals) + v.logicals && placements == old(placements) + v.placements
    {
      var c := config;
      var outer := c.outerDiameter.GetOr(NoSize);
      var inner := c.innerDiameter.GetOr(NoSize);
      var len := c.length.GetOr(0.0);
      var outerBox := Box(c.name + "_outer_volume", Vec3(outer.x / 2.0, outer.y / 2.0, len / 2.0));
      var innerBox := Box(c.name + "_inner_volume", Vec3(inner.x / 2.0, inner.y / 2.0, 1.1 * len / 2.0));
      var tube := Subtraction(c.name + "_final_volume", outerBox.name, innerBox.name, Origin);
      solids := solids + [outerBox, innerBox];
      var log := LogicalVolume(c.name + "_log", tube.name, material);
      Record(tube, log, Placement(c.name + "_phys", log.name, world, position, rotation));
      var filling := c.fillingMaterial.GetOr("");
      if filling != "" {
        var fill := Box(c.name + "_filling_volume", Vec3(inner.x / 2.0, inner.y / 2.0, len / 2.0));
        var fillLog := LogicalVolume(c.name + "filling_log", fill.name, Lookup(materials, filling));
        Record(fill, fillLog, Placement(c.name + "filling_phys", fillLog.name, world, position, rotation));
      }
    }

    /** The "sphere" branch of `build()`. */
    method BuildSphere(materials: map<string, Material>, material: Option<Material>, world: string, position: Vec3, rotation: Rotation)
      modifies this`solids, this`logicals, this`placements
      ensures var v := SphereVolumes(config, materials, material, world, position, rotation);
        solids == old(solids) + v.solids && logicals == old(logicals) + v.logicals && placements == old(placements) + v.placements
    {
      var c := config;
      var phi, dPhi := c.startingAnglePhi.GetOr(0.0), c.arcLengthPhi.GetOr(2.0);
      var theta, dTheta := c.startingAngleTheta.GetOr(0.0), c.arcLengthTheta.GetOr(1.0);
      var sphere := Sphere(c.name + "_volume", c.innerRadius.GetOr(0.0), c.outerRadius.GetOr(0.0), phi, dPhi, theta, dTheta);
      var log := LogicalVolume(c.name + "_log", sphere.name, material);
      Record(sphere, log, Placement(c.name + "_phys", log.name, world, position, rotation));
      var filling := c.fillingMaterial.GetOr("");
      if filling != "" {
        var fill := Sphere(c.name + "_filling_volume", 0.0, c.innerRadius.GetOr(0.0), phi, dPhi, theta, dTheta);
        var fillLog := LogicalVolume(c.name + "_filling_log", fill.name, Lookup(materials, filling));
        Record(fill, fillLog, Placement(c.name + "_filling_phys", fillLog.name, world, position, rotation));
      }
    }

    /** One solid, its logical volume and its placement, appended as `build()` creates them. */
    method Record(solid: Solid, log: LogicalVolume, phys: Placement)
      modifies this`solids, this`logicals, this`placements
      ensures solids == old(solids) + [solid] && logicals == old(logicals) + [log] && placements == old(placements) + [phys]
    {
      solids := solids + [solid];
      logicals := logicals + [log];
      placements := placements + [phys];
    }

    /**
     * `addPoints()`: appends the eight corners of the section's shape to the kept points
     * and returns all of them; nothing is appended for an unknown type.
     */
    method AddPoints() returns (r: Result<seq<Vec3>, Error>)
      modifies this`points
      ensures config.volumeType.None? ==> r == Err(MissingKeyError("type")) && points == old(points)
      ensures config.volumeType.Some? ==> points == old(points) + NewPoints(config, config.volumeType.value) && r == Ok(points)
    {
      var position := config.position.GetOr(Origin);
      if config.volumeType.None? {
        return Err(MissingKeyError("type"));
      }
      var half := HalfExtents(config, config.volumeType.value);
      if half.Some? {
        ghost var corners := Corners(position, half.value);
        for i := 0 to 8
          invariant points == old(points) + corners[..i]
        {
          points := points + [Corner(position, half.value, i)];
          assert corners[..i + 1] == corners[..i] + [corners[i]];
        }
      }
      r := Ok(points);
    }
  }

  /** `std::transform(s.begin(), s.end(), s.begin(), ::tolower)` on a copy of `s`. */
  method LowerCopy(s: string) returns (r: string)
    ensures r == Lower(s)
  {
    var a := new char[|s|](i requires 0 <= i < |s| => s[i]);
    for i := 0 to a.Length
      invariant forall k :: 0 <= k < i ==> a[k] == LowerChar(s[k])
      invariant forall k :: i <= k < a.Length ==> a[k] == s[k]
    {
      a[i] := LowerChar(a[i]);
    }
    r := a[..];
  }
}
