/**
 * The Geant4 geometry builder: it fills the material table, sizes the world box around
 * the setup, and builds for every detector its wrapper, sensor, pixel grid, optional
 * chip, support layers and, for hybrid pixel detectors, bump bonds. Each built object is
 * handed to the detector under a string key.
 *
 * The builder's Geant4 calls become records appended to `solids` or stored in the
 * detector's map of external objects. That map is keyed by the object's type and the
 * key, so two objects of different types may share a key.
 */
module GeometryConstruction {
  import opened Common
  import opened Geant4

  // ---------------------------------------------------------------------------
  // The material table

  /** The keys `init_materials()` puts into the material table. */
  const MaterialKeys: set<string> := {"vacuum", "air", "silicon", "epoxy", "kapton", "copper", "solder"}

  /** `m` with the entries `init_materials()` adds: short lower-case names to Geant4 materials. */
  function WithMaterialTable(m: map<string, Material>): map<string, Material>
  {
    m["vacuum" := Material("Vacuum")]["air" := Material("G4_AIR")]["silicon" := Material("G4_Si")]
     ["epoxy" := Material("G4_PLEXIGLASS")]["kapton" := Material("G4_KAPTON")]["copper" := Material("G4_Cu")]
     ["solder" := Material("Solder")]
  }

  /** The materials the detector builds take from the table by name: sensor and chip, support layers, bump bonds. */
  predicate BuilderMaterials(materials: map<string, Material>)
  {
    "silicon" in materials && "epoxy" in materials && "solder" in materials
  }

  /**
   * The table adds exactly the seven short names, among them both world materials the
   * error message offers and every material the detector builds need; other entries stay.
   */
  lemma MaterialTableKeys(m: map<string, Material>)
    ensures var t := WithMaterialTable(m);
      && t.Keys == m.Keys + MaterialKeys
      && t["air"] == Material("G4_AIR") && t["vacuum"] == Material("Vacuum")
      && BuilderMaterials(t)
      && forall k :: k in m && k !in MaterialKeys ==> t[k] == m[k]
  {
  }

  // ---------------------------------------------------------------------------
  // World size

  const DefaultMarginPercentage: real := 0.1
  const DefaultMinimumMargin: Vec3 := Vec3(0.0, 0.0, 0.0)

  /** Half the world on one axis before the margin: the larger distance of the setup's extremes from the origin. */
  function HalfExtent(lo: real, hi: real): (h: real)
    ensures -h <= lo <= h && -h <= hi <= h
    ensures h == Abs(lo) || h == Abs(hi)
  {
    Max(Abs(lo), Abs(hi))
  }

  /** The margin on one axis: a percentage of the half size, raised to the minimum margin. */
  function AxisMargin(half: real, percentage: real, minimum: real): real
  {
    var add := half * percentage;
    if add < minimum then minimum else add
  }

  /** The final half size on one axis. */
  function WorldAxis(lo: real, hi: real, percentage: real, minimum: real): real
  {
    var half := HalfExtent(lo, hi);
    half + AxisMargin(half, percentage, minimum)
  }

  function WorldHalfSize(minimumCoordinate: Vec3, maximumCoordinate: Vec3, percentage: real, minimumMargin: Vec3): Vec3
  {
    Vec3(WorldAxis(minimumCoordinate.x, maximumCoordinate.x, percentage, minimumMargin.x),
         WorldAxis(minimumCoordinate.y, maximumCoordinate.y, percentage, minimumMargin.y),
         WorldAxis(minimumCoordinate.z, maximumCoordinate.z, percentage, minimumMargin.z))
  }

  predicate Encloses(halfSize: Vec3, p: Vec3)
  {
    -halfSize.x <= p.x <= halfSize.x && -halfSize.y <= p.y <= halfSize.y && -halfSize.z <= p.z <= halfSize.z
  }

  /**
   * The margin on one axis is at least the minimum margin and at least the percentage of
   * the half size, and it is one of the two.
   */
  lemma AxisMarginBounds(half: real, percentage: real, minimum: real)
    ensures var m := AxisMargin(half, percentage, minimum);
      m >= minimum && m >= half * percentage && (m == minimum || m == half * percentage)
  {
  }

  /** On one axis the world reaches past the setup by at least the minimum margin and by at least the percentage. */
  lemma WorldAxisBounds(lo: real, hi: real, percentage: real, minimum: real)
    ensures var h := HalfExtent(lo, hi); var w := WorldAxis(lo, hi, percentage, minimum);
      w >= h + minimum && w >= h + h * percentage
  {
    AxisMarginBounds(HalfExtent(lo, hi), percentage, minimum);
  }

  /**
   * The world box, centred on the origin, holds both extreme corners of the setup
   * whenever the margins cannot come out negative.
   */
  lemma WorldEnclosesSetup(minimumCoordinate: Vec3, maximumCoordinate: Vec3, percentage: real, minimumMargin: Vec3)
    requires percentage >= 0.0 || (minimumMargin.x >= 0.0 && minimumMargin.y >= 0.0 && minimumMargin.z >= 0.0)
    ensures var w := WorldHalfSize(minimumCoordinate, maximumCoordinate, percentage, minimumMargin);
      Encloses(w, minimumCoordinate) && Encloses(w, maximumCoordinate)
  {
    var lo, hi := minimumCoordinate, maximumCoordinate;
    var hx, hy, hz := HalfExtent(lo.x, hi.x), HalfExtent(lo.y, hi.y), HalfExtent(lo.z, hi.z);
    WorldAxisBounds(lo.x, hi.x, percentage, minimumMargin.x);
    WorldAxisBounds(lo.y, hi.y, percentage, minimumMargin.y);
    WorldAxisBounds(lo.z, hi.z, percentage, minimumMargin.z);
    if percentage >= 0.0 {
      assert hx * percentage >= 0.0 && hy * percentage >= 0.0 && hz * percentage >= 0.0;
    }
  }

  // ---------------------------------------------------------------------------
  // Names

  /** "<part>_<detector name>", the name of every per-detector volume. */
  function LocalName(part: string, name: string): string
  {
    part + "_" + name
  }

  /** The name prefixes of the parts of a detector. */
  const Parts: seq<string> := ["wrapper", "support", "sensor", "chip", "bump", "bumpbox"]

  datatype Names = Names(wrapper: string, support: string, sensor: string, pixel: string,
                         chip: string, bump: string, bumpBox: string)

  /** The local names of `build_detectors()`; the pixel name is made from the sensor prefix. */
  function DetectorNames(name: string): Names
  {
    Names(LocalName("wrapper", name), LocalName("support", name), LocalName("sensor", name),
          LocalName("sensor", name), LocalName("chip", name), LocalName("bump", name),
          LocalName("bumpbox", name))
  }

  /** Detectors with different names get different names for the same part. */
  lemma LocalNameInjective(part: string, a: string, b: string)
    requires LocalName(part, a) == LocalName(part, b)
    ensures a == b
  {
    assert a == LocalName(part, a)[|part| + 1..];
    assert b == LocalName(part, b)[|part| + 1..];
  }

  /**
   * No prefix of a part followed by "_" starts another, so the local names made from two
   * different prefixes never coincide, whatever the detectors are called. This does not
   * make every volume name distinct: see `NamesThatCollide`.
   */
  lemma PartNamesDistinct(i: nat, j: nat, a: string, b: string)
    requires i < |Parts| && j < |Parts| && i != j
    ensures LocalName(Parts[i], a) != LocalName(Parts[j], b)
  {
    var p, q := Parts[i] + "_", Parts[j] + "_";
    // "support_" and "sensor_" part at index 1, "bump_" and "bumpbox_" at index 4, the rest at index 0
    var k := if i + j == 3 && i * j == 2 then 1 else if i + j == 9 && i * j == 20 then 4 else 0;
    assert k < |p| && k < |q| && p[k] != q[k] by {
      assert Parts[0] == "wrapper" && Parts[1] == "support" && Parts[2] == "sensor";
      assert Parts[3] == "chip" && Parts[4] == "bump" && Parts[5] == "bumpbox";
      assert i == 0 || i == 1 || i == 2 || i == 3 || i == 4 || i == 5;
      assert j == 0 || j == 1 || j == 2 || j == 3 || j == 4 || j == 5;
    }
    assert LocalName(Parts[i], a)[k] == p[k];
    assert LocalName(Parts[j], b)[k] == q[k];
  }

  // ---------------------------------------------------------------------------
  // Objects handed to a detector

  datatype HandleKind =
    | LogicalVolumeKind | PlacementKind | RotationKind | ParameterizationKind
    | ParameterisedKind | LogicalVolumeListKind | PlacementListKind

  datatype Handle =
    | LogicalVolumeHandle(volume: LogicalVolume)
    | PlacementHandle(placement: Placement)
    | RotationHandle(rotation: Rotation)
      /** The replication rule of a pixel or bump grid. */
    | Parameterization(columns: nat, pitch: Vec2, offset: Vec2)
      /** The replicated placement of a pixel or bump cell. */
    | Parameterised(name: string, logical: string, mother: string, copies: nat)
    | LogicalVolumeList(volumes: seq<LogicalVolume>)
    | PlacementList(placements: seq<Placement>)
  {
    function Kind(): HandleKind
    {
      match this
      case LogicalVolumeHandle(_) => LogicalVolumeKind
      case PlacementHandle(_) => PlacementKind
      case RotationHandle(_) => RotationKind
      case Parameterization(_, _, _) => ParameterizationKind
      case Parameterised(_, _, _, _) => ParameterisedKind
      case LogicalVolumeList(_) => LogicalVolumeListKind
      case PlacementList(_) => PlacementListKind
    }
  }

  type Key = (HandleKind, string)

  /** Storing `objects` in order into `m`; a later object replaces an earlier one with the same type and key. */
  function Install(m: map<Key, Handle>, objects: seq<(string, Handle)>): (r: map<Key, Handle>)
    ensures forall i :: 0 <= i < |objects| ==> (objects[i].1.Kind(), objects[i].0) in r
    ensures m.Keys <= r.Keys
  {
    if objects == [] then m
    else
      var (key, h) := objects[|objects| - 1];
      Install(m, objects[..|objects| - 1])[(h.Kind(), key) := h]
  }

  lemma {:induction false} InstallAppend(m: map<Key, Handle>, a: seq<(string, Handle)>, b: seq<(string, Handle)>)
    ensures Install(m, a + b) == Install(Install(m, a), b)
    decreases |b|
  {
    if b == [] {
      assert a + b == a;
    } else {
      assert (a + b)[..|a + b| - 1] == a + b[..|b| - 1];
      InstallAppend(m, a, b[..|b| - 1]);
    }
  }

  /** What the map holds under a type and key the objects do not mention is what it held before. */
  lemma {:induction false} InstallElsewhere(m: map<Key, Handle>, objects: seq<(string, Handle)>, k: Key)
    requires forall i :: 0 <= i < |objects| ==> (objects[i].1.Kind(), objects[i].0) != k
    ensures k in Install(m, objects) <==> k in m
    ensures k in m ==> Install(m, objects)[k] == m[k]
    decreases |objects|
  {
    if objects != [] {
      InstallElsewhere(m, objects[..|objects| - 1], k);
    }
  }

  /** The object the map holds under the type and key of the last object of `objects`. */
  lemma InstallLast(m: map<Key, Handle>, objects: seq<(string, Handle)>, key: string, h: Handle)
    requires objects != [] && objects[|objects| - 1] == (key, h)
    ensures Install(m, objects)[(h.Kind(), key)] == h
  {
  }

  /** Storing one more object of the list. */
  lemma InstalledNext(m: map<Key, Handle>, objects: seq<(string, Handle)>, k: nat)
    requires k < |objects|
    ensures Install(m, objects[..k + 1]) == Install(m, objects[..k])[(objects[k].1.Kind(), objects[k].0) := objects[k].1]
    ensures k + 1 == |objects| ==> objects[..k + 1] == objects
  {
    assert objects[..k + 1][..k] == objects[..k];
  }

  lemma Installed1(m: map<Key, Handle>, objects: seq<(string, Handle)>)
    requires |objects| >= 1
    ensures Install(m, objects[..1]) == m[(objects[0].1.Kind(), objects[0].0) := objects[0].1]
    ensures |objects| == 1 ==> Install(m, objects) == Install(m, objects[..1])
  {
    InstalledNext(m, objects, 0);
  }

  lemma Installed2(m: map<Key, Handle>, objects: seq<(string, Handle)>)
    requires |objects| >= 2
    ensures Install(m, objects[..2]) == Install(m, objects[..1])[(objects[1].1.Kind(), objects[1].0) := objects[1].1]
    ensures |objects| == 2 ==> Install(m, objects) == Install(m, objects[..2])
  {
    InstalledNext(m, objects, 1);
  }

  lemma Installed3(m: map<Key, Handle>, objects: seq<(string, Handle)>)
    requires |objects| >= 3
    ensures Install(m, objects[..3]) == Install(m, objects[..2])[(objects[2].1.Kind(), objects[2].0) := objects[2].1]
    ensures |objects| == 3 ==> Install(m, objects) == Install(m, objects[..3])
  {
    InstalledNext(m, objects, 2);
  }

  // ---------------------------------------------------------------------------
  // Detector models

  datatype Hole = Hole(size: Vec3, center: Vec3)

  datatype SupportLayer = SupportLayer(size: Vec3, center: Vec3, material: string, hole: Option<Hole>)

  datatype BumpParameters = BumpParameters(height: real, sphereRadius: real, cylinderRadius: real, center: Vec3)

  /** The geometry of a detector model; `bumps` is present exactly for a hybrid pixel detector model. */
  datatype DetectorModel = DetectorModel(
    size: Vec3, center: Vec3,
    sensorSize: Vec3, sensorCenter: Vec3,
    pixelSize: Vec2, columns: nat, rows: nat, gridSize: Vec2,
    chipSize: Vec3, chipCenter: Vec3,
    supportLayers: seq<SupportLayer>,
    bumps: Option<BumpParameters>)

  function Minus(a: Vec3, b: Vec3): Vec3
  {
    Vec3(a.x - b.x, a.y - b.y, a.z - b.z)
  }

  /** A detector of the setup and the objects the builder hands to it. */
  class Detector {
    const name: string
    const model: DetectorModel
    const position: Vec3
    /** Euler angles (phi, theta, psi). */
    const orientation: Vec3
    var externals: map<Key, Handle>

    constructor(name: string, model: DetectorModel, position: Vec3, orientation: Vec3)
      ensures this.name == name && this.model == model
      ensures this.position == position && this.orientation == orientation
      ensures externals == map[]
    {
      this.name := name;
      this.model := model;
      this.position := position;
      this.orientation := orientation;
      externals := map[];
    }

    method SetExternalObject(key: string, h: Handle)
      modifies this
      ensures externals == old(externals)[(h.Kind(), key) := h]
    {
      externals := externals[(h.Kind(), key) := h];
    }
  }

  // ---------------------------------------------------------------------------
  // What `build_detectors()` makes for one detector

  /** Solids appended and objects handed to the detector, in order. */
  datatype Part = Part(solids: seq<Solid>, objects: seq<(string, Handle)>)

  function WrapperPart(n: Names, model: DetectorModel, position: Vec3, orientation: Vec3, worldMaterial: Material): Part
  {
    var log := LogicalVolume(n.wrapper + "_log", n.wrapper, Some(worldMaterial));
    var rotation := Rotated(ZXZ, orientation);
    Part([Box(n.wrapper, Half(model.size))],
         [("wrapper_log", LogicalVolumeHandle(log)),
          ("rotation_matrix", RotationHandle(rotation)),
          ("wrapper_phys", PlacementHandle(Placement(n.wrapper + "_phys", log.name, "World", position, rotation)))])
  }

  function SensorPart(n: Names, model: DetectorModel, silicon: Material): Part
  {
    var log := LogicalVolume(n.sensor + "_log", n.sensor, Some(silicon));
    Part([Box(n.sensor, Half(model.sensorSize))],
         [("sensor_log", LogicalVolumeHandle(log)),
          ("sensor_phys", PlacementHandle(Placement(n.sensor + "_phys", log.name, n.wrapper + "_log",
                                                    Minus(model.sensorCenter, model.center), Identity)))])
  }

  function PixelPart(n: Names, model: DetectorModel, silicon: Material): Part
  {
    var box := Box(n.pixel, Vec3(model.pixelSize.x / 2.0, model.pixelSize.y / 2.0, model.sensorSize.z / 2.0));
    var log := LogicalVolume(n.pixel, n.pixel, Some(silicon));
    Part([box],
         [("pixel_log", LogicalVolumeHandle(log)),
          ("pixel_param_internal",
           Parameterization(model.columns, model.pixelSize, Vec2(-model.gridSize.x / 2.0, -model.gridSize.y / 2.0))),
          ("pixel_param", Parameterised(n.pixel + "phys", log.name, n.sensor + "_log", model.columns * model.rows))])
  }

  /** The chip is built only when it is thicker than 1e-9 mm. */
  const ChipThreshold: real := 0.000000001

  function ChipPart(n: Names, model: DetectorModel, silicon: Material): Part
  {
    if model.chipSize.z > ChipThreshold then
      var log := LogicalVolume(n.chip + "_log", n.chip, Some(silicon));
      Part([Box(n.chip, Half(model.chipSize))],
           [("chip_log", LogicalVolumeHandle(log)),
            ("chip_phys", PlacementHandle(Placement(n.chip + "_phys", log.name, n.wrapper + "_log",
                                                    Minus(model.chipCenter, model.center), Identity)))])
    else Part([], [])
  }

  /** The corner of the bump grid: half the pixel matrix back from the bumps' centre. */
  function BumpGridOffset(model: DetectorModel, b: BumpParameters): Vec2
  {
    Vec2(-(model.columns as real * model.pixelSize.x) / 2.0 + (b.center.x - model.center.x),
         -(model.rows as real * model.pixelSize.y) / 2.0 + (b.center.y - model.center.y))
  }

  /** The bump bonds of a hybrid model; the bump solids carry the bare part names. */
  function BumpsPart(n: Names, model: DetectorModel, worldMaterial: Material, solder: Material): Part
  {
    match model.bumps
    case None => Part([], [])
    case Some(b) =>
      var sphere := Sphere("bump" + "sphere", 0.0, b.sphereRadius, 0.0, 2.0, 0.0, 2.0);
      var tube := Tubs("bump" + "tube", 0.0, b.cylinderRadius, b.height / 2.0, 0.0, 2.0);
      var bump := Union("bump", sphere.name, tube.name);
      var box := Box("bumpbox", Vec3(model.sensorSize.x / 2.0, model.sensorSize.y / 2.0, b.height / 2.0));
      var wrapperLog := LogicalVolume(n.bumpBox + "_log", box.name, Some(worldMaterial));
      var cellLog := LogicalVolume(n.bumpBox + "_log", bump.name, Some(solder));
      var offset := BumpGridOffset(model, b);
      Part([sphere, tube, bump, box],
           [("bumps_wrapper_log", LogicalVolumeHandle(wrapperLog)),
            ("bumps_wrapper_phys", PlacementHandle(Placement(n.bumpBox + "_phys", wrapperLog.name, n.wrapper + "_log",
                                                             Minus(b.center, model.center), Identity))),
            ("bumps_cell_log", LogicalVolumeHandle(cellLog)),
            ("bumps_param", Parameterization(model.columns, model.pixelSize, offset)),
            ("bumps_param", Parameterised(n.bump + "phys", cellLog.name, wrapperLog.name, model.columns * model.rows))])
  }

  /**
   * The names `build_detectors()` does reuse: the pixel box takes the sensor's name, the
   * bump wrapper and the bump cell share one logical volume name, and the bump solids
   * carry the bare part names whatever the detector is called.
   */
  lemma NamesThatCollide(name: string, model: DetectorModel, worldMaterial: Material, solder: Material)
    ensures DetectorNames(name).pixel == DetectorNames(name).sensor
    ensures model.bumps.Some? ==>
      var p := BumpsPart(DetectorNames(name), model, worldMaterial, solder);
      && |p.solids| == 4 && p.solids[2].name == "bump" && p.solids[3].name == "bumpbox"
      && |p.objects| == 5 && p.objects[0].1.LogicalVolumeHandle? && p.objects[2].1.LogicalVolumeHandle?
      && p.objects[0].1.volume.name == p.objects[2].1.volume.name == LocalName("bumpbox", name) + "_log"
  {
  }

  // ---------------------------------------------------------------------------
  // Support layers

  /** The solids of support layer `idx`: its box and, for a layer with a hole, the hole and the box minus the hole. */
  function SupportSolids(prefix: string, idx: nat, layer: SupportLayer): seq<Solid>
  {
    var box := Box(prefix + "_" + NatToString(idx), Half(layer.size));
    match layer.hole
    case None => [box]
    case Some(h) =>
      var holeBox := Box(prefix + "_hole_" + NatToString(idx), Vec3(h.size.x / 2.0, h.size.y / 2.0, h.size.z));
      [box, holeBox, Subtraction(prefix + "_subtraction_" + NatToString(idx), box.name, holeBox.name, Minus(h.center, layer.center))]
  }

  /**
   * A layer with a hole is cut by a box as wide as the hole and twice as deep, centred on the
   * hole: the cut sits at the hole's centre, seen from the layer's centre.
   */
  lemma SupportHoleCut(prefix: string, idx: nat, layer: SupportLayer)
    requires layer.hole.Some?
    ensures var s := SupportSolids(prefix, idx, layer); var h := layer.hole.value;
      && |s| == 3 && s[1].Box? && s[2].Subtraction?
      && s[2].minuend == s[0].name && s[2].subtrahend == s[1].name
      && 2.0 * s[1].halfSize.x == h.size.x && 2.0 * s[1].halfSize.y == h.size.y && 2.0 * s[1].halfSize.z == 2.0 * h.size.z
      && layer.center.x + s[2].offset.x == h.center.x
      && layer.center.y + s[2].offset.y == h.center.y
      && layer.center.z + s[2].offset.z == h.center.z
  {
  }

  function SupportSolidName(prefix: string, idx: nat, layer: SupportLayer): string
  {
    if layer.hole.Some? then prefix + "_subtraction_" + NatToString(idx) else prefix + "_" + NatToString(idx)
  }

  function SupportLog(prefix: string, idx: nat, layer: SupportLayer, epoxy: Material): LogicalVolume
  {
    LogicalVolume(prefix + "_log_" + NatToString(idx), SupportSolidName(prefix, idx, layer), Some(epoxy))
  }

  function SupportPhys(prefix: string, wrapperLog: string, idx: nat, layer: SupportLayer, modelCenter: Vec3): Placement
  {
    Placement(prefix + "_phys_" + NatToString(idx), prefix + "_log_" + NatToString(idx), wrapperLog,
              Minus(layer.center, modelCenter), Identity)
  }

  function SupportMaterialError(material: string): Error
  {
    ModuleError("Cannot construct a support layer of material '" + material + "'")
  }

  datatype Supports = Supports(solids: seq<Solid>, logs: seq<LogicalVolume>, phys: seq<Placement>, error: Option<Error>)

  /**
   * The first `k` layers of the support loop. A layer whose material is not in the table
   * stops the loop after its solids were appended.
   */
  function SupportsUpTo(prefix: string, wrapperLog: string, model: DetectorModel,
                        materials: map<string, Material>, epoxy: Material, k: nat): (s: Supports)
    requires k <= |model.supportLayers|
  {
    if k == 0 then Supports([], [], [], None)
    else
      var prev := SupportsUpTo(prefix, wrapperLog, model, materials, epoxy, k - 1);
      if prev.error.Some? then prev
      else
        var layer := model.supportLayers[k - 1];
        var solids := prev.solids + SupportSolids(prefix, k - 1, layer);
        if layer.material !in materials then Supports(solids, prev.logs, prev.phys, Some(SupportMaterialError(layer.material)))
        else Supports(solids, prev.logs + [SupportLog(prefix, k - 1, layer, epoxy)],
                      prev.phys + [SupportPhys(prefix, wrapperLog, k - 1, layer, model.center)], None)
  }

  predicate KnownMaterials(layers: seq<SupportLayer>, materials: map<string, Material>, k: nat)
    requires k <= |layers|
  {
    forall i :: 0 <= i < k ==> layers[i].material in materials
  }

  /**
   * The support loop fails exactly when some layer's material is missing from the table,
   * and then with the first such layer's error after the volumes of the layers before it;
   * without an error every layer gave one logical volume and one placement.
   */
  lemma {:induction false} SupportsOutcome(prefix: string, wrapperLog: string, model: DetectorModel,
                                           materials: map<string, Material>, epoxy: Material, k: nat)
    requires k <= |model.supportLayers|
    ensures var s := SupportsUpTo(prefix, wrapperLog, model, materials, epoxy, k);
      var layers := model.supportLayers;
      && |s.phys| == |s.logs|
      && (s.error.None? <==> KnownMaterials(layers, materials, k))
      && (s.error.None? ==> |s.logs| == k)
      && (s.error.Some? ==> |s.logs| < k && KnownMaterials(layers, materials, |s.logs|)
                            && layers[|s.logs|].material !in materials
                            && s.error == Some(SupportMaterialError(layers[|s.logs|].material)))
  {
    if k > 0 {
      SupportsOutcome(prefix, wrapperLog, model, materials, epoxy, k - 1);
    }
  }

  /** Layer i gave the logical volume "<support>_log_i", made of epoxy. */
  lemma {:induction false} SupportLogs(prefix: string, wrapperLog: string, model: DetectorModel,
                                       materials: map<string, Material>, epoxy: Material, k: nat)
    requires k <= |model.supportLayers|
    ensures var s := SupportsUpTo(prefix, wrapperLog, model, materials, epoxy, k);
      && |s.logs| <= k
      && forall i :: 0 <= i < |s.logs| ==> s.logs[i] == SupportLog(prefix, i, model.supportLayers[i], epoxy)
  {
    if k > 0 {
      SupportLogs(prefix, wrapperLog, model, materials, epoxy, k - 1);
      SupportsOutcome(prefix, wrapperLog, model, materials, epoxy, k - 1);
      var prev := SupportsUpTo(prefix, wrapperLog, model, materials, epoxy, k - 1);
      var s := SupportsUpTo(prefix, wrapperLog, model, materials, epoxy, k);
      if prev.error.None? && model.supportLayers[k - 1].material in materials {
        assert |prev.logs| == k - 1;
        forall i | 0 <= i < |s.logs| ensures s.logs[i] == SupportLog(prefix, i, model.supportLayers[i], epoxy) {
          if i < k - 1 {
            assert s.logs[i] == prev.logs[i];
          }
        }
      } else {
        assert s.logs == prev.logs;
      }
    }
  }

  /** Layer i gave the placement "<support>_phys_i" of its logical volume into the wrapper. */
  lemma {:induction false} SupportPlacements(prefix: string, wrapperLog: string, model: DetectorModel,
                                             materials: map<string, Material>, epoxy: Material, k: nat)
    requires k <= |model.supportLayers|
    ensures var s := SupportsUpTo(prefix, wrapperLog, model, materials, epoxy, k);
      && |s.phys| <= k
      && forall i :: 0 <= i < |s.phys| ==> s.phys[i] == SupportPhys(prefix, wrapperLog, i, model.supportLayers[i], model.center)
  {
    if k > 0 {
      SupportPlacements(prefix, wrapperLog, model, materials, epoxy, k - 1);
      SupportsOutcome(prefix, wrapperLog, model, materials, epoxy, k - 1);
      var prev := SupportsUpTo(prefix, wrapperLog, model, materials, epoxy, k - 1);
      var s := SupportsUpTo(prefix, wrapperLog, model, materials, epoxy, k);
      if prev.error.None? && model.supportLayers[k - 1].material in materials {
        assert |prev.phys| == k - 1;
        forall i | 0 <= i < |s.phys| ensures s.phys[i] == SupportPhys(prefix, wrapperLog, i, model.supportLayers[i], model.center) {
          if i < k - 1 {
            assert s.phys[i] == prev.phys[i];
          }
        }
      } else {
        assert s.phys == prev.phys;
      }
    }
  }

  /** Support volumes of different layers have different names. */
  lemma SupportNamesDistinct(prefix: string, i: nat, j: nat, layer: SupportLayer, layer': SupportLayer, epoxy: Material)
    requires i != j
    ensures SupportLog(prefix, i, layer, epoxy).name != SupportLog(prefix, j, layer', epoxy).name
  {
    var a, b := SupportLog(prefix, i, layer, epoxy).name, SupportLog(prefix, j, layer', epoxy).name;
    if a == b {
      var n := |prefix + "_log_"|;
      assert a[n..] == NatToString(i);
      assert b[n..] == NatToString(j);
      NatToStringInjective(i, j);
    }
  }

  // ---------------------------------------------------------------------------
  // One detector

  /** What building one detector appends and hands over, and the error it stops with. */
  datatype Assembly = Assembly(solids: seq<Solid>, objects: seq<(string, Handle)>, error: Option<Error>)

  function HeadPart(n: Names, model: DetectorModel, position: Vec3, orientation: Vec3,
                    worldMaterial: Material, silicon: Material): Part
  {
    var w := WrapperPart(n, model, position, orientation, worldMaterial);
    var s := SensorPart(n, model, silicon);
    var p := PixelPart(n, model, silicon);
    var c := ChipPart(n, model, silicon);
    Part(w.solids + s.solids + p.solids + c.solids, w.objects + s.objects + p.objects + c.objects)
  }

  function DetectorAssembly(materials: map<string, Material>, worldMaterial: Material, name: string,
                            model: DetectorModel, position: Vec3, orientation: Vec3): Assembly
    requires BuilderMaterials(materials)
  {
    var n := DetectorNames(name);
    var head := HeadPart(n, model, position, orientation, worldMaterial, materials["silicon"]);
    var s := SupportsUpTo(n.support, n.wrapper + "_log", model, materials, materials["epoxy"], |model.supportLayers|);
    if s.error.Some? then Assembly(head.solids + s.solids, head.objects, s.error)
    else
      var b := BumpsPart(n, model, worldMaterial, materials["solder"]);
      Assembly(head.solids + s.solids + b.solids,
               head.objects + SupportListsAndBumps(n, model, worldMaterial, materials["solder"], s.logs, s.phys), None)
  }

  /** What a detector whose support layers all succeeded hands over after its head parts. */
  function SupportListsAndBumps(n: Names, model: DetectorModel, worldMaterial: Material, solder: Material,
                                logs: seq<LogicalVolume>, phys: seq<Placement>): seq<(string, Handle)>
  {
    [("supports_log", LogicalVolumeList(logs)), ("supports_phys", PlacementList(phys))]
      + BumpsPart(n, model, worldMaterial, solder).objects
  }

  /** The keys of `objects`, in order. */
  function Keys(objects: seq<(string, Handle)>): (ks: seq<string>)
    ensures |ks| == |objects| && forall i :: 0 <= i < |objects| ==> ks[i] == objects[i].0
  {
    seq(|objects|, i requires 0 <= i < |objects| => objects[i].0)
  }

  lemma KeysAppend(a: seq<(string, Handle)>, b: seq<(string, Handle)>)
    ensures Keys(a + b) == Keys(a) + Keys(b)
  {
  }

  /** The keys the head parts hand over: the chip's only for a chip thicker than the threshold. */
  lemma HeadKeys(n: Names, model: DetectorModel, position: Vec3, orientation: Vec3, worldMaterial: Material, silicon: Material)
    ensures var ks := Keys(HeadPart(n, model, position, orientation, worldMaterial, silicon).objects);
      && "wrapper_log" in ks && "pixel_param" in ks && "bumps_wrapper_log" !in ks
      && ("chip_log" in ks <==> model.chipSize.z > ChipThreshold)
  {
    var w := WrapperPart(n, model, position, orientation, worldMaterial);
    var s := SensorPart(n, model, silicon);
    var p := PixelPart(n, model, silicon);
    var c := ChipPart(n, model, silicon);
    KeysAppend(w.objects, s.objects);
    KeysAppend(w.objects + s.objects, p.objects);
    KeysAppend(w.objects + s.objects + p.objects, c.objects);
    var fixed := ["wrapper_log", "rotation_matrix", "wrapper_phys", "sensor_log", "sensor_phys",
                  "pixel_log", "pixel_param_internal", "pixel_param"];
    assert Keys(w.objects + s.objects + p.objects) == fixed;
    assert Keys(c.objects) == if model.chipSize.z > ChipThreshold then ["chip_log", "chip_phys"] else [];
  }

  /** The keys handed over after the support layers: the two lists, then the bump bonds of a hybrid model. */
  lemma RestKeys(n: Names, model: DetectorModel, worldMaterial: Material, solder: Material,
                 logs: seq<LogicalVolume>, phys: seq<Placement>)
    ensures var ks := Keys(SupportListsAndBumps(n, model, worldMaterial, solder, logs, phys));
      && "chip_log" !in ks
      && ("bumps_wrapper_log" in ks <==> model.bumps.Some?)
  {
    var lists := [("supports_log", LogicalVolumeList(logs)), ("supports_phys", PlacementList(phys))];
    var b := BumpsPart(n, model, worldMaterial, solder);
    KeysAppend(lists, b.objects);
    assert Keys(lists) == ["supports_log", "supports_phys"];
    assert Keys(b.objects) == if model.bumps.Some? then
        ["bumps_wrapper_log", "bumps_wrapper_phys", "bumps_cell_log", "bumps_param", "bumps_param"] else [];
  }

  /**
   * The guards of `build_detectors()`: the build fails exactly when a support layer's
   * material is missing; the chip is built exactly when it is thicker than 1e-9; and a
   * completed build has bump bonds exactly for a hybrid model.
   */
  lemma DetectorGuards(materials: map<string, Material>, worldMaterial: Material, name: string,
                       model: DetectorModel, position: Vec3, orientation: Vec3)
    requires BuilderMaterials(materials)
    ensures var a := DetectorAssembly(materials, worldMaterial, name, model, position, orientation);
      && (a.error.None? <==> KnownMaterials(model.supportLayers, materials, |model.supportLayers|))
      && ("chip_log" in Keys(a.objects) <==> model.chipSize.z > ChipThreshold)
      && (a.error.None? ==> ("bumps_wrapper_log" in Keys(a.objects) <==> model.bumps.Some?))
      && ("wrapper_log" in Keys(a.objects) && "pixel_param" in Keys(a.objects))
  {
    var n := DetectorNames(name);
    var head := HeadPart(n, model, position, orientation, worldMaterial, materials["silicon"]);
    var sup := SupportsUpTo(n.support, n.wrapper + "_log", model, materials, materials["epoxy"], |model.supportLayers|);
    SupportsOutcome(n.support, n.wrapper + "_log", model, materials, materials["epoxy"], |model.supportLayers|);
    var rest := SupportListsAndBumps(n, model, worldMaterial, materials["solder"], sup.logs, sup.phys);
    HeadKeys(n, model, position, orientation, worldMaterial, materials["silicon"]);
    RestKeys(n, model, worldMaterial, materials["solder"], sup.logs, sup.phys);
    KeysAppend(head.objects, rest);
  }

  /** Storing the support lists and the bump objects after any `prefix` leaves both "bumps_param" objects. */
  lemma BumpParamsStored(m: map<Key, Handle>, prefix: seq<(string, Handle)>, n: Names, model: DetectorModel,
                         worldMaterial: Material, solder: Material, logs: seq<LogicalVolume>, phys: seq<Placement>)
    requires model.bumps.Some?
    ensures var r := Install(m, prefix + SupportListsAndBumps(n, model, worldMaterial, solder, logs, phys));
      && (ParameterizationKind, "bumps_param") in r && r[(ParameterizationKind, "bumps_param")].Parameterization?
      && (ParameterisedKind, "bumps_param") in r && r[(ParameterisedKind, "bumps_param")].Parameterised?
  {
    var lists := [("supports_log", LogicalVolumeList(logs)), ("supports_phys", PlacementList(phys))];
    var b := BumpsPart(n, model, worldMaterial, solder);
    var objects := prefix + SupportListsAndBumps(n, model, worldMaterial, solder, logs, phys);
    assert objects == (prefix + lists + b.objects[..4]) + [b.objects[4]];
    var before := prefix + lists + b.objects[..4];
    assert before == (prefix + lists + b.objects[..3]) + [b.objects[3]];
    InstallLast(m, before, "bumps_param", b.objects[3].1);
    InstallLast(m, objects, "bumps_param", b.objects[4].1);
  }

  /**
   * A hybrid detector keeps both objects stored under "bumps_param": the grid rule and
   * the replicated placement have different types, so the second does not replace the first.
   */
  lemma BumpParamsBothKept(m: map<Key, Handle>, materials: map<string, Material>, worldMaterial: Material,
                           name: string, model: DetectorModel, position: Vec3, orientation: Vec3)
    requires BuilderMaterials(materials)
    requires model.bumps.Some?
    requires KnownMaterials(model.supportLayers, materials, |model.supportLayers|)
    ensures var r := Install(m, DetectorAssembly(materials, worldMaterial, name, model, position, orientation).objects);
      && (ParameterizationKind, "bumps_param") in r && r[(ParameterizationKind, "bumps_param")].Parameterization?
      && (ParameterisedKind, "bumps_param") in r && r[(ParameterisedKind, "bumps_param")].Parameterised?
  {
    var n := DetectorNames(name);
    var head := HeadPart(n, model, position, orientation, worldMaterial, materials["silicon"]);
    var sup := SupportsUpTo(n.support, n.wrapper + "_log", model, materials, materials["epoxy"], |model.supportLayers|);
    SupportsOutcome(n.support, n.wrapper + "_log", model, materials, materials["epoxy"], |model.supportLayers|);
    BumpParamsStored(m, head.objects, n, model, worldMaterial, materials["solder"], sup.logs, sup.phys);
  }

  // ---------------------------------------------------------------------------
  // The builder

  datatype GeometryConfig = GeometryConfig(worldMaterial: Option<string>, marginPercentage: Option<real>,
                                           minimumMargin: Option<Vec3>)

  function WorldMaterialError(): Error
  {
    InvalidValueError("world_material", "material does not exists, use 'air' or 'vacuum'")
  }

  /** What building each of `ds` in turn does, one assembly per detector. */
  function Assemblies(materials: map<string, Material>, worldMaterial: Material, ds: seq<Detector>): (built: seq<Assembly>)
    requires BuilderMaterials(materials)
    ensures |built| == |ds|
  {
    if ds == [] then []
    else
      var d := ds[|ds| - 1];
      Assemblies(materials, worldMaterial, ds[..|ds| - 1])
        + [DetectorAssembly(materials, worldMaterial, d.name, d.model, d.position, d.orientation)]
  }

  lemma {:induction false} AssembliesAt(materials: map<string, Material>, worldMaterial: Material, ds: seq<Detector>, j: nat)
    requires BuilderMaterials(materials)
    requires j < |ds|
    ensures Assemblies(materials, worldMaterial, ds)[j]
         == DetectorAssembly(materials, worldMaterial, ds[j].name, ds[j].model, ds[j].position, ds[j].orientation)
  {
    if j < |ds| - 1 {
      AssembliesAt(materials, worldMaterial, ds[..|ds| - 1], j);
    }
  }

  /** The index of the first assembly that stops with an error, or the number of assemblies. */
  function FirstFailure(built: seq<Assembly>): (f: nat)
    ensures f <= |built|
    ensures forall j :: 0 <= j < f ==> built[j].error.None?
    ensures f < |built| ==> built[f].error.Some?
  {
    if built == [] then 0
    else if built[0].error.Some? then 0
    else 1 + FirstFailure(built[1..])
  }

  /** Below the first failure, assembly `i` fails exactly when it is the first failure. */
  lemma FirstFailureAt(built: seq<Assembly>, i: nat)
    requires i <= FirstFailure(built) && i < |built|
    ensures built[i].error.Some? <==> FirstFailure(built) == i
  {
  }

  /** The solids the assemblies `built` append, in order. */
  function SolidsOf(built: seq<Assembly>): seq<Solid>
  {
    if built == [] then [] else SolidsOf(built[..|built| - 1]) + built[|built| - 1].solids
  }

  class GeometryConstructionG4 {
    const config: GeometryConfig
    const minimumCoordinate: Vec3
    const maximumCoordinate: Vec3
    const detectors: seq<Detector>
    var materials: map<string, Material>
    var worldMaterial: Option<Material>
    var solids: seq<Solid>
    var worldLog: Option<LogicalVolume>
    var worldPhys: Option<Placement>

    constructor(config: GeometryConfig, minimumCoordinate: Vec3, maximumCoordinate: Vec3, detectors: seq<Detector>)
      ensures this.config == config && this.detectors == detectors
      ensures this.minimumCoordinate == minimumCoordinate && this.maximumCoordinate == maximumCoordinate
      ensures materials == map[] && solids == [] && worldMaterial == None && worldLog == None && worldPhys == None
    {
      this.config := config;
      this.minimumCoordinate := minimumCoordinate;
      this.maximumCoordinate := maximumCoordinate;
      this.detectors := detectors;
      materials := map[];
      worldMaterial := None;
      solids := [];
      worldLog := None;
      worldPhys := None;
    }

    /** What building detector `d` does, with this builder's material table. */
    function AssemblyOf(d: Detector): Assembly
      reads this`materials, this`worldMaterial
      requires BuilderMaterials(materials) && worldMaterial.Some?
    {
      DetectorAssembly(materials, worldMaterial.value, d.name, d.model, d.position, d.orientation)
    }

    /** The assemblies of the detector loop: assembly `j` is what building detector `j` does. */
    lemma DetectorAssemblies() returns (built: seq<Assembly>)
      requires BuilderMaterials(materials) && worldMaterial.Some?
      ensures |built| == |detectors|
      ensures forall j {:trigger AssemblyOf(detectors[j])} :: 0 <= j < |detectors| ==> built[j] == AssemblyOf(detectors[j])
    {
      built := Assemblies(materials, worldMaterial.value, detectors);
      forall j | 0 <= j < |detectors|
        ensures built[j] == AssemblyOf(detectors[j])
      {
        AssembliesAt(materials, worldMaterial.value, detectors, j);
      }
    }

    /** `init_materials()`. */
    method InitMaterials()
      modifies this`materials
      ensures materials == WithMaterialTable(old(materials))
    {
      materials := materials["vacuum" := Material("Vacuum")];
      materials := materials["air" := Material("G4_AIR")];
      materials := materials["silicon" := Material("G4_Si")];
      materials := materials["epoxy" := Material("G4_PLEXIGLASS")];
      materials := materials["kapton" := Material("G4_KAPTON")];
      materials := materials["copper" := Material("G4_Cu")];
      materials := materials["solder" := Material("Solder")];
    }

    /**
     * `Construct()`: the material table, then the world and every detector. A world
     * material missing from the table is refused before anything is built.
     */
    method Construct() returns (r: Result<Placement, Error>, ghost built: seq<Assembly>)
      requires forall i, j :: 0 <= i < j < |detectors| ==> detectors[i] != detectors[j]
      modifies this`materials, this`worldMaterial, this`solids, this`worldLog, this`worldPhys, detectors
      ensures materials == WithMaterialTable(old(materials))
      ensures var key := config.worldMaterial.GetOr("air");
        key !in materials ==> && r == Err(WorldMaterialError())
                              && solids == old(solids) && worldMaterial == old(worldMaterial)
                              && worldLog == old(worldLog) && worldPhys == old(worldPhys)
                              && (forall j {:trigger detectors[j]} :: 0 <= j < |detectors| ==>
                                    detectors[j].externals == old(detectors[j].externals))
      ensures var key := config.worldMaterial.GetOr("air");
        key in materials ==>
          && BuilderMaterials(materials)
          && worldMaterial == Some(materials[key])
          && |built| == |detectors|
          && (forall j {:trigger AssemblyOf(detectors[j])} :: 0 <= j < |detectors| ==> built[j] == AssemblyOf(detectors[j]))
          && var f := FirstFailure(built);
          var world := WorldHalfSize(minimumCoordinate, maximumCoordinate,
                                     config.marginPercentage.GetOr(DefaultMarginPercentage),
                                     config.minimumMargin.GetOr(DefaultMinimumMargin));
          && worldLog == Some(LogicalVolume("World", "World", worldMaterial))
          && worldPhys == Some(Placement("World", "World", "", Vec3(0.0, 0.0, 0.0), Identity))
          && solids == old(solids) + [Box("World", world)] + SolidsOf(built[..if f < |built| then f + 1 else f])
          && (forall j {:trigger detectors[j]} :: 0 <= j <= f && j < |detectors| ==>
                detectors[j].externals == Install(old(detectors[j].externals), built[j].objects))
          && (forall j {:trigger detectors[j]} :: f < j < |detectors| ==> detectors[j].externals == old(detectors[j].externals))
          && (r.Ok? <==> f == |built|)
          && (r.Ok? ==> r.value == worldPhys.value)
          && (r.Err? ==> Some(r.error) == built[f].error)
    {
      InitMaterials();
      MaterialTableKeys(old(materials));
      r, built := ConstructWorld();
    }

    /** The world material check, the world box sized around the setup with its margin, then every detector. */
    method ConstructWorld() returns (r: Result<Placement, Error>, ghost built: seq<Assembly>)
      requires BuilderMaterials(materials)
      requires forall i, j :: 0 <= i < j < |detectors| ==> detectors[i] != detectors[j]
      modifies this`worldMaterial, this`solids, this`worldLog, this`worldPhys, detectors
      ensures var key := config.worldMaterial.GetOr("air");
        key !in materials ==> && r == Err(WorldMaterialError())
                              && solids == old(solids) && worldMaterial == old(worldMaterial)
                              && worldLog == old(worldLog) && worldPhys == old(worldPhys)
                              && (forall j {:trigger detectors[j]} :: 0 <= j < |detectors| ==>
                                    detectors[j].externals == old(detectors[j].externals))
      ensures var key := config.worldMaterial.GetOr("air");
        key in materials ==>
          && worldMaterial == Some(materials[key])
          && |built| == |detectors|
          && (forall j {:trigger AssemblyOf(detectors[j])} :: 0 <= j < |detectors| ==> built[j] == AssemblyOf(detectors[j]))
          && var f := FirstFailure(built);
          var world := WorldHalfSize(minimumCoordinate, maximumCoordinate,
                                     config.marginPercentage.GetOr(DefaultMarginPercentage),
                                     config.minimumMargin.GetOr(DefaultMinimumMargin));
          && worldLog == Some(LogicalVolume("World", "World", worldMaterial))
          && worldPhys == Some(Placement("World", "World", "", Vec3(0.0, 0.0, 0.0), Identity))
          && solids == old(solids) + [Box("World", world)] + SolidsOf(built[..if f < |built| then f + 1 else f])
          && (forall j {:trigger detectors[j]} :: 0 <= j <= f && j < |detectors| ==>
                detectors[j].externals == Install(old(detectors[j].externals), built[j].objects))
          && (forall j {:trigger detectors[j]} :: f < j < |detectors| ==> detectors[j].externals == old(detectors[j].externals))
          && (r.Ok? <==> f == |built|)
          && (r.Ok? ==> r.value == worldPhys.value)
          && (r.Err? ==> Some(r.error) == built[f].error)
    {
      var key := config.worldMaterial.GetOr("air");
      if key !in materials {
        return Err(WorldMaterialError()), [];
      }
      var phys := BuildWorld(materials[key]);
      built := DetectorAssemblies();
      var outcome := BuildDetectors(built);
      if outcome.Fail? {
        return Err(outcome.error), built;
      }
      r := Ok(phys);
    }

    /** The world box, sized around the setup with its margin, its logical volume and its placement. */
    method BuildWorld(material: Material) returns (phys: Placement)
      modifies this`worldMaterial, this`solids, this`worldLog, this`worldPhys
      ensures worldMaterial == Some(material)
      ensures solids == old(solids) + [Box("World", WorldHalfSize(minimumCoordinate, maximumCoordinate,
                                                                  config.marginPercentage.GetOr(DefaultMarginPercentage),
                                                                  config.minimumMargin.GetOr(DefaultMinimumMargin)))]
      ensures worldLog == Some(LogicalVolume("World", "World", worldMaterial))
      ensures phys == Placement("World", "World", "", Vec3(0.0, 0.0, 0.0), Identity) && worldPhys == Some(phys)
    {
      worldMaterial := Some(material);
      var marginPercentage := config.marginPercentage.GetOr(DefaultMarginPercentage);
      var minimumMargin := config.minimumMargin.GetOr(DefaultMinimumMargin);
      var halfWorldSize := WorldHalfSize(minimumCoordinate, maximumCoordinate, marginPercentage, minimumMargin);
      solids := solids + [Box("World", halfWorldSize)];
      worldLog := Some(LogicalVolume("World", "World", worldMaterial));
      phys := Placement("World", "World", "", Vec3(0.0, 0.0, 0.0), Identity);
      worldPhys := Some(phys);
    }

    /**
     * The detector loop of `build_detectors()`; an exception ends it. `built` holds what
     * building each detector does, as `Assemblies` computes it.
     */
    method BuildDetectors(ghost built: seq<Assembly>) returns (outcome: Outcome<Error>)
      requires BuilderMaterials(materials) && worldMaterial.Some?
      requires forall i, j :: 0 <= i < j < |detectors| ==> detectors[i] != detectors[j]
      requires |built| == |detectors|
      requires forall j {:trigger AssemblyOf(detectors[j])} :: 0 <= j < |detectors| ==> built[j] == AssemblyOf(detectors[j])
      modifies this`solids, detectors
      ensures var f := FirstFailure(built);
        && solids == old(solids) + SolidsOf(built[..if f < |built| then f + 1 else f])
        && (forall j {:trigger detectors[j]} :: 0 <= j <= f && j < |detectors| ==>
              detectors[j].externals == Install(old(detectors[j].externals), built[j].objects))
        && (forall j {:trigger detectors[j]} :: f < j < |detectors| ==> detectors[j].externals == old(detectors[j].externals))
        && (outcome.Pass? <==> f == |built|)
        && (outcome.Fail? ==> Some(outcome.error) == built[f].error)
    {
      ghost var f := FirstFailure(built);
      for i := 0 to |detectors|
        invariant i <= f
        invariant solids == old(solids) + SolidsOf(built[..i])
        invariant forall j {:trigger detectors[j]} :: 0 <= j < i ==>
          detectors[j].externals == Install(old(detectors[j].externals), built[j].objects)
        invariant forall j {:trigger detectors[j]} :: i <= j < |detectors| ==> detectors[j].externals == old(detectors[j].externals)
      {
        var result := BuildDetectorAt(i, built);
        FirstFailureAt(built, i);
        assert built[..i + 1][..i] == built[..i];
        AppendAssoc(old(solids), SolidsOf(built[..i]), built[i].solids);
        assert forall j {:trigger detectors[j]} :: 0 <= j <= i ==>
          detectors[j].externals == Install(old(detectors[j].externals), built[j].objects);
        if result.Fail? {
          return result;
        }
      }
      assert built[..|built|] == built;
      outcome := Pass;
    }

    /** Detector `i` of the loop, built with the assembly the loop's specification expects of it. */
    method BuildDetectorAt(i: nat, ghost built: seq<Assembly>) returns (outcome: Outcome<Error>)
      requires BuilderMaterials(materials) && worldMaterial.Some?
      requires i < |detectors| == |built|
      requires forall j {:trigger AssemblyOf(detectors[j])} :: 0 <= j < |detectors| ==> built[j] == AssemblyOf(detectors[j])
      modifies this`solids, detectors[i]
      ensures solids == old(solids) + built[i].solids
      ensures detectors[i].externals == Install(old(detectors[i].externals), built[i].objects)
      ensures outcome == if built[i].error.Some? then Fail(built[i].error.value) else Pass
    {
      outcome := BuildDetector(detectors[i]);
    }

    /** The body of the detector loop of `build_detectors()` for detector `d`. */
    method BuildDetector(d: Detector) returns (outcome: Outcome<Error>)
      requires BuilderMaterials(materials) && worldMaterial.Some?
      modifies this`solids, d
      ensures var a := AssemblyOf(d);
        && solids == old(solids) + a.solids
        && d.externals == Install(old(d.externals), a.objects)
        && outcome == if a.error.Some? then Fail(a.error.value) else Pass
    {
      var names := DetectorNames(d.name);
      ghost var m0 := d.externals;
      ghost var head := HeadPart(names, d.model, d.position, d.orientation, worldMaterial.value, materials["silicon"]);
      BuildHead(d, names);
      var supportsLog, supportsPhys, supported := BuildSupports(d, names);
      ghost var sup := SupportsUpTo(names.support, names.wrapper + "_log", d.model, materials, materials["epoxy"],
                                    |d.model.supportLayers|);
      AppendAssoc(old(solids), head.solids, sup.solids);
      if supported.Fail? {
        return supported;
      }
      ghost var rest := SupportListsAndBumps(names, d.model, worldMaterial.value, materials["solder"], supportsLog, supportsPhys);
      ghost var bumps := BumpsPart(names, d.model, worldMaterial.value, materials["solder"]);
      BuildRest(d, names, supportsLog, supportsPhys);
      InstallAppend(m0, head.objects, rest);
      AppendAssoc(old(solids), head.solids + sup.solids, bumps.solids);
      outcome := Pass;
    }

    /** The two support lists handed to the detector, then the bump bonds. */
    method BuildRest(d: Detector, names: Names, supportsLog: seq<LogicalVolume>, supportsPhys: seq<Placement>)
      requires "solder" in materials && worldMaterial.Some?
      modifies this`solids, d
      ensures solids == old(solids) + BumpsPart(names, d.model, worldMaterial.value, materials["solder"]).solids
      ensures d.externals == Install(old(d.externals), SupportListsAndBumps(names, d.model, worldMaterial.value,
                                                                            materials["solder"], supportsLog, supportsPhys))
    {
      ghost var m0 := d.externals;
      ghost var lists := [("supports_log", LogicalVolumeList(supportsLog)), ("supports_phys", PlacementList(supportsPhys))];
      d.SetExternalObject("supports_log", LogicalVolumeList(supportsLog));
      Installed1(m0, lists);
      d.SetExternalObject("supports_phys", PlacementList(supportsPhys));
      Installed2(m0, lists);
      ghost var bumps := BumpsPart(names, d.model, worldMaterial.value, materials["solder"]);
      BuildBumps(d, names);
      InstallAppend(m0, lists, bumps.objects);
    }

    /** Wrapper, sensor, pixel grid and chip of detector `d`. */
    method BuildHead(d: Detector, names: Names)
      requires "silicon" in materials && worldMaterial.Some?
      modifies this`solids, d
      ensures var part := HeadPart(names, d.model, d.position, d.orientation, worldMaterial.value, materials["silicon"]);
        solids == old(solids) + part.solids && d.externals == Install(old(d.externals), part.objects)
    {
      ghost var m0 := d.externals;
      ghost var w := WrapperPart(names, d.model, d.position, d.orientation, worldMaterial.value);
      ghost var se := SensorPart(names, d.model, materials["silicon"]);
      ghost var p := PixelPart(names, d.model, materials["silicon"]);
      ghost var c := ChipPart(names, d.model, materials["silicon"]);
      BuildWrapper(d, names);
      BuildSensor(d, names);
      InstallAppend(m0, w.objects, se.objects);
      BuildPixels(d, names);
      InstallAppend(m0, w.objects + se.objects, p.objects);
      BuildChip(d, names);
      InstallAppend(m0, w.objects + se.objects + p.objects, c.objects);
      AppendAssoc(old(solids), w.solids, se.solids);
      AppendAssoc(old(solids), w.solids + se.solids, p.solids);
      AppendAssoc(old(solids), w.solids + se.solids + p.solids, c.solids);
    }

    method BuildWrapper(d: Detector, names: Names)
      requires worldMaterial.Some?
      modifies this`solids, d
      ensures var part := WrapperPart(names, d.model, d.position, d.orientation, worldMaterial.value);
        solids == old(solids) + part.solids && d.externals == Install(old(d.externals), part.objects)
    {
      ghost var part := WrapperPart(names, d.model, d.position, d.orientation, worldMaterial.value);
      solids := solids + [Box(names.wrapper, Half(d.model.size))];
      var wrapperLog := LogicalVolume(names.wrapper + "_log", names.wrapper, worldMaterial);
      d.SetExternalObject("wrapper_log", LogicalVolumeHandle(wrapperLog));
      Installed1(old(d.externals), part.objects);
      var rotation := Rotated(ZXZ, d.orientation);
      d.SetExternalObject("rotation_matrix", RotationHandle(rotation));
      Installed2(old(d.externals), part.objects);
      var wrapperPhys := Placement(names.wrapper + "_phys", wrapperLog.name, "World", d.position, rotation);
      d.SetExternalObject("wrapper_phys", PlacementHandle(wrapperPhys));
      Installed3(old(d.externals), part.objects);
    }

    method BuildSensor(d: Detector, names: Names)
      requires "silicon" in materials
      modifies this`solids, d
      ensures var part := SensorPart(names, d.model, materials["silicon"]);
        solids == old(solids) + part.solids && d.externals == Install(old(d.externals), part.objects)
    {
      ghost var part := SensorPart(names, d.model, materials["silicon"]);
      solids := solids + [Box(names.sensor, Half(d.model.sensorSize))];
      var sensorLog := LogicalVolume(names.sensor + "_log", names.sensor, Some(materials["silicon"]));
      d.SetExternalObject("sensor_log", LogicalVolumeHandle(sensorLog));
      Installed1(old(d.externals), part.objects);
      var sensorPhys := Placement(names.sensor + "_phys", sensorLog.name, names.wrapper + "_log",
                                  Minus(d.model.sensorCenter, d.model.center), Identity);
      d.SetExternalObject("sensor_phys", PlacementHandle(sensorPhys));
      Installed2(old(d.externals), part.objects);
    }

    method BuildPixels(d: Detector, names: Names)
      requires "silicon" in materials
      modifies this`solids, d
      ensures var part := PixelPart(names, d.model, materials["silicon"]);
        solids == old(solids) + part.solids && d.externals == Install(old(d.externals), part.objects)
    {
      ghost var part := PixelPart(names, d.model, materials["silicon"]);
      var model := d.model;
      solids := solids + [Box(names.pixel, Vec3(model.pixelSize.x / 2.0, model.pixelSize.y / 2.0, model.sensorSize.z / 2.0))];
      var pixelLog := LogicalVolume(names.pixel, names.pixel, Some(materials["silicon"]));
      d.SetExternalObject("pixel_log", LogicalVolumeHandle(pixelLog));
      Installed1(old(d.externals), part.objects);
      var internal := Parameterization(model.columns, model.pixelSize, Vec2(-model.gridSize.x / 2.0, -model.gridSize.y / 2.0));
      d.SetExternalObject("pixel_param_internal", internal);
      Installed2(old(d.externals), part.objects);
      d.SetExternalObject("pixel_param", Parameterised(names.pixel + "phys", pixelLog.name, names.sensor + "_log",
                                                       model.columns * model.rows));
      Installed3(old(d.externals), part.objects);
    }

    method BuildChip(d: Detector, names: Names)
      requires "silicon" in materials
      modifies this`solids, d
      ensures var part := ChipPart(names, d.model, materials["silicon"]);
        solids == old(solids) + part.solids && d.externals == Install(old(d.externals), part.objects)
    {
      ghost var part := ChipPart(names, d.model, materials["silicon"]);
      var model := d.model;
      if model.chipSize.z > ChipThreshold {
        solids := solids + [Box(names.chip, Half(model.chipSize))];
        var chipLog := LogicalVolume(names.chip + "_log", names.chip, Some(materials["silicon"]));
        d.SetExternalObject("chip_log", LogicalVolumeHandle(chipLog));
        Installed1(old(d.externals), part.objects);
        var chipPhys := Placement(names.chip + "_phys", chipLog.name, names.wrapper + "_log",
                                  Minus(model.chipCenter, model.center), Identity);
        d.SetExternalObject("chip_phys", PlacementHandle(chipPhys));
        Installed2(old(d.externals), part.objects);
      }
    }

    /** The support-layer loop: one box (and hole) per layer, checked material, epoxy volume, placement. */
    method BuildSupports(d: Detector, names: Names)
      returns (supportsLog: seq<LogicalVolume>, supportsPhys: seq<Placement>, outcome: Outcome<Error>)
      requires "epoxy" in materials
      modifies this`solids
      ensures var s := SupportsUpTo(names.support, names.wrapper + "_log", d.model, materials, materials["epoxy"],
                                    |d.model.supportLayers|);
        && solids == old(solids) + s.solids
        && (outcome.Pass? <==> s.error.None?)
        && (outcome.Fail? ==> Some(outcome.error) == s.error)
        && (outcome.Pass? ==> supportsLog == s.logs && supportsPhys == s.phys)
    {
      var layers := d.model.supportLayers;
      ghost var epoxy := materials["epoxy"];
      ghost var built: seq<Solid> := [];
      supportsLog, supportsPhys := [], [];
      var supportIdx := 0;
      while supportIdx < |layers|
        invariant supportIdx <= |layers|
        invariant solids == old(solids) + built
        invariant SupportsUpTo(names.support, names.wrapper + "_log", d.model, materials, epoxy, supportIdx)
               == Supports(built, supportsLog, supportsPhys, None)
        decreases |layers| - supportIdx
      {
        var layer := layers[supportIdx];
        var supportSolid := BuildSupportSolids(names.support, supportIdx, layer);
        built := built + SupportSolids(names.support, supportIdx, layer);
        if layer.material !in materials {
          SupportsFailed(names.support, names.wrapper + "_log", d.model, materials, epoxy, supportIdx + 1);
          outcome := Fail(SupportMaterialError(layer.material));
          return;
        }
        var supportLog := LogicalVolume(names.support + "_log_" + NatToString(supportIdx), supportSolid, Some(materials["epoxy"]));
        supportsLog := supportsLog + [supportLog];
        var supportPhys := Placement(names.support + "_phys_" + NatToString(supportIdx), supportLog.name,
                                     names.wrapper + "_log", Minus(layer.center, d.model.center), Identity);
        supportsPhys := supportsPhys + [supportPhys];
        supportIdx := supportIdx + 1;
      }
      outcome := Pass;
    }

    /** The solids of support layer `supportIdx`; returns the name of the one its volume is made of. */
    method BuildSupportSolids(prefix: string, supportIdx: nat, layer: SupportLayer) returns (supportSolid: string)
      modifies this`solids
      ensures solids == old(solids) + SupportSolids(prefix, supportIdx, layer)
      ensures supportSolid == SupportSolidName(prefix, supportIdx, layer)
    {
      var supportBox := Box(prefix + "_" + NatToString(supportIdx), Half(layer.size));
      solids := solids + [supportBox];
      supportSolid := supportBox.name;
      if layer.hole.Some? {
        var hole := layer.hole.value;
        // twice the hole's depth, so that no false surfaces remain
        var holeBox := Box(prefix + "_hole_" + NatToString(supportIdx), Vec3(hole.size.x / 2.0, hole.size.y / 2.0, hole.size.z));
        solids := solids + [holeBox];
        var subtraction := Subtraction(prefix + "_subtraction_" + NatToString(supportIdx), supportBox.name, holeBox.name,
                                       Minus(hole.center, layer.center));
        solids := solids + [subtraction];
        supportSolid := subtraction.name;
      }
    }

    method BuildBumps(d: Detector, names: Names)
      requires worldMaterial.Some? && "solder" in materials
      modifies this`solids, d
      ensures var part := BumpsPart(names, d.model, worldMaterial.value, materials["solder"]);
        solids == old(solids) + part.solids && d.externals == Install(old(d.externals), part.objects)
    {
      ghost var part := BumpsPart(names, d.model, worldMaterial.value, materials["solder"]);
      var model := d.model;
      if model.bumps.Some? {
        var hybrid := model.bumps.value;
        var bumpSphere := Sphere("bump" + "sphere", 0.0, hybrid.sphereRadius, 0.0, 2.0, 0.0, 2.0);
        var bumpTube := Tubs("bump" + "tube", 0.0, hybrid.cylinderRadius, hybrid.height / 2.0, 0.0, 2.0);
        var bump := Union("bump", bumpSphere.name, bumpTube.name);
        var bumpBox := Box("bumpbox", Vec3(model.sensorSize.x / 2.0, model.sensorSize.y / 2.0, hybrid.height / 2.0));
        solids := solids + [bumpSphere] + [bumpTube] + [bump] + [bumpBox];
        var wrapperLog := LogicalVolume(names.bumpBox + "_log", bumpBox.name, worldMaterial);
        d.SetExternalObject("bumps_wrapper_log", LogicalVolumeHandle(wrapperLog));
        Installed1(old(d.externals), part.objects);
        assert d.externals == Install(old(d.externals), part.objects[..1]);
        var wrapperPhys := Placement(names.bumpBox + "_phys", wrapperLog.name, names.wrapper + "_log",
                                     Minus(hybrid.center, model.center), Identity);
        d.SetExternalObject("bumps_wrapper_phys", PlacementHandle(wrapperPhys));
        Installed2(old(d.externals), part.objects);
        assert d.externals == Install(old(d.externals), part.objects[..2]);
        var cellLog := LogicalVolume(names.bumpBox + "_log", bump.name, Some(materials["solder"]));
        d.SetExternalObject("bumps_cell_log", LogicalVolumeHandle(cellLog));
        Installed3(old(d.externals), part.objects);
        assert d.externals == Install(old(d.externals), part.objects[..3]);
        var internal := Parameterization(model.columns, model.pixelSize, BumpGridOffset(model, hybrid));
        d.SetExternalObject("bumps_param", internal);
        InstalledNext(old(d.externals), part.objects, 3);
        assert d.externals == Install(old(d.externals), part.objects[..4]);
        d.SetExternalObject("bumps_param", Parameterised(names.bump + "phys", cellLog.name, wrapperLog.name,
                                                         model.columns * model.rows));
        InstalledNext(old(d.externals), part.objects, 4);
        assert d.externals == Install(old(d.externals), part.objects[..5]);
      } else {
        assert part.objects == [];
      }
    }
  }

  /** Once the support loop has failed, later layers change nothing. */
  lemma {:induction false} SupportsFailed(prefix: string, wrapperLog: string, model: DetectorModel,
                                          materials: map<string, Material>, epoxy: Material, k: nat)
    requires k <= |model.supportLayers|
    requires SupportsUpTo(prefix, wrapperLog, model, materials, epoxy, k).error.Some?
    ensures SupportsUpTo(prefix, wrapperLog, model, materials, epoxy, |model.supportLayers|)
         == SupportsUpTo(prefix, wrapperLog, model, materials, epoxy, k)
    decreases |model.supportLayers| - k
  {
    if k < |model.supportLayers| {
      assert SupportsUpTo(prefix, wrapperLog, model, materials, epoxy, k + 1)
          == SupportsUpTo(prefix, wrapperLog, model, materials, epoxy, k);
      SupportsFailed(prefix, wrapperLog, model, materials, epoxy, k + 1);
    }
  }
}
