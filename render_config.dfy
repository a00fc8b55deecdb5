/** LoadRenderConfig (face-sorter/render-config.cc:10-144): filling a RenderConfig from an
    already-parsed JSON document, field by field, with a default for every field but the OBJ file
    name. File opening and JSON parsing are inputs; a picojson type-mismatch exception is an
    outcome. */
module RenderConfigLoader {
  import opened Vec

  /** A picojson value. Numbers are reals (picojson's double). */
  datatype Json = Null | Bool(b: bool) | Num(n: real) | Str(s: string) | Arr(items: seq<Json>)
                | Obj(members: map<string, Json>)

  /** What the loader gets from the file: nothing when it cannot be opened, otherwise the value
      picojson parsed and the parse error string (empty when there was none). */
  datatype Source = Unopenable | Parsed(value: Json, err: string)

  /** How a call ends: it returns a flag, or picojson's `get<double>()` throws its type-mismatch
      error while the field read from `key` is being filled in. */
  datatype Outcome = Returned(ok: bool) | Raised(key: string)

  /** The fields the loader writes, in the order it writes them. */
  datatype Field = ObjFilename | SceneScale | Eye | Up | LookAt | Fov | Width | Height | ShapeId | RayOrg | RayDir

  /** The position of a field's block in the loader. */
  function Step(f: Field): nat {
    match f
    case ObjFilename => 0 case SceneScale => 1 case Eye => 2 case Up => 3 case LookAt => 4
    case Fov => 5 case Width => 6 case Height => 7 case ShapeId => 8 case RayOrg => 9 case RayDir => 10
  }

  /** The JSON key each field is read from. */
  function Key(f: Field): string {
    match f
    case ObjFilename => "obj_filename" case SceneScale => "scene_scale" case Eye => "eye"
    case Up => "up" case LookAt => "look_at" case Fov => "fov" case Width => "width"
    case Height => "height" case ShapeId => "shape_id" case RayOrg => "ray_org" case RayDir => "ray_dir"
  }

  /** The values of the RenderConfig fields the loader writes. */
  datatype Config = Config(objFilename: string, sceneScale: real, eye: Float3, up: Float3, lookAt: Float3,
                           fov: real, width: int, height: int, shapeId: int, rayOrg: Float3, rayDir: Float3)

  // ---------------------------------------------------------------------------------------------
  // Conversions and defaults

  /** static_cast<int> of a double: truncation toward zero. */
  function TruncToInt(r: real): (i: int)
    ensures 0.0 <= r ==> i as real <= r < i as real + 1.0
    ensures r < 0.0 ==> i as real - 1.0 < r <= i as real
  {
    if 0.0 <= r then r.Floor else -((-r).Floor)
  }

  const DefaultEye: Float3 := [0.0, 0.0, 5.0]
  const DefaultUp: Float3 := [0.0, 1.0, 0.0]
  const DefaultLookAt: Float3 := [0.0, 0.0, 0.0]
  const DefaultRayOrg: Float3 := [0.0, 0.0, 100.0]
  const DefaultRayDir: Float3 := [0.0, 0.0, -1.0]

  // ---------------------------------------------------------------------------------------------
  // What the object holds under a key

  /** The key is present and holds a number (`is<double>()`). */
  predicate IsNumber(o: map<string, Json>, key: string) {
    key in o && o[key].Num?
  }

  /** The key is present and holds an array of exactly three elements. */
  predicate IsTriple(o: map<string, Json>, key: string) {
    key in o && o[key].Arr? && |o[key].items| == 3
  }

  /** How many of the three elements of `items` come before the first one that is not a number. */
  function LeadingNumbers(items: seq<Json>): (n: nat)
    requires |items| == 3
    ensures n <= 3
  {
    if !items[0].Num? then 0 else if !items[1].Num? then 1 else if !items[2].Num? then 2 else 3
  }

  /** A three-element array with an element that is not a number: reading it throws. */
  predicate VectorMismatch(o: map<string, Json>, key: string) {
    IsTriple(o, key) && LeadingNumbers(o[key].items) < 3
  }

  /** The vector read from `key`: its three numbers when it is a three-element array of numbers,
      otherwise the default. */
  function VectorOr(o: map<string, Json>, key: string, default: Float3): Float3 {
    if IsTriple(o, key) && LeadingNumbers(o[key].items) == 3 then
      var items := o[key].items;
      [items[0].n, items[1].n, items[2].n]
    else default
  }

  /** The vector left behind when reading `key` throws: the default with its leading number
      components already overwritten. */
  function PartialVector(o: map<string, Json>, key: string, default: Float3): Float3
    requires VectorMismatch(o, key)
  {
    var items := o[key].items;
    var n := LeadingNumbers(items);
    [if 0 < n then items[0].n else default[0], if 1 < n then items[1].n else default[1], default[2]]
  }

  /** The fov block throws: "fov" is present and "width" (which the guard tests) is a number,
      but the value under "fov" is not. */
  predicate FovMismatch(o: map<string, Json>) {
    "fov" in o && IsNumber(o, "width") && !o["fov"].Num?
  }

  /** The fov the loader stores: "fov" truncated to an integer when "fov" is present and the
      value under "width" is a number, 45 otherwise. */
  function FovOf(o: map<string, Json>): real {
    if "fov" in o && IsNumber(o, "width") && o["fov"].Num? then TruncToInt(o["fov"].n) as real else 45.0
  }

  /** The OBJ file name: the string under "obj_filename", or the old name (there is no default). */
  function NameOr(o: map<string, Json>, old_name: string): string {
    if "obj_filename" in o && o["obj_filename"].Str? then o["obj_filename"].s else old_name
  }

  /** The scene scale: the number under "scene_scale", or 1. */
  function ScaleOf(o: map<string, Json>): real {
    if IsNumber(o, "scene_scale") then o["scene_scale"].n else 1.0
  }

  /** An integer field: the number under `key` truncated, or the default. */
  function IntOr(o: map<string, Json>, key: string, default: int): int {
    if IsNumber(o, key) then TruncToInt(o[key].n) else default
  }

  // ---------------------------------------------------------------------------------------------
  // The result of a load

  /** The configuration after every block ran: each field from its key when the key is present
      with the right type, its default otherwise; the OBJ file name keeps its old value when
      "obj_filename" is not a string. */
  function Loaded(cfg: Config, o: map<string, Json>): Config {
    Config(
      objFilename := NameOr(o, cfg.objFilename),
      sceneScale := ScaleOf(o),
      eye := VectorOr(o, "eye", DefaultEye),
      up := VectorOr(o, "up", DefaultUp),
      lookAt := VectorOr(o, "look_at", DefaultLookAt),
      fov := FovOf(o),
      width := IntOr(o, "width", 512),
      height := IntOr(o, "height", 512),
      shapeId := IntOr(o, "shape_id", 512),
      rayOrg := VectorOr(o, "ray_org", DefaultRayOrg),
      rayDir := VectorOr(o, "ray_dir", DefaultRayDir))
  }

  /** Reading field f throws. Only the vector blocks and the fov block read without a type check. */
  predicate Throws(o: map<string, Json>, f: Field) {
    match f
    case Eye | Up | LookAt | RayOrg | RayDir => VectorMismatch(o, Key(f))
    case Fov => FovMismatch(o)
    case _ => false
  }

  /** Where a load stops: it completes, or it stops in the block of the first field that throws. */
  datatype Interruption = Completes | StopsAt(field: Field)

  function FirstThrow(o: map<string, Json>): Interruption {
    if Throws(o, Eye) then StopsAt(Eye)
    else if Throws(o, Up) then StopsAt(Up)
    else if Throws(o, LookAt) then StopsAt(LookAt)
    else if Throws(o, Fov) then StopsAt(Fov)
    else if Throws(o, RayOrg) then StopsAt(RayOrg)
    else if Throws(o, RayDir) then StopsAt(RayDir)
    else Completes
  }

  /** Field f after a load that threw in the block of field `at`: blocks before it ran in full,
      the block of `at` ran up to the throw, later blocks did not run. */
  function Pick<T>(f: Field, at: Field, done: T, partial: T, untouched: T): T {
    if Step(f) < Step(at) then done else if f == at then partial else untouched
  }

  /** The configuration left behind by a load that threw in the block of `at`. The fov block
      throws after storing its default. */
  function Interrupted(cfg: Config, o: map<string, Json>, at: Field): (r: Config)
    requires Throws(o, at)
  {
    var done := Loaded(cfg, o);
    Config(
      objFilename := done.objFilename,
      sceneScale := done.sceneScale,
      eye := Pick(Eye, at, done.eye, if at == Eye then PartialVector(o, "eye", DefaultEye) else cfg.eye, cfg.eye),
      up := Pick(Up, at, done.up, if at == Up then PartialVector(o, "up", DefaultUp) else cfg.up, cfg.up),
      lookAt := Pick(LookAt, at, done.lookAt,
                     if at == LookAt then PartialVector(o, "look_at", DefaultLookAt) else cfg.lookAt, cfg.lookAt),
      fov := Pick(Fov, at, done.fov, 45.0, cfg.fov),
      width := Pick(Width, at, done.width, cfg.width, cfg.width),
      height := Pick(Height, at, done.height, cfg.height, cfg.height),
      shapeId := Pick(ShapeId, at, done.shapeId, cfg.shapeId, cfg.shapeId),
      rayOrg := Pick(RayOrg, at, done.rayOrg,
                     if at == RayOrg then PartialVector(o, "ray_org", DefaultRayOrg) else cfg.rayOrg, cfg.rayOrg),
      rayDir := Pick(RayDir, at, done.rayDir,
                     if at == RayDir then PartialVector(o, "ray_dir", DefaultRayDir) else cfg.rayDir, cfg.rayDir))
  }

  /** How a load of `src` ends. */
  function LoadOutcome(src: Source): Outcome {
    if src.Unopenable? || !src.value.Obj? then Returned(false)
    else match FirstThrow(src.value.members)
      case Completes => Returned(true)
      case StopsAt(f) => Raised(Key(f))
  }

  /** The configuration a load of `src` leaves behind. */
  function LoadResult(cfg: Config, src: Source): Config {
    if src.Unopenable? || !src.value.Obj? then cfg
    else
      var o := src.value.members;
      match FirstThrow(o)
      case Completes => Loaded(cfg, o)
      case StopsAt(f) => Interrupted(cfg, o, f)
  }

  /** An outcome and the configuration it leaves. */
  datatype Loading = Loading(outcome: Outcome, config: Config)

  /** The vector a vector block leaves in its field: the vector read, or, when reading throws,
      the default with its leading number components overwritten. */
  function VectorAfter(o: map<string, Json>, key: string, default: Float3): Float3 {
    if VectorMismatch(o, key) then PartialVector(o, key, default) else VectorOr(o, key, default)
  }

  /** The end of one block: the configuration it leaves and whether it threw. */
  datatype BlockEnd = BlockEnd(config: Config, thrown: bool)

  /** The block of field f run on configuration c: it stores the field's default and then the
      value read from its key. Only the vector blocks and the fov block can throw. */
  function RunBlock(f: Field, c: Config, o: map<string, Json>): BlockEnd {
    match f
    case ObjFilename => BlockEnd(c.(objFilename := NameOr(o, c.objFilename)), false)
    case SceneScale => BlockEnd(c.(sceneScale := ScaleOf(o)), false)
    case Eye => BlockEnd(c.(eye := VectorAfter(o, "eye", DefaultEye)), VectorMismatch(o, "eye"))
    case Up => BlockEnd(c.(up := VectorAfter(o, "up", DefaultUp)), VectorMismatch(o, "up"))
    case LookAt => BlockEnd(c.(lookAt := VectorAfter(o, "look_at", DefaultLookAt)), VectorMismatch(o, "look_at"))
    case Fov => BlockEnd(c.(fov := if FovMismatch(o) then 45.0 else FovOf(o)), FovMismatch(o))
    case Width => BlockEnd(c.(width := IntOr(o, "width", 512)), false)
    case Height => BlockEnd(c.(height := IntOr(o, "height", 512)), false)
    case ShapeId => BlockEnd(c.(shapeId := IntOr(o, "shape_id", 512)), false)
    case RayOrg => BlockEnd(c.(rayOrg := VectorAfter(o, "ray_org", DefaultRayOrg)), VectorMismatch(o, "ray_org"))
    case RayDir => BlockEnd(c.(rayDir := VectorAfter(o, "ray_dir", DefaultRayDir)), VectorMismatch(o, "ray_dir"))
  }

  /** The field whose block comes next in the loader. */
  function Following(f: Field): Field
    requires f != RayDir
  {
    match f
    case ObjFilename => SceneScale case SceneScale => Eye case Eye => Up case Up => LookAt
    case LookAt => Fov case Fov => Width case Width => Height case Height => ShapeId
    case ShapeId => RayOrg case RayOrg => RayDir
  }

  /** The blocks from that of f on, run in order from c until one throws. */
  function RunFrom(f: Field, c: Config, o: map<string, Json>): Loading
    decreases 10 - Step(f)
  {
    var e := RunBlock(f, c, o);
    if e.thrown then Loading(Raised(Key(f)), e.config)
    else if f == RayDir then Loading(Returned(true), e.config)
    else RunFrom(Following(f), e.config, o)
  }

  /** A load of `src` block by block: false before any block when the file cannot be opened or
      the parsed value is not an object, otherwise the blocks in order until one throws. */
  function LoadSteps(cfg: Config, src: Source): Loading {
    if src.Unopenable? || !src.value.Obj? then Loading(Returned(false), cfg)
    else RunFrom(ObjFilename, cfg, src.value.members)
  }

  /** Block by block and field by field agree: a load ends as LoadOutcome says, leaving the
      configuration LoadResult describes. */
  lemma LoadStepsMatchFields(cfg: Config, src: Source)
    ensures LoadSteps(cfg, src) == Loading(LoadOutcome(src), LoadResult(cfg, src))
  {
    if src.Parsed? && src.value.Obj? {
      var o := src.value.members;
      match FirstThrow(o)
      case Completes => CompletedRun(cfg, o);
      case StopsAt(f) =>
        if Step(f) <= Step(Fov) {
          EarlyInterruptedRun(cfg, o, f);
        } else {
          LateInterruptedRun(cfg, o, f);
        }
    }
  }

  /** The configuration after the blocks up to that of fov ran without throwing. */
  function Halfway(cfg: Config, o: map<string, Json>): Config {
    var done := Loaded(cfg, o);
    cfg.(objFilename := done.objFilename, sceneScale := done.sceneScale, eye := done.eye, up := done.up,
         lookAt := done.lookAt, fov := done.fov)
  }

  /** When no block up to that of fov throws, a load continues from the width block on Halfway. */
  lemma FirstHalfRun(cfg: Config, o: map<string, Json>)
    requires !Throws(o, Eye) && !Throws(o, Up) && !Throws(o, LookAt) && !Throws(o, Fov)
    ensures RunFrom(ObjFilename, cfg, o) == RunFrom(Width, Halfway(cfg, o), o)
  {
  }

  /** From the width block on, a load in which no block throws runs every block. */
  lemma SecondHalfRun(c: Config, o: map<string, Json>)
    requires !Throws(o, RayOrg) && !Throws(o, RayDir)
    ensures RunFrom(Width, c, o)
         == Loading(Returned(true), c.(width := IntOr(o, "width", 512), height := IntOr(o, "height", 512),
                                       shapeId := IntOr(o, "shape_id", 512),
                                       rayOrg := VectorOr(o, "ray_org", DefaultRayOrg),
                                       rayDir := VectorOr(o, "ray_dir", DefaultRayDir)))
  {
  }

  /** From the width block on, a load that throws in the ray_org or the ray_dir block. */
  lemma SecondHalfInterrupted(c: Config, o: map<string, Json>, at: Field)
    requires at == RayOrg || at == RayDir
    requires Throws(o, at) && (at == RayDir ==> !Throws(o, RayOrg))
    ensures RunFrom(Width, c, o)
         == Loading(Raised(Key(at)),
                    c.(width := IntOr(o, "width", 512), height := IntOr(o, "height", 512),
                       shapeId := IntOr(o, "shape_id", 512),
                       rayOrg := if at == RayOrg then PartialVector(o, "ray_org", DefaultRayOrg)
                                 else VectorOr(o, "ray_org", DefaultRayOrg),
                       rayDir := if at == RayDir then PartialVector(o, "ray_dir", DefaultRayDir) else c.rayDir))
  {
  }

  /** A load in which no block throws runs every block. */
  lemma CompletedRun(cfg: Config, o: map<string, Json>)
    requires FirstThrow(o) == Completes
    ensures RunFrom(ObjFilename, cfg, o) == Loading(Returned(true), Loaded(cfg, o))
  {
    FirstHalfRun(cfg, o);
    SecondHalfRun(Halfway(cfg, o), o);
  }

  /** A load that throws in one of the blocks up to that of fov. */
  lemma EarlyInterruptedRun(cfg: Config, o: map<string, Json>, at: Field)
    requires FirstThrow(o) == StopsAt(at) && Step(at) <= Step(Fov)
    ensures RunFrom(ObjFilename, cfg, o) == Loading(Raised(Key(at)), Interrupted(cfg, o, at))
  {
    PrefixRun(cfg, o);
    var c := cfg.(objFilename := NameOr(o, cfg.objFilename), sceneScale := ScaleOf(o));
    EarlyRun(c, o, at);
    EarlyInterruption(cfg, o, at);
  }

  /** The configuration a throw at or before the fov block leaves, from the eye block on. */
  function EarlyStop(c: Config, o: map<string, Json>, at: Field): Config
    requires Throws(o, at)
  {
    c.(eye := if at == Eye then PartialVector(o, "eye", DefaultEye) else VectorOr(o, "eye", DefaultEye),
       up := if at == Eye then c.up
             else if at == Up then PartialVector(o, "up", DefaultUp) else VectorOr(o, "up", DefaultUp),
       lookAt := if at == Eye || at == Up then c.lookAt
                 else if at == LookAt then PartialVector(o, "look_at", DefaultLookAt)
                 else VectorOr(o, "look_at", DefaultLookAt),
       fov := if at == Fov then 45.0 else c.fov)
  }

  /** From the eye block on, a load that throws at or before the fov block. */
  lemma EarlyRun(c: Config, o: map<string, Json>, at: Field)
    requires FirstThrow(o) == StopsAt(at) && Step(at) <= Step(Fov)
    ensures RunFrom(Eye, c, o) == Loading(Raised(Key(at)), EarlyStop(c, o, at))
  {
  }

  /** What a throw at or before the fov block leaves, in terms of EarlyStop. */
  lemma EarlyInterruption(cfg: Config, o: map<string, Json>, at: Field)
    requires Step(at) <= Step(Fov) && Throws(o, at)
    ensures Interrupted(cfg, o, at)
         == EarlyStop(cfg.(objFilename := NameOr(o, cfg.objFilename), sceneScale := ScaleOf(o)), o, at)
  {
  }

  /** The first two blocks never throw. */
  lemma PrefixRun(cfg: Config, o: map<string, Json>)
    ensures RunFrom(ObjFilename, cfg, o)
         == RunFrom(Eye, cfg.(objFilename := NameOr(o, cfg.objFilename), sceneScale := ScaleOf(o)), o)
  {
  }

  /** A load that throws in one of the blocks after that of fov. */
  lemma LateInterruptedRun(cfg: Config, o: map<string, Json>, at: Field)
    requires FirstThrow(o) == StopsAt(at) && Step(Fov) < Step(at)
    ensures RunFrom(ObjFilename, cfg, o) == Loading(Raised(Key(at)), Interrupted(cfg, o, at))
  {
    FirstHalfRun(cfg, o);
    SecondHalfInterrupted(Halfway(cfg, o), o, at);
    LateInterruption(cfg, o, at);
  }

  /** What a throw after the fov block leaves, in terms of Halfway. */
  lemma LateInterruption(cfg: Config, o: map<string, Json>, at: Field)
    requires (at == RayOrg || at == RayDir) && Throws(o, at)
    ensures Interrupted(cfg, o, at)
         == Halfway(cfg, o).(width := IntOr(o, "width", 512), height := IntOr(o, "height", 512),
                             shapeId := IntOr(o, "shape_id", 512),
                             rayOrg := if at == RayOrg then PartialVector(o, "ray_org", DefaultRayOrg)
                                       else VectorOr(o, "ray_org", DefaultRayOrg),
                             rayDir := if at == RayDir then PartialVector(o, "ray_dir", DefaultRayDir)
                                       else Halfway(cfg, o).rayDir)
  {
  }

  // ---------------------------------------------------------------------------------------------
  // The loader

  /** The RenderConfig fields the loader writes. */
  class RenderConfig {
    var objFilename: string
    var sceneScale: real
    var eye: Float3
    var up: Float3
    var lookAt: Float3
    var fov: real
    var width: int
    var height: int
    var shapeId: int
    var rayOrg: Float3
    var rayDir: Float3

    function Snapshot(): Config
      reads this
    {
      Config(objFilename, sceneScale, eye, up, lookAt, fov, width, height, shapeId, rayOrg, rayDir)
    }

    constructor(init: Config)
      ensures Snapshot() == init
    {
      objFilename, sceneScale, eye, up, lookAt := init.objFilename, init.sceneScale, init.eye, init.up, init.lookAt;
      fov, width, height, shapeId, rayOrg, rayDir := init.fov, init.width, init.height, init.shapeId, init.rayOrg, init.rayDir;
    }

    /** LoadRenderConfig: the outcome and the new field values are those of LoadSteps. */
    method LoadRenderConfig(src: Source) returns (outcome: Outcome)
      modifies this
      ensures Loading(outcome, Snapshot()) == LoadSteps(old(Snapshot()), src)
    {
      if src.Unopenable? {
        return Returned(false);
      }
      // A non-empty src.err is only reported.
      if !src.value.Obj? {
        return Returned(false);
      }
      var o := src.value.members;
      // The load the blocks below carry out, one block at a time.
      ghost var goal := RunFrom(ObjFilename, Snapshot(), o);
      var thrown: bool;

      LoadBlock(ObjFilename, o);
      LoadBlock(SceneScale, o);
      thrown := LoadVector(Eye, o);
      if thrown {
        return Raised("eye");
      }
      thrown := LoadVector(Up, o);
      if thrown {
        return Raised("up");
      }
      thrown := LoadVector(LookAt, o);
      if thrown {
        return Raised("look_at");
      }
      var o';
      thrown, o' := LoadFov(o);
      if thrown {
        return Raised("fov");
      }
      NullWidthHarmless(o, o', Width, Snapshot());
      o := o';
      LoadBlock(Width, o);
      LoadBlock(Height, o);
      LoadBlock(ShapeId, o);
      thrown := LoadVector(RayOrg, o);
      if thrown {
        return Raised("ray_org");
      }
      thrown := LoadVector(RayDir, o);
      if thrown {
        return Raised("ray_dir");
      }
      return Returned(true);
    }

    /** The block of a field that is read with a type check and so cannot throw. */
    method LoadBlock(f: Field, o: map<string, Json>)
      requires f in {ObjFilename, SceneScale, Width, Height, ShapeId}
      modifies this
      ensures Snapshot() == RunBlock(f, old(Snapshot()), o).config
      ensures !RunBlock(f, old(Snapshot()), o).thrown
    {
      match f
      case ObjFilename =>
        if "obj_filename" in o {
          if o["obj_filename"].Str? {
            objFilename := o["obj_filename"].s;
          }
        }
      case SceneScale =>
        sceneScale := 1.0;
        if "scene_scale" in o {
          if o["scene_scale"].Num? {
            sceneScale := o["scene_scale"].n;
          }
        }
      case Width =>
        width := ReadInt(o, "width", 512);
      case Height =>
        height := ReadInt(o, "height", 512);
      case ShapeId =>
        shapeId := ReadInt(o, "shape_id", 512);
    }

    /** The block of a vector field: its default, then the components read from its key. */
    method LoadVector(f: Field, o: map<string, Json>) returns (thrown: bool)
      requires f in {Eye, Up, LookAt, RayOrg, RayDir}
      modifies this
      ensures Snapshot() == RunBlock(f, old(Snapshot()), o).config
      ensures thrown == RunBlock(f, old(Snapshot()), o).thrown
    {
      match f
      case Eye =>
        eye, thrown := ReadVector(o, "eye", DefaultEye);
      case Up =>
        up, thrown := ReadVector(o, "up", DefaultUp);
      case LookAt =>
        lookAt, thrown := ReadVector(o, "look_at", DefaultLookAt);
      case RayOrg =>
        rayOrg, thrown := ReadVector(o, "ray_org", DefaultRayOrg);
      case RayDir =>
        rayDir, thrown := ReadVector(o, "ray_dir", DefaultRayDir);
    }

    /** The fov block: 45, replaced by "fov" truncated when "fov" is present and the guard finds a
        number under "width". The guard's lookup `o["width"]` inserts a null value when the key is
        absent, so the object is returned as the blocks after it see it. */
    method LoadFov(o: map<string, Json>) returns (thrown: bool, o': map<string, Json>)
      modifies this
      ensures Snapshot() == RunBlock(Fov, old(Snapshot()), o).config
      ensures thrown == RunBlock(Fov, old(Snapshot()), o).thrown
      ensures o' == o || ("width" !in o && o' == o["width" := Null])
    {
      fov, o' := 45.0, o;
      if "fov" in o' {
        if "width" !in o' {
          o' := o'["width" := Null];
        }
        if o'["width"].Num? {
          if !o'["fov"].Num? {
            return true, o';
          }
          fov := TruncToInt(o'["fov"].n) as real;
        }
      }
      return false, o';
    }
  }

  /** One integer block: the default, replaced by the truncated number under `key` when the key
      is present and holds a number. */
  method ReadInt(o: map<string, Json>, key: string, default: int) returns (i: int)
    ensures i == IntOr(o, key, default)
  {
    i := default;
    if key in o {
      if o[key].Num? {
        i := TruncToInt(o[key].n);
      }
    }
  }

  /** One vector block: the default, then, when the key holds a three-element array,
      its elements are read in order with `get<double>()`, which throws at the first element that
      is not a number. Returns the vector the field holds afterwards and whether it threw. */
  method ReadVector(o: map<string, Json>, key: string, default: Float3) returns (v: Float3, thrown: bool)
    ensures thrown == VectorMismatch(o, key)
    ensures v == VectorAfter(o, key, default)
  {
    v := default;
    if key in o {
      if o[key].Arr? {
        var arr := o[key].items;
        if |arr| == 3 {
          if !arr[0].Num? {
            return v, true;
          }
          v := v[0 := arr[0].n];
          if !arr[1].Num? {
            return v, true;
          }
          v := v[1 := arr[1].n];
          if !arr[2].Num? {
            return v, true;
          }
          v := v[2 := arr[2].n];
        }
      }
    }
    return v, false;
  }

  /** The null the fov guard inserts under "width" changes nothing read after it: the blocks
      after the fov block end the same on the amended object as on the original one. */
  lemma {:induction false} NullWidthHarmless(o: map<string, Json>, o': map<string, Json>, f: Field, c: Config)
    requires o' == o || ("width" !in o && o' == o["width" := Null])
    requires Step(Fov) < Step(f)
    ensures RunFrom(f, c, o') == RunFrom(f, c, o)
    decreases 10 - Step(f)
  {
    assert RunBlock(f, c, o') == RunBlock(f, c, o);
    if f != RayDir {
      NullWidthHarmless(o, o', Following(f), RunBlock(f, c, o).config);
    }
  }

  // ---------------------------------------------------------------------------------------------
  // Properties

  /** The load stops in the block of a field that throws, and no earlier field throws. */
  lemma FirstThrowIsFirst(o: map<string, Json>)
    ensures FirstThrow(o).StopsAt? ==> Throws(o, FirstThrow(o).field)
    ensures forall f: Field | Throws(o, f) :: FirstThrow(o).StopsAt? && Step(FirstThrow(o).field) <= Step(f)
  {
  }

  /** A load fails exactly when the file cannot be opened or the parsed value is not an object. */
  lemma FailsExactlyWhen(src: Source)
    ensures LoadOutcome(src) == Returned(false) <==> src.Unopenable? || !src.value.Obj?
  {
  }

  /** A parse error string alone changes nothing: the outcome and the configuration depend only
      on the parsed value. */
  lemma ParseErrorIgnored(cfg: Config, v: Json, err: string)
    ensures LoadOutcome(Parsed(v, err)) == LoadOutcome(Parsed(v, ""))
    ensures LoadResult(cfg, Parsed(v, err)) == LoadResult(cfg, Parsed(v, ""))
  {
  }

  /** An empty object gives every default; the OBJ file name has none and keeps its value. */
  lemma EmptyObjectGivesDefaults(cfg: Config)
    ensures LoadOutcome(Parsed(Obj(map[]), "")) == Returned(true)
    ensures LoadResult(cfg, Parsed(Obj(map[]), ""))
         == Config(cfg.objFilename, 1.0, [0.0, 0.0, 5.0], [0.0, 1.0, 0.0], [0.0, 0.0, 0.0], 45.0, 512, 512, 512,
                   [0.0, 0.0, 100.0], [0.0, 0.0, -1.0])
  {
    assert FirstThrow(map[]) == Completes;
  }

  /** A load ends in an exception exactly when some field's read throws, and then in the block of
      the first such field; otherwise an object always loads with true. */
  lemma RaisesExactlyWhen(v: Json, err: string)
    requires v.Obj?
    ensures LoadOutcome(Parsed(v, err)).Raised? <==> exists f: Field :: Throws(v.members, f)
    ensures LoadOutcome(Parsed(v, err)) != Returned(false)
  {
    FirstThrowIsFirst(v.members);
  }

  /** The fov quirk: "fov" is read only when the value under "width" is a number. With a numeric
      "width", a numeric "fov" is stored truncated; without one, fov stays 45 whatever "fov" holds. */
  lemma FovGuardedByWidth(cfg: Config, o: map<string, Json>)
    ensures !IsNumber(o, "width") ==> Loaded(cfg, o).fov == 45.0
    ensures IsNumber(o, "width") && IsNumber(o, "fov") ==> Loaded(cfg, o).fov == TruncToInt(o["fov"].n) as real
    ensures IsNumber(o, "width") && "fov" in o && !o["fov"].Num? ==> Throws(o, Fov)
  {
  }

  /** A configuration with only a fov keeps the default fov of 45. */
  lemma FovAloneIsIgnored(cfg: Config)
    ensures LoadResult(cfg, Parsed(Obj(map["fov" := Num(60.0)]), "")).fov == 45.0
  {
    var o := map["fov" := Num(60.0)];
    assert FirstThrow(o) == Completes;
  }

  /** A scalar field is overwritten only from its own key holding a number; width, height and
      shape_id are truncated toward zero. */
  lemma ScalarFields(cfg: Config, o: map<string, Json>)
    ensures Loaded(cfg, o).sceneScale == if IsNumber(o, "scene_scale") then o["scene_scale"].n else 1.0
    ensures Loaded(cfg, o).width == if IsNumber(o, "width") then TruncToInt(o["width"].n) else 512
    ensures Loaded(cfg, o).height == if IsNumber(o, "height") then TruncToInt(o["height"].n) else 512
    ensures Loaded(cfg, o).shapeId == if IsNumber(o, "shape_id") then TruncToInt(o["shape_id"].n) else 512
  {
  }

  /** Changing the value under one key changes no field read from another key (fov also reads
      "width"), and the OBJ file name is never reset. */
  lemma FieldsIndependent(cfg: Config, o: map<string, Json>, k: string, j: Json)
    ensures var a, b := Loaded(cfg, o), Loaded(cfg, o[k := j]);
      && (k != "obj_filename" ==> b.objFilename == a.objFilename)
      && (k != "scene_scale" ==> b.sceneScale == a.sceneScale)
      && (k != "eye" ==> b.eye == a.eye)
      && (k != "up" ==> b.up == a.up)
      && (k != "look_at" ==> b.lookAt == a.lookAt)
      && (k != "fov" && k != "width" ==> b.fov == a.fov)
      && (k != "width" ==> b.width == a.width)
      && (k != "height" ==> b.height == a.height)
      && (k != "shape_id" ==> b.shapeId == a.shapeId)
      && (k != "ray_org" ==> b.rayOrg == a.rayOrg)
      && (k != "ray_dir" ==> b.rayDir == a.rayDir)
  {
    var o' := o[k := j];
    forall key | key != k
      ensures (key in o') == (key in o) && (key in o ==> o'[key] == o[key])
    {
    }
  }

  /** A vector field is replaced only by a three-element array of numbers, component by
      component; the OBJ file name only by a string. */
  lemma VectorAndNameFields(cfg: Config, o: map<string, Json>)
    ensures IsTriple(o, "eye") && !VectorMismatch(o, "eye") ==>
              Loaded(cfg, o).eye == [o["eye"].items[0].n, o["eye"].items[1].n, o["eye"].items[2].n]
    ensures !IsTriple(o, "eye") ==> Loaded(cfg, o).eye == [0.0, 0.0, 5.0]
    ensures !IsTriple(o, "ray_dir") ==> Loaded(cfg, o).rayDir == [0.0, 0.0, -1.0]
    ensures "obj_filename" in o && o["obj_filename"].Str? ==> Loaded(cfg, o).objFilename == o["obj_filename"].s
    ensures !("obj_filename" in o && o["obj_filename"].Str?) ==> Loaded(cfg, o).objFilename == cfg.objFilename
  {
    if IsTriple(o, "eye") && !VectorMismatch(o, "eye") {
      var e := Loaded(cfg, o).eye;
      assert e[0] == o["eye"].items[0].n && e[1] == o["eye"].items[1].n && e[2] == o["eye"].items[2].n;
    }
  }
}
