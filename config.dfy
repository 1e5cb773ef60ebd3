/**
 * The configuration of a LightBaking instance: the enumerations, the
 * default record, `parse` (the field-by-field merge) and the checks the
 * constructor makes before it hands out an instance.
 */
module Config {
  import opened Common

  datatype Shading = Flat | Phong | FlatFast
  datatype IlluminationModel = Lambert
  /** `ApplicationExecutionEnum`. */
  datatype AppMode = SingleThreaded | Async | MultiThreaded
  datatype BakingMethod = TwoPass | PathTracing
  datatype UvMethod = UniformUncentered | UniformCentered | Packed
  /** `FilterEnum`: "noFilter", "boxFilter", "gaussFilter". */
  datatype Filter = NoFilter | BoxFilter | GaussFilter
  /** `WorkerTaskEnum`: the message intents "Mesh", "Face" and "Finished". */
  datatype WorkerTask = MeshTask | FaceTask | FinishedTask
  /** `SpecificMeshBakingEnum` and `SpecificRayCastingEnum` (-1, 0, 1). */
  datatype SpecificMode = Disabled | Enabled | Inverted
  /** `RayCasterEnum`. */
  datatype RayCaster = ThreeJs | Octree

  /**
   * The `workerTaskId` field: missing from a parsed record, a number, or
   * NaN once `undefined` has been incremented.
   */
  datatype TaskCounter = Absent | NotANumber | Count(n: int)

  /** `_config.workerTaskId++`. */
  function IncTaskCounter(t: TaskCounter): (r: TaskCounter)
    ensures t.Count? <==> r.Count?
    ensures t.Count? ==> r.n == t.n + 1
  {
    match t
    case Absent => NotANumber
    case NotANumber => NotANumber
    case Count(n) => Count(n + 1)
  }

  /** `(typeof v === "undefined") ? d : v`. */
  function Or<T>(v: Option<T>, d: T): T
  {
    if v.Some? then v.value else d
  }

  /** The configuration record: the result of `getDefaultConfig` or of `parse`. */
  datatype Config = Config(
    debugText: bool,
    debugLightmap: bool,
    debugVisual: bool,
    debugVisualMeshNbr: int,
    debugVisualProbabilityFilter: real,
    debugVisualIsSelectedMesh: bool,
    debugVisualRT: bool,
    debugColorizeUVOffset: bool,
    globalAmbient: real,
    giIntensity: real,
    textureWidth: int,
    textureHeight: int,
    shading: Shading,
    illuminationModel: IlluminationModel,
    uvMethod: UvMethod,
    packingOffset: real,
    uvSmoothing: real,
    bakingMethod: BakingMethod,
    asyncMeshDelay: int,
    twoPassPassCount: int,
    samples: int,
    pathTracingRecLevel: int,
    importanceValue: real,
    specificMeshBaking: SpecificMode,
    specificRayCasting: SpecificMode,
    raycasterImplementation: RayCaster,
    raycasterPrecision: real,
    softShadows: bool,
    softShadowSamples: int,
    softShadowIntensity: real,
    lightAttenuation: bool,
    postProcessingFilter: Filter,
    workerSource: string,
    workerLimit: int,
    workerId: int,
    workerTaskId: TaskCounter,
    workerTaskMode: Option<WorkerTask>,
    appMode: AppMode,
    resetUserData: bool
  )

  /** The user's parameter object: every field may be `undefined`. */
  datatype ConfigInput = ConfigInput(
    debugText: Option<bool>,
    debugLightmap: Option<bool>,
    debugVisual: Option<bool>,
    debugVisualMeshNbr: Option<int>,
    debugVisualProbabilityFilter: Option<real>,
    debugVisualIsSelectedMesh: Option<bool>,
    debugVisualRT: Option<bool>,
    debugColorizeUVOffset: Option<bool>,
    globalAmbient: Option<real>,
    giIntensity: Option<real>,
    textureWidth: Option<int>,
    textureHeight: Option<int>,
    shading: Option<Shading>,
    illuminationModel: Option<IlluminationModel>,
    uvMethod: Option<UvMethod>,
    packingOffset: Option<real>,
    uvSmoothing: Option<real>,
    bakingMethod: Option<BakingMethod>,
    asyncMeshDelay: Option<int>,
    twoPassPassCount: Option<int>,
    samples: Option<int>,
    pathTracingRecLevel: Option<int>,
    importanceValue: Option<real>,
    specificMeshBaking: Option<SpecificMode>,
    specificRayCasting: Option<SpecificMode>,
    raycasterImplementation: Option<RayCaster>,
    raycasterPrecision: Option<real>,
    softShadows: Option<bool>,
    softShadowSamples: Option<int>,
    softShadowIntensity: Option<real>,
    lightAttenuation: Option<bool>,
    postProcessingFilter: Option<Filter>,
    workerSource: Option<string>,
    workerLimit: Option<int>,
    workerId: Option<int>,
    workerTaskId: Option<int>,
    workerTaskMode: Option<WorkerTask>,
    appMode: Option<AppMode>,
    resetUserData: Option<bool>
  )

  /** A parameter object with every field `undefined`. */
  const EmptyInput: ConfigInput := ConfigInput(None, None, None, None, None, None, None, None, None, None, None, None, None, None, None, None, None, None, None, None, None, None, None, None, None, None, None, None, None, None, None, None, None, None, None, None, None, None, None)

  /** `getDefaultConfig`; `navigator.hardwareConcurrency` is a parameter. */
  function DefaultConfig(hardwareConcurrency: int): Config
  {
    Config(
      false,
      false,
      false,
      0,
      0.005,
      false,
      false,
      false,
      0.0,
      2.0,
      512,
      512,
      Phong,
      Lambert,
      Packed,
      2.0,
      0.2,
      PathTracing,
      0,
      2,
      1,
      0,
      1.0,
      Disabled,
      Disabled,
      ThreeJs,
      0.0001,
      true,
      1,
      1.0,
      false,
      NoFilter,
      "LightBakingWorker.js",
      hardwareConcurrency,
      -1,
      Count(0),
      Some(MeshTask),
      MultiThreaded,
      false
    )
  }

  /**
   * `parse`: every field takes the input's value when it is defined and the
   * default otherwise, except that a defined `importanceValue` becomes the
   * literal 1 and that `workerTaskMode` and `workerTaskId` are not copied at
   * all (the result has no such fields).
   */
  function Parse(input: ConfigInput, defVal: Config): (r: Config)
    ensures r.workerTaskMode.None? && r.workerTaskId == Absent
    ensures r.importanceValue == (if input.importanceValue.Some? then 1.0 else defVal.importanceValue)
  {
    Config(
      Or(input.debugText, defVal.debugText),
      Or(input.debugLightmap, defVal.debugLightmap),
      Or(input.debugVisual, defVal.debugVisual),
      Or(input.debugVisualMeshNbr, defVal.debugVisualMeshNbr),
      Or(input.debugVisualProbabilityFilter, defVal.debugVisualProbabilityFilter),
      Or(input.debugVisualIsSelectedMesh, defVal.debugVisualIsSelectedMesh),
      Or(input.debugVisualRT, defVal.debugVisualRT),
      Or(input.debugColorizeUVOffset, defVal.debugColorizeUVOffset),
      Or(input.globalAmbient, defVal.globalAmbient),
      Or(input.giIntensity, defVal.giIntensity),
      Or(input.textureWidth, defVal.textureWidth),
      Or(input.textureHeight, defVal.textureHeight),
      Or(input.shading, defVal.shading),
      Or(input.illuminationModel, defVal.illuminationModel),
      Or(input.uvMethod, defVal.uvMethod),
      Or(input.packingOffset, defVal.packingOffset),
      Or(input.uvSmoothing, defVal.uvSmoothing),
      Or(input.bakingMethod, defVal.bakingMethod),
      Or(input.asyncMeshDelay, defVal.asyncMeshDelay),
      Or(input.twoPassPassCount, defVal.twoPassPassCount),
      Or(input.samples, defVal.samples),
      Or(input.pathTracingRecLevel, defVal.pathTracingRecLevel),
      if input.importanceValue.Some? then 1.0 else defVal.importanceValue,
      Or(input.specificMeshBaking, defVal.specificMeshBaking),
      Or(input.specificRayCasting, defVal.specificRayCasting),
      Or(input.raycasterImplementation, defVal.raycasterImplementation),
      Or(input.raycasterPrecision, defVal.raycasterPrecision),
      Or(input.softShadows, defVal.softShadows),
      Or(input.softShadowSamples, defVal.softShadowSamples),
      Or(input.softShadowIntensity, defVal.softShadowIntensity),
      Or(input.lightAttenuation, defVal.lightAttenuation),
      Or(input.postProcessingFilter, defVal.postProcessingFilter),
      Or(input.workerSource, defVal.workerSource),
      Or(input.workerLimit, defVal.workerLimit),
      Or(input.workerId, defVal.workerId),
      Absent,
      None,
      Or(input.appMode, defVal.appMode),
      Or(input.resetUserData, defVal.resetUserData)
    )
  }

  /** The parameter object that `JSON.stringify` of a record yields after parsing back. */
  function AsInput(c: Config): ConfigInput
  {
    ConfigInput(
      Some(c.debugText),
      Some(c.debugLightmap),
      Some(c.debugVisual),
      Some(c.debugVisualMeshNbr),
      Some(c.debugVisualProbabilityFilter),
      Some(c.debugVisualIsSelectedMesh),
      Some(c.debugVisualRT),
      Some(c.debugColorizeUVOffset),
      Some(c.globalAmbient),
      Some(c.giIntensity),
      Some(c.textureWidth),
      Some(c.textureHeight),
      Some(c.shading),
      Some(c.illuminationModel),
      Some(c.uvMethod),
      Some(c.packingOffset),
      Some(c.uvSmoothing),
      Some(c.bakingMethod),
      Some(c.asyncMeshDelay),
      Some(c.twoPassPassCount),
      Some(c.samples),
      Some(c.pathTracingRecLevel),
      Some(c.importanceValue),
      Some(c.specificMeshBaking),
      Some(c.specificRayCasting),
      Some(c.raycasterImplementation),
      Some(c.raycasterPrecision),
      Some(c.softShadows),
      Some(c.softShadowSamples),
      Some(c.softShadowIntensity),
      Some(c.lightAttenuation),
      Some(c.postProcessingFilter),
      Some(c.workerSource),
      Some(c.workerLimit),
      Some(c.workerId),
      if c.workerTaskId.Count? then Some(c.workerTaskId.n) else None,
      c.workerTaskMode,
      Some(c.appMode),
      Some(c.resetUserData)
    )
  }

  /** Parsing a parameter object with no fields yields the defaults minus the two worker-task fields. */
  lemma ParseEmptyIsDefault(hardwareConcurrency: int)
    ensures Parse(EmptyInput, DefaultConfig(hardwareConcurrency))
            == DefaultConfig(hardwareConcurrency).(workerTaskMode := None, workerTaskId := Absent)
  {
  }

  /**
   * The worker round trip: a parsed record sent as JSON and parsed again
   * (against any defaults) comes back unchanged, except that its
   * `importanceValue` is now 1.
   */
  lemma ParseAsInputRoundTrip(c: Config, defVal: Config)
    requires c.workerTaskMode.None? && c.workerTaskId == Absent
    ensures Parse(AsInput(c), defVal) == c.(importanceValue := 1.0)
  {
  }

  /** Parsing twice is parsing once: the second pass only pins `importanceValue` to 1. */
  lemma ParseTwice(input: ConfigInput, d1: Config, d2: Config)
    ensures Parse(AsInput(Parse(input, d1)), d2) == Parse(input, d1).(importanceValue := 1.0)
  {
    ParseAsInputRoundTrip(Parse(input, d1), d2);
  }

  /** Why the constructor refuses a configuration (it alerts, and the object it returns is unusable). */
  datatype ConfigError =
    | NoWorkerSupport
    | NoOctree
    | NoGrowingPacker
    | TwoPassMultiThreaded
    | PassCountOutOfRange

  datatype Result<T, E> = Ok(value: T) | Err(error: E)

  /** What the constructor finds in the global scope. */
  datatype Environment = Environment(hasWorker: bool, hasOctree: bool, hasGrowingPacker: bool)

  /**
   * The checks of the `THREE.LightBaking` constructor on the parsed
   * record, in the source's order: multithreading needs `Worker`, the
   * octree caster needs `THREE.Octree`, packed UVs need `GrowingPacker`,
   * two-pass baking refuses multithreading and a pass count outside 0..2;
   * path tracing then forces the pass count to 1.
   */
  function Validate(c: Config, env: Environment): (r: Result<Config, ConfigError>)
    ensures r.Ok? <==>
              !(c.appMode == MultiThreaded && !env.hasWorker) &&
              !(c.raycasterImplementation == Octree && !env.hasOctree) &&
              !(c.uvMethod == Packed && !env.hasGrowingPacker) &&
              !(c.bakingMethod == TwoPass && (c.appMode == MultiThreaded || c.twoPassPassCount < 0 || c.twoPassPassCount > 2))
    ensures r.Ok? ==> r.value == PassCountFixed(c) && 0 <= r.value.twoPassPassCount <= 2
    ensures r == Err(NoWorkerSupport) <==> c.appMode == MultiThreaded && !env.hasWorker
  {
    if c.appMode == MultiThreaded && !env.hasWorker then Err(NoWorkerSupport)
    else if c.raycasterImplementation == Octree && !env.hasOctree then Err(NoOctree)
    else if c.uvMethod == Packed && !env.hasGrowingPacker then Err(NoGrowingPacker)
    else if c.bakingMethod == TwoPass && c.appMode == MultiThreaded then Err(TwoPassMultiThreaded)
    else if c.bakingMethod == TwoPass && (c.twoPassPassCount < 0 || c.twoPassPassCount > 2) then Err(PassCountOutOfRange)
    else Ok(PassCountFixed(c))
  }

  /**
   * The record an accepted configuration becomes: path tracing forces the
   * pass count to 1, and nothing else changes.
   */
  function PassCountFixed(c: Config): (r: Config)
    ensures c.bakingMethod == PathTracing ==> r.twoPassPassCount == 1
    ensures c.bakingMethod == TwoPass ==> r == c
    ensures r.(twoPassPassCount := c.twoPassPassCount) == c
  {
    if c.bakingMethod == PathTracing then c.(twoPassPassCount := 1) else c
  }

  /** `new THREE.LightBaking(parameters)`: parse against the defaults, then validate. */
  function Construct(parameters: ConfigInput, hardwareConcurrency: int, env: Environment): (r: Result<Config, ConfigError>)
    ensures r.Ok? ==> r.value.workerTaskMode.None? && r.value.workerTaskId == Absent
  {
    Validate(Parse(parameters, DefaultConfig(hardwareConcurrency)), env)
  }

  /** Path tracing combined with multithreading is accepted when workers exist. */
  lemma PathTracingMultiThreadedAccepted(parameters: ConfigInput, hardwareConcurrency: int, env: Environment)
    requires parameters == EmptyInput.(bakingMethod := Some(PathTracing), appMode := Some(MultiThreaded))
    requires env.hasWorker && env.hasGrowingPacker
    ensures Construct(parameters, hardwareConcurrency, env).Ok?
  {
  }

  /** With the default settings only a missing `Worker` or `GrowingPacker` stops the constructor. */
  lemma DefaultsNeedWorkerAndPacker(hardwareConcurrency: int, env: Environment)
    ensures Construct(EmptyInput, hardwareConcurrency, env).Ok? <==> env.hasWorker && env.hasGrowingPacker
  {
  }
}
