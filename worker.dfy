/**
 * The worker side of the multithreaded mode: a dispatcher on the intent of
 * each request, the scene setup that builds the worker's own baker, the mesh
 * job that selects one mesh and runs the baker, and the listeners that turn
 * the baker's callbacks into messages to the main thread.
 */
module Worker {
  import opened Common
  import opened Config
  import opened BakingSetup

  /** `task.intent` of a request: "Setup", "Mesh", "Face" or anything else. */
  datatype Intent = SetupIntent | MeshIntent | FaceIntent | OtherIntent(name: string)

  /**
   * A request from the pool: the task (intent and mesh uuid), the worker id
   * and, for a setup, the scene and the configuration as received.
   */
  datatype Request = Request(intent: Intent, uuid: string, workerId: int, scene: seq<Node>, bakingConfig: ConfigInput)

  /** What the worker posts: Finished, or a baked mesh's result. */
  datatype Message =
    | FinishedMessage(workerId: int)
    | ResultMessage(texBuf: seq<Byte>, uvLightmap: Option<nat>, workerId: int, meshUUID: string, intent: Intent)

  /** The configuration `sceneSetup` hands to the baker: the received one with three fields overridden. */
  function WorkerInput(input: ConfigInput, workerId: int): ConfigInput
  {
    input.(appMode := Some(SingleThreaded), specificMeshBaking := Some(Enabled), workerId := Some(workerId))
  }

  /**
   * The worker's baker runs single-threaded, keeps the mesh choice of a mesh
   * job (ENABLED) and knows its worker id; every other field is as parsed
   * from the received configuration, up to the pass count that validation
   * pins for path tracing. It never has a `workerTaskMode`.
   */
  lemma SceneSetupOverrides(input: ConfigInput, workerId: int, hardwareConcurrency: int, env: Environment)
    ensures var r := Construct(WorkerInput(input, workerId), hardwareConcurrency, env);
            var p := Parse(input, DefaultConfig(hardwareConcurrency));
            r.Ok? ==>
              r.value.appMode == SingleThreaded && r.value.specificMeshBaking == Enabled &&
              r.value.workerId == workerId && r.value.workerTaskMode.None? &&
              r.value.(appMode := p.appMode, specificMeshBaking := p.specificMeshBaking, workerId := p.workerId,
                       twoPassPassCount := p.twoPassPassCount) == p
    ensures Construct(WorkerInput(input, workerId), hardwareConcurrency, env).Ok? <==>
              !(Parse(input, DefaultConfig(hardwareConcurrency)).raycasterImplementation == Octree && !env.hasOctree) &&
              !(Parse(input, DefaultConfig(hardwareConcurrency)).uvMethod == Packed && !env.hasGrowingPacker) &&
              !(Parse(input, DefaultConfig(hardwareConcurrency)).bakingMethod == TwoPass &&
                (Parse(input, DefaultConfig(hardwareConcurrency)).twoPassPassCount < 0 ||
                 Parse(input, DefaultConfig(hardwareConcurrency)).twoPassPassCount > 2))
  {
  }

  /** `n` copies of `x`. */
  function Repeat<T>(x: T, n: nat): (r: seq<T>)
    ensures |r| == n && forall i :: 0 <= i < n ==> r[i] == x
  {
    if n == 0 then [] else Repeat(x, n - 1) + [x]
  }

  /** `ownPostMessage(mesh)`: the six fields of a result message. */
  function ResultOf(m: Mesh, workerId: int, intent: Intent, lightMapData: string -> seq<Byte>): Message
    reads m
  {
    ResultMessage(lightMapData(m.uuid), m.lightmapUvs, workerId, m.uuid, intent)
  }

  /** The messages of the filter listeners: for each mesh in order, one result per registered listener. */
  function FilterResults(ms: seq<Mesh>, copies: nat, workerId: int, intent: Intent, lightMapData: string -> seq<Byte>): seq<Message>
    reads set m | m in ms
  {
    if ms == [] then []
    else
      FilterResults(ms[..|ms| - 1], copies, workerId, intent, lightMapData) +
      Repeat(ResultOf(ms[|ms| - 1], workerId, intent, lightMapData), copies)
  }

  /** Every filter message is a result about one of the meshes, and there are `copies` of them per mesh. */
  lemma {:induction false} FilterResultsShape(ms: seq<Mesh>, copies: nat, workerId: int, intent: Intent, lightMapData: string -> seq<Byte>)
    ensures var r := FilterResults(ms, copies, workerId, intent, lightMapData);
            |r| == |ms| * copies &&
            forall k :: 0 <= k < |r| ==>
              r[k].ResultMessage? && r[k].workerId == workerId && r[k].intent == intent &&
              exists m :: m in ms && r[k].meshUUID == m.uuid
    decreases |ms|
  {
    if ms != [] {
      var init, m := ms[..|ms| - 1], ms[|ms| - 1];
      FilterResultsShape(init, copies, workerId, intent, lightMapData);
      var r := FilterResults(ms, copies, workerId, intent, lightMapData);
      var a := FilterResults(init, copies, workerId, intent, lightMapData);
      assert r == a + Repeat(ResultOf(m, workerId, intent, lightMapData), copies);
      assert |ms| * copies == |init| * copies + copies;
      forall k | 0 <= k < |r|
        ensures r[k].ResultMessage? && r[k].workerId == workerId && r[k].intent == intent &&
                exists m' :: m' in ms && r[k].meshUUID == m'.uuid
      {
        if k < |a| {
          var m' :| m' in init && a[k].meshUUID == m'.uuid;
          assert m' in ms;
        } else {
          assert r[k] == ResultOf(m, workerId, intent, lightMapData);
          assert m in ms;
        }
      }
    }
  }

  /** `meshTask`'s assignment for one mesh: `bakeMe` becomes whether its uuid is the task's. */
  function Selected(s: MeshState, meshUUID: string, uuid: string): Option<MeshState>
  {
    if s.baking.None? then None
    else Some(s.(baking := Some(s.baking.value.(bakeMe := Some(meshUUID == uuid)))))
  }

  /** One mesh of `meshTask`: `false` when `userData.baking` is undefined (the assignment throws). */
  method SelectMesh(m: Mesh, uuid: string) returns (ok: bool)
    modifies m
    ensures ok <==> Selected(old(m.State()), m.uuid, uuid).Some?
    ensures ok ==> m.State() == Selected(old(m.State()), m.uuid, uuid).value
    ensures !ok ==> m.State() == old(m.State())
  {
    if m.baking.None? {
      return false;
    }
    m.baking := Some(m.baking.value.(bakeMe := Some(m.uuid == uuid)));
    return true;
  }

  /** The meshes of the first `k` nodes are selected from their states `before`, the others untouched. */
  ghost predicate SelectionProgress(scene: seq<Node>, before: seq<MeshState>, uuid: string, k: nat)
    requires |before| == |scene| && k <= |scene|
    reads MeshesOf(scene)
  {
    (forall i :: 0 <= i < k && scene[i].MeshNode? ==>
       Selected(before[i], scene[i].mesh.uuid, uuid).Some? &&
       scene[i].mesh.State() == Selected(before[i], scene[i].mesh.uuid, uuid).value) &&
    (forall i :: k <= i < |scene| && scene[i].MeshNode? ==> scene[i].mesh.State() == before[i])
  }

  /**
   * After `meshTask` and the setup with ENABLED on a worker, only the task's
   * mesh can be on the bake list.
   */
  lemma {:induction false} OnlyTaskMeshBaked(cfg: Config, scene: seq<Node>, selected: seq<MeshState>, uuid: string)
    requires cfg.specificMeshBaking == Enabled && cfg.workerId >= 0 && |selected| == |scene|
    requires forall i :: 0 <= i < |scene| && scene[i].MeshNode? ==>
               selected[i].baking.Some? && selected[i].baking.value.bakeMe == Some(scene[i].mesh.uuid == uuid) &&
               SetupMesh(cfg, selected[i]).Some? && scene[i].mesh.State() == SetupMesh(cfg, selected[i]).value
    ensures forall m :: m in BakeList(scene) ==> m.uuid == uuid
  {
    forall m | m in BakeList(scene)
      ensures m.uuid == uuid
    {
      var i := BakeListIndex(scene, m);
      BakeMeRule(cfg, selected[i]);
    }
  }

  /** A mesh the setup can bake at all: its geometry has faces and its material is Basic, Phong or Lambert. */
  predicate CanBake(m: Mesh)
  {
    ReadyForLightmapUv(m.faceCount) && m.material != OtherMaterial
  }

  /**
   * After `meshTask` and the setup with ENABLED on a worker, the task's
   * mesh is on the bake list whenever it can be baked at all.
   */
  lemma {:induction false} TaskMeshBaked(cfg: Config, scene: seq<Node>, selected: seq<MeshState>, uuid: string)
    requires cfg.specificMeshBaking == Enabled && cfg.workerId >= 0 && |selected| == |scene|
    requires forall i :: 0 <= i < |scene| && scene[i].MeshNode? ==>
               selected[i].baking.Some? && selected[i].baking.value.bakeMe == Some(scene[i].mesh.uuid == uuid) &&
               SetupMesh(cfg, selected[i]).Some? && scene[i].mesh.State() == SetupMesh(cfg, selected[i]).value
    ensures forall i :: 0 <= i < |scene| && scene[i].MeshNode? && scene[i].mesh.uuid == uuid && CanBake(scene[i].mesh) ==>
              scene[i].mesh in BakeList(scene)
  {
    BakeListMembers(scene);
    forall i | 0 <= i < |scene| && scene[i].MeshNode? && scene[i].mesh.uuid == uuid && CanBake(scene[i].mesh)
      ensures scene[i].mesh in BakeList(scene)
    {
      var m := scene[i].mesh;
      assert selected[i].faceCount == m.faceCount && selected[i].material == m.material;
      EnabledKeepsChoice(cfg, selected[i], true);
      assert scene[i] == MeshNode(m) && m.baking.Some? && Truthy(m.baking.value.bakeMe);
    }
  }

  /** The worker: `workerCtx` and the baker `sceneSetup` created in it. */
  class Context {
    const hardwareConcurrency: int
    const env: Environment
    /** The baker's configuration record; absent while `lightBaking` is undefined. */
    var lightBaking: Option<Config>
    /** The baker's bake list and list to intersect. */
    var lists: BakingSetup.Setup
    var sceneRef: seq<Node>
    var intent: Intent
    var workerId: int
    /** Registrations in `__onFilterOnMeshApplied`, which `bakingSetup` does not reset. */
    var filterListeners: nat
    /** Registrations in `__afterExecuted`, which `bakingSetup` resets. */
    var afterExecutedListeners: nat
    /** The messages posted to the main thread, oldest first. */
    var outbox: seq<Message>

    /**
     * The baker, once built, runs single-threaded with ENABLED and has no
     * `workerTaskMode`, so `setListener` never registers `ownPostMessage`
     * for `__onMeshBaked`.
     */
    ghost predicate Valid()
      reads this
    {
      DistinctMeshes(sceneRef) &&
      (lightBaking.Some? ==>
         lightBaking.value.appMode == SingleThreaded && lightBaking.value.specificMeshBaking == Enabled &&
         lightBaking.value.workerTaskMode.None?)
    }

    constructor (hardwareConcurrency: int, env: Environment)
      ensures Valid() && this.hardwareConcurrency == hardwareConcurrency && this.env == env
      ensures lightBaking.None? && sceneRef == [] && outbox == [] && filterListeners == 0
    {
      this.hardwareConcurrency := hardwareConcurrency;
      this.env := env;
      lightBaking := None;
      lists := new BakingSetup.Setup();
      sceneRef := [];
      intent := OtherIntent("");
      workerId := -1;
      filterListeners, afterExecutedListeners := 0, 0;
      outbox := [];
    }

    /**
     * `sceneSetup`: keeps the received scene and builds a new baker from the
     * received configuration with the three overrides. `false` when the
     * constructor refuses it (the following `lightBaking.log` throws).
     * Nothing is posted, and the listener lists, which live outside the
     * baker, keep the registrations of earlier bakers.
     */
    method SceneSetup(req: Request) returns (ok: bool)
      requires Valid() && DistinctMeshes(req.scene)
      modifies this
      ensures Valid() && sceneRef == req.scene && outbox == old(outbox)
      ensures lightBaking == (var r := Construct(WorkerInput(req.bakingConfig, req.workerId), hardwareConcurrency, env);
                              if r.Ok? then Some(r.value) else None)
      ensures ok <==> lightBaking.Some?
      ensures filterListeners == old(filterListeners) && afterExecutedListeners == old(afterExecutedListeners)
      ensures intent == old(intent) && workerId == old(workerId)
    {
      sceneRef := req.scene;
      var r := Construct(WorkerInput(req.bakingConfig, req.workerId), hardwareConcurrency, env);
      SceneSetupOverrides(req.bakingConfig, req.workerId, hardwareConcurrency, env);
      lightBaking := if r.Ok? then Some(r.value) else None;
      lists := new BakingSetup.Setup();
      ok := r.Ok?;
    }

    /**
     * `meshTask`'s traversal: every mesh's `bakeMe` becomes whether it is
     * the task's mesh. `false` when a mesh has no `userData.baking`.
     */
    method MeshTask(uuid: string) returns (ok: bool, ghost before: seq<MeshState>)
      requires Valid()
      modifies MeshesOf(sceneRef)
      ensures |before| == |sceneRef|
      ensures forall i :: 0 <= i < |sceneRef| && sceneRef[i].MeshNode? ==> before[i] == old(sceneRef[i].mesh.State())
      ensures ok ==> SelectionProgress(sceneRef, before, uuid, |sceneRef|)
      ensures ok <==> forall i :: 0 <= i < |sceneRef| && sceneRef[i].MeshNode? ==> before[i].baking.Some?
    {
      var scene := sceneRef;
      before := seq(|scene|, i requires 0 <= i < |scene| reads MeshesOf(scene) =>
                       if scene[i].MeshNode? then scene[i].mesh.State() else MeshState(OtherMaterial, None, None, None));
      var k := 0;
      while k < |scene|
        invariant 0 <= k <= |scene|
        invariant forall i :: 0 <= i < |scene| && scene[i].MeshNode? ==> before[i] == old(scene[i].mesh.State())
        invariant SelectionProgress(scene, before, uuid, k)
      {
        if scene[k].MeshNode? {
          var m := scene[k].mesh;
          assert forall i :: 0 <= i < |scene| && i != k && scene[i].MeshNode? ==> scene[i].mesh != m;
          ok := SelectMesh(m, uuid);
          if !ok {
            return;
          }
        }
        k := k + 1;
      }
      ok := true;
    }

    /** `__afterExecuted.forEach(f => f())`: each registration posts Finished. */
    method PostFinished()
      modifies this`outbox
      ensures outbox == old(outbox) + Repeat(FinishedMessage(workerId), afterExecutedListeners)
    {
      var out := outbox;
      var i := 0;
      while i < afterExecutedListeners
        invariant 0 <= i <= afterExecutedListeners
        invariant out == old(outbox) + Repeat(FinishedMessage(workerId), i)
      {
        out := out + [FinishedMessage(workerId)];
        i := i + 1;
      }
      outbox := out;
    }

    /**
     * `applyPostProcessing`'s listener calls: for each mesh of the bake
     * list, every registration in `__onFilterOnMeshApplied` posts its result.
     */
    method PostFilterResults(lightMapData: string -> seq<Byte>)
      modifies this`outbox
      ensures outbox == old(outbox) + FilterResults(lists.sceneObjectsToBake, filterListeners, workerId, intent, lightMapData)
    {
      var ms := lists.sceneObjectsToBake;
      var out := outbox;
      var i := 0;
      while i < |ms|
        invariant 0 <= i <= |ms|
        invariant out == old(outbox) + FilterResults(ms[..i], filterListeners, workerId, intent, lightMapData)
      {
        var msg := ResultOf(ms[i], workerId, intent, lightMapData);
        var j := 0;
        while j < filterListeners
          invariant 0 <= j <= filterListeners
          invariant out == old(outbox) + FilterResults(ms[..i], filterListeners, workerId, intent, lightMapData) + Repeat(msg, j)
        {
          out := out + [msg];
          j := j + 1;
        }
        assert ms[..i + 1][..i] == ms[..i];
        i := i + 1;
      }
      assert ms[..|ms|] == ms;
      outbox := out;
    }

    /**
     * `setListener`: one Finished poster joins `__afterExecuted` and, when
     * a filter is set, one result poster joins `__onFilterOnMeshApplied`.
     * The record has no `workerTaskMode`, so nothing joins `__onMeshBaked`.
     */
    method SetListener(cfg: Config)
      modifies this`afterExecutedListeners, this`filterListeners
      ensures afterExecutedListeners == old(afterExecutedListeners) + 1
      ensures filterListeners == old(filterListeners) + (if cfg.postProcessingFilter != NoFilter then 1 else 0)
    {
      afterExecutedListeners := afterExecutedListeners + 1;
      if cfg.postProcessingFilter != NoFilter {
        filterListeners := filterListeners + 1;
      }
    }

    /**
     * `executed` on the worker: `applyPostProcessing` when a filter is set
     * (the worker's baker is never multithreaded), then the
     * `__afterExecuted` callbacks.
     */
    method Executed(cfg: Config, lightMapData: string -> seq<Byte>)
      requires cfg.appMode == SingleThreaded
      modifies this`outbox
      ensures outbox == old(outbox) +
                (if cfg.postProcessingFilter != NoFilter
                 then FilterResults(lists.sceneObjectsToBake, filterListeners, workerId, intent, lightMapData) else []) +
                Repeat(FinishedMessage(workerId), afterExecutedListeners)
    {
      if cfg.postProcessingFilter != NoFilter && cfg.appMode != MultiThreaded {
        PostFilterResults(lightMapData);
      }
      PostFinished();
    }

    /**
     * `lightBaking.run(() => setListener(...))` on the worker: the setup,
     * the listener registrations, the baking (whose images are outside the
     * model) and `executed`, which filters and then posts Finished.
     */
    method Run(lightMapData: string -> seq<Byte>) returns (ok: bool)
      requires Valid() && lightBaking.Some?
      modifies this, lists, MeshesOf(sceneRef)
      ensures Valid() && sceneRef == old(sceneRef) && lightBaking == old(lightBaking) && lists == old(lists)
      ensures intent == old(intent) && workerId == old(workerId)
      ensures afterExecutedListeners == (if ok then 1 else 0)
      ensures var filtering := lightBaking.value.postProcessingFilter != NoFilter;
              filterListeners == old(filterListeners) + (if ok && filtering then 1 else 0) &&
              (ok ==> outbox == old(outbox) +
                        (if filtering then FilterResults(lists.sceneObjectsToBake, filterListeners, workerId, intent, lightMapData) else []) +
                        [FinishedMessage(workerId)])
      ensures !ok ==> outbox == old(outbox)
      ensures ok <==> forall i :: 0 <= i < |sceneRef| && sceneRef[i].MeshNode? ==>
                        SetupMesh(lightBaking.value, old(sceneRef[i].mesh.State())).Some?
      ensures ok ==> forall i :: 0 <= i < |sceneRef| && sceneRef[i].MeshNode? ==>
                       sceneRef[i].mesh.State() == SetupMesh(lightBaking.value, old(sceneRef[i].mesh.State())).value
      ensures ok ==> lists.sceneObjectsToBake == BakeList(sceneRef)
    {
      var cfg := lightBaking.value;
      afterExecutedListeners := 0;
      ghost var before, failedAt;
      ok, before, failedAt := lists.BakingSetup(cfg, sceneRef);
      if !ok {
        return;
      }
      Bake(cfg, lightMapData);
    }

    /** What follows a successful setup: the registrations, then `executed`. */
    method Bake(cfg: Config, lightMapData: string -> seq<Byte>)
      requires cfg.appMode == SingleThreaded && afterExecutedListeners == 0
      modifies this`afterExecutedListeners, this`filterListeners, this`outbox
      ensures afterExecutedListeners == 1
      ensures var filtering := cfg.postProcessingFilter != NoFilter;
              filterListeners == old(filterListeners) + (if filtering then 1 else 0) &&
              outbox == old(outbox) +
                (if filtering then FilterResults(lists.sceneObjectsToBake, filterListeners, workerId, intent, lightMapData) else []) +
                [FinishedMessage(workerId)]
    {
      SetListener(cfg);
      assert Repeat(FinishedMessage(workerId), 1) == [FinishedMessage(workerId)];
      Executed(cfg, lightMapData);
    }

    /**
     * A "Mesh" request: `setWorkerId`, `incWorkerTaskId`, then `meshTask`,
     * which selects the task's mesh and runs the baker. The job posts the
     * filter results of the bake list, one per mesh and registration, and
     * then exactly one Finished; the bake list holds at most the task's mesh.
     */
    method MeshJob(req: Request, lightMapData: string -> seq<Byte>) returns (ok: bool)
      requires Valid() && lightBaking.Some? && req.intent == MeshIntent && intent == MeshIntent && workerId == req.workerId
      modifies this, lists, MeshesOf(sceneRef)
      ensures Valid() && sceneRef == old(sceneRef) && intent == old(intent) && workerId == old(workerId)
      ensures lightBaking == Some(old(lightBaking).value.(workerId := req.workerId,
                                                          workerTaskId := IncTaskCounter(old(lightBaking).value.workerTaskId)))
      ensures !ok ==> outbox == old(outbox)
      ensures ok ==>
                outbox == old(outbox) +
                  (if lightBaking.value.postProcessingFilter != NoFilter
                   then FilterResults(lists.sceneObjectsToBake, filterListeners, req.workerId, MeshIntent, lightMapData) else []) +
                  [FinishedMessage(req.workerId)] &&
                filterListeners == old(filterListeners) + (if lightBaking.value.postProcessingFilter != NoFilter then 1 else 0) &&
                (req.workerId >= 0 ==> forall m :: m in lists.sceneObjectsToBake ==> m.uuid == req.uuid) &&
                (req.workerId >= 0 ==>
                   forall i :: 0 <= i < |sceneRef| && sceneRef[i].MeshNode? && sceneRef[i].mesh.uuid == req.uuid && CanBake(sceneRef[i].mesh) ==>
                     sceneRef[i].mesh in lists.sceneObjectsToBake)
    {
      lightBaking := Some(lightBaking.value.(workerId := workerId, workerTaskId := IncTaskCounter(lightBaking.value.workerTaskId)));
      ghost var before;
      ok, before := MeshTask(req.uuid);
      if !ok {
        return;
      }
      ghost var scene := sceneRef;
      ghost var selected := seq(|scene|, i requires 0 <= i < |scene| reads MeshesOf(scene) =>
                                  if scene[i].MeshNode? then scene[i].mesh.State() else MeshState(OtherMaterial, None, None, None));
      ok := Run(lightMapData);
      if ok && workerId >= 0 {
        OnlyTaskMeshBaked(lightBaking.value, sceneRef, selected, req.uuid);
        TaskMeshBaked(lightBaking.value, sceneRef, selected, req.uuid);
      }
    }

    /**
     * `onMessage`: records the intent and worker id and dispatches. A mesh
     * or face job before any setup throws (`lightBaking` is undefined); a
     * face job only bumps the task counter; other intents do nothing.
     */
    method OnMessage(req: Request, lightMapData: string -> seq<Byte>) returns (ok: bool)
      requires Valid() && (req.intent == SetupIntent ==> DistinctMeshes(req.scene))
      modifies this, lists, MeshesOf(sceneRef)
      ensures Valid() && intent == req.intent && workerId == req.workerId
      ensures req.intent == SetupIntent ==>
                outbox == old(outbox) && sceneRef == req.scene && filterListeners == old(filterListeners)
      ensures req.intent == FaceIntent || req.intent.OtherIntent? ==>
                outbox == old(outbox) && sceneRef == old(sceneRef) && filterListeners == old(filterListeners) &&
                forall i :: 0 <= i < |sceneRef| && sceneRef[i].MeshNode? ==> sceneRef[i].mesh.State() == old(sceneRef[i].mesh.State())
      ensures (req.intent == MeshIntent || req.intent == FaceIntent) && old(lightBaking).Some? ==>
                lightBaking == Some(old(lightBaking).value.(workerId := req.workerId,
                                                             workerTaskId := IncTaskCounter(old(lightBaking).value.workerTaskId)))
      ensures (req.intent == MeshIntent || req.intent == FaceIntent) && old(lightBaking).None? ==> !ok && outbox == old(outbox)
      ensures req.intent == MeshIntent && old(lightBaking).Some? && ok ==>
                sceneRef == old(sceneRef) &&
                outbox == old(outbox) +
                  (if lightBaking.value.postProcessingFilter != NoFilter
                   then FilterResults(lists.sceneObjectsToBake, filterListeners, req.workerId, MeshIntent, lightMapData) else []) +
                  [FinishedMessage(req.workerId)] &&
                (req.workerId >= 0 ==> forall m :: m in lists.sceneObjectsToBake ==> m.uuid == req.uuid) &&
                (req.workerId >= 0 ==>
                   forall i :: 0 <= i < |sceneRef| && sceneRef[i].MeshNode? && sceneRef[i].mesh.uuid == req.uuid && CanBake(sceneRef[i].mesh) ==>
                     sceneRef[i].mesh in lists.sceneObjectsToBake)
      ensures req.intent == MeshIntent && !ok ==> outbox == old(outbox)
    {
      intent := req.intent;
      workerId := req.workerId;
      match req.intent {
        case SetupIntent =>
          ok := SceneSetup(req);
        case MeshIntent =>
          if lightBaking.None? {
            return false;
          }
          ok := MeshJob(req, lightMapData);
        case FaceIntent =>
          if lightBaking.None? {
            return false;
          }
          lightBaking := Some(lightBaking.value.(workerId := workerId, workerTaskId := IncTaskCounter(lightBaking.value.workerTaskId)));
          ok := true;
        case OtherIntent(_) =>
          ok := true;
      }
    }
  }
}
