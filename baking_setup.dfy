/**
 * `bakingSetup`: the traversal that prepares every mesh of the scene for
 * baking. It decides, mesh by mesh, whether the mesh is baked (`bakeMe`)
 * and whether the ray caster sees it (`intersectMe`), fills in the texture
 * size and the face range defaults and collects the bake list, the list of
 * meshes to intersect and the lights.
 */
module BakingSetup {
  import opened Common
  import opened Config

  /** The material classes the setup distinguishes. */
  datatype Material = BasicMaterial | PhongMaterial | LambertMaterial | OtherMaterial

  /** The fields of `mesh.userData.baking` the setup reads and writes; each may be `undefined`. */
  datatype Baking = Baking(
    bakeMe: Option<bool>,
    intersectMe: Option<bool>,
    textureWidth: Option<int>,
    textureHeight: Option<int>,
    faceBeginOffset: Option<int>,
    faceEndOffset: Option<int>)

  /** `mesh.userData.baking = {}`. */
  const EmptyBaking: Baking := Baking(None, None, None, None, None, None)

  /**
   * What the setup sees of a mesh: its material, `geometry.faces.length`
   * (absent when the geometry has no faces array), the length of the
   * lightmap UV layer `geometry.faceVertexUvs[1]` (absent when undefined)
   * and `userData.baking`.
   */
  datatype MeshState = MeshState(material: Material, faceCount: Option<nat>, lightmapUvs: Option<nat>, baking: Option<Baking>)

  /** JavaScript truthiness of a flag that may be `undefined`. */
  predicate Truthy(v: Option<bool>)
  {
    v == Some(true)
  }

  /**
   * The tri-state switch of `specificMeshBaking` and `specificRayCasting`:
   * DISABLED selects every mesh, ENABLED keeps the mesh's own flag (false when
   * unset), INVERTED negates it (true when unset).
   */
  function ApplySpecific(mode: SpecificMode, v: Option<bool>): (r: Option<bool>)
    ensures r.Some?
  {
    match mode
    case Disabled => Some(true)
    case Enabled => if v.None? then Some(false) else v
    case Inverted => if v.None? then Some(true) else Some(!v.value)
  }

  /** `isReadyToCreateFaceVertexLightMapUv`: the geometry has a non-empty faces array. */
  predicate ReadyForLightmapUv(faceCount: Option<nat>)
  {
    faceCount.Some? && faceCount.value != 0
  }

  /** `bakeMe && material instanceof Basic || material instanceof Phong || material instanceof Lambert`. */
  predicate MaterialBranch(bakeMe: Option<bool>, material: Material)
  {
    (Truthy(bakeMe) && material == BasicMaterial) || material == PhongMaterial || material == LambertMaterial
  }

  /**
   * Whether `createFaceVertexLightMapUv` lays out a new lightmap UV layer:
   * outside multithreaded mode, for a mesh to bake or under path tracing with
   * Phong shading, when the layer is still undefined.
   */
  predicate CreatesLightmapUvs(cfg: Config, bakeMe: Option<bool>, lightmapUvs: Option<nat>)
  {
    cfg.appMode != MultiThreaded &&
    (Truthy(bakeMe) || (cfg.bakingMethod == PathTracing && cfg.shading == Phong)) &&
    lightmapUvs.None?
  }

  /** The record the traversal starts from: a fresh `{}` when unset or when a main-thread reset is asked for. */
  function StartRecord(cfg: Config, baking: Option<Baking>): Baking
  {
    if baking.None? || (cfg.workerId == -1 && cfg.resetUserData) then EmptyBaking else baking.value
  }

  /**
   * The `faceEndOffset` rules: unset becomes the UV layer's length (-1 without
   * one); in a worker MESH task an offset of -1 of a mesh to bake becomes the
   * length (`None` when the layer is undefined: reading its `length` throws);
   * on the main thread an offset past the layer's end is clamped to it.
   */
  function FaceEndOffset(cfg: Config, b: Baking, lightmapUvs: Option<nat>): Option<Option<int>>
  {
    if b.faceEndOffset.None? then Some(Some(if lightmapUvs.Some? then lightmapUvs.value as int else -1))
    else if cfg.workerId > -1 then
      if cfg.workerTaskMode == Some(MeshTask) && b.faceEndOffset == Some(-1) && Truthy(b.bakeMe) then
        if lightmapUvs.None? then None else Some(Some(lightmapUvs.value as int))
      else Some(b.faceEndOffset)
    else if lightmapUvs.Some? && b.faceEndOffset.value > lightmapUvs.value then Some(Some(lightmapUvs.value as int))
    else Some(b.faceEndOffset)
  }

  /**
   * The mesh as the setup leaves it before the material branch: the record
   * started, `bakeMe` switched, the texture size defaulted, the lightmap UV
   * layer created when asked for and `bakeMe` cleared when there are no faces.
   */
  function Prepared(cfg: Config, s: MeshState): (r: MeshState)
    ensures r.material == s.material && r.faceCount == s.faceCount && r.baking.Some?
  {
    var b0 := StartRecord(cfg, s.baking);
    var b1 := b0.(bakeMe := ApplySpecific(cfg.specificMeshBaking, b0.bakeMe),
                  textureWidth := Some(Or(b0.textureWidth, cfg.textureWidth)),
                  textureHeight := Some(Or(b0.textureHeight, cfg.textureHeight)));
    var ready := ReadyForLightmapUv(s.faceCount);
    var uvs := if ready && CreatesLightmapUvs(cfg, b1.bakeMe, s.lightmapUvs) then Some(s.faceCount.value) else s.lightmapUvs;
    var b2 := if ready then b1 else b1.(bakeMe := Some(false));
    MeshState(s.material, s.faceCount, uvs, Some(b2))
  }

  /**
   * One mesh of the traversal: the state it is left in, or `None` when the
   * setup throws on it.
   */
  function SetupMesh(cfg: Config, s: MeshState): Option<MeshState>
  {
    var p := Prepared(cfg, s);
    var uvs := p.lightmapUvs;
    var b2 := p.baking.value;
    var b3 :=
      if MaterialBranch(b2.bakeMe, s.material) then
        var faceEnd := FaceEndOffset(cfg, b2, uvs);
        if faceEnd.None? then None
        else Some(b2.(faceBeginOffset := Some(Or(b2.faceBeginOffset, 0)), faceEndOffset := faceEnd.value))
      else Some(b2.(bakeMe := Some(false)));
    if b3.None? then None
    else
      var b4 := b3.value.(intersectMe := ApplySpecific(cfg.specificRayCasting, b3.value.intersectMe));
      Some(MeshState(s.material, s.faceCount, uvs, Some(b4)))
  }

  /**
   * The mesh as a throw of the setup leaves it: the assignments before the
   * face range end are made, the `faceBeginOffset` default among them; the
   * range end and `intersectMe` are not reached. Nothing is undone.
   */
  function Aborted(cfg: Config, s: MeshState): MeshState
  {
    var p := Prepared(cfg, s);
    p.(baking := Some(p.baking.value.(faceBeginOffset := Some(Or(p.baking.value.faceBeginOffset, 0)))))
  }

  // ---------------------------------------------------------------------
  // Properties of one mesh
  // ---------------------------------------------------------------------

  /** INVERTED twice restores a set flag; DISABLED and ENABLED are idempotent. */
  lemma ApplySpecificTwice(mode: SpecificMode, v: Option<bool>)
    ensures v.Some? && mode == Inverted ==> ApplySpecific(Inverted, ApplySpecific(Inverted, v)) == v
    ensures mode != Inverted ==> ApplySpecific(mode, ApplySpecific(mode, v)) == ApplySpecific(mode, v)
  {
  }

  /** The switch, value by value: what each mode makes of an unset, a true and a false flag. */
  lemma ApplySpecificTable(mode: SpecificMode, v: Option<bool>)
    ensures Truthy(ApplySpecific(mode, v)) <==>
              (mode == Disabled || (mode == Enabled && Truthy(v)) || (mode == Inverted && !Truthy(v)))
  {
  }

  /** The setup throws only in a worker MESH task on a mesh to bake whose range end is -1 and that has no lightmap UVs. */
  lemma SetupFailsOnlyInMeshTasks(cfg: Config, s: MeshState)
    requires SetupMesh(cfg, s).None?
    ensures cfg.workerId > -1 && cfg.workerTaskMode == Some(MeshTask)
  {
  }

  /**
   * A mesh the setup throws on is left selected for baking, with its
   * texture size and range start defaulted, its range end still -1, its
   * `intersectMe` untouched and still no lightmap UV layer.
   */
  lemma AbortedRecord(cfg: Config, s: MeshState)
    requires SetupMesh(cfg, s).None?
    ensures var a := Aborted(cfg, s);
            var start := StartRecord(cfg, s.baking);
            a.material == s.material && a.faceCount == s.faceCount && a.lightmapUvs.None? &&
            a.baking == Some(start.(bakeMe := Some(true),
                                    textureWidth := Some(Or(start.textureWidth, cfg.textureWidth)),
                                    textureHeight := Some(Or(start.textureHeight, cfg.textureHeight)),
                                    faceBeginOffset := Some(Or(start.faceBeginOffset, 0))))
    ensures StartRecord(cfg, s.baking).faceEndOffset == Some(-1)
  {
  }

  /** A record produced by `parse` has no `workerTaskMode`, so the setup never throws with it. */
  lemma ParsedConfigNeverFails(input: ConfigInput, defVal: Config, s: MeshState)
    ensures SetupMesh(Parse(input, defVal), s).Some?
  {
    var cfg := Parse(input, defVal);
    if SetupMesh(cfg, s).None? {
      SetupFailsOnlyInMeshTasks(cfg, s);
    }
  }

  /**
   * A mesh ends up baked exactly when its geometry has faces, its material is
   * one of the three supported ones and the `specificMeshBaking` switch
   * selects it.
   */
  lemma BakeMeRule(cfg: Config, s: MeshState)
    requires SetupMesh(cfg, s).Some?
    ensures var r := SetupMesh(cfg, s).value;
            r.baking.Some? &&
            (Truthy(r.baking.value.bakeMe) <==>
               ReadyForLightmapUv(s.faceCount) && s.material != OtherMaterial &&
               Truthy(ApplySpecific(cfg.specificMeshBaking, StartRecord(cfg, s.baking).bakeMe)))
  {
  }

  /** Every flag and size is defined after the setup, and `intersectMe` follows the `specificRayCasting` switch. */
  lemma SetupDefinesRecord(cfg: Config, s: MeshState)
    requires SetupMesh(cfg, s).Some?
    ensures var r := SetupMesh(cfg, s).value;
            r.baking.Some? && r.baking.value.bakeMe.Some? &&
            r.baking.value.intersectMe == ApplySpecific(cfg.specificRayCasting, StartRecord(cfg, s.baking).intersectMe) &&
            r.baking.value.textureWidth == Some(Or(StartRecord(cfg, s.baking).textureWidth, cfg.textureWidth)) &&
            r.baking.value.textureHeight == Some(Or(StartRecord(cfg, s.baking).textureHeight, cfg.textureHeight))
  {
  }

  /**
   * Because `&&` binds tighter than `||`, Phong and Lambert meshes get their
   * face range defaults even when they are not baked; a Basic mesh only when
   * it is baked.
   */
  lemma FaceRangeDefaults(cfg: Config, s: MeshState)
    requires SetupMesh(cfg, s).Some?
    ensures var r := SetupMesh(cfg, s).value.baking.value;
            var start := StartRecord(cfg, s.baking);
            ((s.material == PhongMaterial || s.material == LambertMaterial) ==>
               r.faceBeginOffset == Some(Or(start.faceBeginOffset, 0)) && r.faceEndOffset.Some?) &&
            (s.material == OtherMaterial ==> r.faceBeginOffset == start.faceBeginOffset && r.faceEndOffset == start.faceEndOffset) &&
            (s.material == BasicMaterial && !Truthy(r.bakeMe) ==> r.faceBeginOffset == start.faceBeginOffset)
  {
  }

  /**
   * On the main thread a range end that was set never exceeds the lightmap
   * UV layer; an unset one becomes the layer's length, or -1 without a layer.
   */
  lemma FaceEndOffsetRule(cfg: Config, s: MeshState)
    requires SetupMesh(cfg, s).Some?
    requires MaterialBranch(SetupMesh(cfg, s).value.baking.value.bakeMe, s.material)
    ensures var r := SetupMesh(cfg, s).value;
            var start := StartRecord(cfg, s.baking);
            (start.faceEndOffset.None? ==> r.baking.value.faceEndOffset == Some(if r.lightmapUvs.Some? then r.lightmapUvs.value as int else -1)) &&
            (start.faceEndOffset.Some? && cfg.workerId <= -1 && r.lightmapUvs.Some? ==>
               var e := r.baking.value.faceEndOffset;
               e.Some? && e.value <= r.lightmapUvs.value &&
               (start.faceEndOffset.value <= r.lightmapUvs.value ==> e == start.faceEndOffset) &&
               (start.faceEndOffset.value > r.lightmapUvs.value ==> e == Some(r.lightmapUvs.value as int)))
  {
  }

  /**
   * The lightmap UV layer is created, one entry per face, exactly for a
   * ready mesh outside multithreaded mode that is to be baked or is shaded
   * by Phong path tracing; an existing layer is left alone.
   */
  lemma LightmapUvRule(cfg: Config, s: MeshState)
    requires SetupMesh(cfg, s).Some?
    ensures var r := SetupMesh(cfg, s).value;
            var start := StartRecord(cfg, s.baking);
            var selected := ApplySpecific(cfg.specificMeshBaking, start.bakeMe);
            (s.lightmapUvs.Some? ==> r.lightmapUvs == s.lightmapUvs) &&
            (s.lightmapUvs.None? ==>
               (r.lightmapUvs.Some? <==> ReadyForLightmapUv(s.faceCount) && CreatesLightmapUvs(cfg, selected, s.lightmapUvs))) &&
            (r.lightmapUvs.Some? && s.lightmapUvs.None? ==> r.lightmapUvs == s.faceCount)
  {
  }

  /** Under ENABLED a mesh keeps the flag a mesh task gave it, as long as it can be baked at all. */
  lemma EnabledKeepsChoice(cfg: Config, s: MeshState, choice: bool)
    requires cfg.specificMeshBaking == Enabled && cfg.workerId > -1
    requires s.baking.Some? && s.baking.value.bakeMe == Some(choice)
    requires ReadyForLightmapUv(s.faceCount) && s.material != OtherMaterial
    requires SetupMesh(cfg, s).Some?
    ensures SetupMesh(cfg, s).value.baking.value.bakeMe == Some(choice)
  {
  }

  // ---------------------------------------------------------------------
  // The traversal
  // ---------------------------------------------------------------------

  /** A three.js mesh as far as the setup touches it. */
  class Mesh {
    const uuid: string
    const material: Material
    const faceCount: Option<nat>
    /** `geometry.faceVertexUvs[1].length`, absent while the layer is undefined. */
    var lightmapUvs: Option<nat>
    /** `userData.baking`. */
    var baking: Option<Baking>

    constructor (uuid: string, material: Material, faceCount: Option<nat>, lightmapUvs: Option<nat>, baking: Option<Baking>)
      ensures this.uuid == uuid && this.material == material && this.faceCount == faceCount
      ensures this.lightmapUvs == lightmapUvs && this.baking == baking
    {
      this.uuid := uuid;
      this.material := material;
      this.faceCount := faceCount;
      this.lightmapUvs := lightmapUvs;
      this.baking := baking;
    }

    function State(): MeshState
      reads this
    {
      MeshState(material, faceCount, lightmapUvs, baking)
    }

    /** The body of the traversal for this mesh; `false` when it throws, leaving the mesh half set up. */
    method Setup(cfg: Config) returns (ok: bool)
      modifies this
      ensures ok <==> SetupMesh(cfg, old(State())).Some?
      ensures ok ==> State() == SetupMesh(cfg, old(State())).value
      ensures !ok ==> State() == Aborted(cfg, old(State()))
    {
      var r := SetupMesh(cfg, State());
      if r.None? {
        var a := Aborted(cfg, State());
        lightmapUvs := a.lightmapUvs;
        baking := a.baking;
        return false;
      }
      lightmapUvs := r.value.lightmapUvs;
      baking := r.value.baking;
      return true;
    }
  }

  /** A node of the scene graph in traversal order. */
  datatype Node = LightNode(lightId: int) | MeshNode(mesh: Mesh) | OtherNode

  /** `traverse` visits every object once: no mesh occurs twice. */
  ghost predicate DistinctMeshes(scene: seq<Node>)
  {
    forall i, j :: 0 <= i < j < |scene| && scene[i].MeshNode? && scene[j].MeshNode? ==> scene[i].mesh != scene[j].mesh
  }

  ghost function MeshesOf(scene: seq<Node>): set<Mesh>
  {
    set i | 0 <= i < |scene| && scene[i].MeshNode? :: scene[i].mesh
  }

  /** The meshes of the scene, in order, whose current `userData.baking.bakeMe` is true. */
  function BakeList(scene: seq<Node>): seq<Mesh>
    reads set i | 0 <= i < |scene| && scene[i].MeshNode? :: scene[i].mesh
  {
    if |scene| == 0 then []
    else
      var rest := BakeList(scene[..|scene| - 1]);
      var n := scene[|scene| - 1];
      if n.MeshNode? && n.mesh.baking.Some? && Truthy(n.mesh.baking.value.bakeMe) then rest + [n.mesh] else rest
  }

  /** The meshes of the scene, in order, whose current `intersectMe` is true. */
  function IntersectList(scene: seq<Node>): seq<Mesh>
    reads set i | 0 <= i < |scene| && scene[i].MeshNode? :: scene[i].mesh
  {
    if |scene| == 0 then []
    else
      var rest := IntersectList(scene[..|scene| - 1]);
      var n := scene[|scene| - 1];
      if n.MeshNode? && n.mesh.baking.Some? && Truthy(n.mesh.baking.value.intersectMe) then rest + [n.mesh] else rest
  }

  /** The lights of the scene in order. */
  function LightsOf(scene: seq<Node>): seq<int>
  {
    if |scene| == 0 then []
    else
      var rest := LightsOf(scene[..|scene| - 1]);
      if scene[|scene| - 1].LightNode? then rest + [scene[|scene| - 1].lightId] else rest
  }

  /** A mesh is on the bake list exactly when it is a node of the scene whose `bakeMe` is true, and the list keeps scene order. */
  lemma {:induction false} BakeListMembers(scene: seq<Node>)
    ensures forall m :: m in BakeList(scene) <==>
              exists i :: 0 <= i < |scene| && scene[i] == MeshNode(m) && m.baking.Some? && Truthy(m.baking.value.bakeMe)
    ensures |BakeList(scene)| <= |scene|
    decreases |scene|
  {
    if |scene| > 0 {
      var init := scene[..|scene| - 1];
      BakeListMembers(init);
      forall m
        ensures m in BakeList(scene) <==>
                exists i :: 0 <= i < |scene| && scene[i] == MeshNode(m) && m.baking.Some? && Truthy(m.baking.value.bakeMe)
      {
        if exists i :: 0 <= i < |scene| && scene[i] == MeshNode(m) && m.baking.Some? && Truthy(m.baking.value.bakeMe) {
          var i :| 0 <= i < |scene| && scene[i] == MeshNode(m) && m.baking.Some? && Truthy(m.baking.value.bakeMe);
          if i < |scene| - 1 {
            assert init[i] == MeshNode(m);
          }
        }
        if m in BakeList(init) {
          var i :| 0 <= i < |init| && init[i] == MeshNode(m) && m.baking.Some? && Truthy(m.baking.value.bakeMe);
          assert scene[i] == MeshNode(m);
        }
      }
    }
  }

  /** The node of the scene a member of the bake list comes from. */
  lemma BakeListIndex(scene: seq<Node>, m: Mesh) returns (i: nat)
    requires m in BakeList(scene)
    ensures i < |scene| && scene[i] == MeshNode(m) && m.baking.Some? && Truthy(m.baking.value.bakeMe)
  {
    BakeListMembers(scene);
    i :| 0 <= i < |scene| && scene[i] == MeshNode(m) && m.baking.Some? && Truthy(m.baking.value.bakeMe);
  }

  /** A mesh is on the list to intersect exactly when it is a node of the scene whose `intersectMe` is true. */
  lemma {:induction false} IntersectListMembers(scene: seq<Node>)
    ensures forall m :: m in IntersectList(scene) <==>
              exists i :: 0 <= i < |scene| && scene[i] == MeshNode(m) && m.baking.Some? && Truthy(m.baking.value.intersectMe)
    decreases |scene|
  {
    if |scene| > 0 {
      var init := scene[..|scene| - 1];
      IntersectListMembers(init);
      forall m
        ensures m in IntersectList(scene) <==>
                exists i :: 0 <= i < |scene| && scene[i] == MeshNode(m) && m.baking.Some? && Truthy(m.baking.value.intersectMe)
      {
        if exists i :: 0 <= i < |scene| && scene[i] == MeshNode(m) && m.baking.Some? && Truthy(m.baking.value.intersectMe) {
          var i :| 0 <= i < |scene| && scene[i] == MeshNode(m) && m.baking.Some? && Truthy(m.baking.value.intersectMe);
          if i < |scene| - 1 {
            assert init[i] == MeshNode(m);
          }
        }
        if m in IntersectList(init) {
          var i :| 0 <= i < |init| && init[i] == MeshNode(m) && m.baking.Some? && Truthy(m.baking.value.intersectMe);
          assert scene[i] == MeshNode(m);
        }
      }
    }
  }

  /** The lists grow by one visited node. */
  lemma ListsStep(scene: seq<Node>, k: nat)
    requires k < |scene|
    ensures var n := scene[k];
            BakeList(scene[..k + 1]) ==
              BakeList(scene[..k]) + (if n.MeshNode? && n.mesh.baking.Some? && Truthy(n.mesh.baking.value.bakeMe) then [n.mesh] else []) &&
            IntersectList(scene[..k + 1]) ==
              IntersectList(scene[..k]) + (if n.MeshNode? && n.mesh.baking.Some? && Truthy(n.mesh.baking.value.intersectMe) then [n.mesh] else []) &&
            LightsOf(scene[..k + 1]) == LightsOf(scene[..k]) + (if n.LightNode? then [n.lightId] else [])
  {
    assert scene[..k + 1][..k] == scene[..k];
  }

  /**
   * The meshes among the first `k` nodes have been set up from the states
   * `before` gave them, the others are untouched.
   */
  ghost predicate Progress(cfg: Config, scene: seq<Node>, before: seq<MeshState>, k: nat)
    requires |before| == |scene| && k <= |scene|
    reads MeshesOf(scene)
  {
    (forall i :: 0 <= i < k && scene[i].MeshNode? ==>
       SetupMesh(cfg, before[i]).Some? && scene[i].mesh.State() == SetupMesh(cfg, before[i]).value) &&
    (forall i :: k <= i < |scene| && scene[i].MeshNode? ==> scene[i].mesh.State() == before[i])
  }

  /**
   * The traversal stopped at node `k`: the meshes before it are set up, its
   * mesh threw and is left as `Aborted` says, the meshes after it are untouched.
   */
  ghost predicate Stopped(cfg: Config, scene: seq<Node>, before: seq<MeshState>, k: nat)
    requires |before| == |scene| && k < |scene|
    reads MeshesOf(scene)
  {
    scene[k].MeshNode? && SetupMesh(cfg, before[k]).None? && scene[k].mesh.State() == Aborted(cfg, before[k]) &&
    (forall i :: 0 <= i < k && scene[i].MeshNode? ==>
       SetupMesh(cfg, before[i]).Some? && scene[i].mesh.State() == SetupMesh(cfg, before[i]).value) &&
    (forall i :: k < i < |scene| && scene[i].MeshNode? ==> scene[i].mesh.State() == before[i])
  }

  /** The lists `bakingSetup` fills. */
  class Setup {
    var sceneObjectsToBake: seq<Mesh>
    var sceneObjectsToIntersect: seq<Mesh>
    var lights: seq<int>

    constructor ()
      ensures sceneObjectsToBake == [] && sceneObjectsToIntersect == [] && lights == []
    {
      sceneObjectsToBake := [];
      sceneObjectsToIntersect := [];
      lights := [];
    }

    /** The lists hold what the first `k` nodes contribute. */
    ghost predicate Collected(scene: seq<Node>, k: nat)
      requires k <= |scene|
      reads this, MeshesOf(scene)
    {
      sceneObjectsToBake == BakeList(scene[..k]) &&
      sceneObjectsToIntersect == IntersectList(scene[..k]) &&
      lights == LightsOf(scene[..k])
    }

    /** Node `k` joins the lists its current flags select, or the lights. */
    method Collect(scene: seq<Node>, k: nat)
      requires k < |scene| && Collected(scene, k)
      modifies this
      ensures Collected(scene, k + 1)
    {
      ListsStep(scene, k);
      match scene[k] {
        case LightNode(id) =>
          lights := lights + [id];
        case OtherNode =>
        case MeshNode(m) =>
          if m.baking.Some? && Truthy(m.baking.value.bakeMe) {
            sceneObjectsToBake := sceneObjectsToBake + [m];
          }
          if m.baking.Some? && Truthy(m.baking.value.intersectMe) {
            sceneObjectsToIntersect := sceneObjectsToIntersect + [m];
          }
      }
    }

    /** One step of the traversal: node `k` is visited; `false` when the setup throws on it. */
    method Visit(cfg: Config, scene: seq<Node>, k: nat, ghost before: seq<MeshState>) returns (ok: bool)
      requires k < |scene| && |before| == |scene| && DistinctMeshes(scene)
      requires Progress(cfg, scene, before, k) && Collected(scene, k)
      modifies this, if scene[k].MeshNode? then {scene[k].mesh} else {}
      ensures ok ==> Progress(cfg, scene, before, k + 1) && Collected(scene, k + 1)
      ensures !ok <==> scene[k].MeshNode? && SetupMesh(cfg, before[k]).None?
      ensures !ok ==> Stopped(cfg, scene, before, k)
    {
      if scene[k].MeshNode? {
        var m := scene[k].mesh;
        assert m !in MeshesOf(scene[..k]);
        assert forall i :: 0 <= i < |scene| && i != k && scene[i].MeshNode? ==> scene[i].mesh != m;
        ok := m.Setup(cfg);
        if !ok {
          return;
        }
      }
      Collect(scene, k);
      ok := true;
    }

    /**
     * `bakingSetup`: resets the lists, then visits the scene in order; each
     * mesh is left in the state `SetupMesh` gives it and joins the bake list
     * iff its final `bakeMe` and the list to intersect iff its final
     * `intersectMe`. `ok` is false when the setup throws; it stops there,
     * at node `failedAt`. `before` records the meshes' states on entry.
     */
    method BakingSetup(cfg: Config, scene: seq<Node>) returns (ok: bool, ghost before: seq<MeshState>, ghost failedAt: nat)
      requires DistinctMeshes(scene)
      modifies this, MeshesOf(scene)
      ensures |before| == |scene| && forall i :: 0 <= i < |scene| && scene[i].MeshNode? ==> before[i] == old(scene[i].mesh.State())
      ensures !ok ==> failedAt < |scene| && Stopped(cfg, scene, before, failedAt)
      ensures ok <==> (forall i :: 0 <= i < |scene| && scene[i].MeshNode? ==> SetupMesh(cfg, old(scene[i].mesh.State())).Some?)
      ensures ok ==> forall i :: 0 <= i < |scene| && scene[i].MeshNode? ==>
                       scene[i].mesh.State() == SetupMesh(cfg, old(scene[i].mesh.State())).value
      ensures ok ==> sceneObjectsToBake == BakeList(scene) && sceneObjectsToIntersect == IntersectList(scene)
      ensures ok ==> lights == LightsOf(scene)
    {
      before := seq(|scene|, i requires 0 <= i < |scene| reads MeshesOf(scene) =>
                      if scene[i].MeshNode? then scene[i].mesh.State() else MeshState(OtherMaterial, None, None, None));
      failedAt := 0;
      sceneObjectsToBake := [];
      sceneObjectsToIntersect := [];
      lights := [];
      var k := 0;
      while k < |scene|
        invariant 0 <= k <= |scene|
        invariant forall i :: 0 <= i < |scene| && scene[i].MeshNode? ==> before[i] == old(scene[i].mesh.State())
        invariant Progress(cfg, scene, before, k) && Collected(scene, k)
      {
        ok := Visit(cfg, scene, k, before);
        if !ok {
          failedAt := k;
          return;
        }
        k := k + 1;
      }
      assert scene[..|scene|] == scene;
      ok := true;
    }
  }
}
