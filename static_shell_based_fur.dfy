/**
 * The static fur component: it draws its mesh as shells with one
 * instanced draw per submesh, after asking the balancer how many layers it
 * may use. Draw calls are recorded as values instead of being issued.
 */
module StaticFur {
  import opened Overdraw
  import opened FurComponents
  import opened LayerBalancer

  /** The part of the mesh the component draws from: its submesh count. */
  datatype Mesh = Mesh(subMeshCount: nat)

  /** One instanced draw of a submesh with one instance per shell layer. */
  datatype Draw = DrawMeshInstanced(subMesh: nat, instanceCount: int)

  class StaticShellBasedFur {
    const id: ObjectId
    var material: Option<Material>
    var renderer: Renderer
    var mesh: Option<Mesh>
    var isSupport: bool

    /** Awake: the effect is supported only with instancing and compute shaders. */
    constructor Awake(id: ObjectId, material: Option<Material>, renderer: Renderer, mesh: Option<Mesh>, system: SystemInfo)
      ensures this.id == id && this.material == material && this.renderer == renderer && this.mesh == mesh
      ensures isSupport <==> system.supportsInstancing && system.supportsComputeShaders
    {
      this.id := id;
      this.material := material;
      this.renderer := renderer;
      this.mesh := mesh;
      isSupport := system.supportsInstancing && system.supportsComputeShaders;
    }

    /** Registers with the balancer, only when the effect is supported. */
    method OnEnable(balancer: FurLayerBalancer)
      modifies balancer`objects
      ensures balancer.objects == if isSupport then old(balancer.objects) + [id] else old(balancer.objects)
    {
      if isSupport {
        balancer.Register(id);
      }
    }

    /** Unregisters under the same gate. */
    method OnDisable(balancer: FurLayerBalancer)
      modifies balancer`objects
      ensures balancer.objects == if isSupport then RemoveFirst(old(balancer.objects), id) else old(balancer.objects)
    {
      if isSupport {
        balancer.Unregister(id);
      }
    }

    /**
     * Nothing is drawn unless the balanced layer count is positive and there
     * are a material and a mesh; then submesh i is drawn, in order, with the
     * balanced count as its instance count.
     */
    method Render(camera: Camera, balancer: FurLayerBalancer, scene: Scene) returns (draws: seq<Draw>)
      ensures var n := balancer.GetBalancedLayerCount(camera, id, scene);
              |draws| == if n > 0 && material.Some? && mesh.Some? then mesh.value.subMeshCount else 0
      ensures forall i :: 0 <= i < |draws| ==>
                draws[i] == DrawMeshInstanced(i, balancer.GetBalancedLayerCount(camera, id, scene))
      ensures forall d :: d in draws ==> d.instanceCount > 0
    {
      draws := [];
      var layerCount := balancer.GetBalancedLayerCount(camera, id, scene);
      if layerCount > 0 {
        if material.Some? && mesh.Some? {
          var i := 0;
          while i < mesh.value.subMeshCount
            invariant 0 <= i <= mesh.value.subMeshCount
            invariant |draws| == i
            invariant forall j :: 0 <= j < i ==> draws[j] == DrawMeshInstanced(j, layerCount)
          {
            draws := draws + [DrawMeshInstanced(i, layerCount)];
            i := i + 1;
          }
        }
      }
    }

    /** Only a visible component renders for a camera. */
    method OnBeginCameraRendering(camera: Camera, balancer: FurLayerBalancer, scene: Scene) returns (draws: seq<Draw>)
      ensures !renderer.isVisible ==> draws == []
      ensures renderer.isVisible ==> var n := balancer.GetBalancedLayerCount(camera, id, scene);
                |draws| == if n > 0 && material.Some? && mesh.Some? then mesh.value.subMeshCount else 0
      ensures forall i :: 0 <= i < |draws| ==>
                draws[i] == DrawMeshInstanced(i, balancer.GetBalancedLayerCount(camera, id, scene))
    {
      draws := [];
      if renderer.isVisible {
        draws := Render(camera, balancer, scene);
      }
    }

    /**
     * Zero when the renderer is not visible; otherwise the fraction of the
     * camera's view height that the largest extent of the renderer's bounds
     * occupies at `distance`, the distance from the camera to the centre
     * of the bounds.
     */
    function GetRelativeHeight(camera: Camera, distance: real): (r: real)
      reads this
      requires renderer.isVisible ==> ViewHeight(camera, distance) != 0.0
      ensures !renderer.isVisible ==> r == 0.0
      ensures renderer.isVisible ==> r * ViewHeight(camera, distance) == MaxExtent(renderer.boundsSize)
    {
      if renderer.isVisible then DistanceToRelativeHeight(camera, distance, MaxExtent(renderer.boundsSize))
      else 0.0
    }

    /** The material's fur length, or zero without a material or without that property. */
    function GetFurLength(): (f: real)
      reads this
      ensures material.None? || !material.value.hasFurLength ==> f == 0.0
      ensures material.Some? && material.value.hasFurLength ==> f == material.value.furLength
    {
      if material.Some? && material.value.hasFurLength then material.value.furLength else 0.0
    }

    /**
     * `scene` answers for this component what the component itself
     * answers: its relative height under `camera`, at `distance` from the
     * centre of its bounds, and its fur length.
     */
    predicate Answers(scene: Scene, camera: Camera, distance: real)
      reads this
    {
      (renderer.isVisible ==> ViewHeight(camera, distance) != 0.0)
      && scene.relativeHeight(id, camera) == GetRelativeHeight(camera, distance)
      && scene.furLength(id) == GetFurLength()
    }

    /**
     * Under a scene that answers for it, an invisible component, or one
     * whose material lacks a fur length, adds nothing to the camera's
     * estimate wherever it is registered.
     */
    lemma HiddenOrBareAddsNothing(camera: Camera, distance: real, scene: Scene, quality: real, before: seq<ObjectId>, after: seq<ObjectId>)
      requires camera.aspect != 0.0
      requires Answers(scene, camera, distance)
      requires !renderer.isVisible || material.None? || !material.value.hasFurLength
      ensures Contribution(id, camera, scene, quality) == 0.0
      ensures EstimatedOverdraw(before + [id] + after, camera, scene, quality)
           == EstimatedOverdraw(before + after, camera, scene, quality)
    {
      assert scene.relativeHeight(id, camera) == 0.0 || scene.furLength(id) == 0.0;
      EstimatedOverdrawConcat(before + [id], after, camera, scene, quality);
      EstimatedOverdrawConcat(before, after, camera, scene, quality);
      assert (before + [id])[..|before|] == before;
    }

    /**
     * Under a scene that answers for it, an invisible component, or one
     * whose material lacks a fur length, is admitted no layers, whatever the
     * estimate and the budget.
     */
    lemma HiddenOrBareGetsNoLayers(camera: Camera, distance: real, scene: Scene, balancer: FurLayerBalancer)
      requires Answers(scene, camera, distance)
      requires !renderer.isVisible || material.None? || !material.value.hasFurLength
      ensures balancer.GetBalancedLayerCount(camera, id, scene) == 0
    {
      assert Expected(id, camera, scene, balancer.furQuality) == 0.0;
    }
  }
}
