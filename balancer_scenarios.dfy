/**
 * Whole frames driven through the balancer's public operations, as the
 * host's render loop drives them: set the budget, register objects, begin
 * the frame, query layer counts.
 */
module BalancerScenarios {
  import opened Overdraw
  import opened LayerBalancer
  import opened FurComponents
  import SkinnedFur

  /** A perspective camera 1000 pixels high with a square viewport. */
  function SquareCamera(id: CameraId): (camera: Camera) {
    Camera(id, 1.0, 1000.0, false, 1.0, 1.0)
  }

  /** Every object fills the view height exactly and has fur length 0.1. */
  function FullScreenScene(): (scene: Scene) {
    Scene((o: ObjectId, c: Camera) => 1.0, (o: ObjectId) => 0.1)
  }

  /** At quality 0.4 a full-screen object of fur length 0.1 expects 0.1 * 1 * 1000 * 0.4 = 40 layers. */
  lemma FullScreenExpected(id: CameraId)
    ensures Expected(7, SquareCamera(id), FullScreenScene(), 0.4) == 40.0
  {
    assert FullScreenScene().relativeHeight(7, SquareCamera(id)) == 1.0;
    assert FullScreenScene().furLength(7) == 0.1;
    assert ExpectedLayerCount(0.1, SquareCamera(id), 1.0, 0.4) == 40.0;
  }

  /** It covers the whole screen, so all 40 layers count towards the estimate. */
  lemma FullScreenContribution(id: CameraId)
    ensures Contribution(7, SquareCamera(id), FullScreenScene(), 0.4) == 40.0
  {
    assert FullScreenScene().relativeHeight(7, SquareCamera(id)) == 1.0;
    assert ScreenOccupancy(1.0, 1.0) == 1.0;
    FullScreenExpected(id);
  }

  /** Object 7 alone gives a square camera the estimate 40. */
  lemma FullScreenEstimate(id: CameraId)
    ensures FrameEstimates([SquareCamera(id)], [7], FullScreenScene(), 0.4) == map[id := 40.0]
  {
    SingleFrame(SquareCamera(id), [7], FullScreenScene(), 0.4);
    SingleEstimate(7, SquareCamera(id), FullScreenScene(), 0.4);
    FullScreenContribution(id);
  }

  lemma SingleFrame(camera: Camera, objects: seq<ObjectId>, scene: Scene, quality: real)
    requires camera.aspect != 0.0
    ensures FrameEstimates([camera], objects, scene, quality) == map[camera.id := EstimatedOverdraw(objects, camera, scene, quality)]
  {
    assert [camera][..0] == [];
  }

  lemma SingleEstimate(obj: ObjectId, camera: Camera, scene: Scene, quality: real)
    requires camera.aspect != 0.0
    ensures EstimatedOverdraw([obj], camera, scene, quality) == Contribution(obj, camera, scene, quality)
  {
    assert [obj][..0] == [];
  }

  /**
   * Default quality 0.4, one object of fur length 0.1 filling a
   * 1000-pixel-high square view: it expects 40 layers and covers the screen,
   * so the frame's estimate for the camera is 40. Under a budget of 5 the
   * rate is 5 / 40 and the object gets 5 layers.
   */
  lemma ThrottledFrame(id: CameraId)
    ensures FrameEstimates([SquareCamera(id)], [7], FullScreenScene(), 0.4) == map[id := 40.0]
    ensures BalancedLayerCount(40.0, 5.0, Expected(7, SquareCamera(id), FullScreenScene(), 0.4)) == 5
  {
    FullScreenEstimate(id);
    FullScreenExpected(id);
    BalancedThrottled(40.0, 5.0, 40.0);
    assert 5.0 / 40.0 * 40.0 == 5.0;
  }

  /** The same frame under a budget of 50, above the estimate: all 40 layers. */
  lemma UnthrottledFrame(id: CameraId)
    ensures BalancedLayerCount(40.0, 50.0, Expected(7, SquareCamera(id), FullScreenScene(), 0.4)) == 40
  {
    FullScreenExpected(id);
    BalancedUnthrottled(40.0, 50.0, 40.0);
  }

  /**
   * An object that is not visible has relative height 0 and gets no
   * layers, whatever the budget and whatever the camera's estimate.
   */
  method InvisibleObjectFrame(camera: Camera, obj: ObjectId, scene: Scene, budget: real) returns (layers: int)
    requires camera.aspect != 0.0
    requires scene.relativeHeight(obj, camera) == 0.0
    ensures layers == 0
  {
    var balancer := new FurLayerBalancer();
    balancer.SetMaxOverdraw(budget);
    balancer.Register(obj);
    balancer.OnBeginFrameRendering([camera], scene);
    layers := balancer.GetBalancedLayerCount(camera, obj, scene);
    ZeroHeightGetsNoLayers(obj, camera, scene, 0.4, balancer.estimatedOverdraw[camera.id], budget);
  }

  /** Beginning the same frame twice with nothing changed yields the same estimates. */
  method RepeatedFrame(cameras: seq<Camera>, objects: seq<ObjectId>, scene: Scene)
    returns (first: map<CameraId, real>, second: map<CameraId, real>)
    requires forall c :: c in cameras ==> c.aspect != 0.0
    ensures first == second
    ensures first.Keys == set c | c in cameras :: c.id
  {
    var balancer := new FurLayerBalancer();
    var i := 0;
    while i < |objects|
      invariant 0 <= i <= |objects|
      invariant balancer.objects == objects[..i]
    {
      balancer.Register(objects[i]);
      assert objects[..i + 1] == objects[..i] + [objects[i]];
      i := i + 1;
    }
    balancer.OnBeginFrameRendering(cameras, scene);
    first := balancer.estimatedOverdraw;
    balancer.OnBeginFrameRendering(cameras, scene);
    second := balancer.estimatedOverdraw;
  }

  /**
   * Register an object and begin a frame, then unregister it and begin the
   * next: the camera's estimate drops by exactly that object's contribution.
   */
  method RegistrationFrames(camera: Camera, obj: ObjectId, scene: Scene)
    returns (withObject: real, withoutObject: real)
    requires camera.aspect != 0.0
    ensures withObject == withoutObject + Contribution(obj, camera, scene, 0.4)
  {
    var balancer := new FurLayerBalancer();
    balancer.Register(obj);
    balancer.OnBeginFrameRendering([camera], scene);
    FrameEstimatesLookup([camera], 0, [obj], scene, 0.4);
    withObject := balancer.estimatedOverdraw[camera.id];
    balancer.Unregister(obj);
    balancer.OnBeginFrameRendering([camera], scene);
    FrameEstimatesLookup([camera], 0, [], scene, 0.4);
    withoutObject := balancer.estimatedOverdraw[camera.id];
    RemoveFirstDropsContribution([obj], obj, camera, scene, 0.4);
  }

  /**
   * A supported skinned component with a material, visible, whose mesh has
   * its first texcoord on a stream: once enabled and through one frame
   * begin with the skinned vertices ready, it draws for a camera exactly
   * when the balancer admits it a positive layer count, with that count.
   */
  method VisibleSkinnedFrame(id: ObjectId, material: Material, bounds: Vec3, system: SystemInfo,
                             mesh: SkinnedFur.MeshInfo, camera: Camera, scene: Scene, balancer: FurLayerBalancer)
    returns (draw: Option<int>)
    requires system.supportsInstancing && system.supportsComputeShaders && system.maxComputeBufferInputsVertex >= 3
    requires mesh.texCoord0.present && mesh.texCoord0.stream != -1
    modifies balancer`objects
    ensures balancer.objects == old(balancer.objects) + [id]
    ensures draw.Some? <==> balancer.GetBalancedLayerCount(camera, id, scene) > 0
    ensures draw.Some? ==> draw.value == balancer.GetBalancedLayerCount(camera, id, scene)
  {
    var fur := new SkinnedFur.SkinnedShellBasedFur.Awake(id, Some(material), Renderer(true, bounds), system);
    fur.OnEnable(balancer);
    fur.OnBeginFrameRendering(Some(mesh), true);
    draw := fur.OnBeginCameraRendering(camera, balancer, scene);
  }
}
