# Shell-based fur: the layer balancer

This project models the runtime core of a shell-based fur renderer for the
Unity engine. Each fur object draws its surface as a stack of shell layers.
A global **layer balancer** keeps the total cost of those layers within a
budget. On a platform that supports the effect, every fur component
registers with the balancer when it is enabled.
At the start of each frame, the balancer estimates every camera's total
*overdraw*: one unit is one layer covering the camera's whole screen. When
a component renders for a camera, it asks how many layers it may draw. The
answer is its expected layer count, scaled by `budget / estimate` when the
estimate exceeds the budget, and rounded down.

Modules:

- `Overdraw` (`overdraw.dfy`) is the contract every fur object implements:
  - the camera value;
  - the relative-height geometry (`DistanceToRelativeHeight`);
  - the expected layer count formula.
- `LayerBalancer` (`layer_balancer.dfy`) holds:
  - the specification functions: screen occupancy, the per-camera estimate as a sum over the registry list, the balance rate, the per-frame estimate map, and first-occurrence removal;
  - the lemmas about those functions;
  - the class `FurLayerBalancer`, whose methods update its quality, budget, estimate cache and registry in place.
- `FurComponents` (`fur_components.dfy`) holds the engine values the components read: material, renderer bounds and system capabilities.
- `SkinnedFur` (`skinned_shell_based_fur.dfy`) is the skinned component. It covers support detection, the registration gate, buffer binding bookkeeping, vertex format sizes and the draw guard.
- `StaticFur` (`static_shell_based_fur.dfy`) is the static component. It covers the registration gate and one draw per submesh.
- `BalancerScenarios` (`balancer_scenarios.dfy`) drives whole frames through the balancer.
- `RealArith` (`real_arith.dfy`) holds small facts about real products and quotients.

Modelling choices:

- Single-precision floats are modelled as mathematical reals. `Mathf.FloorToInt` becomes `.Floor`.
- Objects and cameras are compared by reference in the source. Here they are natural-number identities (`ObjectId`, `CameraId`).
- The balancer asks each registered object for its relative height and fur length. Those answers are a `Scene` value passed to the operation. Frame begin and the later query can receive different scenes, just as the engine evaluates them at different moments.
- Each component's `Answers(scene, camera, distance)` says that the scene gives the balancer that component's own `GetRelativeHeight` and `GetFurLength`. The lemmas about hidden or bare components assume it.
- The source's balancer is a static class. Here it is one `FurLayerBalancer` object, passed to the components that use it.

Three consequences of the code as written are stated and proved:

- The code does not clamp the balanced count at zero. Under a positive estimate and a negative budget, an object with a positive expected count gets a negative count, which the renderers treat as "draw nothing" (`NegativeBudgetNegativeCount`).
- The code keeps the registry as a list. A duplicate registration counts twice, and one unregistration removes only the first occurrence (`DuplicateCountsTwice`, `RemoveFirst`).
- A camera whose estimate is zero or negative gets rate 1 whatever the budget (`BalancedRate`).

## Model

| member | source | states |
|---|---|---|
| Overdraw.DistanceToRelativeHeight | Assets/Fur/Runtime/IQuantifiableOverdraw.cs:14-22 | the result times the view height (2·orthographicSize, or 2·distance·tan(fov/2)) is the object's size: the object spans that fraction of the view height |
| Overdraw.OrthographicIgnoresDistance | Assets/Fur/Runtime/IQuantifiableOverdraw.cs:16-17 | under an orthographic camera the relative height does not depend on the distance |
| Overdraw.RelativeHeightLinearInSize | Assets/Fur/Runtime/IQuantifiableOverdraw.cs:14-22 | scaling the object's size by k scales its relative height by k, for both camera kinds |
| Overdraw.ExpectedLayerCount | Assets/Fur/Runtime/IQuantifiableOverdraw.cs:24-30 | the expected layer count is zero for an object of zero height or zero fur length, and non-negative when all four factors are |
| Overdraw.ExpectedMonotoneInHeight | Assets/Fur/Runtime/IQuantifiableOverdraw.cs:26-27 | a taller object never expects fewer layers |
| Overdraw.ExpectedMonotoneInQuality | Assets/Fur/Runtime/IQuantifiableOverdraw.cs:26-27 | a higher quality multiplier never gives fewer expected layers |
| LayerBalancer.Min | Assets/Fur/Runtime/FurLayerBalancer.cs:92 | `Mathf.Min`: the result is at most both arguments and equal to one of them |
| LayerBalancer.Expected | Assets/Fur/Runtime/FurLayerBalancer.cs:108-109 | the object's expected layer count, asked of the scene at query time; zero for an object of zero relative height or zero fur length |
| LayerBalancer.Contribution | Assets/Fur/Runtime/FurLayerBalancer.cs:79-93 | one entry's share, occupancy times expected count: zero for zero height or zero fur length, and between 0 and the expected count for a positive aspect and non-negative height and expected count |
| LayerBalancer.EstimatedOverdraw | Assets/Fur/Runtime/FurLayerBalancer.cs:75-95 | a camera's estimate: the sum of the contributions over the registry in list order; zero for an empty registry |
| LayerBalancer.SilentObjectsEstimateZero | Assets/Fur/Runtime/FurLayerBalancer.cs:75-95 | a registry whose every entry contributes nothing estimates zero |
| LayerBalancer.ScreenOccupancy | Assets/Fur/Runtime/FurLayerBalancer.cs:80-92 | occupancy, the product of the two axes each capped at one screen, lies in [0, 1]; it is 0 for zero height and exactly 1 once the object spans the screen in both axes |
| LayerBalancer.EstimatedOverdrawConcat | Assets/Fur/Runtime/FurLayerBalancer.cs:75-94 | the estimate of a concatenated registry is the sum of the two parts' estimates |
| LayerBalancer.DuplicateCountsTwice | Assets/Fur/Runtime/FurLayerBalancer.cs:77-94 | an object registered twice contributes twice to the estimate |
| LayerBalancer.EstimatedOverdrawNonNegative | Assets/Fur/Runtime/FurLayerBalancer.cs:75-94 | with a positive aspect, non-negative pixel height and quality, and objects of non-negative height and fur length, the estimate is non-negative |
| LayerBalancer.IndexOf | Assets/Fur/Runtime/FurLayerBalancer.cs:122-125 | the index of the first occurrence, or the length when the object is absent |
| LayerBalancer.RemoveFirst | Assets/Fur/Runtime/FurLayerBalancer.cs:122-125 | an absent object leaves the list unchanged; otherwise exactly its first occurrence is removed, the order of the rest kept, and the multiset loses one copy |
| LayerBalancer.RemoveFirstDropsContribution | Assets/Fur/Runtime/FurLayerBalancer.cs:122-125 | unregistering a registered object lowers every camera's estimate by exactly that object's contribution |
| LayerBalancer.RegisterThenUnregister | Assets/Fur/Runtime/FurLayerBalancer.cs:117-125 | register then unregister restores the registry's multiset and every estimate, and the list itself when the object was not registered before |
| LayerBalancer.BalancedRate | Assets/Fur/Runtime/FurLayerBalancer.cs:111 | the rate is at most 1, is 1 for a non-positive estimate, and when below 1 scales the estimate to exactly the budget (rate · estimate = budget) |
| LayerBalancer.BalancedLayerCount | Assets/Fur/Runtime/FurLayerBalancer.cs:111-112 | a non-positive estimate gives the floor of the expected count; a positive estimate above the budget admits at most budget/estimate of a non-negative expected count (count · estimate ≤ budget · expected) |
| LayerBalancer.BalancedRateCases | Assets/Fur/Runtime/FurLayerBalancer.cs:111 | the rate is at most 1 and non-negative under a non-negative budget; it is 1 when the estimate is not positive or within budget, and budget/estimate (< 1) otherwise |
| LayerBalancer.BalancedNeverScalesUp | Assets/Fur/Runtime/FurLayerBalancer.cs:111-112 | with a non-negative budget and expected count, the balanced count lies between 0 and the floor of the expected count |
| LayerBalancer.BalancedUnthrottled | Assets/Fur/Runtime/FurLayerBalancer.cs:111-112 | an estimate within budget (or not positive) gives the floor of the expected count |
| LayerBalancer.BalancedThrottled | Assets/Fur/Runtime/FurLayerBalancer.cs:111-112 | a positive estimate above the budget, whatever its sign, gives the floor of budget/estimate times the expected count |
| LayerBalancer.NegativeBudgetNegativeCount | Assets/Fur/Runtime/FurLayerBalancer.cs:111-112 | with a positive estimate, a negative budget and a positive expected count the count is negative: nothing clamps it |
| LayerBalancer.ZeroHeightGetsNoLayers | Assets/Fur/Runtime/FurLayerBalancer.cs:108-112 | an object of zero relative height gets 0 layers whatever the estimate and budget |
| LayerBalancer.FrameEstimates | Assets/Fur/Runtime/FurLayerBalancer.cs:43-48 | the cache the frame-begin pass builds, one entry per camera in list order, later entries replacing earlier ones; every key is the identity of one of the frame's cameras |
| LayerBalancer.FrameEstimatesKeys | Assets/Fur/Runtime/FurLayerBalancer.cs:41-49 | after frame begin exactly this frame's cameras have estimates |
| LayerBalancer.FrameEstimatesLookup | Assets/Fur/Runtime/FurLayerBalancer.cs:45-48 | each camera's entry is the estimate computed for the last camera with that identity |
| LayerBalancer.FurLayerBalancer.constructor | Assets/Fur/Runtime/FurLayerBalancer.cs:16-39 | quality 0.4, budget 5.0, empty cache, empty registry |
| LayerBalancer.FurLayerBalancer.QualityOfLevel | Assets/Fur/Runtime/FurLayerBalancer.cs:55-58 | level 2 is the only level giving the default multiplier 0.4; non-negative levels give at least 0.2 and negative levels less |
| LayerBalancer.FurLayerBalancer.SetFurQuality | Assets/Fur/Runtime/FurLayerBalancer.cs:55-58 | the quality becomes the multiplier of the given level; nothing else changes |
| LayerBalancer.FurLayerBalancer.SetMaxOverdraw | Assets/Fur/Runtime/FurLayerBalancer.cs:64-67 | the budget is stored unchecked; nothing else changes |
| LayerBalancer.FurLayerBalancer.CalcEstimatedOverdraw | Assets/Fur/Runtime/FurLayerBalancer.cs:73-96 | the loop stores under the camera the sum of occupancy times expected count over the registry, overwriting only that camera's entry |
| LayerBalancer.FurLayerBalancer.OnBeginFrameRendering | Assets/Fur/Runtime/FurLayerBalancer.cs:41-49 | the cache is rebuilt: its keys are exactly the frame's cameras, and each holds the registry's estimate for (the last occurrence of) that camera |
| LayerBalancer.FurLayerBalancer.GetBalancedLayerCount | Assets/Fur/Runtime/FurLayerBalancer.cs:104-115 | 0 for a camera without an estimate; otherwise between 0 and the expected count's floor under a non-negative budget, the full floor when within budget, the budget/estimate-scaled floor when a positive estimate exceeds the budget, and negative under a positive estimate, a negative budget and a positive expected count |
| LayerBalancer.FurLayerBalancer.Register | Assets/Fur/Runtime/FurLayerBalancer.cs:117-120 | the object is appended to the registry, duplicates included |
| LayerBalancer.FurLayerBalancer.Unregister | Assets/Fur/Runtime/FurLayerBalancer.cs:122-125 | the registry loses the first occurrence of the object, or is unchanged when it is absent |
| FurComponents.MaxExtent | Assets/Fur/Runtime/SkinnedShellBasedFur.cs:272 | the largest of the three bounds extents: at least each of them and equal to one of them |
| SkinnedFur.GetFormatSize | Assets/Fur/Runtime/SkinnedShellBasedFur.cs:214-236 | 32 exactly for the 32-bit formats, 16 exactly for the 16-bit ones, 8 exactly for the 8-bit ones, 0 exactly for any other format |
| SkinnedFur.BindMeshVertexBuffer | Assets/Fur/Runtime/SkinnedShellBasedFur.cs:183-212 | a bound buffer is kept with its format size; otherwise it binds exactly when the attribute has a stream, and records that format's size, or 0 when it cannot bind |
| SkinnedFur.SkinnedShellBasedFur.Awake | Assets/Fur/Runtime/SkinnedShellBasedFur.cs:36-42 | supported exactly with instancing, compute shaders and at least three vertex-stage compute buffer inputs; no buffers are held and both recorded format sizes are 0 (the property block starts empty) |
| SkinnedFur.SkinnedShellBasedFur.OnEnable | Assets/Fur/Runtime/SkinnedShellBasedFur.cs:53-64 | registers with the balancer exactly when supported |
| SkinnedFur.SkinnedShellBasedFur.OnDisable | Assets/Fur/Runtime/SkinnedShellBasedFur.cs:66-79 | unregisters exactly when supported, and always releases every buffer, leaving both recorded format sizes 0 |
| SkinnedFur.SkinnedShellBasedFur.ReleaseBuffers | Assets/Fur/Runtime/SkinnedShellBasedFur.cs:81-95 | every buffer is released and the recorded format sizes are cleared |
| SkinnedFur.SkinnedShellBasedFur.ReleaseVertexBuffer | Assets/Fur/Runtime/SkinnedShellBasedFur.cs:97-101 | the skinned vertex buffer is released |
| SkinnedFur.SkinnedShellBasedFur.UpdateBuffers | Assets/Fur/Runtime/SkinnedShellBasedFur.cs:133-169 | each buffer is bound once and kept: the vertex buffer when the engine has one, the index buffer given a mesh, colour and texcoord when the mesh has them on a stream, each with its format size; an attribute present on no stream records size 0, an absent one leaves its size alone; an unbound mesh buffer keeps size 0 |
| SkinnedFur.SkinnedShellBasedFur.OnBeginFrameRendering | Assets/Fur/Runtime/SkinnedShellBasedFur.cs:103-110 | an invisible component changes nothing; a visible one binds its vertex, index, colour and texcoord buffers as UpdateBuffers does, with the same format-size rules, so an unbound mesh buffer keeps size 0 |
| SkinnedFur.SkinnedShellBasedFur.Render | Assets/Fur/Runtime/SkinnedShellBasedFur.cs:254-265 | a draw is issued exactly when material, index, vertex and texcoord buffers are present and the balanced count is positive, with the balanced count as instance count |
| SkinnedFur.SkinnedShellBasedFur.OnBeginCameraRendering | Assets/Fur/Runtime/SkinnedShellBasedFur.cs:112-118 | only a visible component draws; when visible, it draws exactly as Render does |
| SkinnedFur.SkinnedShellBasedFur.GetRelativeHeight | Assets/Fur/Runtime/SkinnedShellBasedFur.cs:267-277 | 0 when invisible; otherwise the fraction of the view height that the largest bounds extent spans |
| SkinnedFur.SkinnedShellBasedFur.GetFurLength | Assets/Fur/Runtime/SkinnedShellBasedFur.cs:279-286 | the material's fur length, or 0 without a material or without that property |
| SkinnedFur.SkinnedShellBasedFur.HiddenOrBareAddsNothing | Assets/Fur/Runtime/SkinnedShellBasedFur.cs:267-286 | under a scene answering with the component's own relative height and fur length, an invisible component or one without fur length contributes 0, and removing it from any position in the registry leaves the estimate unchanged |
| SkinnedFur.SkinnedShellBasedFur.HiddenOrBareGetsNoLayers | Assets/Fur/Runtime/SkinnedShellBasedFur.cs:254-286 | under such a scene, the same component gets 0 layers whatever the estimate and budget, so Render issues no draw |
| StaticFur.StaticShellBasedFur.Awake | Assets/Fur/Runtime/StaticShellBasedFur.cs:22-29 | supported exactly with instancing and compute shaders |
| StaticFur.StaticShellBasedFur.OnEnable | Assets/Fur/Runtime/StaticShellBasedFur.cs:31-39 | registers with the balancer exactly when supported |
| StaticFur.StaticShellBasedFur.OnDisable | Assets/Fur/Runtime/StaticShellBasedFur.cs:41-49 | unregisters exactly when supported |
| StaticFur.StaticShellBasedFur.Render | Assets/Fur/Runtime/StaticShellBasedFur.cs:68-86 | with a positive balanced count, a material and a mesh, one draw per submesh in order, each with the balanced count as instance count; otherwise no draw |
| StaticFur.StaticShellBasedFur.OnBeginCameraRendering | Assets/Fur/Runtime/StaticShellBasedFur.cs:51-57 | an invisible component draws nothing; a visible one draws as Render does |
| StaticFur.StaticShellBasedFur.GetRelativeHeight | Assets/Fur/Runtime/StaticShellBasedFur.cs:89-99 | 0 when invisible; otherwise the fraction of the view height that the largest bounds extent spans |
| StaticFur.StaticShellBasedFur.GetFurLength | Assets/Fur/Runtime/StaticShellBasedFur.cs:101-108 | the material's fur length, or 0 without a material or without that property |
| StaticFur.StaticShellBasedFur.HiddenOrBareAddsNothing | Assets/Fur/Runtime/StaticShellBasedFur.cs:89-108 | under a scene answering with the component's own relative height and fur length, an invisible component or one without fur length contributes 0, and removing it from any position in the registry leaves the estimate unchanged |
| StaticFur.StaticShellBasedFur.HiddenOrBareGetsNoLayers | Assets/Fur/Runtime/StaticShellBasedFur.cs:68-108 | under such a scene, the same component gets 0 layers whatever the estimate and budget, so Render issues no draw |
| BalancerScenarios.ThrottledFrame | Assets/Fur/Runtime/FurLayerBalancer.cs:73-112 | at quality 0.4, one full-screen object of fur length 0.1 under a 1000-pixel camera estimates 40; under budget 5 it gets 5 layers |
| BalancerScenarios.UnthrottledFrame | Assets/Fur/Runtime/FurLayerBalancer.cs:104-112 | the same object under budget 50 gets all 40 layers |
| BalancerScenarios.InvisibleObjectFrame | Assets/Fur/Runtime/FurLayerBalancer.cs:104-115 | an object of zero relative height gets 0 layers after a full frame, whatever the budget |
| BalancerScenarios.RepeatedFrame | Assets/Fur/Runtime/FurLayerBalancer.cs:41-49 | beginning the same frame twice gives the same estimates, keyed by exactly the frame's cameras |
| BalancerScenarios.VisibleSkinnedFrame | Assets/Fur/Runtime/SkinnedShellBasedFur.cs:53-265 | a supported, visible skinned component with a material and a texcoord stream is registered once; after one frame begin it draws exactly when its balanced count is positive, with that count |
| BalancerScenarios.RegistrationFrames | Assets/Fur/Runtime/FurLayerBalancer.cs:117-125 | a frame after unregistering an object estimates exactly that object's contribution less |

## Left out

- GPU work is not modelled: buffer contents, material property blocks (strides, offsets, the layer-count float), matrices, `UpdateMaterialPropertyBlock`, the static component's `LateUpdate`, and the draw calls themselves. Draws are recorded as values.
- Subscriptions to the render pipeline's frame and camera events are replaced by explicit calls to the handlers.
- The skinned component's editor-only path is left out: it re-fetches the vertex buffer every frame and releases it at frame end. Only the player path, which binds once, is modelled.
- Whether the engine hands out a buffer is a parameter: `skinnedVerticesReady`, and an attribute's stream being other than -1.
- The skinned component's `Start`, which sets vertex-buffer targets, is left out. It has no effect the model can observe.
- IEEE single-precision behaviour is not modelled: rounding, NaN, infinities, and the 32-bit range of `FloorToInt`.
- Overdraw.DistanceToRelativeHeight requires a nonzero view height. The source divides anyway and yields an infinity or NaN.
- LayerBalancer.ScreenOccupancy requires a nonzero camera aspect. The source divides anyway and yields an infinity or NaN.
- `Mathf.Tan` of half the field of view is a camera parameter, `tanHalfFov`.
- The distance from the camera to the bounds centre (a vector magnitude) is a parameter of `GetRelativeHeight`.
- The quality enumeration is not part of this model. `SetFurQuality` takes the integer level the source casts it to.
- Static constructor ordering, threading and concurrent access to the balancer are not modelled. The balancer is one object that is passed explicitly.
- The model does not build one scene from all registered components. The link between a component and the scene is stated per component, through `Answers`, and the balancer's own contracts hold for any scene.
- The shader-property constants, the spawner and the overdraw test scene are not part of this model.
