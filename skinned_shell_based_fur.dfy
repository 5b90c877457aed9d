/**
 * The skinned fur component: it draws the skinned vertices of its renderer
 * as shells with one procedural draw per camera, after asking the balancer
 * how many layers it may use.
 *
 * GPU buffers are modelled by whether they are bound; the engine's answers
 * (mesh attributes, whether the skinned vertex buffer is ready) are
 * parameters.
 */
module SkinnedFur {
  import opened Overdraw
  import opened FurComponents
  import opened LayerBalancer

  datatype VertexAttributeFormat =
    | Float32 | Float16
    | UNorm8 | SNorm8 | UNorm16 | SNorm16
    | UInt8 | SInt8 | UInt16 | SInt16 | UInt32 | SInt32
    | OtherFormat(code: int)  // any other value of the engine's enumeration

  predicate Is32Bit(format: VertexAttributeFormat) {
    format.Float32? || format.UInt32? || format.SInt32?
  }

  predicate Is16Bit(format: VertexAttributeFormat) {
    format.Float16? || format.UNorm16? || format.SNorm16? || format.UInt16? || format.SInt16?
  }

  predicate Is8Bit(format: VertexAttributeFormat) {
    format.UNorm8? || format.SNorm8? || format.UInt8? || format.SInt8?
  }

  /** The bit width of one component of a vertex attribute format; 0 for an unknown format. */
  function GetFormatSize(format: VertexAttributeFormat): (bits: int)
    ensures bits in {0, 8, 16, 32}
    ensures bits == 32 <==> Is32Bit(format)
    ensures bits == 16 <==> Is16Bit(format)
    ensures bits == 8 <==> Is8Bit(format)
    ensures bits == 0 <==> format.OtherFormat?
  {
    match format
    case Float32 | UInt32 | SInt32 => 32
    case Float16 | UNorm16 | SNorm16 | UInt16 | SInt16 => 16
    case UNorm8 | SNorm8 | UInt8 | SInt8 => 8
    case OtherFormat(_) => 0
  }

  /** One vertex attribute of a mesh: present or not, its stream (-1 for none) and its format. */
  datatype VertexAttributeInfo = VertexAttributeInfo(present: bool, stream: int, format: VertexAttributeFormat)

  /** The mesh attributes the component binds beside the skinned vertices. */
  datatype MeshInfo = MeshInfo(color: VertexAttributeInfo, texCoord0: VertexAttributeInfo)

  /**
   * Binding of one mesh vertex-attribute buffer. An already bound buffer is
   * kept as it is; otherwise the buffer of the attribute's stream is bound
   * when there is one, and the format size written to the property block is
   * that of the attribute's format, or 0 when nothing could be bound.
   */
  method BindMeshVertexBuffer(bound: bool, formatSize: int, attribute: VertexAttributeInfo)
    returns (bound': bool, formatSize': int)
    ensures bound ==> bound' && formatSize' == formatSize
    ensures !bound ==> (bound' <==> attribute.stream != -1)
    ensures !bound && bound' ==> formatSize' == GetFormatSize(attribute.format)
    ensures !bound && !bound' ==> formatSize' == 0
    ensures formatSize' in {0, 8, 16, 32} || formatSize' == formatSize
  {
    bound', formatSize' := bound, formatSize;
    if !bound {
      if attribute.stream != -1 {
        bound' := true;
      }
      if bound' {
        formatSize' := GetFormatSize(attribute.format);
      } else {
        formatSize' := 0;
      }
    }
  }

  class SkinnedShellBasedFur {
    const id: ObjectId
    var material: Option<Material>
    var renderer: Renderer
    var isSupport: bool

    var indexBuffer: bool
    var rendererVertexBuffer: bool
    var texcoordBuffer: bool
    var texcoordFormatSize: int
    var colorBuffer: bool
    var colorFormatSize: int

    /**
     * The property block holds a format size of 0 for a mesh buffer that is
     * not bound: it starts empty, is cleared on release, and receives 0 when
     * an attribute has no stream.
     */
    predicate UnboundSizesZero()
      reads this
    {
      (!texcoordBuffer ==> texcoordFormatSize == 0) && (!colorBuffer ==> colorFormatSize == 0)
    }

    /**
     * Awake: the effect is supported only with instancing, compute shaders
     * and at least three compute buffers readable by a vertex program.
     */
    constructor Awake(id: ObjectId, material: Option<Material>, renderer: Renderer, system: SystemInfo)
      ensures this.id == id && this.material == material && this.renderer == renderer
      ensures isSupport <==> system.supportsInstancing && system.supportsComputeShaders && system.maxComputeBufferInputsVertex >= 3
      ensures !indexBuffer && !rendererVertexBuffer && !texcoordBuffer && !colorBuffer
      ensures texcoordFormatSize == 0 && colorFormatSize == 0
      ensures UnboundSizesZero()
    {
      this.id := id;
      this.material := material;
      this.renderer := renderer;
      isSupport := system.supportsInstancing && system.supportsComputeShaders && system.maxComputeBufferInputsVertex >= 3;
      indexBuffer, rendererVertexBuffer, texcoordBuffer, colorBuffer := false, false, false, false;
      texcoordFormatSize, colorFormatSize := 0, 0;
    }

    /** Registers with the balancer, only when the effect is supported. */
    method OnEnable(balancer: FurLayerBalancer)
      modifies balancer`objects
      ensures balancer.objects == if isSupport then old(balancer.objects) + [id] else old(balancer.objects)
    {
      if isSupport {
        balancer.Register(id);
      }
    }

    /** Unregisters under the same gate, then releases every buffer. */
    method OnDisable(balancer: FurLayerBalancer)
      modifies balancer`objects, this`indexBuffer, this`rendererVertexBuffer, this`texcoordBuffer,
               this`texcoordFormatSize, this`colorBuffer, this`colorFormatSize
      ensures balancer.objects == if isSupport then RemoveFirst(old(balancer.objects), id) else old(balancer.objects)
      ensures !indexBuffer && !rendererVertexBuffer && !texcoordBuffer && !colorBuffer
      ensures texcoordFormatSize == 0 && colorFormatSize == 0
      ensures UnboundSizesZero()
    {
      if isSupport {
        balancer.Unregister(id);
      }
      ReleaseBuffers();
    }

    /** Every buffer is released and the property block is cleared. */
    method ReleaseBuffers()
      modifies this`indexBuffer, this`rendererVertexBuffer, this`texcoordBuffer,
               this`texcoordFormatSize, this`colorBuffer, this`colorFormatSize
      ensures !indexBuffer && !rendererVertexBuffer && !texcoordBuffer && !colorBuffer
      ensures texcoordFormatSize == 0 && colorFormatSize == 0
      ensures UnboundSizesZero()
    {
      texcoordFormatSize, colorFormatSize := 0, 0;
      indexBuffer := false;
      texcoordBuffer := false;
      colorBuffer := false;
      ReleaseVertexBuffer();
    }

    method ReleaseVertexBuffer()
      modifies this`rendererVertexBuffer
      ensures !rendererVertexBuffer
    {
      rendererVertexBuffer := false;
    }

    /**
     * Binds what is not yet bound: the renderer's skinned vertex buffer when
     * the engine has one ready, and, given a mesh, its index buffer and the
     * colour and first-texcoord buffers of the attributes it has.
     */
    method UpdateBuffers(mesh: Option<MeshInfo>, skinnedVerticesReady: bool)
      modifies this`indexBuffer, this`rendererVertexBuffer, this`texcoordBuffer,
               this`texcoordFormatSize, this`colorBuffer, this`colorFormatSize
      ensures rendererVertexBuffer == (old(rendererVertexBuffer) || skinnedVerticesReady)
      ensures indexBuffer == (old(indexBuffer) || mesh.Some?)
      ensures old(texcoordBuffer) ==> texcoordBuffer && texcoordFormatSize == old(texcoordFormatSize)
      ensures old(colorBuffer) ==> colorBuffer && colorFormatSize == old(colorFormatSize)
      ensures texcoordBuffer == (old(texcoordBuffer) || (mesh.Some? && mesh.value.texCoord0.present && mesh.value.texCoord0.stream != -1))
      ensures colorBuffer == (old(colorBuffer) || (mesh.Some? && mesh.value.color.present && mesh.value.color.stream != -1))
      ensures texcoordBuffer && !old(texcoordBuffer) ==> texcoordFormatSize == GetFormatSize(mesh.value.texCoord0.format)
      ensures colorBuffer && !old(colorBuffer) ==> colorFormatSize == GetFormatSize(mesh.value.color.format)
      ensures !old(texcoordBuffer) && mesh.Some? && mesh.value.texCoord0.present && mesh.value.texCoord0.stream == -1 ==>
                texcoordFormatSize == 0
      ensures !old(colorBuffer) && mesh.Some? && mesh.value.color.present && mesh.value.color.stream == -1 ==>
                colorFormatSize == 0
      ensures !(mesh.Some? && mesh.value.texCoord0.present) ==> texcoordFormatSize == old(texcoordFormatSize)
      ensures !(mesh.Some? && mesh.value.color.present) ==> colorFormatSize == old(colorFormatSize)
      ensures old(UnboundSizesZero()) ==> UnboundSizesZero()
    {
      if !rendererVertexBuffer {
        rendererVertexBuffer := skinnedVerticesReady;
      }
      if mesh.Some? {
        if !indexBuffer {
          indexBuffer := true;
        }
        if mesh.value.color.present {
          colorBuffer, colorFormatSize := BindMeshVertexBuffer(colorBuffer, colorFormatSize, mesh.value.color);
        }
        if mesh.value.texCoord0.present {
          texcoordBuffer, texcoordFormatSize := BindMeshVertexBuffer(texcoordBuffer, texcoordFormatSize, mesh.value.texCoord0);
        }
      }
    }

    /** At frame begin only a visible component binds its buffers. */
    method OnBeginFrameRendering(mesh: Option<MeshInfo>, skinnedVerticesReady: bool)
      modifies this`indexBuffer, this`rendererVertexBuffer, this`texcoordBuffer,
               this`texcoordFormatSize, this`colorBuffer, this`colorFormatSize
      ensures !renderer.isVisible ==> unchanged(this)
      ensures renderer.isVisible ==> rendererVertexBuffer == (old(rendererVertexBuffer) || skinnedVerticesReady)
      ensures renderer.isVisible ==> indexBuffer == (old(indexBuffer) || mesh.Some?)
      ensures renderer.isVisible ==>
                texcoordBuffer == (old(texcoordBuffer) || (mesh.Some? && mesh.value.texCoord0.present && mesh.value.texCoord0.stream != -1))
      ensures renderer.isVisible ==>
                colorBuffer == (old(colorBuffer) || (mesh.Some? && mesh.value.color.present && mesh.value.color.stream != -1))
      ensures renderer.isVisible && old(texcoordBuffer) ==> texcoordFormatSize == old(texcoordFormatSize)
      ensures renderer.isVisible && old(colorBuffer) ==> colorFormatSize == old(colorFormatSize)
      ensures renderer.isVisible && texcoordBuffer && !old(texcoordBuffer) ==> texcoordFormatSize == GetFormatSize(mesh.value.texCoord0.format)
      ensures renderer.isVisible && colorBuffer && !old(colorBuffer) ==> colorFormatSize == GetFormatSize(mesh.value.color.format)
      ensures renderer.isVisible && !old(texcoordBuffer) && mesh.Some? && mesh.value.texCoord0.present && mesh.value.texCoord0.stream == -1 ==>
                texcoordFormatSize == 0
      ensures renderer.isVisible && !old(colorBuffer) && mesh.Some? && mesh.value.color.present && mesh.value.color.stream == -1 ==>
                colorFormatSize == 0
      ensures renderer.isVisible && !(mesh.Some? && mesh.value.texCoord0.present) ==> texcoordFormatSize == old(texcoordFormatSize)
      ensures renderer.isVisible && !(mesh.Some? && mesh.value.color.present) ==> colorFormatSize == old(colorFormatSize)
      ensures old(UnboundSizesZero()) ==> UnboundSizesZero()
    {
      if renderer.isVisible {
        UpdateBuffers(mesh, skinnedVerticesReady);
      }
    }

    /**
     * One procedural draw whose instance count is the balanced layer
     * count, issued only with a material, the index, skinned-vertex and
     * texcoord buffers bound, and a positive balanced count.
     * The result is the instance count of the draw, or None when nothing is drawn.
     */
    method Render(camera: Camera, balancer: FurLayerBalancer, scene: Scene) returns (draw: Option<int>)
      ensures draw.Some? <==> material.Some? && indexBuffer && rendererVertexBuffer && texcoordBuffer
                              && balancer.GetBalancedLayerCount(camera, id, scene) > 0
      ensures draw.Some? ==> draw.value == balancer.GetBalancedLayerCount(camera, id, scene)
    {
      draw := None;
      if material.Some? && indexBuffer && rendererVertexBuffer && texcoordBuffer {
        var layerCount := balancer.GetBalancedLayerCount(camera, id, scene);
        if layerCount > 0 {
          draw := Some(layerCount);
        }
      }
    }

    /** Only a visible component renders for a camera. */
    method OnBeginCameraRendering(camera: Camera, balancer: FurLayerBalancer, scene: Scene) returns (draw: Option<int>)
      ensures draw.Some? ==> renderer.isVisible && draw.value > 0
      ensures draw.Some? ==> draw.value == balancer.GetBalancedLayerCount(camera, id, scene)
      ensures (renderer.isVisible && material.Some? && indexBuffer && rendererVertexBuffer && texcoordBuffer
               && balancer.GetBalancedLayerCount(camera, id, scene) > 0) ==> draw.Some?
    {
      draw := None;
      if renderer.isVisible {
        draw := Render(camera, balancer, scene);
      }
    }

    /**
     * Zero when the renderer is not visible; otherwise the fraction of the
     * camera's view height that the largest extent of the renderer's bounds
     * occupies at `distance`, the distance from the camera to the centre
     * of the bounds.
     */
    function GetRelativeHeight(camera: Camera, distance: real): (r: real)
      reads this
      requires renderer.isVisible ==> ViewHeight(camera, distance) != 0.0
      ensures !renderer.isVisible ==> r == 0.0
      ensures renderer.isVisible ==> r * ViewHeight(camera, distance) == MaxExtent(renderer.boundsSize)
    {
      if renderer.isVisible then DistanceToRelativeHeight(camera, distance, MaxExtent(renderer.boundsSize))
      else 0.0
    }

    /** The material's fur length, or zero without a material or without that property. */
    function GetFurLength(): (f: real)
      reads this
      ensures material.None? || !material.value.hasFurLength ==> f == 0.0
      ensures material.Some? && material.value.hasFurLength ==> f == material.value.furLength
    {
      if material.Some? && material.value.hasFurLength then material.value.furLength else 0.0
    }

    /**
     * `scene` answers for this component what the component itself
     * answers: its relative height under `camera`, at `distance` from the
     * centre of its bounds, and its fur length.
     */
    predicate Answers(scene: Scene, camera: Camera, distance: real)
      reads this
    {
      (renderer.isVisible ==> ViewHeight(camera, distance) != 0.0)
      && scene.relativeHeight(id, camera) == GetRelativeHeight(camera, distance)
      && scene.furLength(id) == GetFurLength()
    }

    /**
     * Under a scene that answers for it, an invisible component, or one
     * whose material lacks a fur length, adds nothing to the camera's
     * estimate wherever it is registered.
     */
    lemma HiddenOrBareAddsNothing(camera: Camera, distance: real, scene: Scene, quality: real, before: seq<ObjectId>, after: seq<ObjectId>)
      requires camera.aspect != 0.0
      requires Answers(scene, camera, distance)
      requires !renderer.isVisible || material.None? || !material.value.hasFurLength
      ensures Contribution(id, camera, scene, quality) == 0.0
      ensures EstimatedOverdraw(before + [id] + after, camera, scene, quality)
           == EstimatedOverdraw(before + after, camera, scene, quality)
    {
      assert scene.relativeHeight(id, camera) == 0.0 || scene.furLength(id) == 0.0;
      EstimatedOverdrawConcat(before + [id], after, camera, scene, quality);
      EstimatedOverdrawConcat(before, after, camera, scene, quality);
      assert (before + [id])[..|before|] == before;
    }

    /**
     * Under a scene that answers for it, an invisible component, or one
     * whose material lacks a fur length, is admitted no layers, whatever the
     * estimate and the budget.
     */
    lemma HiddenOrBareGetsNoLayers(camera: Camera, distance: real, scene: Scene, balancer: FurLayerBalancer)
      requires Answers(scene, camera, distance)
      requires !renderer.isVisible || material.None? || !material.value.hasFurLength
      ensures balancer.GetBalancedLayerCount(camera, id, scene) == 0
    {
      assert Expected(id, camera, scene, balancer.furQuality) == 0.0;
    }
  }
}
