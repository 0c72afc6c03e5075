/**
 * Saving and restoring the Direct3D 11 pipeline state around the UI's rendering
 * (Helpers/DeviceState). The immediate context is a mutable record of its bindings;
 * the helper keeps one snapshot of the bindings it cares about and writes them back
 * when the restorer that `Remember` hands out is disposed.
 */
module DeviceState {
  import opened Wrappers

  /** A Direct3D object bound to the pipeline; only its identity matters here. */
  type Handle = nat

  datatype Viewport = Viewport(x: real, y: real, width: real, height: real, minDepth: real, maxDepth: real)
  datatype Rectangle = Rectangle(left: int, top: int, right: int, bottom: int)
  datatype Color4 = Color4(red: real, green: real, blue: real, alpha: real)

  /** Vertex buffer slot: the buffer with its stride and offset. */
  datatype VertexBinding = VertexBinding(buffer: Option<Handle>, stride: int, offset: int)

  /** The bindings that are a single value each. */
  datatype FixedBindings = FixedBindings(
    topology: int,
    inputLayout: Option<Handle>,
    viewports: seq<Viewport>,
    scissorRectangles: seq<Rectangle>,
    rasterizerState: Option<Handle>,
    blendState: Option<Handle>,
    blendFactor: Color4,
    sampleMask: int,
    depthStencilState: Option<Handle>,
    stencilRef: int,
    depthStencilView: Option<Handle>,
    indexBuffer: Option<Handle>,
    indexFormat: int,
    indexOffset: int)

  /** A shader stage: the shader and its slot arrays. */
  datatype ShaderStage = ShaderStage(
    shader: Option<Handle>,
    constantBuffers: seq<Option<Handle>>,
    samplers: seq<Option<Handle>>,
    resources: seq<Option<Handle>>)

  /** The pipeline as far as this model sees it. */
  datatype PipelineState = PipelineState(
    fixed: FixedBindings,
    renderTarget: Option<Handle>,
    pixelShader: ShaderStage,
    vertexShader: ShaderStage,
    vertexBuffers: seq<VertexBinding>)

  /** How many slots of each shader-stage array a snapshot keeps. */
  const StageSlots := 4

  /** A real context has at least the captured slots in every array. */
  predicate StageHasSlots(stage: ShaderStage)
  {
    |stage.constantBuffers| >= StageSlots && |stage.samplers| >= StageSlots && |stage.resources| >= StageSlots
  }

  predicate ContextValid(s: PipelineState)
  {
    StageHasSlots(s.pixelShader) && StageHasSlots(s.vertexShader) && |s.vertexBuffers| >= 1
  }

  /** What `Save` keeps: the fixed bindings, render target 0, slots 0 to 3 of each stage array, vertex buffer 0. */
  datatype Snapshot = Snapshot(
    fixed: FixedBindings,
    renderTarget: Option<Handle>,
    pixelShader: ShaderStage,
    vertexShader: ShaderStage,
    vertexBuffer: VertexBinding)

  function CaptureStage(stage: ShaderStage): (r: ShaderStage)
    requires StageHasSlots(stage)
    ensures |r.constantBuffers| == StageSlots && |r.samplers| == StageSlots && |r.resources| == StageSlots
  {
    ShaderStage(stage.shader, stage.constantBuffers[..StageSlots], stage.samplers[..StageSlots], stage.resources[..StageSlots])
  }

  /** Binds a captured stage: the shader, and the captured arrays from slot 0 on. */
  function ApplyStage(stage: ShaderStage, saved: ShaderStage): ShaderStage
    requires StageHasSlots(stage)
    requires |saved.constantBuffers| == StageSlots && |saved.samplers| == StageSlots && |saved.resources| == StageSlots
  {
    ShaderStage(saved.shader,
                saved.constantBuffers + stage.constantBuffers[StageSlots..],
                saved.samplers + stage.samplers[StageSlots..],
                saved.resources + stage.resources[StageSlots..])
  }

  predicate SnapshotValid(snapshot: Snapshot)
  {
    && |snapshot.pixelShader.constantBuffers| == StageSlots && |snapshot.pixelShader.samplers| == StageSlots
    && |snapshot.pixelShader.resources| == StageSlots
    && |snapshot.vertexShader.constantBuffers| == StageSlots && |snapshot.vertexShader.samplers| == StageSlots
    && |snapshot.vertexShader.resources| == StageSlots
  }

  /** The snapshot `Save` takes of a context. */
  function Capture(s: PipelineState): (r: Snapshot)
    requires ContextValid(s)
    ensures SnapshotValid(r)
  {
    Snapshot(s.fixed, s.renderTarget, CaptureStage(s.pixelShader), CaptureStage(s.vertexShader), s.vertexBuffers[0])
  }

  /** The context after `Restore` writes a snapshot back. */
  function Apply(s: PipelineState, snapshot: Snapshot): (r: PipelineState)
    requires ContextValid(s) && SnapshotValid(snapshot)
    ensures ContextValid(r)
  {
    PipelineState(snapshot.fixed, snapshot.renderTarget,
                  ApplyStage(s.pixelShader, snapshot.pixelShader),
                  ApplyStage(s.vertexShader, snapshot.vertexShader),
                  [snapshot.vertexBuffer] + s.vertexBuffers[1..])
  }

  /** The views `Restore` releases after rebinding them: render target 0, then the depth-stencil view, each only when bound. */
  function ReleasedViews(snapshot: Snapshot): (r: seq<Handle>)
    ensures |r| <= 2
    ensures forall h :: h in r <==> Some(h) == snapshot.renderTarget || Some(h) == snapshot.fixed.depthStencilView
  {
    (if snapshot.renderTarget.Some? then [snapshot.renderTarget.value] else [])
    + (if snapshot.fixed.depthStencilView.Some? then [snapshot.fixed.depthStencilView.value] else [])
  }

  lemma StageRoundTrip(saved: ShaderStage, changed: ShaderStage)
    requires StageHasSlots(saved) && StageHasSlots(changed)
    ensures CaptureStage(ApplyStage(changed, CaptureStage(saved))) == CaptureStage(saved)
  {
    var a := ApplyStage(changed, CaptureStage(saved));
    assert a.constantBuffers[..StageSlots] == saved.constantBuffers[..StageSlots];
    assert a.samplers[..StageSlots] == saved.samplers[..StageSlots];
    assert a.resources[..StageSlots] == saved.resources[..StageSlots];
  }

  /**
   * Save, then any changes to the context, then Restore: every binding the snapshot
   * covers is back at its value at Save time.
   */
  lemma RestoreUndoesChanges(saved: PipelineState, changed: PipelineState)
    requires ContextValid(saved) && ContextValid(changed)
    ensures Capture(Apply(changed, Capture(saved))) == Capture(saved)
  {
    StageRoundTrip(saved.pixelShader, changed.pixelShader);
    StageRoundTrip(saved.vertexShader, changed.vertexShader);
  }

  lemma StageUnchanged(stage: ShaderStage)
    requires StageHasSlots(stage)
    ensures ApplyStage(stage, CaptureStage(stage)) == stage
  {
    assert stage.constantBuffers[..StageSlots] + stage.constantBuffers[StageSlots..] == stage.constantBuffers;
    assert stage.samplers[..StageSlots] + stage.samplers[StageSlots..] == stage.samplers;
    assert stage.resources[..StageSlots] + stage.resources[StageSlots..] == stage.resources;
  }

  /** Restoring right after saving leaves the context as it was. */
  lemma RestoreAfterSaveChangesNothing(s: PipelineState)
    requires ContextValid(s)
    ensures Apply(s, Capture(s)) == s
  {
    StageUnchanged(s.pixelShader);
    StageUnchanged(s.vertexShader);
    assert [s.vertexBuffers[0]] + s.vertexBuffers[1..] == s.vertexBuffers;
  }

  /** Restore leaves the slots it does not capture alone: stage slots from 4 on and vertex buffers from 1 on. */
  lemma RestoreKeepsOtherSlots(s: PipelineState, snapshot: Snapshot)
    requires ContextValid(s) && SnapshotValid(snapshot)
    ensures var r := Apply(s, snapshot);
      && r.pixelShader.constantBuffers[StageSlots..] == s.pixelShader.constantBuffers[StageSlots..]
      && r.pixelShader.samplers[StageSlots..] == s.pixelShader.samplers[StageSlots..]
      && r.pixelShader.resources[StageSlots..] == s.pixelShader.resources[StageSlots..]
      && r.vertexShader.constantBuffers[StageSlots..] == s.vertexShader.constantBuffers[StageSlots..]
      && r.vertexShader.samplers[StageSlots..] == s.vertexShader.samplers[StageSlots..]
      && r.vertexShader.resources[StageSlots..] == s.vertexShader.resources[StageSlots..]
      && r.vertexBuffers[1..] == s.vertexBuffers[1..]
      && |r.vertexBuffers| == |s.vertexBuffers|
  {
    var r := Apply(s, snapshot);
    assert r.pixelShader.constantBuffers[StageSlots..] == s.pixelShader.constantBuffers[StageSlots..];
    assert r.pixelShader.samplers[StageSlots..] == s.pixelShader.samplers[StageSlots..];
    assert r.pixelShader.resources[StageSlots..] == s.pixelShader.resources[StageSlots..];
    assert r.vertexShader.constantBuffers[StageSlots..] == s.vertexShader.constantBuffers[StageSlots..];
    assert r.vertexShader.samplers[StageSlots..] == s.vertexShader.samplers[StageSlots..];
    assert r.vertexShader.resources[StageSlots..] == s.vertexShader.resources[StageSlots..];
    assert r.vertexBuffers[1..] == s.vertexBuffers[1..];
  }

  /** Restoring the same snapshot twice binds the same as restoring it once. */
  lemma RestoreTwiceBindsTheSame(s: PipelineState, snapshot: Snapshot)
    requires ContextValid(s) && SnapshotValid(snapshot)
    ensures Apply(Apply(s, snapshot), snapshot) == Apply(s, snapshot)
  {
    var once := Apply(s, snapshot);
    assert once.pixelShader.constantBuffers[StageSlots..] == s.pixelShader.constantBuffers[StageSlots..];
    assert once.pixelShader.samplers[StageSlots..] == s.pixelShader.samplers[StageSlots..];
    assert once.pixelShader.resources[StageSlots..] == s.pixelShader.resources[StageSlots..];
    assert once.vertexShader.constantBuffers[StageSlots..] == s.vertexShader.constantBuffers[StageSlots..];
    assert once.vertexShader.samplers[StageSlots..] == s.vertexShader.samplers[StageSlots..];
    assert once.vertexShader.resources[StageSlots..] == s.vertexShader.resources[StageSlots..];
    assert once.vertexBuffers[1..] == s.vertexBuffers[1..];
  }

  /** The immediate context: its bindings, and the views released through it so far. */
  class DeviceContext {
    var state: PipelineState
    var releasedViews: seq<Handle>

    constructor (state: PipelineState)
      requires ContextValid(state)
      ensures this.state == state && releasedViews == []
    {
      this.state := state;
      releasedViews := [];
    }
  }

  /** The D3D11 helper with its single snapshot slot. */
  class DeviceStateHelperD3D11 {
    const device: DeviceContext
    var saved: Option<Snapshot>

    ghost predicate Valid()
      reads this, device
    {
      ContextValid(device.state) && (saved.Some? ==> SnapshotValid(saved.value))
    }

    constructor (device: DeviceContext)
      requires ContextValid(device.state)
      ensures Valid() && this.device == device && saved == Option.None
    {
      this.device := device;
      saved := Option.None;
    }

    /** Takes the snapshot, replacing any earlier one. */
    method Save()
      requires Valid()
      modifies this
      ensures Valid() && saved == Some(Capture(device.state))
    {
      saved := Some(Capture(device.state));
    }

    /** Writes the snapshot back into the context, then releases render target 0 and the depth-stencil view it held. */
    method Restore()
      requires Valid() && saved.Some?
      modifies device
      ensures Valid()
      ensures device.state == Apply(old(device.state), saved.value)
      ensures device.releasedViews == old(device.releasedViews) + ReleasedViews(saved.value)
    {
      var snapshot := saved.value;
      device.state := Apply(device.state, snapshot);
      if snapshot.renderTarget.Some? {
        device.releasedViews := device.releasedViews + [snapshot.renderTarget.value];
      }
      if snapshot.fixed.depthStencilView.Some? {
        device.releasedViews := device.releasedViews + [snapshot.fixed.depthStencilView.value];
      }
    }

    /** Saves the state and hands out a restorer bound to this helper. */
    method Remember() returns (restorer: DeviceStateRestorer)
      requires Valid()
      modifies this
      ensures Valid() && saved == Some(Capture(device.state))
      ensures fresh(restorer) && restorer.state == this
    {
      Save();
      restorer := new DeviceStateRestorer(this);
    }
  }

  /** Restores its helper's snapshot when disposed; it keeps no disposed flag, so every disposal restores again. */
  class DeviceStateRestorer {
    const state: DeviceStateHelperD3D11

    constructor (state: DeviceStateHelperD3D11)
      ensures this.state == state
    {
      this.state := state;
    }

    method Dispose()
      requires state.Valid() && state.saved.Some?
      modifies state.device
      ensures state.Valid()
      ensures state.device.state == Apply(old(state.device.state), state.saved.value)
      ensures state.device.releasedViews == old(state.device.releasedViews) + ReleasedViews(state.saved.value)
    {
      state.Restore();
    }
  }

  /**
   * A `Remember` ... `Dispose` bracket around a body that leaves the context in
   * `afterBody`: the captured bindings come back, the others keep the body's values.
   */
  method RenderWithSavedState(helper: DeviceStateHelperD3D11, afterBody: PipelineState)
    requires helper.Valid() && ContextValid(afterBody)
    modifies helper, helper.device
    ensures helper.Valid()
    ensures Capture(helper.device.state) == Capture(old(helper.device.state))
    ensures helper.device.state == Apply(afterBody, Capture(old(helper.device.state)))
    ensures helper.device.releasedViews == old(helper.device.releasedViews) + ReleasedViews(Capture(old(helper.device.state)))
  {
    var restorer := helper.Remember();
    helper.device.state := afterBody;
    restorer.Dispose();
    RestoreUndoesChanges(old(helper.device.state), afterBody);
  }
}
