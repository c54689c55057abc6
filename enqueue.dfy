/**
 * The scene component that puts the outline pass into the renderer's queue
 * for every camera that should show outlines, and its enable/disable
 * lifecycle against the pipeline's begin-camera-rendering event.
 */
module Enqueue {
  import opened Engine
  import opened OutlinePass

  /**
   * Whether a camera of type `cameraType` gets the outline pass: never the
   * preview and reflection cameras, the scene view only when opted in.
   */
  predicate ShouldEnqueue(cameraType: CameraType, renderInSceneView: bool)
  {
    !(cameraType == Preview || cameraType == Reflection)
    && (renderInSceneView || cameraType != SceneView)
  }

  /** The camera filter, stated camera type by camera type. */
  lemma ShouldEnqueueByType(cameraType: CameraType, renderInSceneView: bool)
    ensures cameraType == Preview || cameraType == Reflection ==> !ShouldEnqueue(cameraType, renderInSceneView)
    ensures cameraType == SceneView ==> (ShouldEnqueue(cameraType, renderInSceneView) <==> renderInSceneView)
    ensures cameraType == Game || cameraType == VR ==> ShouldEnqueue(cameraType, renderInSceneView)
  {
  }

  /** The per-camera renderer, reduced to the queue of passes enqueued for this frame. */
  class ScriptableRenderer {
    var activeQueue: seq<OutlineRenderPass>

    constructor ()
      ensures activeQueue == []
    {
      activeQueue := [];
    }

    method EnqueuePass(pass: OutlineRenderPass)
      modifies this
      ensures activeQueue == old(activeQueue) + [pass]
    {
      activeQueue := activeQueue + [pass];
    }
  }

  /**
   * The pipeline's begin-camera-rendering event, reduced to its subscribers:
   * one entry per subscription, so subscribing twice needs two removals.
   */
  class RenderPipelineManager {
    var beginCameraRendering: multiset<EnqueueOutlinePass>

    constructor ()
      ensures beginCameraRendering == multiset{}
    {
      beginCameraRendering := multiset{};
    }
  }

  class EnqueueOutlinePass {
    var outlineRenderPass: OutlineRenderPass?
    var renderPassEvent: int
    var renderPassEventOffset: int
    var renderInSceneView: bool

    /** The inspector defaults: before transparents, no offset, scene view included. */
    constructor ()
      ensures outlineRenderPass == null
      ensures renderPassEvent == BeforeRenderingTransparents && renderPassEventOffset == 0
      ensures renderInSceneView
    {
      outlineRenderPass := null;
      renderPassEvent := BeforeRenderingTransparents;
      renderPassEventOffset := 0;
      renderInSceneView := true;
    }

    /** Creates a new pass and subscribes this component's handler once more. */
    method OnEnable(manager: RenderPipelineManager)
      modifies this`outlineRenderPass, manager
      ensures outlineRenderPass != null && fresh(outlineRenderPass)
      ensures outlineRenderPass.source == null && outlineRenderPass.shader.None?
      ensures outlineRenderPass.outlineSettings == null && outlineRenderPass.input == {}
      ensures fresh(outlineRenderPass.compute) && outlineRenderPass.compute.name == TargetId
      ensures outlineRenderPass.compute.descriptor.None? && !outlineRenderPass.compute.released
      ensures fresh(outlineRenderPass.draw) && outlineRenderPass.draw.name == OutlinesId
      ensures outlineRenderPass.draw.descriptor.None? && !outlineRenderPass.draw.released
      ensures outlineRenderPass.compute != outlineRenderPass.draw
      ensures outlineRenderPass.computeKernel == 0 && outlineRenderPass.drawKernel == 0
      ensures outlineRenderPass.groupsX == 0 && outlineRenderPass.groupsY == 0
      ensures outlineRenderPass.renderPassEvent == AfterRenderingOpaques
      ensures manager.beginCameraRendering == old(manager.beginCameraRendering) + multiset{this}
      ensures manager.beginCameraRendering[this] == old(manager.beginCameraRendering[this]) + 1
    {
      outlineRenderPass := new OutlineRenderPass();
      manager.beginCameraRendering := manager.beginCameraRendering + multiset{this};
    }

    /**
     * Unsubscribes one subscription of this component's handler (none if it
     * holds none), then disposes the current pass; with no pass yet the
     * dispose call faults after the unsubscription.
     */
    method OnDisable(manager: RenderPipelineManager) returns (faulted: bool)
      modifies manager, outlineRenderPass, if outlineRenderPass == null then {} else {outlineRenderPass.source, outlineRenderPass.compute}
      ensures manager.beginCameraRendering == old(manager.beginCameraRendering) - multiset{this}
      ensures old(manager.beginCameraRendering[this]) >= 1 ==>
        manager.beginCameraRendering[this] == old(manager.beginCameraRendering[this]) - 1
      ensures faulted <==> outlineRenderPass == null
      ensures outlineRenderPass == old(outlineRenderPass)
      ensures outlineRenderPass != null ==>
        && outlineRenderPass.source == null && outlineRenderPass.compute == null
        && outlineRenderPass.shader.None?
        && outlineRenderPass.draw == old(outlineRenderPass.draw)
      ensures outlineRenderPass != null && old(outlineRenderPass.compute) != null ==> old(outlineRenderPass.compute).released
      ensures outlineRenderPass != null && old(outlineRenderPass.source) != null ==> old(outlineRenderPass.source).released
      ensures outlineRenderPass != null ==>
        && outlineRenderPass.computeKernel == old(outlineRenderPass.computeKernel)
        && outlineRenderPass.drawKernel == old(outlineRenderPass.drawKernel)
        && outlineRenderPass.groupsX == old(outlineRenderPass.groupsX)
        && outlineRenderPass.groupsY == old(outlineRenderPass.groupsY)
        && outlineRenderPass.outlineSettings == old(outlineRenderPass.outlineSettings)
        && outlineRenderPass.renderPassEvent == old(outlineRenderPass.renderPassEvent)
        && outlineRenderPass.input == old(outlineRenderPass.input)
      ensures outlineRenderPass != null && outlineRenderPass.draw != null ==>
        outlineRenderPass.draw != old(outlineRenderPass.source) ==>
        outlineRenderPass.draw != old(outlineRenderPass.compute) ==>
        outlineRenderPass.draw.released == old(outlineRenderPass.draw.released)
    {
      manager.beginCameraRendering := manager.beginCameraRendering - multiset{this};
      if outlineRenderPass == null {
        return true;
      }
      outlineRenderPass.Dispose();
      return false;
    }

    /**
     * The begin-camera-rendering handler: for a camera that passes the filter
     * the pass is placed at the configured event plus offset (an unchecked
     * 32-bit sum), asks for its inputs and is enqueued exactly once; any
     * other camera leaves pass and queue untouched. With no pass yet, a
     * camera that passes the filter faults before anything changes.
     */
    method OnBeginCameraRendering(cameraType: CameraType, renderer: ScriptableRenderer) returns (faulted: bool)
      modifies renderer, outlineRenderPass
      ensures !ShouldEnqueue(cameraType, renderInSceneView) ==>
        !faulted && renderer.activeQueue == old(renderer.activeQueue)
        && (outlineRenderPass != null ==>
              outlineRenderPass.renderPassEvent == old(outlineRenderPass.renderPassEvent)
              && outlineRenderPass.input == old(outlineRenderPass.input))
      ensures ShouldEnqueue(cameraType, renderInSceneView) && outlineRenderPass == null ==>
        faulted && renderer.activeQueue == old(renderer.activeQueue)
      ensures ShouldEnqueue(cameraType, renderInSceneView) && outlineRenderPass != null ==>
        && !faulted
        && outlineRenderPass.renderPassEvent == WrapInt32(renderPassEvent + renderPassEventOffset)
        && outlineRenderPass.input == {ColorInput, NormalInput, DepthInput}
        && renderer.activeQueue == old(renderer.activeQueue) + [outlineRenderPass]
      ensures outlineRenderPass != null ==>
        && outlineRenderPass.source == old(outlineRenderPass.source)
        && outlineRenderPass.compute == old(outlineRenderPass.compute)
        && outlineRenderPass.draw == old(outlineRenderPass.draw)
        && outlineRenderPass.shader == old(outlineRenderPass.shader)
      ensures outlineRenderPass != null ==>
        && outlineRenderPass.computeKernel == old(outlineRenderPass.computeKernel)
        && outlineRenderPass.drawKernel == old(outlineRenderPass.drawKernel)
        && outlineRenderPass.groupsX == old(outlineRenderPass.groupsX)
        && outlineRenderPass.groupsY == old(outlineRenderPass.groupsY)
        && outlineRenderPass.outlineSettings == old(outlineRenderPass.outlineSettings)
    {
      if cameraType == Preview || cameraType == Reflection {
        return false;
      }
      if !renderInSceneView && cameraType == SceneView {
        return false;
      }
      if outlineRenderPass == null {
        return true;
      }
      outlineRenderPass.renderPassEvent := WrapInt32(renderPassEvent + renderPassEventOffset);
      outlineRenderPass.Setup();
      renderer.EnqueuePass(outlineRenderPass);
      return false;
    }
  }
}
