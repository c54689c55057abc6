/**
 * The parts of the host engine that the outline pass touches, reduced to the
 * contracts the pass relies on: colours, textures, render-texture descriptors,
 * render-target handles and their reallocation rule, camera types, render-pass
 * inputs and events, and the 32-bit integer arithmetic of enum offsets.
 */
module Engine {

  datatype Option<T> = None | Some(value: T)

  /** A strictly positive integer, such as a declared compute thread-group size. */
  type Pos = n: int | n >= 1 witness 1

  /** A linear RGBA colour; its channels are unconstrained. */
  datatype Color = Color(r: real, g: real, b: real, a: real)

  const Black := Color(0.0, 0.0, 0.0, 1.0)

  /** An imported texture asset; only its identity matters to the pass. */
  datatype Texture = Texture(id: nat)

  /** Pixel formats: the single-channel 16-bit format the pass names, and every other one by code. */
  datatype RenderTextureFormat = R16 | OtherFormat(code: int)

  /**
   * A render-texture descriptor. `others` stands for every field the pass
   * copies through without looking at it (dimension, mip settings, ...).
   */
  datatype RenderTextureDescriptor = RenderTextureDescriptor(
    width: int,
    height: int,
    colorFormat: RenderTextureFormat,
    depthBufferBits: int,
    enableRandomWrite: bool,
    msaaSamples: int,
    sRGB: bool,
    others: nat)

  /** The camera kinds the engine renders. */
  datatype CameraType = Game | SceneView | Preview | VR | Reflection

  /** Camera buffers a render pass can ask the renderer to produce for it. */
  datatype PassInput = ColorInput | NormalInput | DepthInput | MotionInput

  /** Ordinal positions of render-pass events used here. */
  const AfterRenderingOpaques: int := 300
  const BeforeRenderingTransparents: int := 450

  const Int32Min: int := -0x8000_0000
  const Int32Max: int := 0x7fff_ffff

  /** Unchecked 32-bit two's-complement wrap-around of an integer result. */
  function WrapInt32(x: int): (r: int)
    ensures Int32Min <= r <= Int32Max
    ensures (x - r) % 0x1_0000_0000 == 0
    ensures Int32Min <= x <= Int32Max ==> r == x
  {
    (x + 0x8000_0000) % 0x1_0000_0000 - 0x8000_0000
  }

  /**
   * A render-target handle. `descriptor` is None for a handle that only names
   * a render-target identifier and owns no texture of its own. Reallocation
   * never changes a handle: it releases it and makes a new one.
   */
  class RtHandle {
    const name: string
    const descriptor: Option<RenderTextureDescriptor>
    var released: bool

    constructor (name: string, descriptor: Option<RenderTextureDescriptor>)
      ensures this.name == name && this.descriptor == descriptor && !released
    {
      this.name := name;
      this.descriptor := descriptor;
      released := false;
    }

    method Release()
      modifies this
      ensures released
    {
      released := true;
    }
  }

  /** The reallocation test of the engine's ReAllocateIfNeeded, reduced to the descriptor. */
  predicate NeedsReAlloc(handle: RtHandle?, descriptor: RenderTextureDescriptor)
  {
    handle == null || handle.descriptor != Some(descriptor)
  }

  /**
   * The engine's ReAllocateIfNeeded, taken as a slot contract: a missing
   * handle, or one whose texture was made for another descriptor, is released
   * and replaced by a fresh handle for `descriptor`; otherwise the slot keeps
   * its handle untouched.
   */
  method ReAllocateIfNeeded(handle: RtHandle?, descriptor: RenderTextureDescriptor, name: string)
    returns (result: RtHandle, reallocated: bool)
    modifies handle
    ensures reallocated == NeedsReAlloc(handle, descriptor)
    ensures result.descriptor == Some(descriptor)
    ensures reallocated ==> fresh(result) && !result.released && result.name == name
    ensures reallocated && handle != null ==> handle.released
    ensures !reallocated ==> result == handle && unchanged(handle)
  {
    reallocated := NeedsReAlloc(handle, descriptor);
    if reallocated {
      if handle != null {
        handle.Release();
      }
      result := new RtHandle(name, Some(descriptor));
    } else {
      result := handle;
    }
  }
}
