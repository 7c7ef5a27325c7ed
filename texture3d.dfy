/**
 * The volume texture: construction with a defaulted dimension vector and
 * the guarded one-time initialisation. The GL calls are not modelled: the
 * maximum 3D texture size, the two GL error checks and the generated handle
 * are parameters of `Init`.
 */
module Textures {

  /** The dimensions a texture is built with: a vector of any length other than 3 becomes 1x1x1. */
  function DefaultDims(dim: seq<nat>): (r: seq<nat>)
    ensures |r| == 3
    ensures |dim| == 3 ==> r == dim
    ensures |dim| != 3 ==> forall i :: 0 <= i < 3 ==> r[i] == 1
  {
    if |dim| != 3 then [1, 1, 1] else dim
  }

  /** Defaulting is idempotent: a defaulted vector is kept as it is. */
  lemma DefaultDimsIdempotent(dim: seq<nat>)
    ensures DefaultDims(DefaultDims(dim)) == DefaultDims(dim)
  {
  }

  /** Every dimension is at most the maximum texture size. */
  predicate Fits(dim: seq<nat>, maxTextureSize: nat): (r: bool)
    requires |dim| == 3
    ensures r <==> forall i :: 0 <= i < |dim| ==> dim[i] <= maxTextureSize
  {
    dim[0] <= maxTextureSize && dim[1] <= maxTextureSize && dim[2] <= maxTextureSize
  }

  class Texture3D {
    const dim: seq<nat>
    var initialized: bool
    var handle: nat

    /**
     * `New`: a texture with defaulted dimensions. The constructor only
     * forwards the dimensions to the base texture class, which is not part
     * of this model; the model takes the base state to be not initialized,
     * with handle 0.
     */
    constructor (dim: seq<nat>)
      ensures this.dim == DefaultDims(dim)
      ensures !initialized && handle == 0
    {
      this.dim := DefaultDims(dim);
      initialized := false;
      handle := 0;
    }

    /**
     * Initialises the texture once. On an initialized texture it succeeds
     * and changes nothing. Otherwise it fails untouched when a dimension
     * exceeds `maxTextureSize` or the first GL check (`enableCheckOk`)
     * fails; else it takes the generated handle `newHandle` and becomes
     * initialized, succeeding exactly when the final GL check
     * (`finalCheckOk`) does.
     */
    method Init(maxTextureSize: nat, enableCheckOk: bool, newHandle: nat, finalCheckOk: bool) returns (ok: bool)
      requires |dim| == 3
      modifies this`initialized, this`handle
      ensures old(initialized) ==> ok && initialized && handle == old(handle)
      ensures !old(initialized) && (!Fits(dim, maxTextureSize) || !enableCheckOk) ==>
        !ok && !initialized && handle == old(handle)
      ensures !old(initialized) && Fits(dim, maxTextureSize) && enableCheckOk ==>
        initialized && handle == newHandle && ok == finalCheckOk
    {
      if initialized {
        return true;
      }
      if dim[0] > maxTextureSize || dim[1] > maxTextureSize || dim[2] > maxTextureSize {
        return false;
      }
      if !enableCheckOk {
        return false;
      }
      handle := newHandle;
      initialized := true;
      ok := finalCheckOk;
    }
  }

  /** A second Init after a successful size check is a no-op that reports success. */
  method InitTwice(t: Texture3D, maxTextureSize: nat, handle1: nat, handle2: nat, finalCheckOk: bool)
    returns (first: bool, second: bool)
    requires |t.dim| == 3 && !t.initialized && Fits(t.dim, maxTextureSize)
    modifies t
    ensures first == finalCheckOk && second
    ensures t.initialized && t.handle == handle1
  {
    first := t.Init(maxTextureSize, true, handle1, finalCheckOk);
    second := t.Init(maxTextureSize, true, handle2, true);
  }
}
