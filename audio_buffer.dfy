/**
 * The fixed sample buffer of `src/audio_buffer.rs`: one array of samples,
 * zeroed at construction and never resized. Samples are `real`, so the
 * arithmetic the processors do on them is exact.
 */
module AudioBuffers {

  /** Every sample of `s` is 0.0. */
  ghost predicate AllZero(s: seq<real>)
  {
    forall i :: 0 <= i < |s| ==> s[i] == 0.0
  }

  class AudioBuffer {
    /** The storage; a `const` reference, so the buffer's length is fixed for its whole life. */
    const storage: array<real>

    /** `AudioBuffer::new`: `frameCount` samples, all 0.0. */
    constructor (frameCount: nat)
      ensures fresh(storage)
      ensures Len() == frameCount
      ensures AllZero(AsSlice())
    {
      storage := new real[frameCount](_ => 0.0);
    }

    /** `len`: the number of samples, fixed at construction. */
    function Len(): (n: nat)
      ensures n == storage.Length
    {
      storage.Length
    }

    /** `as_slice`: the samples, as a read-only view of length `Len()`. */
    function AsSlice(): (view: seq<real>)
      reads storage
      ensures |view| == Len()
      ensures forall i :: 0 <= i < |view| ==> view[i] == storage[i]
    {
      storage[..]
    }

    /** `as_mut_slice`: write access to the same storage that `AsSlice` shows. */
    method AsMutSlice() returns (view: array<real>)
      ensures view == storage && view.Length == Len()
    {
      view := storage;
    }
  }

  /**
   * A write through the mutable view at index `i` is what the immutable view
   * shows at `i` afterwards and every other sample is unchanged.
   */
  method WriteThroughMutSlice(buffer: AudioBuffer, i: nat, x: real)
    requires i < buffer.Len()
    modifies buffer.storage
    ensures buffer.AsSlice() == old(buffer.AsSlice())[i := x]
  {
    var view := buffer.AsMutSlice();
    view[i] := x;
  }
}
