// The one-time setup of the two eye planes: each plane has its own UV
// buffer, and each buffer is remapped exactly once, the left one with the
// left-eye offset and the right one with the right-eye offset.
module SceneSetup {
  import opened UVRemap

  /** Remap the left plane's buffer for the left eye, then the right plane's
    * buffer for the right eye. The two planes are built separately, so their
    * buffers are distinct arrays and neither call disturbs the other. */
  method SetupEyeBuffers(leftUV: array<real>, rightUV: array<real>)
    requires leftUV != rightUV
    modifies leftUV, rightUV
    ensures leftUV[..] == Remapped(old(leftUV[..]), false)
    ensures rightUV[..] == Remapped(old(rightUV[..]), true)
    ensures UnitV(old(leftUV[..])) <==> EyeBandV(leftUV[..], false)
    ensures UnitV(old(rightUV[..])) <==> EyeBandV(rightUV[..], true)
    ensures UnitV(old(leftUV[..])) && UnitV(old(rightUV[..])) ==>
              forall i, j :: 0 <= i < leftUV.Length && i % 2 == 1 && 0 <= j < rightUV.Length && j % 2 == 1 &&
                             leftUV[i] == rightUV[j] ==>
                               leftUV[i] == 0.5 && old(leftUV[i]) == 0.0 && old(rightUV[j]) == 1.0
  {
    ModifyUV(leftUV, false);
    ModifyUV(rightUV, true);
    RemappedBands(old(leftUV[..]), false);
    RemappedBands(old(rightUV[..]), true);
  }

  /** On values: two remapped plane buffers in 0 .. 1 sample disjoint
    * halves of the frame except for the shared seam v = 0.5. */
  lemma EyeBuffersSplitFrame(left: seq<real>, right: seq<real>, i: nat, j: nat)
    requires UnitV(left) && UnitV(right)
    requires i < |left| && i % 2 == 1 && j < |right| && j % 2 == 1
    ensures 0.5 <= Remapped(left, false)[i] <= 1.0
    ensures 0.0 <= Remapped(right, true)[j] <= 0.5
    ensures Remapped(left, false)[i] == Remapped(right, true)[j] ==>
              Remapped(left, false)[i] == 0.5 && left[i] == 0.0 && right[j] == 1.0
  {
    RemappedAt(left, false, i);
    RemappedAt(right, true, j);
  }
}
