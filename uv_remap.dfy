// Stereo UV remapping: a flat, interleaved (u, v) texture-coordinate buffer
// of a plane is rewritten in place so that the plane shows one half of a
// top/bottom frame-packed stereo video. Only the v-coordinates (odd indices)
// change: the right eye gets v/2 (band 0 .. 0.5), the left eye v/2 + 0.5
// (band 0.5 .. 1).
module UVRemap {

  /** The amount added to a halved v-coordinate: 0 for the right eye, 0.5 for the left. */
  function Offset(isRight: bool): real
  {
    if isRight then 0.0 else 0.5
  }

  /** The vertical texture band an eye is meant to sample. */
  predicate InEyeBand(v: real, isRight: bool)
  {
    if isRight then 0.0 <= v <= 0.5 else 0.5 <= v <= 1.0
  }

  /** The new value of one v-coordinate. A v in the plane's range 0 .. 1 is
    * sent into the eye's band, and only such a v is. */
  function RemapV(v: real, isRight: bool): (r: real)
    ensures 0.0 <= v <= 1.0 <==> InEyeBand(r, isRight)
  {
    v / 2.0 + Offset(isRight)
  }

  /** The inverse of RemapV: which original v-coordinate a remapped value came from. */
  function UnmapV(r: real, isRight: bool): (v: real)
    ensures RemapV(v, isRight) == r
    ensures forall w :: RemapV(w, isRight) == r ==> w == v
  {
    (r - Offset(isRight)) * 2.0
  }

  /** Every v-coordinate of a UV buffer lies in 0 .. 1, as on a fresh plane. */
  predicate UnitV(s: seq<real>)
  {
    forall k :: 0 <= k < |s| && k % 2 == 1 ==> 0.0 <= s[k] <= 1.0
  }

  /** Every v-coordinate of a UV buffer lies in the eye's band. */
  predicate EyeBandV(s: seq<real>, isRight: bool)
  {
    forall k :: 0 <= k < |s| && k % 2 == 1 ==> InEyeBand(s[k], isRight)
  }

  /** Reference definition of the whole-buffer transform, one (u, v) pair at a
    * time; a trailing lone u of an odd-length buffer is kept as it is. */
  function Remapped(s: seq<real>, isRight: bool): (r: seq<real>)
    ensures |r| == |s|
    decreases |s|
  {
    if |s| < 2 then s
    else [s[0], RemapV(s[1], isRight)] + Remapped(s[2..], isRight)
  }

  /** Pointwise meaning of Remapped: even slots (u-coordinates) keep their
    * value, each odd slot is its own old value remapped. */
  lemma {:induction false} RemappedAt(s: seq<real>, isRight: bool, k: nat)
    requires k < |s|
    ensures Remapped(s, isRight)[k] == if k % 2 == 1 then RemapV(s[k], isRight) else s[k]
    decreases |s|
  {
    if k >= 2 {
      RemappedAt(s[2..], isRight, k - 2);
    }
  }

  /** Pairs are remapped independently: a buffer split after a whole number
    * of pairs is remapped part by part. */
  lemma {:induction false} RemappedAppend(s: seq<real>, t: seq<real>, isRight: bool)
    requires |s| % 2 == 0
    ensures Remapped(s + t, isRight) == Remapped(s, isRight) + Remapped(t, isRight)
    decreases |s|
  {
    if |s| == 0 {
      assert s + t == t;
    } else {
      var u := s + t;
      assert u[0] == s[0] && u[1] == s[1] && u[2..] == s[2..] + t;
      RemappedAppend(s[2..], t, isRight);
    }
  }

  /** Each new value depends only on its own old value and the flag. */
  lemma RemappedLocal(s: seq<real>, t: seq<real>, isRight: bool, k: nat)
    requires |s| == |t| && k < |s| && s[k] == t[k]
    ensures Remapped(s, isRight)[k] == Remapped(t, isRight)[k]
  {
    RemappedAt(s, isRight, k);
    RemappedAt(t, isRight, k);
  }

  /** A buffer whose v-coordinates start in 0 .. 1 ends with them in the eye's
    * band, and only such a buffer does. */
  lemma RemappedBands(s: seq<real>, isRight: bool)
    ensures UnitV(s) <==> EyeBandV(Remapped(s, isRight), isRight)
  {
    forall k | 0 <= k < |s| && k % 2 == 1
      ensures 0.0 <= s[k] <= 1.0 <==> InEyeBand(Remapped(s, isRight)[k], isRight)
    {
      RemappedAt(s, isRight, k);
    }
  }

  /** The transform leaves a buffer unchanged exactly when every v-coordinate
    * is already the fixed point 2 * Offset (0 for the right eye, 1 for the
    * left); in particular a buffer of length 0 or 1 is never changed. */
  lemma {:induction false} RemappedUnchangedIff(s: seq<real>, isRight: bool)
    ensures Remapped(s, isRight) == s <==>
            forall k :: 0 <= k < |s| && k % 2 == 1 ==> s[k] == 2.0 * Offset(isRight)
  {
    var r := Remapped(s, isRight);
    forall k | 0 <= k < |s|
      ensures r[k] == if k % 2 == 1 then RemapV(s[k], isRight) else s[k]
    {
      RemappedAt(s, isRight, k);
    }
    if forall k :: 0 <= k < |s| && k % 2 == 1 ==> s[k] == 2.0 * Offset(isRight) {
      assert forall k :: 0 <= k < |s| ==> r[k] == s[k];
    }
  }

  /** The transform is not idempotent: a second application halves the
    * v-coordinates again, and agrees with one application only on buffers
    * whose every v-coordinate is the eye's fixed point. */
  lemma {:induction false} RemappedTwice(s: seq<real>, isRight: bool)
    ensures forall k :: 0 <= k < |s| && k % 2 == 1 ==>
              Remapped(Remapped(s, isRight), isRight)[k] == s[k] / 4.0 + 1.5 * Offset(isRight)
    ensures Remapped(Remapped(s, isRight), isRight) == Remapped(s, isRight) <==>
            forall k :: 0 <= k < |s| && k % 2 == 1 ==> s[k] == 2.0 * Offset(isRight)
  {
    var r := Remapped(s, isRight);
    forall k | 0 <= k < |s|
      ensures r[k] == if k % 2 == 1 then RemapV(s[k], isRight) else s[k]
      ensures Remapped(r, isRight)[k] == if k % 2 == 1 then RemapV(r[k], isRight) else r[k]
    {
      RemappedAt(s, isRight, k);
      RemappedAt(r, isRight, k);
    }
    RemappedUnchangedIff(r, isRight);
  }

  /** Two worked buffers: a left-eye and a right-eye remap of small (u, v) buffers. */
  lemma RemappedExamples()
    ensures Remapped([0.0, 1.0, 0.0, 0.0], false) == [0.0, 1.0, 0.0, 0.5]
    ensures Remapped([0.0, 1.0, 0.0, 1.0], true) == [0.0, 0.5, 0.0, 0.5]
  {
  }

  /** A one-segment plane's four corners, (0,1) (1,1) (0,0) (1,0), remapped per eye. */
  lemma RemappedPlaneCorners()
    ensures Remapped([0.0, 1.0, 1.0, 1.0, 0.0, 0.0, 1.0, 0.0], false)
            == [0.0, 1.0, 1.0, 1.0, 0.0, 0.5, 1.0, 0.5]
    ensures Remapped([0.0, 1.0, 1.0, 1.0, 0.0, 0.0, 1.0, 0.0], true)
            == [0.0, 0.5, 1.0, 0.5, 0.0, 0.0, 1.0, 0.0]
  {
  }

  /** modifyUV: rewrite every v-coordinate (odd index) of the buffer in place
    * with RemapV, stepping from index 1 by 2; u-coordinates and a trailing
    * lone entry are untouched. */
  method ModifyUV(arr: array<real>, isRight: bool)
    modifies arr
    ensures arr[..] == Remapped(old(arr[..]), isRight)
    ensures forall k :: 0 <= k < arr.Length ==>
              arr[k] == if k % 2 == 1 then RemapV(old(arr[k]), isRight) else old(arr[k])
  {
    var i := 1;
    while i < arr.Length
      invariant i % 2 == 1
      invariant forall k :: 0 <= k < arr.Length && k < i ==>
                  arr[k] == if k % 2 == 1 then RemapV(old(arr[k]), isRight) else old(arr[k])
      invariant forall k :: i <= k < arr.Length ==> arr[k] == old(arr[k])
    {
      arr[i] := (arr[i] / 2.0) + (if isRight then 0.0 else 0.5);
      i := i + 2;
    }
    ghost var was := old(arr[..]);
    forall k | 0 <= k < arr.Length
      ensures arr[..][k] == Remapped(was, isRight)[k]
    {
      RemappedAt(was, isRight, k);
    }
  }
}
