# Stereo UV remapping for a top/bottom 3D video plane

The program shows a frame-packed stereo video (both eye images stacked top
and bottom in one frame) on two planes, one per eye. Each plane's texture
coordinates are a flat buffer of interleaved `(u, v)` pairs. `modifyUV`
rewrites that buffer in place so that the plane samples only one vertical
half of the video frame:

- it visits only the odd indices (the v-coordinates), from index 1 in steps of 2;
- it rewrites each one as `v/2` for the right eye and `v/2 + 0.5` for the left eye;
- the u-coordinates, and a trailing lone entry of an odd-length buffer, keep their values.

A plane's v-coordinates start in `0 .. 1`, so the right eye ends in the band
`0 .. 0.5` and the left eye in `0.5 .. 1`. At startup the program builds two
separate planes and applies the transform once to each buffer: `false` for
the left plane, `true` for the right one.

The model is in two modules:

- `UVRemap` (`uv_remap.dfy`): the per-coordinate map `RemapV` and its inverse,
  a reference definition `Remapped` of the whole-buffer result on sequences
  (one pair at a time), lemmas about it, and `ModifyUV`, the in-place loop
  over an `array<real>`, proved to leave the array equal to `Remapped` of its
  old contents.
- `SceneSetup` (`scene_setup.dfy`): the startup step that remaps the left and
  right buffers, and what that means for the two eyes together.

UV values are modelled as `real`. The code does what the source's own
comment asks for (src/index.ts:11): left-eye v in `0.5 .. 1`, right-eye v in
`0 .. 0.5`. The comment also says the lower half of the video is the left
eye's (src/index.ts:10). Whether the band `0.5 .. 1` is the lower half of the
picture depends on the texture orientation used by the rendering library,
which is not part of this model.

## Model

| member | source | states |
|---|---|---|
| UVRemap.RemapV | src/index.ts:18-19 | a v-coordinate lies in `0 .. 1` exactly when its new value lies in the eye's band (`0 .. 0.5` right, `0.5 .. 1` left) |
| UVRemap.UnmapV | src/index.ts:19 | the per-coordinate map is invertible: the returned value is the one and only v that remaps to the given value |
| UVRemap.Remapped | src/index.ts:18-20 | the rewrite never changes the buffer's length |
| UVRemap.RemappedAt | src/index.ts:12-19 | every even slot keeps its old value; every odd slot becomes `old/2` for the right eye and `old/2 + 0.5` for the left |
| UVRemap.RemappedAppend | src/index.ts:18-20 | pairs are rewritten independently: remapping a buffer split after a whole number of pairs equals remapping the parts |
| UVRemap.RemappedLocal | src/index.ts:18-20 | each new entry depends only on its own old value and the eye flag, not on any other entry |
| UVRemap.RemappedBands | src/index.ts:9-19 | all v-coordinates of a buffer lie in `0 .. 1` before the call exactly when all lie in the eye's band after it |
| UVRemap.RemappedUnchangedIff | src/index.ts:18-20 | the buffer is left unchanged exactly when every v already equals the eye's fixed point (0 right, 1 left); buffers of length 0 or 1 are always unchanged |
| UVRemap.RemappedTwice | src/index.ts:18-19 | a second application maps each v to `v/4 + 1.5 * offset`, and equals a single application only on buffers of fixed points: the transform must run once per buffer |
| UVRemap.ModifyUV | src/index.ts:8-21 | the in-place loop leaves the array equal to `Remapped` of its old contents: same length, even slots untouched, odd slots remapped |
| UVRemap.RemappedExamples | src/index.ts:18-19 | two worked buffers: `[0,1,0,0]` for the left eye gives `[0,1,0,0.5]`; `[0,1,0,1]` for the right eye gives `[0,0.5,0,0.5]` |
| UVRemap.RemappedPlaneCorners | src/index.ts:13-19 | the corner buffer `[0,1, 1,1, 0,0, 1,0]` of a one-segment plane becomes `[0,1, 1,1, 0,0.5, 1,0.5]` for the left eye and `[0,0.5, 1,0.5, 0,0, 1,0]` for the right |
| SceneSetup.SetupEyeBuffers | src/index.ts:39-47 | the two distinct plane buffers are remapped once each, the left with the left-eye offset and the right with the right-eye offset; each ends in its eye's band exactly when it started in `0 .. 1`; when both started in `0 .. 1`, a left and a right v-value after setup are equal only at the seam 0.5, from left v = 0 and right v = 1 |
| SceneSetup.EyeBuffersSplitFrame | src/index.ts:9-19 | on values: remapped plane buffers in `0 .. 1` give left v-values in `0.5 .. 1` and right v-values in `0 .. 0.5`, and a left and a right value coincide only at the seam 0.5 (from left v = 0 and right v = 1) |

## Left out

- Floating-point precision: the model uses exact `real` arithmetic, while the source computes `v / 2 + offset` in 64-bit floats and stores it into the plane's 32-bit float buffer, which rounds. Halving is exact there except for subnormal values (the smallest one halves to 0). The left-eye result `v/2 + 0.5` rounds whenever v is not a multiple of 2^-23, which is most ordinary in-range values (0.3 gives 0.64999998 where the model gives 0.65). A plane's own v-values, 0 and 1, are exact.
- Band bounds under rounding: the bounds that UVRemap.RemappedBands and SceneSetup.SetupEyeBuffers state still hold for the 32-bit results, because rounding is monotone and the bounds 0, 0.5 and 1 are representable.
- SceneSetup.SetupEyeBuffers, SceneSetup.EyeBuffersSplitFrame: the "equal only at the seam, from left v = 0" clause holds of exact arithmetic only; in 32-bit floats a tiny positive left v rounds to exactly 0.5 as well.
- The rendering library: scene, meshes, plane geometry, video and canvas textures, the renderer, and the visibility layers assigned to each plane (src/index.ts:37-67). Their behaviour is not visible in this repository. The setup method takes the two planes' UV buffers as arrays instead.
- `textImage` and the caption placement (src/index.ts:23-35, 58-64): they rest on canvas font measurements, which are floating-point values from a browser call.
- `setSize` and the resize listener (src/index.ts:70-79): they read window globals and call into the renderer.
- The animation loop, the VR entry button and the immersive session (src/index.ts:76-87): browser rendering plumbing.
- The click handler that requests device-orientation permission and starts playback (src/index.ts:89-94): asynchronous browser I/O.
