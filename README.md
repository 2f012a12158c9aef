# Direct3D 12 tutorial framework: a verified model of its sequential core

This project models the parts of a Direct3D 12 tutorial framework that are plain sequential logic, and proves properties about them:

- **Constant-buffer size rounding and the small descriptor records** of the utility header. `CalcConstantBufferByteSize` is modelled in 32-bit `UINT` arithmetic, and the wrap-around is written out. The header also provides `MeshGeometry::DisposeUploaders`, the `Material` and `SubmeshGeometry` defaults, and the `ReleaseCom` macro.
- **The typed upload buffer.** The model covers:
  - the per-element stride;
  - the mapped byte array and `CopyData`, which writes one element in place;
  - the destructor.
- **The two cameras.**
  - The first-person camera keeps an explicit right/up/look basis. Its view matrix is rebuilt lazily, under the `viewDirty` flag. The view-freshness invariant (`ViewFresh`) says that a clean camera's view is the first-person view of its current basis and position. Every method keeps it, and `UpdateViewMatrix` re-establishes it.
  - The orbiting third-person camera keeps a target, a radius and two angles, and clamps the radius and the pitch. Its invariant (`OrbitViewFresh`) says that a clean orbit camera's view is the look-at matrix from its position to the target.
- **The application shell.** The model covers:
  - `MsgProc` as a transition over window messages;
  - switching 4X MSAA on and off;
  - the frame loop of `Run`;
  - the fence counter of `FlushCommandQueue`;
  - the choice of the MSAA sample description.

The modules follow the source files:

| file | module | models |
|---|---|---|
| `geometry.dfy` | `Geometry` | XMFLOAT3/4 and XMFLOAT4X4 as records of reals, and the DirectXMath routines as a `Numerics` bundle of uninterpreted functions |
| `d3d_util.dfy` | `D3dUtil` | Common/d3dUtil.h |
| `upload_buffer.dfy` | `UploadBuffers` | Common/UploadBuffer.h |
| `camera.dfy` | `Cameras` | Camera.cpp |
| `d3d_app.dfy` | `D3dApplication` | Common/d3dApp.cpp |

Some parts of the framework are imperative: the mesh and material records, the upload buffer, both cameras and the application object. These are classes whose methods assign their fields, and each method's frame names only the fields the source assigns. The upload buffer's mapped memory is an `array<bv8>`, and `CopyData` writes it with a loop.

Each calculation is a function with a named result. Every function and method is tied to its specification by its contract. The properties that span several calls are lemmas.

The application shell calls many things outside itself:

- its own `OnResize`;
- the game timer;
- the swap chain;
- Win32, through `PostQuitMessage` and `DefWindowProc`;
- the command queue.

Each of these is recorded as a `Call` value in the object's `calls` log, in the order the source makes the calls. What those calls do is not modelled.

A `UINT` is `D3dUtil.Uint`, a `nat` below 2^32, and unsigned wrap-around is written as `% 2^32`. Floats are exact reals. The floating-point library (normalisation, `tanf`/`sinf`/`cosf`/`atan`, the DirectXMath matrix builders, `XMScalarModAngle`) is a `Geometry.Numerics` value of uninterpreted functions. Every camera result therefore holds for every choice of those routines.

## Model

| member | source | states |
|---|---|---|
| D3dUtil.ClearLowByte | Common/d3dUtil.h:113 | `x & ~255` gives a multiple of 256, at most x, that differs from x by x mod 256 |
| D3dUtil.CalcConstantBufferByteSize | Common/d3dUtil.h:99-114 | The result is always a multiple of 256. For a size up to 0xFFFFFF00 it lies in [size, size+256). Above that bound the 32-bit addition wraps and the result is 0 |
| D3dUtil.RoundingIsLeast | Common/d3dUtil.h:99-114 | Below the wrap bound the result is at most every multiple of 256 that is at least the size, so it is the least one |
| D3dUtil.RoundingIsIdempotent | Common/d3dUtil.h:113 | A multiple of 256 is returned unchanged, so rounding twice equals rounding once |
| D3dUtil.RoundingExample | Common/d3dUtil.h:106-112 | 300 rounds to 512 (the worked example), 256 to 256, 0 to 0, and 0xFFFFFFFF to 0 |
| D3dUtil.ReleaseCom | Common/d3dUtil.h:310-312 | The pointer ends null. The object released is the pointer's old value, and none when it was null |
| D3dUtil.MeshGeometry.constructor | Common/d3dUtil.h:162-195 | No buffers, zero stride and sizes, R16_UINT indices, an empty DrawArgs map |
| D3dUtil.DefaultSubmesh | Common/d3dUtil.h:152-157 | A default SubmeshGeometry has index count, start index and base vertex all 0 |
| D3dUtil.MeshGeometry.DisposeUploaders | Common/d3dUtil.h:217-221 | Both uploader pointers become null. Its frame admits no other field, so the GPU buffers, CPU copies, strides, sizes and DrawArgs are unchanged |
| D3dUtil.Material.constructor | Common/d3dUtil.h:249-284 | The three indices are -1 and NumFramesDirty equals the frame-resource count. The albedo is (1,1,1,1), FresnelR0 is (0.01,0.01,0.01), roughness is 0.25 and the transform is the identity |
| UploadBuffers.ElementByteSize | Common/UploadBuffer.h:12-28 | The stride is sizeof(T) for a plain buffer, and a multiple of 256 for a constant buffer. For a size up to 0xFFFFFF00 it is never below sizeof(T), and for a constant buffer it is less than 256 above sizeof(T) |
| UploadBuffers.UintMul | Common/UploadBuffer.h:37 | A UINT product, as in the width `mElementByteSize*elementCount` here and the offset `elementIndex*mElementByteSize` at line 69: congruent to the exact product modulo 2^32, and equal to it when the product does not overflow |
| UploadBuffers.WidthWrapsForLargeBuffers | Common/UploadBuffer.h:37 | With 2^24+1 constant-buffer elements of 256 bytes the UINT width wraps to 256: element 1 (offset 256) lies past the end, and element 2^24's UINT offset (line 69) equals element 0's |
| UploadBuffers.BufferWidth | Common/UploadBuffer.h:37 | The exact width holds at least one stride when there is at least one element, and equals the as-written width whenever that does not wrap |
| UploadBuffers.ElementInBounds | Common/UploadBuffer.h:67-70 | Every element with an index below the count lies inside the buffer |
| UploadBuffers.Splice | Common/UploadBuffer.h:69 | memcpy keeps the length, writes data into the window, and leaves every byte outside the window unchanged |
| UploadBuffers.Memcpy | Common/UploadBuffer.h:69 | The byte-by-byte copy leaves the array equal to Splice of its old contents |
| UploadBuffers.CopyPreservesOtherElements | Common/UploadBuffer.h:67-70 | Because the stride is at least sizeof(T), writing element j leaves every other element i as it was |
| UploadBuffers.CopyThenRead | Common/UploadBuffer.h:67-70 | Reading an element just written gives back the bytes written |
| UploadBuffers.UploadBuffer.constructor | Common/UploadBuffer.h:9-50 | The stride is set as above. A fresh mapped array of stride times count bytes is allocated, and the resource pointer is set |
| UploadBuffers.UploadBuffer.CopyData | Common/UploadBuffer.h:67-70 | For 0 <= index < count the write is in bounds. The mapped bytes become Splice(old bytes, index*stride, data), and the element read back is data |
| UploadBuffers.UploadBuffer.Destroy | Common/UploadBuffer.h:54-60 | Unmap is called exactly when a resource exists, and the mapped pointer becomes null |
| Cameras.Clamp | Camera.cpp:315 | MathHelper::Clamp, also used at line 371. The result lies in [low, high]. In-range values are returned unchanged, values below give low, and values above give high |
| Cameras.LookAtBasis | Camera.cpp:142-154 | look is the normalised direction to the target, right is the normalised cross product of the up hint and look, and up is orthogonal to look and to right |
| Cameras.LookAtBasisIsOrthogonal | Camera.cpp:142-154 | If normalisation only scales, right, up and look are pairwise orthogonal after LookAt |
| Cameras.Reorthonormalize | Camera.cpp:245-254 | look is normalised, and right is orthogonal to both the new up and look |
| Cameras.ReorthonormalizedBasisIsOrthogonal | Camera.cpp:245-254 | If normalisation only scales, all three basis vectors are pairwise orthogonal |
| Cameras.CrossOfOrthonormalIsUnit | Camera.cpp:251-254 | The cross product of two orthogonal unit vectors is a unit vector |
| Cameras.FirstPersonView | Camera.cpp:256-284 | Columns 0-2 hold right, up and look. Row 3 is (-P·R, -P·U, -P·L, 1). Column 3 is (0,0,0,1) |
| Cameras.FirstPersonViewTransform | Camera.cpp:256-284 | A point q maps to (q·R - P·R, q·U - P·U, q·L - P·L, 1) |
| Cameras.ViewMapsEyeToOrigin | Camera.cpp:256-284 | The camera position maps to the origin |
| Cameras.ViewMapsCameraFrame | Camera.cpp:256-284 | For an orthonormal basis, P + xR + yU + zL maps to (x, y, z, 1): the view matrix inverts the camera frame |
| Cameras.OrbitOffsetOnSphere | Camera.cpp:392-396 | When sin²+cos² = 1, the orbit offset has length radius, so the eye stays on the sphere around the target |
| Cameras.OrbitOffsetAtZeroAngles | Camera.cpp:392-396 | At phi = theta = 0 the eye sits at radius along +z from the target |
| Cameras.OrbitOffset | Camera.cpp:392-394 | The horizontal part of the offset points along azimuth theta, and its squared length is (radius cos phi)^2 when sin^2+cos^2 of theta is 1 |
| Cameras.Camera.constructor | Camera.cpp:9-12 | The lens is (0.25π, 1, 1, 1000). The camera starts at the origin with the identity basis and an identity view, and is dirty, so the view-freshness invariant holds |
| Cameras.ThirdPersonCamera.constructor | Camera.cpp:9-12 | The shared camera state is a fresh default camera: lens (0.25π, 1, 1, 1000) with its window heights and projection, position at the origin, identity basis, identity view, dirty. The orbit starts at the given target, radius and angles, and the orbit view-freshness invariant holds |
| Cameras.Camera.GetView | Camera.cpp:167-171 | The view is returned, and only when it is clean (GetView4x4f at lines 179-183 is the same). Under the view-freshness invariant it is the first-person view of the current basis and position |
| Cameras.Camera.GetProj | Camera.cpp:173-176 | The projection is returned, with no precondition |
| Cameras.Camera.SetPosition | Camera.cpp:28-38 | The position is stored and the view marked dirty, so the view-freshness invariant holds |
| Cameras.Camera.SetLens | Camera.cpp:121-140 | fovY, aspect, zn and zf are stored verbatim. The window heights are 2·z·tan(fovY/2), and the projection comes from these four values. The view-freshness invariant holds afterwards if and only if it held before |
| Cameras.WindowWidthsFollowAspect | Camera.cpp:98-119 | Near and far window widths are aspect times the heights |
| Cameras.Camera.LookAt | Camera.cpp:142-165 | The position is stored, the basis is the look-at basis, and the view is marked dirty, so the view-freshness invariant holds |
| Cameras.Camera.Strafe | Camera.cpp:190-199 | position := position + d·right. The basis is unchanged (frame) and the view is dirty, so the view-freshness invariant holds |
| Cameras.Camera.Walk | Camera.cpp:201-210 | position := position + d·look. The basis is unchanged (frame) and the view is dirty, so the view-freshness invariant holds |
| Cameras.Camera.Pitch | Camera.cpp:212-222 | up and look are rotated about right, right and the position are unchanged, and the view is dirty, so the view-freshness invariant holds |
| Geometry.TransformNormal | Camera.cpp:216-219 | XMVector3TransformNormal transforms a direction as a point would be, minus the translation row |
| Cameras.Camera.RotateY | Camera.cpp:224-235 | The basis is rotated about world y, the position is unchanged, and the view is dirty, so the view-freshness invariant holds |
| Cameras.Camera.UpdateViewMatrix | Camera.cpp:237-288 | The view always ends clean. On a clean camera nothing changes, so two calls equal one. On a dirty one the basis is re-orthonormalised and the view gets the first-person layout, so the view-freshness invariant holds afterwards whenever the camera was dirty or already fresh |
| Cameras.WalkThenView | Camera.cpp:167-288 | After Walk and UpdateViewMatrix, GetView's precondition holds and it returns the first-person view of the moved camera |
| Cameras.ThirdPersonCamera.LookAt | Camera.cpp:290-309 | The look-at basis is set, the target is stored, the radius becomes the eye-target distance, phi and theta are unchanged (frame), and the view is dirty, so the orbit view-freshness invariant holds |
| Cameras.ThirdPersonCamera.Pitch | Camera.cpp:311-318 | phi := Clamp(phi + angle), so phi lies in [0.05, π/2 - 0.01]. The view is dirty, so the orbit view-freshness invariant holds |
| Cameras.ThirdPersonCamera.RotateY | Camera.cpp:320-327 | theta := XMScalarModAngle(theta + angle), and the view is dirty, so the orbit view-freshness invariant holds |
| Cameras.ThirdPersonCamera.Walk | Camera.cpp:329-338 | target += d·(look.x, 0, look.z). target.y and the position are unchanged, and the view is dirty, so the orbit view-freshness invariant holds |
| Cameras.ThirdPersonCamera.Strafe | Camera.cpp:340-349 | target += d·(right.x, 0, right.z). target.y and the position are unchanged, and the view is dirty, so the orbit view-freshness invariant holds |
| Cameras.ThirdPersonCamera.SetTarget3f | Camera.cpp:351-356 | The target is stored and the view is dirty, so the orbit view-freshness invariant holds |
| Cameras.ThirdPersonCamera.AddToRadius | Camera.cpp:368-374 | radius := Clamp(radius + d, 5, 25), so the radius lies in [5, 25]. The view is dirty, so the orbit view-freshness invariant holds |
| Cameras.ThirdPersonCamera.UpdateViewMatrix | Camera.cpp:381-406 | The view always ends clean. On a clean camera nothing changes. On a dirty one the eye is target + orbit offset, the view is the look-at matrix, and right/up/look are read back from its columns. The orbit view-freshness invariant holds afterwards whenever the camera was dirty or already fresh |
| D3dApplication.LoWord | Common/d3dApp.cpp:325 | LOWORD yields a 16-bit word |
| D3dApplication.HiWord | Common/d3dApp.cpp:326 | HIWORD yields a 16-bit word |
| D3dApplication.WordsSplit | Common/d3dApp.cpp:325-326 | A 32-bit parameter is HIWORD·2^16 + LOWORD: the two words recover it |
| D3dApplication.AsShort | Common/d3dApp.cpp:412-424 | GET_X/Y_LPARAM reads the word as a signed short, in [-32768, 32768) and congruent to the word mod 2^16 |
| D3dApplication.IntCast | Common/d3dApp.cpp:430 | `(int)wParam` keeps the low 32 bits as a signed int: in [-2^31, 2^31) and congruent to the parameter mod 2^32 |
| D3dApplication.SizeWithDevice | Common/d3dApp.cpp:327-375 | With a device, WM_SIZE returns 0, keeps the client size, the drag flag and the MSAA setting, calls OnResize at most once, and does nothing for a wParam other than restored, minimised or maximised |
| D3dApplication.HandleMessage | Common/d3dApp.cpp:302-437 | The result is 0, MNC_CLOSE in the high word for WM_MENUCHAR, or DefWindowProc's for an unhandled message. Only activation, size, size-move and key-up messages change the window state, and only WM_SIZE changes the client size |
| D3dApplication.MessageCalls | Common/d3dApp.cpp:302-437 | Handling a message never updates or draws, and DefWindowProc is called exactly for unhandled messages |
| D3dApplication.SetMsaa | Common/d3dApp.cpp:60-70 | The setting becomes the value. The swap chain is recreated and OnResize is called exactly when the value differs from the current one |
| D3dApplication.SetMsaaIdempotent | Common/d3dApp.cpp:60-70 | Setting the same value again changes nothing and calls nothing |
| D3dApplication.ActivatePausesIffInactive | Common/d3dApp.cpp:309-320 | WM_ACTIVATE pauses if and only if the low word is WA_INACTIVE. It stops the timer then and starts it otherwise, and nothing else changes |
| D3dApplication.SizeRecordsDimensions | Common/d3dApp.cpp:323-327 | WM_SIZE always stores the new width and height. With no device that is all it does |
| D3dApplication.MinimizeAndMaximize | Common/d3dApp.cpp:329-341 | SIZE_MINIMIZED pauses, sets minimized, clears maximized and does not resize. SIZE_MAXIMIZED unpauses, clears minimized, sets maximized and resizes once |
| D3dApplication.RestoreCases | Common/d3dApp.cpp:342-375 | SIZE_RESTORED behaves as follows: from minimised or maximised, it clears that flag and paused and resizes once; while dragging, it changes nothing; otherwise it resizes once |
| D3dApplication.SizeMoveBracket | Common/d3dApp.cpp:380-393 | WM_ENTERSIZEMOVE pauses and sets resizing without resizing. WM_EXITSIZEMOVE clears both and resizes once |
| D3dApplication.AtMostOneResizePerMessage | Common/d3dApp.cpp:302-437 | No message calls OnResize more than once |
| D3dApplication.MinimizedMaximizedExclusive | Common/d3dApp.cpp:329-375 | No message makes the window both minimised and maximised: this invariant is preserved |
| D3dApplication.OnlyF2TogglesMsaa | Common/d3dApp.cpp:425-433 | The MSAA setting changes on a message if and only if it is WM_KEYUP whose parameter, truncated to 32 bits by the `(int)` cast, is VK_F2. So KeyUp(2^32+0x71) toggles too |
| D3dApplication.D3DApp.Set4xMsaaState | Common/d3dApp.cpp:60-70 | The new state and the calls made are those of SetMsaa |
| D3dApplication.D3DApp.MsgProc | Common/d3dApp.cpp:302-437 | The new window state, the calls appended and the returned LRESULT are those of the transition for the message. This covers MNC_CLOSE in the high word for WM_MENUCHAR, a 200x200 minimum track size, the mouse handlers, quit on Escape and destroy, and DefWindowProc otherwise |
| D3dApplication.IdleTick | Common/d3dApp.cpp:87-101 | An idle pass ticks the timer first. It updates and draws if and only if the app is not paused |
| D3dApplication.RunningTickCounts | Common/d3dApp.cpp:92-97 | An unpaused idle pass updates exactly once and draws exactly once |
| D3dApplication.HandleEvent | Common/d3dApp.cpp:80-101 | A pass ends the loop if and only if the message is WM_QUIT, and then changes nothing |
| D3dApplication.MessagesNeverDraw | Common/d3dApp.cpp:78-104 | A loop with no idle pass never updates or draws |
| D3dApplication.PumpExitsAtFirstQuit | Common/d3dApp.cpp:78-104 | The loop exits if and only if WM_QUIT arrives, and returns the exit code of the first one |
| D3dApplication.PausedLoopNeverDraws | Common/d3dApp.cpp:87-101 | While paused with no messages the loop never updates or draws, and the state is unchanged |
| D3dApplication.IdlePump | Common/d3dApp.cpp:78-101 | While unpaused with no messages, n passes keep the state, never exit, and make exactly the calls of n idle ticks |
| D3dApplication.CountRepeat | Common/d3dApp.cpp:87-101 | A call made once per idle tick is made n times by n ticks |
| D3dApplication.RunningLoopDrawsEveryTick | Common/d3dApp.cpp:87-101 | While unpaused, n idle passes update and draw exactly n times, and the state is unchanged |
| D3dApplication.D3DApp.PumpOne | Common/d3dApp.cpp:80-101 | One pass of the loop is HandleEvent: dispatch to MsgProc, stop at WM_QUIT, or run an idle pass |
| D3dApplication.D3DApp.Run | Common/d3dApp.cpp:72-105 | The timer is reset, then the loop runs as Pump over the script of queue results. The final state, the calls and the exit code are Pump's |
| D3dApplication.FlushCalls | Common/d3dApp.cpp:620-650 | Signal is sent with the new fence value, and the CPU waits if and only if the GPU's completed value is below it |
| D3dApplication.D3DApp.FlushCommandQueue | Common/d3dApp.cpp:620-650 | mCurrentFence rises by exactly one, and the calls are FlushCalls of the new value |
| D3dApplication.D3DApp.Dispose | Common/d3dApp.cpp:34-38 | The destructor flushes once if a device exists, and does nothing otherwise |
| D3dApplication.D3DApp.DeviceCreated | Common/d3dApp.cpp:542-543 | The device exists and the quality-level count is stored. It must be positive, as the source asserts |
| D3dApplication.D3DApp.constructor | Common/d3dApp.cpp:25-31 | The flags start false, the fence at 0, there is no device and no call has been made |
| D3dApplication.MsaaSampleDesc | Common/d3dApp.cpp:599-600 | For both the swap chain and the depth buffer (lines 221-222): the count is 4 with MSAA on and 1 otherwise. The quality is the level count minus 1 when on, and 0 when off. A count of 0 wraps to 2^32-1 |
| D3dApplication.SampleQualityIsSupported | Common/d3dApp.cpp:599-600 | With a positive level count, the chosen quality is a supported level, below the count |

## Left out

- Floating point: float32 rounding and the library routines are not modelled. XMVector3Normalize, XMVector3Length, the trigonometric functions, XMMatrixRotationAxis/RotationY, XMMatrixPerspectiveFovLH, XMMatrixLookAtLH and XMScalarModAngle are uninterpreted. Unit length and the sin²+cos² identity appear only as explicit hypotheses of the lemmas that need them.
- Camera.h and d3dApp.h are not part of this model. The camera's initial basis (identity axes at the origin, dirty), the application flags (all false) and the fence (0) follow the framework's convention. The third-person camera's initial target, radius and angles are constructor parameters.
- Cameras.ThirdPersonCamera: inherits from Camera in the source. In the model it holds its own Camera (`cam`), and first-person methods are reached through `cam`.
- Cameras.ThirdPersonCamera.RotateY: theta is not shown to stay in a fixed range, because XMScalarModAngle is uninterpreted.
- Cameras.Camera.UpdateViewMatrix: the source writes mView element by element. The model assigns the whole matrix at once.
- Cameras.Camera.GetFovX and the window getters: they are functions of the fields and have no contracts of their own. GetFovX requires nearZ != 0 for the division, and WindowWidthsFollowAspect states the width rule.
- The XMVECTOR/XMFLOAT getter and setter overloads (GetPosition, GetRight3f, GetNearZ and so on) only read or write one field. They are not modelled separately.
- Mesh descriptors: VertexBufferView, IndexBufferView and SubmeshGeometry's bounding box are D3D structure plumbing. They are not modelled, and neither are the Light, MaterialConstants and Texture structs.
- UploadBuffers.UploadBuffer.constructor: allocates the exact (64-bit) product of stride and count, the corrected width of the finding below, not the source's 32-bit product (UintMul); the two agree whenever the product is below 2^32 (BufferWidth).
- UploadBuffers.UploadBuffer.CopyData: writes at the exact (64-bit) offset index times stride, the corrected offset of the finding below, not the source's 32-bit product (UintMul); the two agree whenever the product is below 2^32. Its bounds and no-overlap guarantees are those of the corrected arithmetic.
- UploadBuffers.UploadBuffer.constructor: requires sizeof(T) <= 0xFFFFFF00 so that the rounded stride stays at least sizeof(T).
- UploadBuffers.UploadBuffer.constructor: the element type is not modelled as a type. An element is its bytes, and CreateCommittedResource and Map are replaced by a fresh byte array whose initial contents are whatever the heap holds.
- Outside calls have no effect in the model. The call log records these: OnResize, CreateSwapChain, the timer's Reset/Start/Stop/Tick, PostQuitMessage, the 200x200 minimum track size, the three mouse handlers, DefWindowProc, CalculateFrameStats, Update, Draw, Sleep, and the fence's Signal, SetEventOnCompletion and WaitForSingleObject.
- Other Direct3D and DXGI calls are represented otherwise or not at all. Unmap is the `unmapped` result of UploadBuffers.UploadBuffer.Destroy. Device creation is D3dApplication.D3DApp.DeviceCreated setting `hasDevice`. CreateCommittedResource and Map are the fresh array of the UploadBuffers.UploadBuffer constructor. Descriptor heaps, command lists and allocators, and the work OnResize itself does, are not modelled.
- The GPU and the real wait are not modelled. `completedValue` stands for what GetCompletedValue reports, and the 64-bit fence counter is an unbounded nat (it cannot wrap in practice).
- D3dApplication.D3DApp.Run: the message queue is a finite script of PeekMessage results. When the script ends without WM_QUIT the model returns no exit code, whereas the real loop would keep polling. TranslateMessage is not modelled, and DispatchMessage is the call to MsgProc.
- D3dApplication.D3DApp.DeviceCreated: it covers only the two effects of InitDirect3D on the state. The rest of InitDirect3D, window creation, CalculateFrameStats' text, the adapter logging and the singleton assert of the constructor are Win32/D3D I/O.
- D3dUtil.cpp (LoadBinary, CompileShader, CreateDefaultBuffer, DxException::ToString, IsKeyDown), AnsiToWString and d3dSetDebugName are file, compiler, GPU-upload and Win32 wrappers. They are not part of this model.

## Findings

| source | as written | input that shows it | evidently intended | confidence | as-written member | corrected member |
|---|---|---|---|---|---|---|
| Common/UploadBuffer.h:37 | `mElementByteSize*elementCount` is a product of two 32-bit UINTs, so it wraps modulo 2^32 before it is widened to the UINT64 width, and the offset `elementIndex*mElementByteSize` at line 69 wraps the same way. The buffer can then be smaller than the elements CopyData writes | a constant buffer with 256-byte elements and elementCount = 2^24+1 gets width 256: CopyData(1, ·) writes bytes 256-511 past the end, and CopyData(2^24, ·) overwrites element 0 | the width and offsets are exact (64-bit) products, so every element below elementCount fits and distinct elements do not overlap | not executed | UploadBuffers.UintMul, UploadBuffers.WidthWrapsForLargeBuffers | UploadBuffers.BufferWidth, UploadBuffers.ElementInBounds, UploadBuffers.UploadBuffer.constructor, UploadBuffers.UploadBuffer.CopyData |
