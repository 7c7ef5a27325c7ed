# Flare raycaster core, modelled in Dafny

This project models the control logic of the Flare volume raycaster:

- **Z-order encoding.** The Morton encoding of brick positions (`zorder.dfy`).
- **OpenCL diagnostics.** The status test and the error-code-to-name table (`clerrors.dfy`).
- **Compute manager.** The manager's setup guards, the command-queue loop, and the name-keyed program registry with the delegators that act through it (`clmanager.dfy`).
- **Frame schedule.** The per-frame schedule as values (`pipeline.dfy`):
  - the calls a frame and the pipeline start-up issue on the compute manager and the brick manager;
  - abort on the first failing call;
  - the choice of double buffer by timestep parity;
  - a replay check of the launch / finish / bind / release discipline.
- **Raycaster object.** The raycaster as an object (`raycaster.dfy`):
  - the ordered precondition checks of `Render`;
  - the animator fallback;
  - the staged calls of `Render`, `LaunchTSPTraversal` and `InitPipeline`, proved against the schedule;
  - the rising-edge key detector over the map of last key states.
- **Volume texture.** Construction with defaulted dimensions and the guarded one-time `Init` (`texture3d.dfy`).

## How external code is treated

Every call into code whose body is not part of this model becomes a parameter.

- **Calls made by the frame.** The calls `Render`, `LaunchTSPTraversal` and `InitPipeline` make on the compute manager and the brick manager are recorded in the raycaster's `calls` trace. Each call is recorded with its program name and its argument slot. Whether a call succeeds is decided by `Env.reply`. The values a blocking read-back returns come from `Env.readBack`.
- **Program objects.** Requests the compute manager forwards to a program object are recorded in its `log`, and `reply` decides their result.
- **OpenCL runtime and GL queries.** The statuses the OpenCL runtime reports, the handles it returns, the maximum 3D texture size and the GL error checks are all method parameters.
- **GL drawing passes.** The GL drawing passes of `Render` appear only as two success flags, `cubePassOk` and `quadPassOk`.
- **Argument slots and queue count.** The kernel argument indices and the number of command queues are declared in headers that are not part of this model. They are constructor parameters.

Two behaviours of the source are worth noting; the model follows the source:

- `InitPlatform` does not fail when zero platforms are found. `InitDevices` does not fail when zero devices are found. A missing device is refused by `CreateContext` (src/CLManager.cpp:90-99).
- An unlisted status such as 0xFFFFFFF is a positive `cl_int`, 268435455. Its message carries that value in decimal, not -1.

## Model

| member | source | states |
|---|---|---|
| `ZOrder.Spread` | src/Raycaster.cpp:35-38 | one coordinate spread through the four masks sets only bits of the final mask (every third bit) |
| `ZOrder.ZOrder` | src/Raycaster.cpp:31-49 | the code always fits in 30 bits |
| `ZOrder.SpreadBit` | src/Raycaster.cpp:35-38 | the spread puts input bit i at bit 3i and clears bits 3i+1 and 3i+2, for i in 0..9 |
| `ZOrder.SpreadLowBits` | src/Raycaster.cpp:35-38 | the spread ignores input bits above bit 9 |
| `ZOrder.CompactSpread` | src/Raycaster.cpp:35-38 | compacting a spread coordinate gives back its low ten bits |
| `ZOrder.ZOrderBits` | src/Raycaster.cpp:35-47 | bit 3i of the code is bit i of x, bit 3i+1 is bit i of y, bit 3i+2 is bit i of z |
| `ZOrder.ZOrderLowBits` | src/Raycaster.cpp:35-47 | the code equals the code of the coordinates masked to ten bits |
| `ZOrder.DecodeZOrder` | src/Raycaster.cpp:35-47 | de-interleaving the code gives back the low ten bits of each coordinate |
| `ZOrder.ZOrderInjective` | src/Raycaster.cpp:35-47 | on coordinates below 1024 different positions get different codes |
| `ClErrors.Decimal` | src/CLManager.cpp:385 | a code is printed as a minus sign exactly when it is negative, followed by at least one decimal digit and nothing else |
| `ClErrors.NatDigits` | src/CLManager.cpp:385 | the decimal digits of a number are nonempty digits with no leading zero |
| `ClErrors.NatDigitsValue` | src/CLManager.cpp:385 | reading the printed digits back gives the number |
| `ClErrors.DecimalRoundTrip` | src/CLManager.cpp:385 | a code printed in decimal, with its minus sign, parses back to the code |
| `ClErrors.ErrorString` | src/CLManager.cpp:286-388 | every listed code (0, -1..-12, -30..-63) gets a CL_ macro name; every other code gets the unknown-code prefix followed by its decimal value |
| `ClErrors.SuccessName` | src/CLManager.cpp:288-301 | the names of codes 0..-6 are CL_ names |
| `ClErrors.RuntimeName` | src/CLManager.cpp:302-313 | the names of codes -7..-12 are CL_ names |
| `ClErrors.InvalidObjectName` | src/CLManager.cpp:314-331 | the names of codes -30..-38 are CL_ names |
| `ClErrors.InvalidProgramName` | src/CLManager.cpp:332-347 | the names of codes -39..-46 are CL_ names |
| `ClErrors.InvalidKernelName` | src/CLManager.cpp:348-365 | the names of codes -47..-55 are CL_ names |
| `ClErrors.InvalidEnqueueName` | src/CLManager.cpp:366-381 | the names of codes -56..-63 are CL_ names |
| `ClErrors.CheckSuccess` | src/CLManager.cpp:275-283 | the status test: success exactly for CL_SUCCESS, failure for every other status; `CheckSuccessMessage` states it in terms of the message table |
| `ClErrors.CheckSuccessMessage` | src/CLManager.cpp:275-290 | the status test succeeds exactly for the code whose message is "CL_SUCCESS" |
| `ClErrors.UnknownMessageCode` | src/CLManager.cpp:382-386 | the code of an unlisted status can be read back from its message |
| `ClErrors.MessagesDistinct` | src/CLManager.cpp:286-388 | a listed and an unlisted code never share a message, nor do two unlisted codes |
| `ClErrors.MessageHead` | src/CLManager.cpp:286-388 | a listed code's message starts with 'C', an unlisted one's with 'U' |
| `ClManager.MemFlag` | src/CLManager.cpp:164-179 | READ_ONLY, WRITE_ONLY and READ_WRITE map to CL_MEM_READ_ONLY, CL_MEM_WRITE_ONLY and CL_MEM_READ_WRITE; an unknown permission maps to nothing |
| `ClManager.GLTarget` | src/CLManager.cpp:181-195 | TEXTURE_2D and TEXTURE_3D map to GL_TEXTURE_2D and GL_TEXTURE_3D; a 1D or unknown kind maps to nothing |
| `ClManager.CheckTexture` | src/CLManager.cpp:161-200 | the first failing check in the order permission, 1D kind, unknown kind, program lookup; accepted exactly when all pass, with the mapped target and flag |
| `ClManager.FirstFailure` | src/CLManager.cpp:116-124 | the stopping index of a loop over statuses: all earlier ones succeed and the one there fails, or it is the end |
| `ClManager.FirstFailureAt` | src/CLManager.cpp:116-124 | an index before which all statuses succeed and at which one fails (or the end) is the stopping index |
| `ClManager.CLManager.constructor` | src/CLManager.cpp:17-18 | a new manager has no programs and one queue slot per queue index; the status and the platform and device counts, which the empty constructor leaves uninitialized, are whatever values are given |
| `ClManager.CLManager.InitPlatform` | src/CLManager.cpp:34-47 | the status and platform count are those the runtime reports; success exactly on CL_SUCCESS, with no check on the count |
| `ClManager.CLManager.InitDevices` | src/CLManager.cpp:50-87 | fails untouched without a platform; otherwise succeeds exactly when the device query and every name and size query succeed, stopping at the first failure with that failure's status recorded |
| `ClManager.CLManager.QueryEach` | src/CLManager.cpp:64-84 | the per-device query loop stops at the first failing device and records its status |
| `ClManager.CLManager.CreateContext` | src/CLManager.cpp:90-113 | fails untouched without a platform, then without a device; otherwise the result is the runtime's status test |
| `ClManager.CLManager.CreateCommandQueue` | src/CLManager.cpp:116-124 | queues are created in index order up to and including the first failure; later slots are not touched and earlier queues are kept |
| `ClManager.CLManager.CreateProgram` | src/CLManager.cpp:126-140 | a registered program of that name is destroyed first; a new, distinct program is then registered under the name whether or not loading its source succeeds |
| `ClManager.CLManager.Delegate` | src/CLManager.cpp:143-148 | an unregistered name fails and forwards nothing; a registered one forwards the request to its program and returns its answer; the registry never changes |
| `ClManager.CLManager.BuildProgram` | src/CLManager.cpp:143-149 | the delegation rule for building the program |
| `ClManager.CLManager.CreateKernel` | src/CLManager.cpp:152-158 | the delegation rule for creating the kernel |
| `ClManager.CLManager.AddTexture` | src/CLManager.cpp:161-203 | a request refused by the ordered checks forwards nothing and fails, even for a registered program; an accepted one forwards the mapped GL target and memory flag |
| `ClManager.CLManager.AddTransferFunction` | src/CLManager.cpp:206-215 | the delegation rule for binding a transfer function |
| `ClManager.CLManager.AddKernelConstants` | src/CLManager.cpp:218-227 | the delegation rule for binding kernel constants |
| `ClManager.CLManager.AddIntArray` | src/CLManager.cpp:230-239 | the delegation rule for binding an int array, with its raw permission |
| `ClManager.CLManager.PrepareProgram` | src/CLManager.cpp:242-248 | the delegation rule for preparing the program |
| `ClManager.CLManager.LaunchProgram` | src/CLManager.cpp:251-257 | the delegation rule for launching the program |
| `ClManager.CLManager.FinishProgram` | src/CLManager.cpp:260-266 | the delegation rule for waiting for the program |
| `ClManager.CLManager.FinishQueue` | src/CLManager.cpp:269-272 | always reports success |
| `Pipeline.Buffers` | src/Raycaster.cpp:214-222 | the current slot is EVEN exactly for an even timestep, and the next slot is always the other one |
| `Pipeline.BuffersAlternate` | src/Raycaster.cpp:214-222 | consecutive timesteps use different current slots, the next slot of t is the current slot of t+1, and the choice repeats every two timesteps |
| `Pipeline.BuffersByParity` | src/Raycaster.cpp:214-222 | two timesteps get the same slots exactly when they have the same parity |
| `Pipeline.ReadBackData` | src/Raycaster.cpp:237-240 | a blocking read-back fills exactly as many ints as the request list holds |
| `Pipeline.TraversalThen` | src/Raycaster.cpp:319-340 | the traversal launch as a script fragment followed by the caller's next calls; `TraversalThenCalls` lists its calls |
| `Pipeline.ReadBackThen` | src/Raycaster.cpp:234-242 | the wait, read-back and release as a script fragment followed by the caller's next calls; `ReadBackThenCalls` lists its calls |
| `Pipeline.RaycastThen` | src/Raycaster.cpp:247-265 | the raycaster launch over the current slot's brick list as a script fragment followed by the caller's next calls |
| `Pipeline.FrameCalls` | src/Raycaster.cpp:229-275 | the reference order of a frame's calls that `Render` is proved against; `FrameCallsList`, `FrameSynchronized` and `FrameSlotDiscipline` state what it contains |
| `Pipeline.InitCalls` | src/Raycaster.cpp:363-382 | the reference order of the start-up calls that `InitPipeline` is proved against; `InitCallsList` and `InitSynchronized` state what it contains |
| `Pipeline.Issued` | src/Raycaster.cpp:229-275 | a run never issues more calls than the script has; `IssuedPrefix` states which prefix it issues |
| `Pipeline.TraversalThenCalls` | src/Raycaster.cpp:319-340 | the traversal launch is SetInt(timestep), AddBuffer(request list, copy, read-write), Prepare, Launch, in that order |
| `Pipeline.ReadBackThenCalls` | src/Raycaster.cpp:234-242 | the read-back is Finish, blocking ReadBuffer of the whole request list, Release, in that order |
| `Pipeline.FrameCallsList` | src/Raycaster.cpp:229-275 | the sixteen calls of a frame in their order, with the programs, argument slots, staging slots and timesteps each one uses |
| `Pipeline.InitCallsList` | src/Raycaster.cpp:363-382 | the nine calls of start-up in their order: traversal of timestep 0, read-back, then EVEN is built and loaded |
| `Pipeline.FrameShape` | src/Raycaster.cpp:229-275 | a frame has sixteen calls and call 6 is the blocking read-back |
| `Pipeline.IssuedPrefix` | src/Raycaster.cpp:229-275 | a run issues a prefix of the script: all of it when every call succeeds, otherwise up to and including the first failing call |
| `Pipeline.AllSucceedCons` | src/Raycaster.cpp:229-275 | a sequence headed by a call succeeds exactly when its head and its rest do |
| `Pipeline.IssuedPast` | src/Raycaster.cpp:229-275 | the run goes past call k exactly when calls 0..k all succeed |
| `Pipeline.FrameSlotDiscipline` | src/Raycaster.cpp:229-273 | within a frame the current slot is only read and the next slot only written, and they differ |
| `Pipeline.InitSlotDiscipline` | src/Raycaster.cpp:378-382 | start-up reads no slot and writes only EVEN |
| `Pipeline.FrameSynchronized` | src/Raycaster.cpp:229-275 | a full frame reads the traversal's buffer only after finishing it, releases every buffer it binds and ends with nothing running or bound |
| `Pipeline.InitSynchronized` | src/Raycaster.cpp:363-382 | start-up keeps the same discipline |
| `Raycaster.FirstMissing` | src/Raycaster.cpp:118-146 | each precondition is reported exactly when every earlier one in the order holds and it does not |
| `Raycaster.Timesteps` | src/Raycaster.cpp:203-212 | the animator's timesteps, and 0 and 1 without an animator |
| `Raycaster.DefaultTimesteps` | src/Raycaster.cpp:203-222 | without an animator timestep 0 is shown from EVEN while timestep 1 is prepared |
| `Raycaster.Resize` | src/Raycaster.cpp:360 | the resized request list has the node count as its length |
| `Raycaster.ResizeContents` | src/Raycaster.cpp:360 | resizing keeps the old elements below the new length and pads with zeros |
| `Raycaster.ResizeEmpty` | src/Raycaster.cpp:360 | resizing an empty list gives all zeros |
| `Raycaster.LastState` | src/Raycaster.cpp:718-726 | a key is recorded down only if it is in the map, and then its state is the stored one |
| `Raycaster.NoRepeatStep` | src/Raycaster.cpp:696-706 | fires exactly when the key is down and its last state was not, and the key's state becomes the current one |
| `Raycaster.Poll` | src/Raycaster.cpp:696-706 | one answer per poll |
| `Raycaster.PollFiresOnRisingEdges` | src/Raycaster.cpp:696-706 | over successive polls the detector fires exactly on rising edges |
| `Raycaster.PollLeavesOtherKeys` | src/Raycaster.cpp:708-716 | polling one key never changes another key's recorded state |
| `Raycaster.Raycaster.constructor` | src/Raycaster.cpp:52-86 | a new raycaster has every flag false, no collaborators, empty request list, trace and key map |
| `Raycaster.Raycaster.Issue` | src/Raycaster.cpp:229-275 | one call is appended to the trace; the run goes on exactly when it succeeds |
| `Raycaster.Raycaster.LaunchTSPTraversal` | src/Raycaster.cpp:319-340 | issues the traversal launch up to its first failure and goes on with the caller's next calls only when all four succeed |
| `Raycaster.Raycaster.ReadBackRequests` | src/Raycaster.cpp:234-242 | issues finish, read-back and release up to the first failure; the request list takes the read-back values exactly when the read succeeds |
| `Raycaster.Raycaster.LaunchRaycaster` | src/Raycaster.cpp:247-265 | issues SetInt, AddBuffer of the current slot's brick list, Prepare and Launch of the raycaster up to the first failure |
| `Raycaster.Raycaster.InitPipeline` | src/Raycaster.cpp:344-386 | fails untouched without an index or a brick manager; otherwise sizes the request list to the node count, issues the start-up calls up to the first failure, succeeds exactly when all do, and holds the read-back values exactly when the read-back succeeded |
| `Raycaster.Raycaster.Render` | src/Raycaster.cpp:118-275 | reports as `missing` the first precondition that fails in the order of the checks, and then fails before any call; it also fails before any call when the cube pass fails; otherwise issues the frame's calls for the animator's (or the default) timesteps up to the first failure, succeeds exactly when they and the quad pass do, and keeps the request list's length |
| `Raycaster.Raycaster.RunFrame` | src/Raycaster.cpp:214-275 | the trace grows by exactly the calls the frame issues up to its first failure, and the request list takes the read-back values exactly when the read-back succeeds |
| `Raycaster.Raycaster.KeyLastState` | src/Raycaster.cpp:718-726 | false for a key never recorded, otherwise the recorded state |
| `Raycaster.Raycaster.SetKeyLastState` | src/Raycaster.cpp:708-716 | inserts or updates the key's state and leaves every other key's state unchanged |
| `Raycaster.Raycaster.KeyPressedNoRepeat` | src/Raycaster.cpp:696-706 | true exactly when the key is down and was not recorded down; afterwards the key's recorded state is its current state |
| `Textures.DefaultDims` | src/Texture3D.cpp:13-18 | a vector of length 3 is kept and any other becomes 1x1x1 |
| `Textures.DefaultDimsIdempotent` | src/Texture3D.cpp:13-18 | a defaulted vector is kept as it is |
| `Textures.Fits` | src/Texture3D.cpp:32-33 | accepted exactly when every dimension is at most the maximum texture size |
| `Textures.Texture3D.constructor` | src/Texture3D.cpp:11-18 | a new texture has the defaulted dimensions and is not initialized |
| `Textures.Texture3D.Init` | src/Texture3D.cpp:21-59 | an initialized texture succeeds untouched; a dimension above the maximum or a failed first GL check fails untouched; otherwise the texture is initialized with the new handle even when the final GL check fails |
| `Textures.InitTwice` | src/Texture3D.cpp:25-28 | a second Init after a first one past the size check and the first GL check succeeds and keeps the first handle |

## Left out

- GL drawing and state, the matrix code and the cube and quad passes (src/Raycaster.cpp:148-201, 278-307): fixed-function graphics plumbing and float arithmetic. The passes appear only as the success flags of `Render`.
- The cache-dropping file write (src/Raycaster.cpp:101-106), the animator warnings and all logging: file I/O and output only.
- The bodies of the OpenCL runtime calls, of the program objects and of the brick manager: these bodies are not part of this model. Their results appear only as parameters, and their effects only as trace entries.
- `CLManager` operations whose bodies are not part of this model (`AddBuffer`, `ReadBuffer`, `ReleaseBuffer`, `SetInt`, the five-argument `LaunchProgram`, the `cl_mem` overloads of `AddTexture`): they appear only as recorded calls of the frame.
- `InitCL`, `Reload`, `ReloadShaders`, `ReloadTransferFunctions` and the other setup routines of the raycaster: flat setup scripts of registry calls, file I/O and collaborators.
- The destructor of the compute manager (src/CLManager.cpp:24-32): it deletes every registered program object and releases the runtime objects. Object lifetime is not modelled.
- The per-device maximum allocation sizes (src/CLManager.cpp:77-84): the queries are modelled, but the values are not stored. The capacity of the fixed-size device arrays is declared in a header that is not part of this model.
- `Raycaster.Raycaster.ReadBackRequests`: a failing read-back is taken to leave the request list unchanged. The real blocking read may have written part of it.
- `Raycaster.Raycaster.constructor`: the hierarchical index reference `tsp_` is absent from the constructor's initializer list; the model starts without an index.
- `ClErrors.MessagesDistinct`: distinctness is proved only when one of the two codes is unlisted. It is not proved between two listed names.
- `Textures.Texture3D.Init`: the maximum texture size is read as an unsigned value in the source; the model takes it as a natural number and does not model a wrapped negative reading.
- Concurrency between host and device and the asynchrony of kernel launches: the model records call order and results only.
