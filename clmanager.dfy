/**
 * The compute manager: OpenCL platform, device, context and command-queue
 * setup, and the name-keyed registry of compute programs with its by-name
 * delegation to the program objects.
 *
 * The OpenCL runtime and the program objects are not modelled: what a
 * runtime call reports is a parameter, and what the manager forwards to a
 * program object is recorded in `log`, its result decided by `reply`.
 */
module ClManager {
  import opened Wrappers
  import opened ClErrors

  /** Access permissions of a kernel argument; any other enum value is unknown. */
  datatype Permission = ReadOnly | WriteOnly | ReadWrite | UnknownPermission(raw: int)

  /** How AddBuffer fills a device buffer; the pipeline uses only copying from host memory. */
  datatype TransferMode = CopyHostPtr

  /** The kinds of texture AddTexture is asked for; any other enum value is unknown. */
  datatype TextureType = Texture1D | Texture2D | Texture3D | UnknownTextureType(raw: int)

  /** The cl_mem_flags bits of cl.h. */
  const CL_MEM_READ_WRITE: nat := 1
  const CL_MEM_WRITE_ONLY: nat := 2
  const CL_MEM_READ_ONLY: nat := 4

  /** The OpenGL texture targets of gl.h. */
  const GL_TEXTURE_2D: nat := 0x0DE1
  const GL_TEXTURE_3D: nat := 0x806F

  /** The memory flag of a permission; None for an unknown one. */
  function MemFlag(p: Permission): (r: Option<nat>)
    ensures r.None? <==> p.UnknownPermission?
    ensures r == Some(CL_MEM_READ_ONLY) <==> p == ReadOnly
    ensures r == Some(CL_MEM_WRITE_ONLY) <==> p == WriteOnly
    ensures r == Some(CL_MEM_READ_WRITE) <==> p == ReadWrite
  {
    match p
    case ReadOnly => Some(CL_MEM_READ_ONLY)
    case WriteOnly => Some(CL_MEM_WRITE_ONLY)
    case ReadWrite => Some(CL_MEM_READ_WRITE)
    case UnknownPermission(_) => None
  }

  /** The GL target of a texture kind; None for 1D textures (unimplemented) and unknown kinds. */
  function GLTarget(t: TextureType): (r: Option<nat>)
    ensures r.None? <==> t.Texture1D? || t.UnknownTextureType?
    ensures r == Some(GL_TEXTURE_2D) <==> t == Texture2D
    ensures r == Some(GL_TEXTURE_3D) <==> t == Texture3D
  {
    match t
    case Texture1D => None
    case Texture2D => Some(GL_TEXTURE_2D)
    case Texture3D => Some(GL_TEXTURE_3D)
    case UnknownTextureType(_) => None
  }

  /** Why AddTexture refuses a request. */
  datatype TextureError = BadPermission | Texture1DUnimplemented | BadTextureType | ProgramNotFound

  /** The outcome of AddTexture's checks: the first one failing, or the target and flag to forward. */
  datatype TextureCheck = Refused(reason: TextureError) | Accepted(target: nat, flag: nat)

  /**
   * AddTexture's checks in their order: the permission, then the texture
   * kind, then whether the program is registered.
   */
  function CheckTexture(p: Permission, t: TextureType, registered: bool): (r: TextureCheck)
    ensures r == Refused(BadPermission) <==> p.UnknownPermission?
    ensures r == Refused(Texture1DUnimplemented) <==> !p.UnknownPermission? && t.Texture1D?
    ensures r == Refused(BadTextureType) <==> !p.UnknownPermission? && t.UnknownTextureType?
    ensures r == Refused(ProgramNotFound) <==> MemFlag(p).Some? && GLTarget(t).Some? && !registered
    ensures r.Accepted? <==> MemFlag(p).Some? && GLTarget(t).Some? && registered
    ensures r.Accepted? ==> r == Accepted(GLTarget(t).value, MemFlag(p).value)
  {
    match MemFlag(p)
    case None => Refused(BadPermission)
    case Some(flag) =>
      if t.Texture1D? then Refused(Texture1DUnimplemented)
      else match GLTarget(t)
        case None => Refused(BadTextureType)
        case Some(target) => if registered then Accepted(target, flag) else Refused(ProgramNotFound)
  }

  /**
   * The index of the first failing status among 0..n-1, or n when all
   * succeed: the point where a create-or-query loop stops.
   */
  function FirstFailure(status: nat -> ClInt, n: nat): (k: nat)
    ensures k <= n
    ensures forall i :: 0 <= i < k ==> CheckSuccess(status(i))
    ensures k < n ==> !CheckSuccess(status(k))
  {
    FirstFailureFrom(status, 0, n)
  }

  function FirstFailureFrom(status: nat -> ClInt, from: nat, n: nat): (k: nat)
    requires from <= n
    ensures from <= k <= n
    ensures forall i :: from <= i < k ==> CheckSuccess(status(i))
    ensures k < n ==> !CheckSuccess(status(k))
    decreases n - from
  {
    if from == n then n
    else if !CheckSuccess(status(from)) then from
    else FirstFailureFrom(status, from + 1, n)
  }

  /** A program object, told apart from others of the same name by its creation serial. */
  datatype Program = Program(name: string, serial: nat)

  /** What the manager asks of a program object. */
  datatype ProgramOp =
    | Load(fileName: string)
    | Build
    | CreateKernel
    | AddTextureArg(arg: nat, texture: nat, target: nat, flag: nat)
    | AddTransferFunctionArg(arg: nat, transferFunction: nat)
    | AddKernelConstantsArg(arg: nat, kernelConstants: nat)
    | AddIntArrayArg(arg: nat, size: nat, permission: Permission)
    | Prepare
    | Launch
    | Finish
    | Destroy

  /** One request forwarded to a program object. */
  datatype Forward = Forward(program: Program, op: ProgramOp)

  class CLManager {
    /** The status of the last OpenCL runtime call. */
    var error: ClInt
    var numPlatforms: nat
    var numDevices: nat
    /** The handles of the command queues, one per queue index. */
    const commandQueues: array<int>
    /** The registered programs by name. */
    var programs: map<string, Program>
    /** The number of programs created so far. */
    var created: nat
    /** Every request forwarded to a program object, in order. */
    var log: seq<Forward>

    /** Every entry is registered under its own name and was created by this manager. */
    ghost predicate Valid()
      reads this
    {
      forall n :: n in programs ==> programs[n].name == n && programs[n].serial < created
    }

    /**
     * A manager with no programs. The constructor leaves the status and the
     * platform and device counts uninitialized, so whatever they hold is
     * taken as the parameters `error`, `numPlatforms` and `numDevices`.
     */
    constructor (numQueues: nat, error: ClInt, numPlatforms: nat, numDevices: nat)
      ensures Valid()
      ensures commandQueues.Length == numQueues && fresh(commandQueues)
      ensures this.error == error && this.numPlatforms == numPlatforms && this.numDevices == numDevices
      ensures programs == map[] && created == 0 && log == []
    {
      this.error, this.numPlatforms, this.numDevices := error, numPlatforms, numDevices;
      commandQueues := new int[numQueues];
      programs, created, log := map[], 0, [];
    }

    /**
     * Queries the platforms; `status` and `found` are what the runtime
     * reports and leaves in the platform count. Succeeds exactly on
     * CL_SUCCESS.
     */
    method InitPlatform(status: ClInt, found: nat) returns (ok: bool)
      modifies this`error, this`numPlatforms
      ensures error == status && numPlatforms == found
      ensures ok <==> status == CL_SUCCESS
    {
      error := status;
      numPlatforms := found;
      ok := CheckSuccess(error);
    }

    /**
     * Finds the devices of the first platform, then queries each device's
     * name and then each device's maximum allocation size, stopping at the
     * first failing status. Fails untouched without a platform.
     */
    method InitDevices(idsStatus: ClInt, found: nat, nameStatus: nat -> ClInt, sizeStatus: nat -> ClInt)
      returns (ok: bool)
      modifies this`error, this`numDevices
      ensures old(numPlatforms) < 1 ==> !ok && error == old(error) && numDevices == old(numDevices)
      ensures old(numPlatforms) >= 1 ==>
        && numDevices == found
        && (ok <==> CheckSuccess(idsStatus) && FirstFailure(nameStatus, found) == found
                    && FirstFailure(sizeStatus, found) == found)
        && (!CheckSuccess(idsStatus) ==> error == idsStatus)
        && (CheckSuccess(idsStatus) && FirstFailure(nameStatus, found) < found ==>
              error == nameStatus(FirstFailure(nameStatus, found)))
        && (CheckSuccess(idsStatus) && FirstFailure(nameStatus, found) == found
            && FirstFailure(sizeStatus, found) < found ==>
              error == sizeStatus(FirstFailure(sizeStatus, found)))
        && (ok ==> error == CL_SUCCESS)
    {
      if numPlatforms < 1 {
        return false;
      }
      error := idsStatus;
      numDevices := found;
      if !CheckSuccess(error) {
        return false;
      }
      ok := QueryEach(nameStatus);
      if ok {
        ok := QueryEach(sizeStatus);
      }
    }

    /**
     * One query per device in index order, stopping at the first failure;
     * `error` ends as the failing status, or unchanged when all succeed.
     */
    method QueryEach(status: nat -> ClInt) returns (ok: bool)
      requires error == CL_SUCCESS
      modifies this`error
      ensures ok <==> FirstFailure(status, numDevices) == numDevices
      ensures ok ==> error == CL_SUCCESS
      ensures !ok ==> error == status(FirstFailure(status, numDevices))
    {
      var i := 0;
      while i < numDevices
        invariant 0 <= i <= numDevices
        invariant forall j :: 0 <= j < i ==> CheckSuccess(status(j))
        invariant error == CL_SUCCESS
      {
        error := status(i);
        if !CheckSuccess(error) {
          FirstFailureAt(status, numDevices, i);
          return false;
        }
        i := i + 1;
      }
      FirstFailureAt(status, numDevices, numDevices);
      return true;
    }

    /**
     * Creates the context on the first device: fails untouched without a
     * platform, and otherwise without a device; else succeeds exactly when
     * the runtime's `status` is CL_SUCCESS.
     */
    method CreateContext(status: ClInt) returns (ok: bool)
      modifies this`error
      ensures numPlatforms < 1 || numDevices < 1 ==> !ok && error == old(error)
      ensures numPlatforms >= 1 && numDevices >= 1 ==> error == status && (ok <==> status == CL_SUCCESS)
    {
      if numPlatforms < 1 {
        return false;
      }
      if numDevices < 1 {
        return false;
      }
      error := status;
      ok := CheckSuccess(error);
    }

    /**
     * Creates the command queues in index order; queue i gets `handle(i)`
     * with status `status(i)`. Stops at the first failure: later queues are
     * not attempted and earlier ones are kept.
     */
    method CreateCommandQueue(handle: nat -> int, status: nat -> ClInt) returns (ok: bool)
      modifies commandQueues, this`error
      ensures var k := FirstFailure(status, commandQueues.Length);
        && (ok <==> k == commandQueues.Length)
        && (forall i :: 0 <= i < commandQueues.Length ==>
              commandQueues[i] == if i <= k then handle(i) else old(commandQueues[i]))
        && (!ok ==> error == status(k))
        && (ok && commandQueues.Length > 0 ==> error == CL_SUCCESS)
        && (commandQueues.Length == 0 ==> error == old(error))
    {
      var i := 0;
      while i < commandQueues.Length
        invariant 0 <= i <= commandQueues.Length
        invariant forall j :: 0 <= j < i ==> CheckSuccess(status(j))
        invariant forall j :: 0 <= j < commandQueues.Length ==>
          commandQueues[j] == if j < i then handle(j) else old(commandQueues[j])
        invariant i == 0 ==> error == old(error)
        invariant i > 0 ==> error == CL_SUCCESS
      {
        commandQueues[i] := handle(i);
        error := status(i);
        if !CheckSuccess(error) {
          FirstFailureAt(status, commandQueues.Length, i);
          return false;
        }
        i := i + 1;
      }
      FirstFailureAt(status, commandQueues.Length, commandQueues.Length);
      return true;
    }

    /**
     * Registers a new program under `name`, destroying and unregistering
     * any program registered under it before, then asks the new program to
     * load `fileName`. The new program stays registered whether or not the
     * load succeeds.
     */
    method CreateProgram(name: string, fileName: string, reply: Forward -> bool) returns (ok: bool)
      requires Valid()
      modifies this`programs, this`created, this`log
      ensures Valid()
      ensures var p := Program(name, old(created));
        && programs == old(programs)[name := p]
        && (forall n :: n in old(programs) ==> old(programs)[n] != p)
        && log == old(log) + (if name in old(programs) then [Forward(old(programs)[name], Destroy)] else [])
                           + [Forward(p, Load(fileName))]
        && ok == reply(Forward(p, Load(fileName)))
    {
      if name in programs {
        log := log + [Forward(programs[name], Destroy)];
        programs := map n | n in programs && n != name :: programs[n];
      }
      var p := Program(name, created);
      created := created + 1;
      programs := programs[name := p];
      log := log + [Forward(p, Load(fileName))];
      ok := reply(Forward(p, Load(fileName)));
    }

    /**
     * Forwards `op` to the program registered under `name`; fails without
     * forwarding anything when no program has that name. The registry is
     * never changed.
     */
    method Delegate(name: string, op: ProgramOp, reply: Forward -> bool) returns (ok: bool)
      modifies this`log
      ensures name !in programs ==> !ok && log == old(log)
      ensures name in programs ==>
        log == old(log) + [Forward(programs[name], op)] && ok == reply(Forward(programs[name], op))
    {
      if name !in programs {
        return false;
      }
      var f := Forward(programs[name], op);
      log := log + [f];
      ok := reply(f);
    }

    method BuildProgram(name: string, reply: Forward -> bool) returns (ok: bool)
      modifies this`log
      ensures name !in programs ==> !ok && log == old(log)
      ensures name in programs ==>
        log == old(log) + [Forward(programs[name], Build)] && ok == reply(Forward(programs[name], Build))
    {
      ok := Delegate(name, Build, reply);
    }

    method CreateKernel(name: string, reply: Forward -> bool) returns (ok: bool)
      modifies this`log
      ensures name !in programs ==> !ok && log == old(log)
      ensures name in programs ==>
        log == old(log) + [Forward(programs[name], ProgramOp.CreateKernel)]
        && ok == reply(Forward(programs[name], ProgramOp.CreateKernel))
    {
      ok := Delegate(name, ProgramOp.CreateKernel, reply);
    }

    /**
     * Binds a texture as a kernel argument after checking, in order, the
     * permission, the texture kind and the program name; a refused request
     * forwards nothing.
     */
    method AddTexture(name: string, arg: nat, texture: nat, kind: TextureType, permission: Permission,
                      reply: Forward -> bool) returns (ok: bool)
      modifies this`log
      ensures CheckTexture(permission, kind, name in programs).Refused? ==> !ok && log == old(log)
      ensures CheckTexture(permission, kind, name in programs).Accepted? ==>
        var f := Forward(programs[name], AddTextureArg(arg, texture, GLTarget(kind).value, MemFlag(permission).value));
        log == old(log) + [f] && ok == reply(f)
    {
      var flag := MemFlag(permission);
      if flag.None? {
        return false;
      }
      var target: nat;
      match kind {
        case Texture1D => return false;
        case Texture2D => target := GL_TEXTURE_2D;
        case Texture3D => target := GL_TEXTURE_3D;
        case UnknownTextureType(_) => return false;
      }
      ok := Delegate(name, AddTextureArg(arg, texture, target, flag.value), reply);
    }

    method AddTransferFunction(name: string, arg: nat, transferFunction: nat, reply: Forward -> bool)
      returns (ok: bool)
      modifies this`log
      ensures name !in programs ==> !ok && log == old(log)
      ensures name in programs ==>
        var f := Forward(programs[name], AddTransferFunctionArg(arg, transferFunction));
        log == old(log) + [f] && ok == reply(f)
    {
      ok := Delegate(name, AddTransferFunctionArg(arg, transferFunction), reply);
    }

    method AddKernelConstants(name: string, arg: nat, kernelConstants: nat, reply: Forward -> bool)
      returns (ok: bool)
      modifies this`log
      ensures name !in programs ==> !ok && log == old(log)
      ensures name in programs ==>
        var f := Forward(programs[name], AddKernelConstantsArg(arg, kernelConstants));
        log == old(log) + [f] && ok == reply(f)
    {
      ok := Delegate(name, AddKernelConstantsArg(arg, kernelConstants), reply);
    }

    method AddIntArray(name: string, arg: nat, size: nat, permission: Permission, reply: Forward -> bool)
      returns (ok: bool)
      modifies this`log
      ensures name !in programs ==> !ok && log == old(log)
      ensures name in programs ==>
        var f := Forward(programs[name], AddIntArrayArg(arg, size, permission));
        log == old(log) + [f] && ok == reply(f)
    {
      ok := Delegate(name, AddIntArrayArg(arg, size, permission), reply);
    }

    method PrepareProgram(name: string, reply: Forward -> bool) returns (ok: bool)
      modifies this`log
      ensures name !in programs ==> !ok && log == old(log)
      ensures name in programs ==>
        log == old(log) + [Forward(programs[name], Prepare)] && ok == reply(Forward(programs[name], Prepare))
    {
      ok := Delegate(name, Prepare, reply);
    }

    method LaunchProgram(name: string, reply: Forward -> bool) returns (ok: bool)
      modifies this`log
      ensures name !in programs ==> !ok && log == old(log)
      ensures name in programs ==>
        log == old(log) + [Forward(programs[name], Launch)] && ok == reply(Forward(programs[name], Launch))
    {
      ok := Delegate(name, Launch, reply);
    }

    method FinishProgram(name: string, reply: Forward -> bool) returns (ok: bool)
      modifies this`log
      ensures name !in programs ==> !ok && log == old(log)
      ensures name in programs ==>
        log == old(log) + [Forward(programs[name], Finish)] && ok == reply(Forward(programs[name], Finish))
    {
      ok := Delegate(name, Finish, reply);
    }

    /** Waits for a command queue to drain; it reports success whatever the runtime says. */
    method FinishQueue(queueIndex: nat) returns (ok: bool)
      requires queueIndex < commandQueues.Length
      ensures ok
    {
      ok := true;
    }
  }

  /** FirstFailure is exactly the index `k` when statuses 0..k-1 succeed and k fails or is n. */
  lemma FirstFailureAt(status: nat -> ClInt, n: nat, k: nat)
    requires k <= n
    requires forall i :: 0 <= i < k ==> CheckSuccess(status(i))
    requires k < n ==> !CheckSuccess(status(k))
    ensures FirstFailure(status, n) == k
  {
  }
}
