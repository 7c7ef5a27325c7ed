/**
 * The raycaster's frame driver: the precondition checks and the staged
 * compute/streaming sequence of `Render`, the traversal launch, pipeline
 * start-up, and the rising-edge keyboard detector.
 */
module Raycaster {
  import opened Wrappers
  import opened ClManager
  import opened Pipeline

  /** What the animator reports: the timestep shown now and the one to prepare. */
  datatype Animator = Animator(currentTimestep: nat, nextTimestep: nat)

  /** What start-up needs of the hierarchical index: its total node count. */
  datatype Tsp = Tsp(numTotalNodes: nat)

  /** The checks `Render` makes before any work, in order. */
  datatype Precondition = Matrices | Cube | Quad | Framebuffers | Textures | Shaders

  /**
   * The first missing precondition in the order matrices, cube, quad,
   * framebuffers, the three textures, the two shaders; None when all hold.
   */
  function FirstMissing(matrices: bool, cube: bool, quad: bool, framebuffers: bool,
                        textures: bool, shaders: bool): (r: Option<Precondition>)
    ensures r.None? <==> matrices && cube && quad && framebuffers && textures && shaders
    ensures r == Some(Matrices) <==> !matrices
    ensures r == Some(Cube) <==> matrices && !cube
    ensures r == Some(Quad) <==> matrices && cube && !quad
    ensures r == Some(Framebuffers) <==> matrices && cube && quad && !framebuffers
    ensures r == Some(Textures) <==> matrices && cube && quad && framebuffers && !textures
    ensures r == Some(Shaders) <==> matrices && cube && quad && framebuffers && textures && !shaders
  {
    if !matrices then Some(Matrices)
    else if !cube then Some(Cube)
    else if !quad then Some(Quad)
    else if !framebuffers then Some(Framebuffers)
    else if !textures then Some(Textures)
    else if !shaders then Some(Shaders)
    else None
  }

  /** The current and next timestep: the animator's, or 0 and 1 without one. */
  function Timesteps(animator: Option<Animator>): (r: (nat, nat))
    ensures animator.None? ==> r == (0, 1)
    ensures animator.Some? ==> r == (animator.value.currentTimestep, animator.value.nextTimestep)
  {
    match animator
    case None => (0, 1)
    case Some(a) => (a.currentTimestep, a.nextTimestep)
  }

  /** Without an animator the frame still renders, timestep 0 from EVEN while timestep 1 goes to ODD. */
  lemma DefaultTimesteps()
    ensures Buffers(Timesteps(None).0) == (EVEN, ODD)
    ensures Timesteps(None).1 == 1
  {
  }

  /**
   * `std::vector::resize(n, 0)`: keeps the first n elements and pads with
   * zeros up to length n.
   */
  function Resize(v: seq<int>, n: nat): (r: seq<int>)
    ensures |r| == n
  {
    if n <= |v| then v[..n] else v + seq(n - |v|, _ => 0)
  }

  /** Resizing keeps the elements below the new length and fills the rest with zeros. */
  lemma ResizeContents(v: seq<int>, n: nat)
    ensures forall i :: 0 <= i < n && i < |v| ==> Resize(v, n)[i] == v[i]
    ensures forall i :: |v| <= i < n ==> Resize(v, n)[i] == 0
  {
  }

  /** Resizing an empty list gives a list of zeros. */
  lemma ResizeEmpty(n: nat)
    ensures Resize([], n) == seq(n, _ => 0)
  {
  }

  /** The last recorded state of a key; false for a key never recorded. */
  function LastState(m: map<int, bool>, key: int): (pressed: bool)
    ensures pressed ==> key in m
    ensures key in m ==> pressed == m[key]
  {
    key in m && m[key]
  }

  /**
   * One poll of the no-repeat detector: it fires when the key is down now
   * and was not down at the last poll, and the key's state becomes the
   * current one.
   */
  function NoRepeatStep(m: map<int, bool>, key: int, pressed: bool): (r: (bool, map<int, bool>))
    ensures r.0 <==> pressed && !LastState(m, key)
    ensures r.1 == m[key := pressed]
  {
    if pressed then
      if !LastState(m, key) then (true, m[key := true]) else (false, m)
    else (false, m[key := false])
  }

  /** The detector's answers over successive polls of one key. */
  function Poll(m: map<int, bool>, key: int, samples: seq<bool>): (fired: seq<bool>)
    ensures |fired| == |samples|
    decreases |samples|
  {
    if samples == [] then []
    else
      var (f, m') := NoRepeatStep(m, key, samples[0]);
      [f] + Poll(m', key, samples[1..])
  }

  /**
   * Over a sequence of polls the detector fires exactly on the rising
   * edges: when the key is down and was up at the previous poll (or, at
   * the first poll, in the recorded state).
   */
  lemma {:induction false} PollFiresOnRisingEdges(m: map<int, bool>, key: int, samples: seq<bool>)
    ensures forall i :: 0 <= i < |samples| ==>
      Poll(m, key, samples)[i] == (samples[i] && !(if i == 0 then LastState(m, key) else samples[i - 1]))
    decreases |samples|
  {
    if samples != [] {
      var m' := m[key := samples[0]];
      PollFiresOnRisingEdges(m', key, samples[1..]);
      var rest := samples[1..];
      assert LastState(m', key) == samples[0];
      assert Poll(m, key, samples) == [samples[0] && !LastState(m, key)] + Poll(m', key, rest);
      forall i | 0 <= i < |samples|
        ensures Poll(m, key, samples)[i] == (samples[i] && !(if i == 0 then LastState(m, key) else samples[i - 1]))
      {
        if i > 0 { assert Poll(m, key, samples)[i] == Poll(m', key, rest)[i - 1]; }
        if i > 0 { assert rest[i - 1] == samples[i]; }
        if i > 1 { assert rest[i - 2] == samples[i - 1]; }
      }
    }
  }

  /** Polling one key records nothing about any other key. */
  lemma {:induction false} PollLeavesOtherKeys(m: map<int, bool>, key: int, other: int, samples: seq<bool>)
    requires other != key
    ensures LastState(PollState(m, key, samples), other) == LastState(m, other)
    decreases |samples|
  {
    if samples != [] {
      PollLeavesOtherKeys(m[key := samples[0]], key, other, samples[1..]);
    }
  }

  /** The recorded states after a sequence of polls of one key: the map `Poll` threads through its steps. */
  function PollState(m: map<int, bool>, key: int, samples: seq<bool>): map<int, bool>
    decreases |samples|
  {
    if samples == [] then m else PollState(NoRepeatStep(m, key, samples[0]).1, key, samples[1..])
  }

  class Raycaster {
    // The flags and handles `Render` checks before drawing.
    var matricesInitialized: bool
    var cubeInitialized: bool
    var quadInitialized: bool
    var framebuffersInitialized: bool
    var cubeFrontTexSet: bool
    var cubeBackTexSet: bool
    var quadTexSet: bool
    var cubeShaderSet: bool
    var quadShaderSet: bool

    // Collaborators; a reference that is not set is None or false.
    var animator: Option<Animator>
    var tsp: Option<Tsp>
    var brickManagerSet: bool
    var clManagerSet: bool

    /** Kernel argument indices of the two programs. */
    const args: ArgSlots

    /** One request value per node of the hierarchical index. */
    var brickRequest: seq<int>

    /** Every call issued on the compute manager and the brick manager, in order. */
    var calls: seq<Call>

    /** The last recorded state of each key seen. */
    var keysLastState: map<int, bool>

    constructor (args: ArgSlots)
      ensures this.args == args
      ensures !matricesInitialized && !cubeInitialized && !quadInitialized && !framebuffersInitialized
      ensures !cubeFrontTexSet && !cubeBackTexSet && !quadTexSet && !cubeShaderSet && !quadShaderSet
      ensures animator.None? && tsp.None? && !brickManagerSet && !clManagerSet
      ensures brickRequest == [] && calls == [] && keysLastState == map[]
    {
      this.args := args;
      matricesInitialized, cubeInitialized, quadInitialized, framebuffersInitialized := false, false, false, false;
      cubeFrontTexSet, cubeBackTexSet, quadTexSet := false, false, false;
      cubeShaderSet, quadShaderSet := false, false;
      animator, tsp, brickManagerSet, clManagerSet := None, None, false, false;
      brickRequest, calls, keysLastState := [], [], map[];
    }

    /** The first precondition of `Render` that does not hold. */
    function Missing(): Option<Precondition>
      reads this
    {
      FirstMissing(matricesInitialized, cubeInitialized, quadInitialized, framebuffersInitialized,
                   cubeFrontTexSet && cubeBackTexSet && quadTexSet, cubeShaderSet && quadShaderSet)
    }

    /**
     * Proof bookkeeping for a run in progress: the calls issued so far plus
     * what the rest `todo` issues make up the whole run's calls `run`, and
     * the whole run succeeds exactly when `todo` does.
     */
    ghost predicate Running(todo: Script, reply: Call -> bool, run: seq<Call>, allOk: bool)
      reads this
    {
      calls + Issued(todo, reply) == run && AllOk(todo, reply) == allOk
    }

    /** Proof bookkeeping for a run that has stopped at a failing call. */
    ghost predicate Stopped(run: seq<Call>, allOk: bool)
      reads this
    {
      calls == run && !allOk
    }

    /**
     * Issues one call on a collaborator; `env` decides whether it succeeds.
     * For the proofs of the callers, `todo` is the rest of the run this call
     * starts: afterwards either the run stopped here or the call succeeded
     * and the rest of the run is `todo.rest`.
     */
    method Issue(c: Call, env: Env, ghost todo: Script, ghost run: seq<Call>, ghost allOk: bool) returns (ok: bool)
      requires todo.Then? && todo.call == c
      requires Running(todo, env.reply, run, allOk)
      modifies this`calls
      ensures |calls| == |old(calls)| + 1
      ensures if ok then Running(todo.rest, env.reply, run, allOk) else Stopped(run, allOk)
    {
      ghost var before := calls;
      calls := calls + [c];
      ok := env.reply(c);
      if ok {
        assert (before + [c]) + Issued(todo.rest, env.reply) == before + ([c] + Issued(todo.rest, env.reply));
      }
    }

    /**
     * Sets the traversal's timestep, binds the request list as a read-write
     * buffer, prepares and launches the traversal; stops at the first
     * failure. `next` is what the caller runs afterwards (Done when the
     * launch is all there is): on success the run goes on with it.
     */
    method LaunchTSPTraversal(timestep: nat, env: Env, ghost next: Script, ghost run: seq<Call>, ghost allOk: bool)
      returns (ok: bool)
      requires Running(TraversalThen(args, timestep, brickRequest, next), env.reply, run, allOk)
      modifies this`calls
      ensures if ok then Running(next, env.reply, run, allOk) else Stopped(run, allOk)
      ensures if ok then |calls| == |old(calls)| + 4 else |calls| <= |old(calls)| + 4
    {
      ghost var todo := TraversalThen(args, timestep, brickRequest, next);
      ok := Issue(SetInt(TSPTraversal, args.tspTimestep, timestep), env, todo, run, allOk);
      todo := todo.rest;
      if ok {
        ok := Issue(AddBuffer(TSPTraversal, args.tspBrickList, RequestList(brickRequest), CopyHostPtr, ReadWrite), env, todo, run, allOk);
        todo := todo.rest;
      }
      if ok {
        ok := Issue(PrepareProgram(TSPTraversal), env, todo, run, allOk);
        todo := todo.rest;
      }
      if ok {
        ok := Issue(LaunchProgram(TSPTraversal), env, todo, run, allOk);
      }
    }

    /**
     * Sets the raycaster's timestep, binds the brick list of slot `cur` as
     * a read-only buffer, prepares and launches the raycaster; stops at the
     * first failure. On success the run goes on with `next`.
     */
    method LaunchRaycaster(current: nat, cur: BufferIndex, env: Env, ghost next: Script, ghost run: seq<Call>,
                           ghost allOk: bool) returns (ok: bool)
      requires Running(RaycastThen(args, current, cur, next), env.reply, run, allOk)
      modifies this`calls
      ensures if ok then Running(next, env.reply, run, allOk) else Stopped(run, allOk)
      ensures if ok then |calls| == |old(calls)| + 4 else |calls| <= |old(calls)| + 4
    {
      ghost var todo := RaycastThen(args, current, cur, next);
      ok := Issue(SetInt(RaycasterTSP, args.timestep, current), env, todo, run, allOk);
      todo := todo.rest;
      if ok {
        ok := Issue(AddBuffer(RaycasterTSP, args.brickList, SlotBrickList(cur), CopyHostPtr, ReadOnly), env, todo, run, allOk);
        todo := todo.rest;
      }
      if ok {
        ok := Issue(PrepareProgram(RaycasterTSP), env, todo, run, allOk);
        todo := todo.rest;
      }
      if ok {
        ok := Issue(LaunchProgram(RaycasterTSP), env, todo, run, allOk);
      }
    }

    /**
     * Waits for the traversal, reads its result into the request list with a
     * blocking read and releases the device buffer; stops at the first
     * failure. The request list takes the read-back values exactly when the
     * read succeeded (then the release is issued too).
     */
    method ReadBackRequests(env: Env, ghost next: Script, ghost run: seq<Call>, ghost allOk: bool)
      returns (ok: bool)
      requires Running(ReadBackThen(args, |brickRequest|, next), env.reply, run, allOk)
      modifies this`calls, this`brickRequest
      ensures if ok then Running(next, env.reply, run, allOk) else Stopped(run, allOk)
      ensures if ok then |calls| == |old(calls)| + 3 else |calls| <= |old(calls)| + 3
      ensures brickRequest == if |calls| > |old(calls)| + 2 then ReadBackData(|old(brickRequest)|, env) else old(brickRequest)
    {
      ghost var todo := ReadBackThen(args, |brickRequest|, next);
      ok := Issue(FinishProgram(TSPTraversal), env, todo, run, allOk);
      todo := todo.rest;
      if ok {
        ok := Issue(ReadBuffer(TSPTraversal, args.tspBrickList, |brickRequest|, true), env, todo, run, allOk);
        todo := todo.rest;
        if ok { brickRequest := ReadBackData(|brickRequest|, env); }
      }
      if ok {
        ok := Issue(ReleaseBuffer(TSPTraversal, args.tspBrickList), env, todo, run, allOk);
      }
    }

    /**
     * Start-up: fails untouched without an index or a brick manager;
     * otherwise sizes the request list to the index's node count, runs the
     * traversal for timestep 0, reads its result back, releases it, and
     * builds and loads the brick list of timestep 0 into EVEN. The request
     * list holds the read-back values exactly when the run got past the
     * read-back.
     */
    method InitPipeline(env: Env) returns (ok: bool)
      requires tsp.Some? && brickManagerSet ==> clManagerSet
      modifies this`calls, this`brickRequest
      ensures old(tsp).None? || !old(brickManagerSet) ==>
        !ok && calls == old(calls) && brickRequest == old(brickRequest)
      ensures old(tsp).Some? && old(brickManagerSet) ==>
        var requests := Resize(old(brickRequest), old(tsp).value.numTotalNodes);
        var readBack := ReadBackData(|requests|, env);
        var s := InitCalls(args, requests, readBack);
        && calls == old(calls) + Issued(s, env.reply)
        && ok == AllOk(s, env.reply)
        && brickRequest == (if |Issued(s, env.reply)| > InitReadIndex + 1 then readBack else requests)
        && |brickRequest| == old(tsp).value.numTotalNodes
    {
      if tsp.None? { return false; }
      if !brickManagerSet { return false; }
      brickRequest := Resize(brickRequest, tsp.value.numTotalNodes);
      ghost var requests := brickRequest;
      ghost var readBack := ReadBackData(|requests|, env);
      ghost var todo := ReadBackThen(args, |requests|, Then(BuildBrickList(EVEN, readBack), Then(DiskToPBO(EVEN), Done)));
      ghost var s := InitCalls(args, requests, readBack);
      ghost var run := calls + Issued(s, env.reply);
      ghost var allOk := AllOk(s, env.reply);
      ok := LaunchTSPTraversal(0, env, todo, run, allOk);
      if ok {
        ok := ReadBackRequests(env, todo.rest.rest.rest, run, allOk);
        todo := todo.rest.rest.rest;
      }
      if ok {
        ok := Issue(BuildBrickList(EVEN, brickRequest), env, todo, run, allOk);
        todo := todo.rest;
      }
      if ok {
        ok := Issue(DiskToPBO(EVEN), env, todo, run, allOk);
      }
    }

    /**
     * One frame. Fails untouched when a precondition is missing, reporting
     * in `missing` the first one in the order of the checks (the source logs
     * a separate message for each), or when the cube passes (`cubePassOk`: matrices, shader binding and the two GL passes)
     * fail. Otherwise picks the timesteps (0 and 1 without an animator) and
     * the staging slots by parity, runs the frame's calls up to the first
     * failure, and succeeds when they all do and the quad pass
     * (`quadPassOk`) does. The request list holds the read-back values
     * exactly when the run got past the read-back.
     */
    method Render(env: Env, cubePassOk: bool, quadPassOk: bool) returns (ok: bool, missing: Option<Precondition>)
      requires Missing().None? && cubePassOk ==> clManagerSet && brickManagerSet
      modifies this`calls, this`brickRequest
      ensures missing == old(Missing())
      ensures missing.Some? || !cubePassOk ==>
        !ok && calls == old(calls) && brickRequest == old(brickRequest)
      ensures missing.None? && cubePassOk ==>
        var (current, next) := Timesteps(old(animator));
        var readBack := ReadBackData(|old(brickRequest)|, env);
        var s := FrameCalls(args, current, next, old(brickRequest), readBack);
        && calls == old(calls) + Issued(s, env.reply)
        && ok == (AllOk(s, env.reply) && quadPassOk)
        && brickRequest == (if |Issued(s, env.reply)| > FrameReadIndex + 1 then readBack else old(brickRequest))
      ensures |brickRequest| == |old(brickRequest)|
    {
      if !matricesInitialized { return false, Some(Matrices); }
      if !cubeInitialized { return false, Some(Cube); }
      if !quadInitialized { return false, Some(Quad); }
      if !framebuffersInitialized { return false, Some(Framebuffers); }
      if !cubeFrontTexSet || !cubeBackTexSet || !quadTexSet { return false, Some(Textures); }
      if !cubeShaderSet || !quadShaderSet { return false, Some(Shaders); }
      missing := None;
      if !cubePassOk { return false, None; }

      var (current, next) := Timesteps(animator);
      ok := RunFrame(current, next, env);
      if ok {
        ok := quadPassOk;
      }
    }

    /**
     * The compute and streaming calls of a frame for the timesteps
     * `current` and `next`, up to the first failure.
     */
    method RunFrame(current: nat, next: nat, env: Env) returns (ok: bool)
      modifies this`calls, this`brickRequest
      ensures var readBack := ReadBackData(|old(brickRequest)|, env);
        var s := FrameCalls(args, current, next, old(brickRequest), readBack);
        && calls == old(calls) + Issued(s, env.reply)
        && ok == AllOk(s, env.reply)
        && brickRequest == (if |Issued(s, env.reply)| > FrameReadIndex + 1 then readBack else old(brickRequest))
      ensures |brickRequest| == |old(brickRequest)|
    {
      var (cur, nxt) := Buffers(current);
      ghost var requests := brickRequest;
      ghost var readBack := ReadBackData(|requests|, env);
      ghost var s := FrameCalls(args, current, next, requests, readBack);
      ghost var run := calls + Issued(s, env.reply);
      ghost var allOk := AllOk(s, env.reply);
      ghost var todo := s.rest.rest.rest.rest;
      ok := LaunchTSPTraversal(next, env, todo, run, allOk);
      if ok {
        ok := Issue(PBOToAtlas(cur), env, todo, run, allOk);
        todo := todo.rest;
      }
      if ok {
        ok := ReadBackRequests(env, todo.rest.rest.rest, run, allOk);
        todo := todo.rest.rest.rest;
      }
      if ok {
        ok := LaunchRaycaster(current, cur, env, todo.rest.rest.rest.rest, run, allOk);
        todo := todo.rest.rest.rest.rest;
      }
      if ok {
        ok := Issue(BuildBrickList(nxt, brickRequest), env, todo, run, allOk);
        todo := todo.rest;
      }
      if ok {
        ok := Issue(DiskToPBO(nxt), env, todo, run, allOk);
        todo := todo.rest;
      }
      if ok {
        ok := Issue(ReleaseBuffer(RaycasterTSP, args.brickList), env, todo, run, allOk);
        todo := todo.rest;
      }
      if ok {
        ok := Issue(FinishProgram(RaycasterTSP), env, todo, run, allOk);
      }
    }

    /** The recorded state of a key: its last value, or false for a key never recorded. */
    function KeyLastState(key: int): (pressed: bool)
      reads this
      ensures key !in keysLastState ==> !pressed
      ensures key in keysLastState ==> pressed == keysLastState[key]
    {
      LastState(keysLastState, key)
    }

    /** Records `pressed` as the key's state, adding the key if it is new; other keys keep theirs. */
    method SetKeyLastState(key: int, pressed: bool)
      modifies this`keysLastState
      ensures keysLastState == old(keysLastState)[key := pressed]
      ensures KeyLastState(key) == pressed
      ensures forall k :: k != key ==> KeyLastState(k) == old(KeyLastState(k))
    {
      // Finding the key and then inserting it or updating its entry is one map update.
      keysLastState := keysLastState[key := pressed];
    }

    /**
     * The no-repeat key test, with `pressed` the window's current state of
     * the key: true only when the key is down now and was up at the last
     * test, and the key's recorded state becomes `pressed`.
     */
    method KeyPressedNoRepeat(key: int, pressed: bool) returns (fired: bool)
      modifies this`keysLastState
      ensures (fired, keysLastState) == NoRepeatStep(old(keysLastState), key, pressed)
      ensures fired <==> pressed && !old(KeyLastState(key))
      ensures KeyLastState(key) == pressed
    {
      if pressed {
        if !KeyLastState(key) {
          SetKeyLastState(key, true);
          return true;
        }
      } else {
        SetKeyLastState(key, false);
      }
      return false;
    }
  }
}
