/**
 * The per-frame schedule of the raycaster, as values: the calls the frame
 * issues on the compute manager and the brick manager, the double-buffer
 * choice by timestep parity, the abort-on-first-failure rule, and a replay
 * of a call sequence that checks the synchronisation and release discipline.
 */
module Pipeline {
  import opened Wrappers
  import opened ClManager

  /** The two host-side staging slots of the brick manager. */
  datatype BufferIndex = EVEN | ODD

  /** The program names the raycaster registers with the compute manager. */
  const TSPTraversal: string := "TSPTraversal"
  const RaycasterTSP: string := "RaycasterTSP"

  /**
   * Kernel argument indices used by the frame. Their values are declared
   * with the raycaster's fields, so the model takes them as parameters.
   */
  datatype ArgSlots = ArgSlots(tspTimestep: nat, tspBrickList: nat, timestep: nat, brickList: nat)

  /** The host memory an AddBuffer call copies from. */
  datatype HostData =
    | RequestList(values: seq<int>)      // the brick request list, as it is at the call
    | SlotBrickList(buffer: BufferIndex) // the brick list last built for a staging slot

  /** One call of the frame on an external collaborator. */
  datatype Call =
    | SetInt(program: string, arg: nat, value: int)
    | AddBuffer(program: string, arg: nat, data: HostData, mode: TransferMode, permission: Permission)
    | PrepareProgram(program: string)
    | LaunchProgram(program: string)
    | FinishProgram(program: string)
    | ReadBuffer(program: string, arg: nat, count: nat, blocking: bool)
    | ReleaseBuffer(program: string, arg: nat)
    | PBOToAtlas(buffer: BufferIndex)
    | BuildBrickList(buffer: BufferIndex, requests: seq<int>)
    | DiskToPBO(buffer: BufferIndex)

  /**
   * What the collaborators do, as far as the frame can observe: the success
   * flag each call returns, and the values the traversal kernel leaves in its
   * brick-list buffer for a blocking read-back.
   */
  datatype Env = Env(reply: Call -> bool, readBack: nat -> int)

  // ---------------------------------------------------------------------
  // Double buffering

  /**
   * The slots for the current and the next timestep: an even current
   * timestep is staged in EVEN and the next one in ODD, and the other way
   * round for an odd current timestep.
   */
  function Buffers(currentTimestep: nat): (r: (BufferIndex, BufferIndex))
    ensures r.0 != r.1
    ensures r.0 == EVEN <==> currentTimestep % 2 == 0
  {
    if currentTimestep % 2 == 0 then (EVEN, ODD) else (ODD, EVEN)
  }

  /** Consecutive timesteps get different slots, and timesteps two apart the same one. */
  lemma BuffersAlternate(t: nat)
    ensures Buffers(t).0 != Buffers(t + 1).0
    ensures Buffers(t).0 == Buffers(t + 1).1
    ensures Buffers(t) == Buffers(t + 2)
  {
  }

  /** The choice depends on the parity of the timestep alone. */
  lemma BuffersByParity(t1: nat, t2: nat)
    ensures Buffers(t1) == Buffers(t2) <==> t1 % 2 == t2 % 2
  {
  }

  /** The staging slot a call reads from, if any. */
  function SlotRead(c: Call): Option<BufferIndex>
  {
    match c
    case PBOToAtlas(b) => Some(b)
    case AddBuffer(_, _, SlotBrickList(b), _, _) => Some(b)
    case _ => None
  }

  /** The staging slot a call writes, if any. */
  function SlotWritten(c: Call): Option<BufferIndex>
  {
    match c
    case BuildBrickList(b, _) => Some(b)
    case DiskToPBO(b) => Some(b)
    case _ => None
  }

  // ---------------------------------------------------------------------
  // The call scripts

  /**
   * A fixed order of calls, each to be issued only if every earlier one
   * succeeded. Scripts are written in continuation style: a fragment takes
   * the script that follows it.
   */
  datatype Script = Done | Then(call: Call, rest: Script)

  /** The calls of a script, in order. */
  function Calls(s: Script): seq<Call>
  {
    match s
    case Done => []
    case Then(c, r) => [c] + Calls(r)
  }

  /** The values a blocking read-back of `count` ints leaves on the host. */
  function ReadBackData(count: nat, env: Env): (r: seq<int>)
    ensures |r| == count
  {
    seq(count, (i: int) requires 0 <= i => env.readBack(i))
  }

  /** Launching the traversal kernel for a timestep over the current request list, then `next`. */
  function TraversalThen(args: ArgSlots, timestep: nat, requests: seq<int>, next: Script): Script
  {
    Then(SetInt(TSPTraversal, args.tspTimestep, timestep),
    Then(AddBuffer(TSPTraversal, args.tspBrickList, RequestList(requests), CopyHostPtr, ReadWrite),
    Then(PrepareProgram(TSPTraversal),
    Then(LaunchProgram(TSPTraversal), next))))
  }

  /** Waiting for the traversal, reading its request list back and releasing the device copy, then `next`. */
  function ReadBackThen(args: ArgSlots, count: nat, next: Script): Script
  {
    Then(FinishProgram(TSPTraversal),
    Then(ReadBuffer(TSPTraversal, args.tspBrickList, count, true),
    Then(ReleaseBuffer(TSPTraversal, args.tspBrickList), next)))
  }

  /** Launching the raycaster kernel for the current timestep over a slot's brick list, then `next`. */
  function RaycastThen(args: ArgSlots, current: nat, cur: BufferIndex, next: Script): Script
  {
    Then(SetInt(RaycasterTSP, args.timestep, current),
    Then(AddBuffer(RaycasterTSP, args.brickList, SlotBrickList(cur), CopyHostPtr, ReadOnly),
    Then(PrepareProgram(RaycasterTSP),
    Then(LaunchProgram(RaycasterTSP), next))))
  }

  /**
   * The compute and streaming calls of one frame, in order: traversal of
   * the next timestep, upload of the current slot to the atlas, the
   * read-back, the raycaster launch for the current timestep over the
   * current slot's brick list, brick list and disk read for the next slot,
   * and the raycaster's release and barrier.
   */
  function FrameCalls(args: ArgSlots, current: nat, next: nat, requests: seq<int>, readBack: seq<int>): Script
  {
    var (cur, nxt) := Buffers(current);
    TraversalThen(args, next, requests,
    Then(PBOToAtlas(cur),
    ReadBackThen(args, |requests|,
    RaycastThen(args, current, cur,
    Then(BuildBrickList(nxt, readBack),
    Then(DiskToPBO(nxt),
    Then(ReleaseBuffer(RaycasterTSP, args.brickList),
    Then(FinishProgram(RaycasterTSP), Done))))))))
  }

  /** Position of the traversal read-back within a frame. */
  const FrameReadIndex: nat := 6

  /** Pipeline start-up: traversal of timestep 0, read-back, and staging into EVEN. */
  function InitCalls(args: ArgSlots, requests: seq<int>, readBack: seq<int>): Script
  {
    TraversalThen(args, 0, requests,
    ReadBackThen(args, |requests|,
    Then(BuildBrickList(EVEN, readBack),
    Then(DiskToPBO(EVEN), Done))))
  }

  /** Position of the traversal read-back within start-up. */
  const InitReadIndex: nat := 5

  lemma TraversalThenCalls(args: ArgSlots, timestep: nat, requests: seq<int>, next: Script)
    ensures Calls(TraversalThen(args, timestep, requests, next)) ==
      [ SetInt(TSPTraversal, args.tspTimestep, timestep),
        AddBuffer(TSPTraversal, args.tspBrickList, RequestList(requests), CopyHostPtr, ReadWrite),
        PrepareProgram(TSPTraversal),
        LaunchProgram(TSPTraversal) ] + Calls(next)
  {
    var s := TraversalThen(args, timestep, requests, next);
    assert Calls(s.rest.rest.rest) == [s.rest.rest.rest.call] + Calls(next);
    assert Calls(s.rest.rest) == [s.rest.rest.call] + Calls(s.rest.rest.rest);
    assert Calls(s.rest) == [s.rest.call] + Calls(s.rest.rest);
  }

  lemma ReadBackThenCalls(args: ArgSlots, count: nat, next: Script)
    ensures Calls(ReadBackThen(args, count, next)) ==
      [ FinishProgram(TSPTraversal),
        ReadBuffer(TSPTraversal, args.tspBrickList, count, true),
        ReleaseBuffer(TSPTraversal, args.tspBrickList) ] + Calls(next)
  {
    var s := ReadBackThen(args, count, next);
    assert Calls(s.rest.rest) == [s.rest.rest.call] + Calls(next);
    assert Calls(s.rest) == [s.rest.call] + Calls(s.rest.rest);
  }

  /** The calls of a frame, written out. */
  lemma FrameCallsList(args: ArgSlots, current: nat, next: nat, requests: seq<int>, readBack: seq<int>)
    ensures var (cur, nxt) := Buffers(current);
      Calls(FrameCalls(args, current, next, requests, readBack)) ==
      [ SetInt(TSPTraversal, args.tspTimestep, next),
        AddBuffer(TSPTraversal, args.tspBrickList, RequestList(requests), CopyHostPtr, ReadWrite),
        PrepareProgram(TSPTraversal),
        LaunchProgram(TSPTraversal),
        PBOToAtlas(cur),
        FinishProgram(TSPTraversal),
        ReadBuffer(TSPTraversal, args.tspBrickList, |requests|, true),
        ReleaseBuffer(TSPTraversal, args.tspBrickList),
        SetInt(RaycasterTSP, args.timestep, current),
        AddBuffer(RaycasterTSP, args.brickList, SlotBrickList(cur), CopyHostPtr, ReadOnly),
        PrepareProgram(RaycasterTSP),
        LaunchProgram(RaycasterTSP),
        BuildBrickList(nxt, readBack),
        DiskToPBO(nxt),
        ReleaseBuffer(RaycasterTSP, args.brickList),
        FinishProgram(RaycasterTSP) ]
  {
    var (cur, nxt) := Buffers(current);
    var tail := Then(SetInt(RaycasterTSP, args.timestep, current),
      Then(AddBuffer(RaycasterTSP, args.brickList, SlotBrickList(cur), CopyHostPtr, ReadOnly),
      Then(PrepareProgram(RaycasterTSP),
      Then(LaunchProgram(RaycasterTSP),
      Then(BuildBrickList(nxt, readBack),
      Then(DiskToPBO(nxt),
      Then(ReleaseBuffer(RaycasterTSP, args.brickList),
      Then(FinishProgram(RaycasterTSP), Done))))))));
    var t7 := tail.rest.rest.rest.rest.rest.rest.rest;
    var t6 := tail.rest.rest.rest.rest.rest.rest;
    var t5 := tail.rest.rest.rest.rest.rest;
    var t4 := tail.rest.rest.rest.rest;
    var t3 := tail.rest.rest.rest;
    var t2 := tail.rest.rest;
    var t1 := tail.rest;
    assert Calls(t7) == [t7.call];
    assert Calls(t6) == [t6.call] + Calls(t7);
    assert Calls(t5) == [t5.call] + Calls(t6);
    assert Calls(t4) == [t4.call] + Calls(t5);
    assert Calls(t3) == [t3.call] + Calls(t4);
    assert Calls(t2) == [t2.call] + Calls(t3);
    assert Calls(t1) == [t1.call] + Calls(t2);
    assert Calls(tail) == [tail.call] + Calls(t1);
    ReadBackThenCalls(args, |requests|, tail);
    TraversalThenCalls(args, next, requests, Then(PBOToAtlas(cur), ReadBackThen(args, |requests|, tail)));
  }

  /** The calls of start-up, written out. */
  lemma InitCallsList(args: ArgSlots, requests: seq<int>, readBack: seq<int>)
    ensures Calls(InitCalls(args, requests, readBack)) ==
      [ SetInt(TSPTraversal, args.tspTimestep, 0),
        AddBuffer(TSPTraversal, args.tspBrickList, RequestList(requests), CopyHostPtr, ReadWrite),
        PrepareProgram(TSPTraversal),
        LaunchProgram(TSPTraversal),
        FinishProgram(TSPTraversal),
        ReadBuffer(TSPTraversal, args.tspBrickList, |requests|, true),
        ReleaseBuffer(TSPTraversal, args.tspBrickList),
        BuildBrickList(EVEN, readBack),
        DiskToPBO(EVEN) ]
  {
    var tail := Then(BuildBrickList(EVEN, readBack), Then(DiskToPBO(EVEN), Done));
    assert Calls(tail.rest) == [tail.rest.call];
    assert Calls(tail) == [tail.call] + Calls(tail.rest);
    ReadBackThenCalls(args, |requests|, tail);
    TraversalThenCalls(args, 0, requests, ReadBackThen(args, |requests|, tail));
  }

  /** A frame has sixteen calls and the read-back of the request list is call 6. */
  lemma FrameShape(args: ArgSlots, current: nat, next: nat, requests: seq<int>, readBack: seq<int>)
    ensures var s := Calls(FrameCalls(args, current, next, requests, readBack));
      |s| == 16 && s[FrameReadIndex] == ReadBuffer(TSPTraversal, args.tspBrickList, |requests|, true)
  {
    FrameCallsList(args, current, next, requests, readBack);
  }

  // ---------------------------------------------------------------------
  // Abort on the first failing call

  /** Every call of a script succeeds. */
  predicate AllOk(s: Script, reply: Call -> bool)
  {
    match s
    case Done => true
    case Then(c, r) => reply(c) && AllOk(r, reply)
  }

  /** Every call of a sequence succeeds. */
  predicate AllSucceed(cs: seq<Call>, reply: Call -> bool)
  {
    forall i :: 0 <= i < |cs| ==> reply(cs[i])
  }

  /**
   * The calls actually issued when `s` is run: the run stops after the
   * first call that returns false, which is itself issued.
   */
  function Issued(s: Script, reply: Call -> bool): (r: seq<Call>)
    ensures |r| <= |Calls(s)|
  {
    match s
    case Done => []
    case Then(c, r) => if reply(c) then [c] + Issued(r, reply) else [c]
  }

  /**
   * The issued calls are a prefix of the script's calls: all of them when
   * every call succeeds, and otherwise a run of successful calls ended by
   * the one failing call.
   */
  lemma {:induction false} IssuedPrefix(s: Script, reply: Call -> bool)
    ensures AllOk(s, reply) <==> AllSucceed(Calls(s), reply)
    ensures |Issued(s, reply)| <= |Calls(s)|
    ensures Issued(s, reply) == Calls(s)[..|Issued(s, reply)|]
    ensures AllOk(s, reply) ==> Issued(s, reply) == Calls(s)
    ensures !AllOk(s, reply) ==> var r := Issued(s, reply);
      |r| > 0 && !reply(r[|r| - 1]) && AllSucceed(r[..|r| - 1], reply)
  {
    match s
    case Done =>
    case Then(c, rest) =>
      IssuedPrefix(rest, reply);
      var cs1 := Calls(rest);
      AllSucceedCons(c, cs1, reply);
      if reply(c) {
        var r1 := Issued(rest, reply);
        var r := Issued(s, reply);
        assert Calls(s)[..|r|] == [c] + cs1[..|r1|];
        if !AllOk(rest, reply) {
          assert r[..|r| - 1] == [c] + r1[..|r1| - 1];
          AllSucceedCons(c, r1[..|r1| - 1], reply);
        }
      }
  }

  /** A sequence headed by `c` succeeds when `c` and the rest do. */
  lemma AllSucceedCons(c: Call, cs: seq<Call>, reply: Call -> bool)
    ensures AllSucceed([c] + cs, reply) <==> reply(c) && AllSucceed(cs, reply)
  {
    var s := [c] + cs;
    if AllSucceed(s, reply) {
      assert reply(s[0]);
      forall i | 0 <= i < |cs| ensures reply(cs[i]) {
        assert cs[i] == s[i + 1];
      }
    }
    if reply(c) && AllSucceed(cs, reply) {
      forall i | 0 <= i < |s| ensures reply(s[i]) {
        if i > 0 { assert s[i] == cs[i - 1]; }
      }
    }
  }

  /**
   * The run gets past call k (call k is issued and succeeds) exactly when
   * calls 0..k all succeed.
   */
  lemma IssuedPast(s: Script, reply: Call -> bool, k: nat)
    requires k + 1 < |Calls(s)|
    ensures |Issued(s, reply)| > k + 1 <==> AllSucceed(Calls(s)[..k + 1], reply)
  {
    IssuedPrefix(s, reply);
    var cs := Calls(s);
    var p := cs[..k + 1];
    var r := Issued(s, reply);
    if AllSucceed(p, reply) && !AllOk(s, reply) {
      // the failing call, the last one issued, is not among calls 0..k
      assert r[|r| - 1] == cs[|r| - 1];
    } else if !AllSucceed(p, reply) && |r| > k + 1 {
      forall i | 0 <= i < |p| ensures reply(p[i]) {
        if !AllOk(s, reply) {
          assert r[..|r| - 1][i] == p[i];
        }
      }
    }
  }

  // ---------------------------------------------------------------------
  // Synchronisation and release discipline

  /**
   * What a replay of calls tracks: the programs launched and not yet
   * finished, and the (program, argument) slots holding a device buffer.
   */
  datatype SyncState = SyncState(running: set<string>, bound: set<(string, nat)>)

  const Idle: SyncState := SyncState({}, {})

  /**
   * One call against the discipline: a buffer is added only to a free slot
   * and released only from a bound one, and a read-back needs a bound slot
   * of a program that has been finished since its last launch.
   */
  function Step(st: SyncState, c: Call): Option<SyncState>
  {
    match c
    case LaunchProgram(p) => Some(st.(running := st.running + {p}))
    case FinishProgram(p) => Some(st.(running := st.running - {p}))
    case AddBuffer(p, a, _, _, _) =>
      if (p, a) in st.bound then None else Some(st.(bound := st.bound + {(p, a)}))
    case ReleaseBuffer(p, a) =>
      if (p, a) in st.bound then Some(st.(bound := st.bound - {(p, a)})) else None
    case ReadBuffer(p, a, _, _) =>
      if p !in st.running && (p, a) in st.bound then Some(st) else None
    case _ => Some(st)
  }

  /** Replays a script from state `st`; None if some call breaks the discipline. */
  function Replay(st: SyncState, s: Script): Option<SyncState>
    decreases s
  {
    match s
    case Done => Some(st)
    case Then(c, r) =>
      match Step(st, c)
      case None => None
      case Some(st') => Replay(st', r)
  }

  /** A script that keeps the discipline and leaves nothing running or bound. */
  predicate Synchronized(s: Script)
  {
    Replay(Idle, s) == Some(Idle)
  }

  /**
   * Within a frame the current slot is only read (atlas upload, the
   * raycaster's brick list) and the next slot is only written (brick list,
   * disk read), and the two slots differ.
   */
  lemma FrameSlotDiscipline(args: ArgSlots, current: nat, next: nat, requests: seq<int>, readBack: seq<int>)
    ensures var (cur, nxt) := Buffers(current);
      && cur != nxt
      && (forall c :: c in Calls(FrameCalls(args, current, next, requests, readBack)) && SlotRead(c).Some? ==> SlotRead(c).value == cur)
      && (forall c :: c in Calls(FrameCalls(args, current, next, requests, readBack)) && SlotWritten(c).Some? ==> SlotWritten(c).value == nxt)
  {
    FrameCallsList(args, current, next, requests, readBack);
  }

  /** Start-up writes only the EVEN slot and reads none. */
  lemma InitSlotDiscipline(args: ArgSlots, requests: seq<int>, readBack: seq<int>)
    ensures forall c :: c in Calls(InitCalls(args, requests, readBack)) ==> SlotRead(c).None?
    ensures forall c :: c in Calls(InitCalls(args, requests, readBack)) && SlotWritten(c).Some? ==> SlotWritten(c).value == EVEN
  {
    InitCallsList(args, requests, readBack);
  }

  /**
   * A complete frame keeps the discipline: the traversal is finished before
   * its read-back, every buffer it adds is released again, and it ends with
   * no program running.
   */
  lemma FrameSynchronized(args: ArgSlots, current: nat, next: nat, requests: seq<int>, readBack: seq<int>)
    ensures Synchronized(FrameCalls(args, current, next, requests, readBack))
  {
    var s0 := FrameCalls(args, current, next, requests, readBack);
    var s2 := s0.rest.rest;
    var s4 := s2.rest.rest;
    var s6 := s4.rest.rest;
    var s8 := s6.rest.rest;
    var s10 := s8.rest.rest;
    var s12 := s10.rest.rest;
    var s14 := s12.rest.rest;
    var traversalBound := SyncState({}, {(TSPTraversal, args.tspBrickList)});
    var traversalRunning := SyncState({TSPTraversal}, traversalBound.bound);
    var raycasterBound := SyncState({}, {(RaycasterTSP, args.brickList)});
    var raycasterRunning := SyncState({RaycasterTSP}, raycasterBound.bound);
    SetFacts(TSPTraversal, (TSPTraversal, args.tspBrickList));
    SetFacts(RaycasterTSP, (RaycasterTSP, args.brickList));
    assert Replay(Idle, s0) == Replay(traversalBound, s2);
    assert Replay(traversalBound, s2) == Replay(traversalRunning, s4);
    assert Replay(traversalRunning, s4) == Replay(traversalBound, s6);
    assert Replay(traversalBound, s6) == Replay(Idle, s8);
    assert Replay(Idle, s8) == Replay(raycasterBound, s10);
    assert Replay(raycasterBound, s10) == Replay(raycasterRunning, s12);
    assert Replay(raycasterRunning, s12) == Replay(raycasterRunning, s14);
    assert Replay(raycasterRunning, s14) == Replay(SyncState({RaycasterTSP}, {}), s14.rest);
    assert Replay(SyncState({RaycasterTSP}, {}), s14.rest) == Some(Idle);
  }

  /** Start-up keeps the discipline too. */
  lemma InitSynchronized(args: ArgSlots, requests: seq<int>, readBack: seq<int>)
    ensures Synchronized(InitCalls(args, requests, readBack))
  {
    var s0 := InitCalls(args, requests, readBack);
    var s2 := s0.rest.rest;
    var s4 := s2.rest.rest;
    var s5 := s4.rest;
    var s7 := s5.rest.rest;
    var traversalBound := SyncState({}, {(TSPTraversal, args.tspBrickList)});
    var traversalRunning := SyncState({TSPTraversal}, traversalBound.bound);
    SetFacts(TSPTraversal, (TSPTraversal, args.tspBrickList));
    assert Replay(Idle, s0) == Replay(traversalBound, s2);
    assert Replay(traversalBound, s2) == Replay(traversalRunning, s4);
    assert Replay(traversalRunning, s4) == Replay(traversalBound, s5);
    assert Replay(traversalBound, s5) == Replay(Idle, s7);
    assert Replay(Idle, s7) == Some(Idle);
  }

  /**
   * The set identities a replay step needs. Dafny knows them, but a proof
   * of a replay only finds them when these terms are mentioned.
   */
  lemma SetFacts(p: string, slot: (string, nat))
    ensures {} + {p} == {p} && {p} - {p} == {}
    ensures {} + {slot} == {slot} && {slot} - {slot} == {}
  {
  }
}
