/**
 A run in which Stop returns without having shut down the only Logger: Run drains and drops it between
 lines 547 and 551, so the loop of lines 552-553 finds no Logger left. A record given afterwards is lost.
 */
module LogDropped {
  import opened LogFraming
  import opened LogMachine

  /** One Logger without records and one thread, in Stop. */
  function At(locked: bool, list: seq<Lid>, owner: Holder, ended: bool, con: Con, pc: Pc): State {
    State(Shared(map[0 := NewLog().(locked := locked)], list, owner, {}, true, false, ended), con, map[0 := pc])
  }

  function Visit(n: nat): State
    requires n <= 14
  {
    if n == 0 then At(false, [0], Nobody, false, Wait, LockLogs)
    else if n == 1 then At(false, [0], Nobody, false, Copy(false), LockLogs)
    else if n == 2 then At(false, [0], Nobody, false, Next(InRun(false, [0])), LockLogs)
    else if n == 3 then At(true, [0], Nobody, false, Scan(InRun(false, []), 0, {}, false), LockLogs)
    else if n == 4 then At(false, [0], Nobody, false, Write(InRun(false, []), 0, false), LockLogs)
    else if n == 5 then At(false, [0], Nobody, false, Next(InRun(false, [])), LockLogs)
    else if n == 6 then At(false, [0], Nobody, false, LockDrain, LockLogs)
    else if n == 7 then At(false, [0], Runner, false, Next(InDrain(0)), LockLogs)
    else if n == 8 then At(true, [0], Runner, false, Scan(InDrain(0), 0, {}, false), LockLogs)
    else if n == 9 then At(false, [0], Runner, false, Write(InDrain(0), 0, false), LockLogs)
    else if n == 10 then At(false, [], Runner, false, Next(InDrain(0)), LockLogs)
    else if n == 11 then At(false, [], Nobody, false, Done, LockLogs)
    else if n == 12 then At(false, [], Stopper(0), false, Done, Shutting(0))
    else if n == 13 then At(false, [], Nobody, false, Done, Join)
    else At(false, [], Nobody, true, Done, Idle)
  }

  function Move(n: nat): Action {
    if n == 0 then Wake([]) else if n <= 10 then Run(0) else Step(0)
  }

  lemma Empty()
    ensures NewLog().buffers.Keys == {} && NewLog().taken == map[]
  {
  }

  lemma RunMoves(n: nat)
    requires n <= 5
    ensures Enabled(Visit(n), Move(n)) && Apply(Visit(n), Move(n)) == Visit(n + 1)
  {
    Empty();
    assert [0 as Lid][1..] == [];
    assert Apply(Visit(n), Move(n)).sh.logs == Visit(n + 1).sh.logs;
  }

  lemma DrainMoves(n: nat)
    requires 6 <= n <= 10
    ensures Enabled(Visit(n), Move(n)) && Apply(Visit(n), Move(n)) == Visit(n + 1)
  {
    Empty();
    assert Apply(Visit(n), Move(n)).sh.logs == Visit(n + 1).sh.logs;
  }

  lemma StopMoves(n: nat)
    requires 11 <= n <= 13
    ensures Enabled(Visit(n), Move(n)) && Apply(Visit(n), Move(n)) == Visit(n + 1)
  {
    assert Apply(Visit(n), Move(n)).pcs == Visit(n + 1).pcs;
  }

  function Created(): State {
    State(Shared(map[0 := NewLog()], [0], Nobody, {}, false, false, false), Wait, map[])
  }

  lemma OpeningMoves()
    ensures Moves(Init(), Create(0), Created())
    ensures Moves(Created(), Stop(0), Created().(pcs := map[0 := Begin]))
    ensures Moves(Created().(pcs := map[0 := Begin]), Step(0), Visit(0))
  {
    assert Apply(Created().(pcs := map[0 := Begin]), Step(0)).sh.logs == Visit(0).sh.logs;
  }

  // ---- a Flush after that ----

  /** The Logger when the other thread has done `n` of the five steps of its Flush. */
  function Taking(rec: Record, n: nat): Log
    requires n <= 5
  {
    if n == 0 then NewLog()
    else if n == 1 then NewBuffer(NewLog(), 1)
    else if n <= 4 then Pushed(Taking(rec, n - 1), 1, 0, rec, n - 2)
    else SetUse(Taking(rec, 4), 0, false)
  }

  function FlushPc(rec: Record, n: nat): Pc
    requires n <= 5
  {
    if n == 0 then Enter(0, rec) else if n <= 3 then Push(0, 0, rec, n - 1) else if n == 4 then Release(0, 0) else Idle
  }

  function Later(rec: Record, n: nat): State
    requires n <= 5
  {
    State(Shared(map[0 := Taking(rec, n)], [], Nobody, {}, true, false, true), Done, map[0 := Idle, 1 := FlushPc(rec, n)])
  }

  lemma TakingHas(rec: Record, n: nat)
    requires 1 <= n <= 4
    ensures var lg := Taking(rec, n);
      0 in lg.heap && !lg.shutdown && !lg.locked && lg.sink == [] && lg.enq == (if n == 4 then [Entry(1, rec)] else []) &&
      |lg.heap[0].bytes| == (if n == 1 then 0 else if n == 2 then 4 else if n == 3 then 12 else |Encode(rec)|)
  {
    if n > 1 { TakingHas(rec, n - 1); }
  }

  lemma EnterMoves(rec: Record)
    requires Good(rec)
    ensures Moves(Visit(14), Call(1, 0, rec), Later(rec, 0)) && Moves(Later(rec, 0), Step(1), Later(rec, 1))
  {
    var s := Apply(Visit(14), Call(1, 0, rec));
    assert s.pcs == Later(rec, 0).pcs && s.sh.logs == Later(rec, 0).sh.logs;
    var s' := Apply(Later(rec, 0), Step(1));
    assert s'.sh.logs == Later(rec, 1).sh.logs && s'.pcs == Later(rec, 1).pcs;
  }

  lemma PushMoves(rec: Record, n: nat)
    requires Good(rec) && |Encode(rec)| < MAXBYTES && 1 <= n <= 3
    ensures Moves(Later(rec, n), Step(1), Later(rec, n + 1))
  {
    TakingHas(rec, n);
    var s' := Apply(Later(rec, n), Step(1));
    assert s'.sh.logs == Later(rec, n + 1).sh.logs && s'.pcs == Later(rec, n + 1).pcs;
  }

  lemma ReleaseMoves(rec: Record)
    requires |Encode(rec)| <= FLUSH_THRESHOLD
    ensures Moves(Later(rec, 4), Step(1), Later(rec, 5))
  {
    TakingHas(rec, 4);
    var s' := Apply(Later(rec, 4), Step(1));
    assert s'.sh.logs == Later(rec, 5).sh.logs && s'.pcs == Later(rec, 5).pcs;
  }

  // ---- the whole run ----

  function StateNr(rec: Record, i: nat): State
    requires i <= 23
  {
    if i == 0 then Init() else if i == 1 then Created() else if i == 2 then Created().(pcs := map[0 := Begin])
    else if i <= 17 then Visit(i - 3) else Later(rec, i - 18)
  }

  function ActionNr(rec: Record, i: nat): Action {
    if i == 0 then Create(0) else if i == 1 then Stop(0) else if i == 2 then Step(0)
    else if i <= 16 then Move(i - 3) else if i == 17 then Call(1, 0, rec) else Step(1)
  }

  lemma AnyMoves(rec: Record, i: nat)
    requires Good(rec) && |Encode(rec)| <= FLUSH_THRESHOLD && i <= 22
    ensures Moves(StateNr(rec, i), ActionNr(rec, i), StateNr(rec, i + 1))
  {
    if i <= 2 { OpeningMoves(); }
    else if i <= 16 { AnyMove(i - 3); }
    else if i <= 18 { EnterMoves(rec); }
    else if i <= 21 { PushMoves(rec, i - 18); }
    else { ReleaseMoves(rec); }
  }

  /**
   Stop has returned without shutting the Logger down (state 17 of the run), then a thread has given it a
   record, whatever record, and its Flush has returned; the record is not written.
   */
  lemma NeverShutDown(rec: Record) returns (ss: seq<State>, acts: seq<Action>)
    requires Good(rec) && |Encode(rec)| <= FLUSH_THRESHOLD
    ensures IsRun(ss, acts) && |ss| == 24
    ensures ss[17].sh.stopped && 0 in ss[17].sh.logs && !ss[17].sh.logs[0].shutdown
    ensures var s := ss[23];
      1 in s.pcs && s.pcs[1] == Idle && 0 in s.sh.logs && s.sh.logs[0].enq == [Entry(1, rec)] && s.sh.logs[0].sink == []
  {
    ss := seq(24, i requires 0 <= i < 24 => StateNr(rec, i));
    acts := seq(23, i requires 0 <= i => ActionNr(rec, i));
    forall i | 0 <= i < 23 ensures StepAt(ss, acts, i) {
      AnyMoves(rec, i);
    }
    TakingHas(rec, 4);
  }

  lemma AnyMove(n: nat)
    requires n <= 13
    ensures Enabled(Visit(n), Move(n)) && Apply(Visit(n), Move(n)) == Visit(n + 1)
  {
    if n >= 11 { StopMoves(n); } else if n >= 6 { DrainMoves(n); } else { RunMoves(n); }
  }
}
