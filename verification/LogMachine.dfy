/**
 The logging pipeline of netbridge/Logger.cc as a step machine, from LogManager::Start on: any number of
 threads run Flush, CreateLog and Stop while one thread runs LogManager::Run. A critical section whose
 data nobody touches outside its mutex is one step, guarded by that mutex; `inuse_`, which producers clear
 without the mutex, is read and written in steps of its own.
 */
module LogMachine {
  import opened Common
  import opened LogFraming

  type Lid = nat   // a Logger
  type Bid = nat   // a BufferInfo, unique inside its Logger

  datatype Entry = Entry(who: Tid, rec: Record)

  /** A BufferInfo, with the history of the records that were put into it, and by whom. */
  datatype Buf = Buf(inuse: bool, bytes: seq<Byte>, owner: Tid, recs: seq<Record>)

  /**
   A Logger. `taken` is the local `tmpBufs` of the Update in progress, by the thread each buffer belonged to.
   `sink` is all that was written. History: `enq` has the records as their third push ended, `mark` is what
   `enq` was when Stop began.
   */
  datatype Log = Log(
    locked: bool,
    shutdown: bool,
    heap: map<Bid, Buf>,
    made: nat,
    buffers: map<Tid, Bid>,
    taken: map<Tid, Bid>,
    sink: seq<Entry>,
    enq: seq<Entry>,
    mark: seq<Entry>)

  /** Inside Flush, CreateLog or Stop. */
  datatype Pc =
    | Idle
    | Enter(l: Lid, rec: Record)                    // 190-202
    | Push(l: Lid, b: Bid, rec: Record, piece: nat) // 207, 208, 209
    | Release(l: Lid, b: Bid)                       // 213-218
    | Busy(l: Lid)                                  // 215, 583-590
    | Begin                                         // 541-547
    | LockLogs                                      // 551
    | Shutting(i: nat)                              // 552-554
    | Join                                          // 557

  /** What the Run thread does with the answer of Update. */
  datatype Back =
    | InRun(run: bool, todo: seq<Lid>)   // 618-620
    | InDrain(i: nat)                    // 626-631

  datatype Con =
    | Wait                                                  // 601-610
    | Copy(run: bool)                                       // 612-616
    | Next(back: Back)
    | Scan(back: Back, l: Lid, left: set<Tid>, todo: bool)  // 415-429
    | Write(back: Back, l: Lid, todo: bool)                 // 431-440
    | LockDrain                                             // 623
    | Done

  datatype Holder = Nobody | Runner | Stopper(t: Tid)

  datatype Shared = Shared(
    logs: map<Lid, Log>,       // every Logger ever created
    list: seq<Lid>,            // logs_
    listOwner: Holder,         // logsMutex_
    busy: set<Lid>,            // busyLogs_
    shutdown: bool,
    failed: bool,              // an assert of lines 200, 435 or 468 failed
    stopped: bool)             // the Stop that set `shutdown` has returned

  datatype State = State(sh: Shared, con: Con, pcs: map<Tid, Pc>)

  const FLUSH_THRESHOLD: nat := 2 * 1024 * 1024

  function Init(): State {
    State(Shared(map[], [], Nobody, {}, false, false, false), Wait, map[])
  }

  function NewLog(): Log {
    Log(false, false, map[], 0, map[], map[], [], [], [])
  }

  /** The records of one thread in a sequence of entries. */
  function Of(p: Tid, es: seq<Entry>): seq<Record> {
    if es == [] then []
    else Of(p, es[..|es| - 1]) + if es[|es| - 1].who == p then [es[|es| - 1].rec] else []
  }

  function Tagged(p: Tid, rs: seq<Record>): (es: seq<Entry>)
    ensures |es| == |rs|
  {
    seq(|rs|, i requires 0 <= i < |rs| => Entry(p, rs[i]))
  }

  // ---- what a step does to one Logger ----

  function SetUse(lg: Log, b: Bid, use: bool): Log {
    if b !in lg.heap then lg else lg.(heap := lg.heap[b := lg.heap[b].(inuse := use)])
  }

  function NewBuffer(lg: Log, t: Tid): Log {
    lg.(heap := lg.heap[lg.made := Buf(true, [], t, [])], made := lg.made + 1, buffers := lg.buffers[t := lg.made])
  }

  /** Lines 196-201: the thread's buffer, made on first use, becomes busy. */
  function Entered(lg: Log, t: Tid): (Log, Bid) {
    if t in lg.buffers then (SetUse(lg, lg.buffers[t], true), lg.buffers[t]) else (NewBuffer(lg, t), lg.made)
  }

  function Piece(rec: Record, k: nat): seq<Byte> {
    if k == 0 then LE(rec.level, 4) else if k == 1 then LE(|rec.text|, 8) else rec.text
  }

  function Pushed(lg: Log, t: Tid, b: Bid, rec: Record, k: nat): Log {
    if b !in lg.heap then lg
    else
      var buf := lg.heap[b];
      var buf' := buf.(bytes := buf.bytes + Piece(rec, k));
      if k < 2 then lg.(heap := lg.heap[b := buf'])
      else lg.(heap := lg.heap[b := buf'.(recs := buf.recs + [rec])], enq := lg.enq + [Entry(t, rec)])
  }

  predicate InUse(lg: Log, b: Bid) {
    b in lg.heap && lg.heap[b].inuse
  }

  function Taken(lg: Log, p: Tid): Log
    requires p in lg.buffers
  {
    lg.(buffers := lg.buffers - {p}, taken := lg.taken[p := lg.buffers[p]])
  }

  function Bytes(lg: Log, b: Bid): seq<Byte> {
    if b in lg.heap then lg.heap[b].bytes else []
  }

  /** Lines 432-434: parse the bytes and write what they hold; the buffer is gone afterwards. */
  function Written(lg: Log, p: Tid): Log
    requires p in lg.taken && |Bytes(lg, lg.taken[p])| < MAXBYTES
  {
    var b := lg.taken[p];
    lg.(sink := lg.sink + Tagged(p, Parse(Bytes(lg, b), 0).records), heap := lg.heap - {b}, taken := lg.taken - {p})
  }

  predicate WritesAll(bytes: seq<Byte>)
    requires |bytes| < MAXBYTES
  {
    var o := Parse(bytes, 0);
    o.Parsed? && o.end == |bytes|
  }

  // ---- one step of a thread in Flush or Stop ----

  function WithLog(sh: Shared, l: Lid, lg: Log): Shared {
    sh.(logs := sh.logs[l := lg])
  }

  /** Every Logger with `mark` set to what it has been given so far. */
  function Marked(logs: map<Lid, Log>): map<Lid, Log> {
    map l | l in logs :: logs[l].(mark := logs[l].enq)
  }

  predicate Ready(s: State, t: Tid, pc: Pc) {
    match pc
    case Idle => false
    case Enter(l, _) => l in s.sh.logs && !s.sh.logs[l].locked
    case Push(l, b, rec, k) =>
      l in s.sh.logs && |Bytes(s.sh.logs[l], b)| + |Piece(rec, k)| < MAXBYTES
    case Release(l, _) => l in s.sh.logs
    case Busy(_) => true
    case Begin => true
    case LockLogs => s.sh.listOwner == Nobody
    case Shutting(i) => i < |s.sh.list| && s.sh.list[i] in s.sh.logs ==> !s.sh.logs[s.sh.list[i]].locked
    case Join => s.con.Done?
  }

  function FlushStep(sh: Shared, t: Tid, pc: Pc): (Shared, Pc)
    requires pc.Enter? || pc.Push? || pc.Release?
    requires pc.l in sh.logs
  {
    var lg := sh.logs[pc.l];
    match pc
    case Enter(l, rec) =>
      if lg.shutdown then (sh, Idle)
      else
        var (lg', b) := Entered(lg, t);
        (WithLog(sh, l, lg').(failed := sh.failed || (t in lg.buffers && InUse(lg, lg.buffers[t]))), Push(l, b, rec, 0))
    case Push(l, b, rec, k) =>
      (WithLog(sh, l, Pushed(lg, t, b, rec, k)), if k < 2 then Push(l, b, rec, k + 1) else Release(l, b))
    case Release(l, b) =>
      (WithLog(sh, l, SetUse(lg, b, false)), if |Bytes(lg, b)| > FLUSH_THRESHOLD then Busy(l) else Idle)
  }

  function StopStep(sh: Shared, t: Tid, pc: Pc): (Shared, Pc)
    requires pc.Busy? || pc.Begin? || pc.LockLogs? || pc.Shutting? || pc.Join?
  {
    match pc
    case Busy(l) => (if sh.shutdown then sh else sh.(busy := sh.busy + {l}), Idle)
    case Begin =>
      if sh.shutdown then (sh, Idle) else (sh.(shutdown := true, logs := Marked(sh.logs)), LockLogs)
    case LockLogs => (sh.(listOwner := Stopper(t)), Shutting(0))
    case Shutting(i) =>
      if i < |sh.list| && sh.list[i] in sh.logs then
        (WithLog(sh, sh.list[i], sh.logs[sh.list[i]].(shutdown := true)), Shutting(i + 1))
      else (sh.(listOwner := Nobody), Join)
    case Join => (sh.(stopped := true), Idle)
  }

  // ---- one step of the Run thread; `k` is the map entry or the buffer that its loop comes to ----

  predicate RunReady(s: State, k: Tid) {
    match s.con
    case Wait => false
    case Copy(_) => s.sh.listOwner == Nobody
    case Next(InRun(_, todo)) => todo != [] ==> todo[0] in s.sh.logs && !s.sh.logs[todo[0]].locked
    case Next(InDrain(i)) =>
      i < |s.sh.list| ==> s.sh.list[i] in s.sh.logs && !s.sh.logs[s.sh.list[i]].locked
    case Scan(_, l, left, _) => l in s.sh.logs && (left != {} ==> k in left && k in s.sh.logs[l].buffers)
    case Write(_, l, _) =>
      l in s.sh.logs &&
      var lg := s.sh.logs[l];
      lg.taken != map[] ==> k in lg.taken && |Bytes(lg, lg.taken[k])| < MAXBYTES
    case LockDrain => s.sh.listOwner == Nobody
    case Done => false
  }

  function StartUpdate(sh: Shared, back: Back, l: Lid): (Shared, Con)
    requires l in sh.logs
  {
    (WithLog(sh, l, sh.logs[l].(locked := true)), Scan(back, l, sh.logs[l].buffers.Keys, false))
  }

  function ScanStep(sh: Shared, con: Con, k: Tid): (Shared, Con)
    requires con.Scan? && con.l in sh.logs && (con.left != {} ==> k in con.left && k in sh.logs[con.l].buffers)
  {
    var lg := sh.logs[con.l];
    if con.left == {} then (WithLog(sh, con.l, lg.(locked := false)), Write(con.back, con.l, con.todo))
    else if InUse(lg, lg.buffers[k]) then (sh, con.(left := con.left - {k}, todo := true))
    else (WithLog(sh, con.l, Taken(lg, k)), con.(left := con.left - {k}))
  }

  function Erased(list: seq<Lid>, i: nat): seq<Lid> {
    if i < |list| then list[..i] + list[i + 1..] else list
  }

  function WriteStep(sh: Shared, con: Con, k: Tid): (Shared, Con)
    requires con.Write? && con.l in sh.logs
    requires var lg := sh.logs[con.l];
      lg.taken != map[] ==> k in lg.taken && |Bytes(lg, lg.taken[k])| < MAXBYTES
  {
    var lg := sh.logs[con.l];
    if lg.taken != map[] then
      (WithLog(sh, con.l, Written(lg, k)).(failed := sh.failed || !WritesAll(Bytes(lg, lg.taken[k]))), con)
    else match con.back
      case InRun(_, _) => (sh, Next(con.back))
      case InDrain(i) =>
        if con.todo then (sh, Next(InDrain(i + 1))) else (sh.(list := Erased(sh.list, i)), Next(InDrain(i)))
  }

  function RunStep(s: State, k: Tid): (Shared, Con)
    requires RunReady(s, k)
  {
    var sh := s.sh;
    match s.con
    case Copy(run) => (sh, Next(InRun(run, sh.list)))
    case Next(InRun(run, todo)) =>
      if todo == [] then (sh, if run then Wait else LockDrain)
      else StartUpdate(sh, InRun(run, todo[1..]), todo[0])
    case Next(InDrain(i)) =>
      if i < |sh.list| then StartUpdate(sh, InDrain(i), sh.list[i])
      else if sh.list == [] then (sh.(listOwner := Nobody), Done)
      else (sh, Next(InDrain(0)))
    case Scan(_, _, _, _) => ScanStep(sh, s.con, k)
    case Write(_, _, _) => WriteStep(sh, s.con, k)
    case LockDrain => (sh.(listOwner := Runner), Next(InDrain(0)))
  }

  // ---- runs ----

  datatype Action =
    | Create(l: Lid)                      // CreateLog, its Init having succeeded
    | Call(t: Tid, l: Lid, rec: Record)   // Flush reaches line 188 with a record that is not empty
    | Stop(t: Tid)
    | Step(t: Tid)
    | Wake(order: seq<Lid>)               // the timed wait ends; `order` is busyLogs_ in its set's order
    | Run(k: Tid)

  predicate Free(s: State, t: Tid) {
    t !in s.pcs || s.pcs[t].Idle?
  }

  ghost predicate Enabled(s: State, a: Action) {
    match a
    case Create(l) => l !in s.sh.logs && s.sh.listOwner == Nobody
    case Call(t, l, rec) => Free(s, t) && l in s.sh.logs && Good(rec)
    case Stop(t) => Free(s, t)
    case Step(t) => t in s.pcs && Ready(s, t, s.pcs[t])
    case Wake(order) => s.con.Wait? && NoDup(order) && (forall l :: l in order <==> l in s.sh.busy)
    case Run(k) => RunReady(s, k)
  }

  ghost function Exec(s: State, t: Tid, pc: Pc): (Shared, Pc)
    requires Ready(s, t, pc)
  {
    if pc.Enter? || pc.Push? || pc.Release? then FlushStep(s.sh, t, pc) else StopStep(s.sh, t, pc)
  }

  ghost function Apply(s: State, a: Action): State
    requires Enabled(s, a)
  {
    match a
    case Create(l) =>
      if s.sh.shutdown then s
      else s.(sh := s.sh.(logs := s.sh.logs[l := NewLog()], list := s.sh.list + [l]))
    case Call(t, l, rec) => s.(pcs := s.pcs[t := Enter(l, rec)])
    case Stop(t) => s.(pcs := s.pcs[t := Begin])
    case Step(t) => var (sh', pc') := Exec(s, t, s.pcs[t]); State(sh', s.con, s.pcs[t := pc'])
    case Wake(order) =>
      var run := !s.sh.shutdown;
      State(s.sh.(busy := {}), if order == [] then Copy(run) else Next(InRun(run, order)), s.pcs)
    case Run(k) => var (sh', con') := RunStep(s, k); State(sh', con', s.pcs)
  }

  ghost predicate Moves(s: State, a: Action, s': State) {
    Enabled(s, a) && s' == Apply(s, a)
  }

  /** Action `i` leads from state `i` to the next. */
  ghost predicate StepAt(ss: seq<State>, acts: seq<Action>, i: int) {
    0 <= i < |acts| && i + 1 < |ss| && Moves(ss[i], acts[i], ss[i + 1])
  }

  ghost predicate IsRun(ss: seq<State>, acts: seq<Action>) {
    |ss| == |acts| + 1 && ss[0] == Init() &&
    forall i :: 0 <= i < |acts| ==> StepAt(ss, acts, i)
  }
}
