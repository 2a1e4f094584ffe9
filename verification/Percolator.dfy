/** Percolator transactions (engine/src/percolator.rs, engine/src/mvcc.rs, server/src/cross_txn.rs) as a
    state machine: one map per column family, coordinators and readers as interleaved processes, all
    timestamps drawn from one clock. Regions own disjoint keys, so the union of their column families is
    one store; every step below touches a single key, hence a single region. */
module Percolator {
  import opened Basics

  type Key = Bytes
  type Ts = nat
  type Value = Option<Bytes>  // None is the tombstone `Value::Delete`

  datatype Lock = Lock(primary: Key, start: Ts, ttl: nat)

  /** The Default, Write and Lock column families. */
  datatype Store = Store(data: map<(Key, Ts), Value>, writes: map<(Key, Ts), Ts>, locks: map<Key, Lock>)

  // ---- the engine's conditional writes -------------------------------------------

  predicate Held(st: Store, k: Key, s: Ts) { k in st.locks && st.locks[k].start == s }

  /** `check_prewrite`: no commit at or after the snapshot, and no lock at all. */
  ghost predicate Clear(st: Store, k: Key, s: Ts) {
    k !in st.locks && forall c: Ts | (k, c) in st.writes :: c < s
  }

  function Prewrite(st: Store, k: Key, v: Value, l: Lock): Store {
    st.(data := st.data[(k, l.start) := v], locks := st.locks[k := l])
  }

  function PutWrite(st: Store, k: Key, s: Ts, c: Ts): Store {
    st.(writes := st.writes[(k, c) := s], locks := st.locks - {k})
  }

  function Forward(st: Store, k: Key, s: Ts, c: Ts): Store {
    if Held(st, k, s) then PutWrite(st, k, s, c) else st
  }

  function Rollback(st: Store, k: Key, s: Ts): Store {
    if Held(st, k, s) then st.(locks := st.locks - {k}, data := st.data - {(k, s)}) else st
  }

  // ---- snapshot reads -------------------------------------------------------------

  /** The newest commit of `k` at or below `ts`. */
  function Newest(w: map<(Key, Ts), Ts>, k: Key, ts: Ts): (r: Option<Ts>)
    ensures r.None? ==> forall c: Ts | c <= ts :: (k, c) !in w
    ensures r.Some? ==> r.value <= ts && (k, r.value) in w
    ensures r.Some? ==> forall c: Ts | r.value < c <= ts :: (k, c) !in w
  {
    if (k, ts) in w then Some(ts) else if ts == 0 then None else Newest(w, k, ts - 1)
  }

  function Fetch(st: Store, k: Key, s: Ts): Value {
    if (k, s) in st.data then st.data[(k, s)] else None
  }

  /** `read_committed`. */
  function Lookup(st: Store, k: Key, ts: Ts): Value {
    match Newest(st.writes, k, ts)
    case None => None
    case Some(c) => Fetch(st, k, st.writes[(k, c)])
  }

  ghost predicate Recorded(st: Store, k: Key, s: Ts, c: Ts) { (k, c) in st.writes && st.writes[(k, c)] == s }

  ghost function FindCommit(st: Store, k: Key, s: Ts): (r: Option<Ts>)
    ensures r.Some? ==> Recorded(st, k, s, r.value)
    ensures r.None? ==> forall c: Ts :: !Recorded(st, k, s, c)
  {
    if exists c: Ts :: Recorded(st, k, s, c) then
      var c: Ts :| Recorded(st, k, s, c);
      Some(c)
    else None
  }

  // ---- transactions ---------------------------------------------------------------

  datatype Mutation = Mutation(key: Key, value: Value)

  /** Where a coordinator stands; its progress is volatile, a crash merely ends its steps. */
  datatype Phase = Prewriting(done: nat) | Aborting(done: nat) | Ready(commit: Ts) | Committed(commit: Ts)

  datatype Txn = Txn(muts: seq<Mutation>, ttl: nat, phase: Phase)

  function Primary(t: Txn): Key
    requires t.muts != []
  {
    t.muts[0].key
  }

  /** How many keys have been prewritten. */
  function Done(t: Txn): nat {
    match t.phase
    case Prewriting(n) => n
    case Aborting(n) => n
    case _ => |t.muts|
  }

  function CommitOf(t: Txn): Option<Ts> {
    if t.phase.Ready? || t.phase.Committed? then Some(t.phase.commit) else None
  }

  /** Everything shared: the store, the clock, the coordinators, and which keys were rolled back. */
  datatype Core = Core(store: Store, clock: Ts, txns: map<Ts, Txn>, undone: set<(Key, Ts)>)

  function SetPhase(g: Core, s: Ts, p: Phase): Core
    requires s in g.txns
  {
    g.(txns := g.txns[s := g.txns[s].(phase := p)])
  }

  function Begin(g: Core, muts: seq<Mutation>, ttl: nat): Core {
    g.(clock := g.clock + 1, txns := g.txns[g.clock := Txn(muts, ttl, Prewriting(0))])
  }

  predicate MayPrewrite(g: Core, s: Ts) {
    s in g.txns && g.txns[s].muts != [] && g.txns[s].phase.Prewriting? && g.txns[s].phase.done < |g.txns[s].muts|
  }

  /** Prewrite the next key, or turn to undoing what was acquired on a conflict. */
  ghost function PrewriteNext(g: Core, s: Ts): Core
    requires MayPrewrite(g, s)
  {
    var t := g.txns[s];
    var m := t.muts[t.phase.done];
    if Clear(g.store, m.key, s)
    then SetPhase(g.(store := Prewrite(g.store, m.key, m.value, Lock(Primary(t), s, t.ttl))), s, Prewriting(t.phase.done + 1))
    else SetPhase(g, s, Aborting(t.phase.done))
  }

  function Undo(g: Core, k: Key, s: Ts): Core {
    if Held(g.store, k, s) then g.(store := Rollback(g.store, k, s), undone := g.undone + {(k, s)}) else g
  }

  predicate MayDraw(g: Core, s: Ts) {
    s in g.txns && g.txns[s].phase == Prewriting(|g.txns[s].muts|)
  }

  function DrawCommit(g: Core, s: Ts): Core
    requires MayDraw(g, s)
  {
    SetPhase(g, s, Ready(g.clock)).(clock := g.clock + 1)
  }

  predicate IsReady(g: Core, s: Ts) { s in g.txns && g.txns[s].muts != [] && g.txns[s].phase.Ready? }

  /** `commit_primary`, which writes whatever became of the lock. */
  function CommitPrimary(g: Core, s: Ts): Core
    requires IsReady(g, s)
  {
    var t := g.txns[s];
    SetPhase(g.(store := PutWrite(g.store, Primary(t), s, t.phase.commit)), s, Committed(t.phase.commit))
  }

  function RollForward(g: Core, k: Key, s: Ts, c: Ts): Core { g.(store := Forward(g.store, k, s, c)) }

  // ---- readers ----------------------------------------------------------------------

  /** `Local` is `mvcc_get`, `Cross` is `cross_get`, `Remote` a reader of a replicated region that asks
      the primary's leader and drives the resolution itself. */
  datatype Mode = Local | Cross | Remote

  datatype Status = CommittedAt(commit: Ts) | RolledBack

  datatype Pc =
    | Looking(tries: nat)
    | Asking(tries: nat, lock: Lock)
    | Scanning(tries: nat, lock: Lock, settled: bool)
    | Settling(tries: nat, lock: Lock)
    | Repeeking(tries: nat, lock: Lock)
    | Resolving(tries: nat, lock: Lock, status: Status)
    | Rechecking
    | Reading
    | Found(start: Ts)
    | Answered(value: Value)
    | Refused

  datatype Reader = Reader(key: Key, ts: Ts, mode: Mode, pc: Pc)

  /** No lock that could shadow the snapshot. */
  predicate Unshadowed(st: Store, k: Key, ts: Ts) { k in st.locks ==> st.locks[k].start > ts }

  function AfterLoop(m: Mode): Pc { if m.Cross? then Rechecking else Reading }

  const MAX_TRIES: nat := 8

  function Look(st: Store, r: Reader, n: nat): Pc {
    if (!r.mode.Remote? && n >= MAX_TRIES) || Unshadowed(st, r.key, r.ts) then AfterLoop(r.mode)
    else Asking(n, st.locks[r.key])
  }

  ghost function StatusOf(st: Store, l: Lock): Status {
    match FindCommit(st, l.primary, l.start)
    case Some(c) => CommittedAt(c)
    case None => RolledBack
  }

  /** The engine's `check_txn_status`: one step, rolling an expired primary back. */
  ghost function CheckStatus(g: Core, r: Reader, n: nat, l: Lock): (Core, Pc) {
    if Held(g.store, l.primary, l.start) then
      if r.ts > g.store.locks[l.primary].ttl then (Undo(g, l.primary, l.start), Resolving(n, l, RolledBack)) else (g, Refused)
    else (g, Resolving(n, l, StatusOf(g.store, l)))
  }

  /** The server's `check_txn_status` splits: peek at the lock, scan the commits, settle the primary
      through the log, peek and scan again. */
  function Peek(st: Store, n: nat, l: Lock, now: Ts): Pc {
    if !Held(st, l.primary, l.start) then Scanning(n, l, false)
    else if now <= st.locks[l.primary].ttl then Refused
    else Settling(n, l)
  }

  ghost function Scan(st: Store, n: nat, l: Lock, settled: bool): Pc {
    if StatusOf(st, l).RolledBack? && !settled then Settling(n, l) else Resolving(n, l, StatusOf(st, l))
  }

  function Repeek(st: Store, n: nat, l: Lock): Pc {
    if Held(st, l.primary, l.start) then Resolving(n, l, RolledBack) else Scanning(n, l, true)
  }

  function Resolve(g: Core, k: Key, s: Ts, status: Status): Core {
    match status
    case CommittedAt(c) => RollForward(g, k, s, c)
    case RolledBack => Undo(g, k, s)
  }

  function Seek(st: Store, r: Reader): Pc {
    match Newest(st.writes, r.key, r.ts)
    case None => Answered(None)
    case Some(c) => Found(st.writes[(r.key, c)])
  }

  ghost function ReadStep(g: Core, r: Reader, now: Ts): (Core, Pc) {
    match r.pc
    case Looking(n) => (g, Look(g.store, r, n))
    case Asking(n, l) => if r.mode.Remote? then (g, Peek(g.store, n, l, now)) else CheckStatus(g, r, n, l)
    case Scanning(n, l, settled) => (g, Scan(g.store, n, l, settled))
    case Settling(n, l) => (Undo(g, l.primary, l.start), Repeeking(n, l))
    case Repeeking(n, l) => (g, Repeek(g.store, n, l))
    case Resolving(n, l, status) => (Resolve(g, r.key, l.start, status), Looking(n + 1))
    case Rechecking => (g, if Unshadowed(g.store, r.key, r.ts) then Reading else Refused)
    case Reading => (g, Seek(g.store, r))
    case Found(s) => (g, Answered(Fetch(g.store, r.key, s)))
    case _ => (g, r.pc)
  }

  // ---- the system --------------------------------------------------------------------

  datatype Sys = Sys(core: Core, readers: map<nat, Reader>)

  datatype Action =
    | StartTxn(muts: seq<Mutation>, ttl: nat)
    | PrewriteOne(txn: Ts)
    | RollbackOwn(txn: Ts, i: nat)
    | TakeCommitTs(txn: Ts)
    | Commit(txn: Ts)
    | Finalize(txn: Ts, i: nat)
    | StartRead(reader: nat, key: Key, ts: Ts, mode: Mode)
    | ReaderStep(reader: nat, now: Ts)

  /** A transaction has at least one mutation, and its primary is prewritten once. */
  predicate WellFormed(muts: seq<Mutation>) {
    muts != [] && forall i: nat | 0 < i < |muts| :: muts[i].key != muts[0].key
  }

  predicate Enabled(y: Sys, a: Action) {
    match a
    case StartTxn(muts, _) => WellFormed(muts)
    case PrewriteOne(s) => MayPrewrite(y.core, s)
    case RollbackOwn(s, i) =>
      s in y.core.txns && y.core.txns[s].phase.Aborting? && i < y.core.txns[s].phase.done && i < |y.core.txns[s].muts|
    case TakeCommitTs(s) => MayDraw(y.core, s)
    case Commit(s) => IsReady(y.core, s) && Held(y.core.store, Primary(y.core.txns[s]), s)
    case Finalize(s, i) =>
      && s in y.core.txns && y.core.txns[s].phase.Committed? && i < |y.core.txns[s].muts|
      && y.core.txns[s].muts[i].key != y.core.txns[s].muts[0].key
    case StartRead(r, _, ts, _) => r !in y.readers && ts < y.core.clock
    case ReaderStep(r, _) => r in y.readers
  }

  ghost function Do(y: Sys, a: Action): Sys
    requires Enabled(y, a)
  {
    match a
    case StartTxn(muts, ttl) => y.(core := Begin(y.core, muts, ttl))
    case PrewriteOne(s) => y.(core := PrewriteNext(y.core, s))
    case RollbackOwn(s, i) => y.(core := Undo(y.core, y.core.txns[s].muts[i].key, s))
    case TakeCommitTs(s) => y.(core := DrawCommit(y.core, s))
    case Commit(s) => y.(core := CommitPrimary(y.core, s))
    case Finalize(s, i) => y.(core := RollForward(y.core, y.core.txns[s].muts[i].key, s, y.core.txns[s].phase.commit))
    case StartRead(r, k, ts, mode) => y.(readers := y.readers[r := Reader(k, ts, mode, Looking(0))])
    case ReaderStep(r, now) =>
      var (g, pc) := ReadStep(y.core, y.readers[r], now);
      Sys(g, y.readers[r := y.readers[r].(pc := pc)])
  }

  const START: Sys := Sys(Core(Store(map[], map[], map[]), 1, map[], {}), map[])

  ghost predicate Moves(y: Sys, z: Sys) { exists a: Action :: Enabled(y, a) && z == Do(y, a) }

  /** A run from the empty store: any interleaving whatever of coordinators, resolvers and readers. */
  ghost predicate Run(st: seq<Sys>) {
    |st| > 0 && st[0] == START && forall i | 0 <= i < |st| - 1 :: Moves(st[i], st[i + 1])
  }
}
