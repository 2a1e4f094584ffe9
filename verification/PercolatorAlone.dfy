/** A reader left to itself: whichever way it resolves locks, it ends within a few steps, with an answer exactly when the
    lock in its way is gone, decided or expired. */
module PercolatorAlone {
  import opened Percolator

  /** The reader's next `n` steps, with no one else's between. */
  ghost function Alone(g: Core, r: Reader, now: Ts, n: nat): (Core, Pc)
    decreases n
  {
    if n == 0 then (g, r.pc) else var (h, pc) := ReadStep(g, r, now); Alone(h, r.(pc := pc), now, n - 1)
  }

  ghost predicate Reaches(g: Core, r: Reader, now: Ts, n: nat, h: Core, pc: Pc) { Alone(g, r, now, n) == (h, pc) }

  lemma {:induction false} Steps(g: Core, r: Reader, now: Ts, a: nat, h: Core, pc: Pc, b: nat, z: Core, end: Pc)
    requires Reaches(g, r, now, a, h, pc) && Reaches(h, r.(pc := pc), now, b, z, end)
    ensures Reaches(g, r, now, a + b, z, end)
    decreases a
  {
    if a > 0 {
      var (g1, pc1) := ReadStep(g, r, now);
      Steps(g1, r.(pc := pc1), now, a - 1, h, pc, b, z, end);
    }
  }

  lemma One(g: Core, r: Reader, now: Ts, h: Core, pc: Pc)
    requires ReadStep(g, r, now) == (h, pc)
    ensures Reaches(g, r, now, 1, h, pc)
  {
    assert Alone(h, r.(pc := pc), now, 0) == (h, pc);
  }

  /** The time a lock's expiry is measured against: the server's clock for a replicated region, else the snapshot. */
  function Clock(r: Reader, now: Ts): Ts { if r.mode.Remote? then now else r.ts }

  /** A lock shadows the snapshot, its transaction is undecided, and its primary's lock has not expired. */
  ghost predicate Barred(st: Store, r: Reader, now: Ts) {
    && !Unshadowed(st, r.key, r.ts)
    && var l := st.locks[r.key];
    Held(st, l.primary, l.start) && Clock(r, now) <= st.locks[l.primary].ttl
  }

  /** The reader comes to read, over a store in which nothing shadows its snapshot. */
  lemma Reads(g: Core, r: Reader, now: Ts) returns (n: nat, v: Value)
    requires r.pc.Looking? && Unshadowed(g.store, r.key, r.ts)
    ensures n <= 4 && Reaches(g, r, now, n, g, Answered(v)) && v == Lookup(g.store, r.key, r.ts)
  {
    var a := AfterLoop(r.mode);
    One(g, r, now, g, a);
    var ra := r.(pc := a);
    n := 1;
    if r.mode.Cross? {
      One(g, ra, now, g, Reading);
      Steps(g, r, now, 1, g, a, 1, g, Reading);
      n := 2;
    }
    var m;
    m, v := Ends(g, r.(pc := Reading), now);
    Steps(g, r, now, n, g, Reading, m, g, Answered(v));
    n := n + m;
  }

  lemma Ends(g: Core, r: Reader, now: Ts) returns (n: nat, v: Value)
    requires r.pc == Reading
    ensures n <= 2 && Reaches(g, r, now, n, g, Answered(v)) && v == Lookup(g.store, r.key, r.ts)
  {
    var pc := Seek(g.store, r);
    One(g, r, now, g, pc);
    v := Lookup(g.store, r.key, r.ts);
    n := 1;
    if pc.Found? {
      One(g, r.(pc := pc), now, g, Answered(v));
      Steps(g, r, now, 1, g, pc, 1, g, Answered(v));
      n := 2;
    }
  }

  /** Resolving a key removes the lock it was asked about. */
  lemma Resolved(g: Core, k: Key, l: Lock, status: Status)
    requires k in g.store.locks ==> g.store.locks[k] == l
    ensures k !in Resolve(g, k, l.start, status).store.locks
  {
  }

  /** From a verdict on, the reader answers. */
  lemma FromVerdict(g: Core, r: Reader, now: Ts) returns (n: nat, h: Core, v: Value)
    requires r.pc.Resolving? && (r.key in g.store.locks ==> g.store.locks[r.key] == r.pc.lock)
    ensures n <= 5 && Reaches(g, r, now, n, h, Answered(v)) && v == Lookup(h.store, r.key, r.ts)
  {
    h := Resolve(g, r.key, r.pc.lock.start, r.pc.status);
    var next := Looking(r.pc.tries + 1);
    Resolved(g, r.key, r.pc.lock, r.pc.status);
    One(g, r, now, h, next);
    var m;
    m, v := Reads(h, r.(pc := next), now);
    Steps(g, r, now, 1, h, next, m, h, Answered(v));
    n := 1 + m;
  }

  /** From settling on, too. */
  lemma FromSettling(g: Core, r: Reader, now: Ts) returns (n: nat, h: Core, v: Value)
    requires r.pc.Settling? && (r.key in g.store.locks ==> g.store.locks[r.key] == r.pc.lock)
    ensures n <= 8 && Reaches(g, r, now, n, h, Answered(v)) && v == Lookup(h.store, r.key, r.ts)
  {
    var i, l := r.pc.tries, r.pc.lock;
    var g1 := Undo(g, l.primary, l.start);
    One(g, r, now, g1, Repeeking(i, l));
    One(g1, r.(pc := Repeeking(i, l)), now, g1, Scanning(i, l, true));
    Steps(g, r, now, 1, g1, Repeeking(i, l), 1, g1, Scanning(i, l, true));
    var verdict := Resolving(i, l, StatusOf(g1.store, l));
    One(g1, r.(pc := Scanning(i, l, true)), now, g1, verdict);
    Steps(g, r, now, 2, g1, Scanning(i, l, true), 1, g1, verdict);
    var m;
    m, h, v := FromVerdict(g1, r.(pc := verdict), now);
    Steps(g, r, now, 3, g1, verdict, m, h, Answered(v));
    n := 3 + m;
  }

  /** From the question to the primary on, if it is not barred. */
  lemma FromAsking(g: Core, r: Reader, now: Ts) returns (n: nat, h: Core, v: Value)
    requires r.pc.Asking? && r.key in g.store.locks && g.store.locks[r.key] == r.pc.lock && r.pc.lock.start <= r.ts && !Barred(g.store, r, now)
    ensures n <= 10 && Reaches(g, r, now, n, h, Answered(v)) && v == Lookup(h.store, r.key, r.ts)
  {
    var (g1, pc) := ReadStep(g, r, now);
    One(g, r, now, g1, pc);
    var m;
    if pc.Resolving? {
      m, h, v := FromVerdict(g1, r.(pc := pc), now);
    } else if pc.Settling? {
      m, h, v := FromSettling(g1, r.(pc := pc), now);
    } else {
      m, h, v := FromScanning(g1, r.(pc := pc), now);
    }
    Steps(g, r, now, 1, g1, pc, m, h, Answered(v));
    n := 1 + m;
  }

  lemma FromScanning(g: Core, r: Reader, now: Ts) returns (n: nat, h: Core, v: Value)
    requires r.pc.Scanning? && !r.pc.settled && (r.key in g.store.locks ==> g.store.locks[r.key] == r.pc.lock)
    ensures n <= 9 && Reaches(g, r, now, n, h, Answered(v)) && v == Lookup(h.store, r.key, r.ts)
  {
    var pc := Scan(g.store, r.pc.tries, r.pc.lock, false);
    One(g, r, now, g, pc);
    var m;
    if pc.Settling? { m, h, v := FromSettling(g, r.(pc := pc), now); } else { m, h, v := FromVerdict(g, r.(pc := pc), now); }
    Steps(g, r, now, 1, g, pc, m, h, Answered(v));
    n := 1 + m;
  }

  /** Left alone, a reader is refused within two steps if it is barred, and else answers within eleven, with what the store
      it leaves shows at its snapshot. */
  lemma ReaderAlone(g: Core, r: Reader, now: Ts) returns (n: nat, h: Core, pc: Pc)
    requires r.pc == Looking(0)
    ensures n <= 11 && Reaches(g, r, now, n, h, pc) && (pc.Refused? || pc.Answered?)
    ensures pc.Refused? <==> Barred(g.store, r, now)
    ensures pc.Answered? ==> pc.value == Lookup(h.store, r.key, r.ts)
  {
    if Unshadowed(g.store, r.key, r.ts) {
      var v;
      n, v := Reads(g, r, now);
      h, pc := g, Answered(v);
    } else {
      var asking := Asking(0, g.store.locks[r.key]);
      var ra := r.(pc := asking);
      One(g, r, now, g, asking);
      if Barred(g.store, r, now) {
        One(g, ra, now, g, Refused);
        Steps(g, r, now, 1, g, asking, 1, g, Refused);
        n, h, pc := 2, g, Refused;
      } else {
        var m, v;
        m, h, v := FromAsking(g, ra, now);
        Steps(g, r, now, 1, g, asking, m, h, Answered(v));
        n, pc := 1 + m, Answered(v);
      }
    }
  }
}
