/** The state shared by the goroutines of internal/service/service.go, and the
    local state of each of them. Every goroutine is one `Thread`; every cache,
    tracker, atomic, lock or upstream effect of the source is one step (see
    module ServiceSteps). The stripe function is an arbitrary function into
    [0, 256), so every pattern of hash collisions is covered. */
module ServiceState {

  const STRIPES: nat := 256

  type Key = string
  type Tid = nat
  type Stripe = i: nat | i < STRIPES

  datatype Mode = Deny | Observe | Cache

  /** What configuration and policy matching fix for a whole run. Durations and
      instants are integers. */
  datatype Config = Config(
    stripe: Key -> Stripe,
    mode: Key -> Mode,
    probation: bool,
    globalTTL: int,
    policyTTL: Key -> int,
    window: int,
    allowStale: bool,
    staleGrace: int)

  /** A cached value. `ver` is the origin version it carries; `epoch` the stripe
      epoch its refill had captured (or its write-through established); the rest
      is its lifetime. */
  datatype Entry = Entry(
    ver: nat, epoch: nat,
    storedAt: int, pttl: int, candidate: bool, expiresAt: int)

  datatype Outcome = Unfetched | Fetched(ver: nat, exists_: bool) | Errored

  /** One upstream read: a singleflight flight, or the private fetch of one MGET
      position (never registered). */
  datatype Flight = Flight(key: Key, epoch: nat, outcome: Outcome, done: bool)

  /** History variables: they record what already happened and no step reads
      them. `vis[k]`: newest write of k whose final epoch bump is done;
      `clean[k]`: newest write of k whose final removal is done; `served[k]`:
      newest write of k whose flight was forgotten; `keyBar[k]`, `stripeBar[i]`:
      the epoch the last finished invalidation of k, or purge of stripe i,
      established. */
  datatype History = History(
    vis: map<Key, nat>, clean: map<Key, nat>, served: map<Key, nat>,
    keyBar: map<Key, nat>, stripeBar: map<Stripe, nat>)

  datatype Shared = Shared(
    origin: map<Key, nat>,
    prot: map<Key, Entry>,
    prob: map<Key, Entry>,
    epoch: map<Stripe, nat>,
    mu: map<Stripe, Tid>,
    gate: map<Stripe, Tid>,
    flag: set<Stripe>,
    table: map<Key, Tid>,
    flights: map<Tid, Flight>,
    hot: set<Key>,
    tracked: set<Key>,
    pending: map<Tid, seq<Key>>,
    now: int,
    hist: History)

  /** applyTransitions on the first pending demotion. */
  datatype ApplyPc = Begin | Held | DropProt | DropProb | Release

  /** What follows once every pending demotion is applied. */
  datatype Then = ThenLookup(hot: bool) | ThenServe | ThenMiss | ThenStop

  /** getFreshCachedInState up to the decision to promote. */
  datatype ProbePc =
    | Protected | Probation | Recheck | LoadFlag | LastProbe
    | WaitLock | WaitHeld
    | LockKey | HeldHot | HeldProtected | HeldCandidate
    | HitUnlock | MissUnlock

  /** getFreshCachedInState: admission and transfer between the tiers. */
  datatype PromotePc =
    | Admit | RaiseFlag | Take | TakeOnly | Install
    | LowerHit | LowerMiss | UnlockHit | UnlockMiss

  /** After a local miss. */
  datatype MissPc = Capture | Join(epoch: nat) | Await(flight: Tid) | Fallback | Direct

  datatype ReadEnd = ServedLocal | Served(out: nat) | Failed | Stopped

  datatype ReadPc =
    | Observing
    | Applying(a: ApplyPc, then_: Then)
    | Probing(p: ProbePc)
    | Promoting(m: PromotePc)
    | Missing(x: MissPc)
    | Over(end: ReadEnd)

  datatype ReadKind = Get | MGetMember | Admin

  /** A GET, one position of an MGET, or an admin call that advances the tracker.
      `floor` and `begun` record when it started; `hit` and `at` the entry it found
      locally and the clock reading of that lookup. */
  datatype Reader = Reader(pc: ReadPc, key: Key, kind: ReadKind, floor: nat, begun: int, hit: Entry, at: int)

  datatype FlightPc =
    | FFetch | FLock | FCheck
    | FGoneProt | FGoneProb
    | FHot | FHotDel | FHotStore
    | FColdDel | FColdTracked | FColdStore
    | FUnlock | FFinish | FEnd

  datatype Flier = Flier(pc: FlightPc, key: Key, epoch: nat)

  datatype GatePc = Acquire | Cancel | Let
  datatype InvPc = InvLock | InvBump | InvProt | InvProb | InvUnlock
  datatype ThroughPc = ThLock | ThBump | ThProb | ThHot | ThStore | ThDel | ThUnlock

  datatype WritePc =
    | Gating(g: GatePc)
    | Invalidating(v: InvPc)
    | Calling
    | Through(h: ThroughPc)
    | Forgetting
    | Returned
    | Cancelled

  /** ExecuteWrite, or (not gated, starting in the final pass) an admin purge of
      one key. `next` is the loop index of the current phase; `bumped` the epochs
      this pass established; `wrote` the versions this command gave its keys. */
  datatype Writer = Writer(
    pc: WritePc, keys: seq<Key>, gated: bool, final: bool, next: nat,
    bumped: map<Stripe, nat>, wrote: map<Key, nat>)

  datatype PurgePc = PLock | PProt | PProb | PBump | PUnlock | PEnd

  datatype Purger = Purger(pc: PurgePc, next: nat)

  datatype Thread =
    | R(r: Reader)
    | F(f: Flier)
    | W(w: Writer)
    | P(p: Purger)

  datatype State = State(sh: Shared, threads: map<Tid, Thread>)

  /** Lookup with the zero value a Go map or array cell would hold. */
  function At<K(==)>(m: map<K, nat>, k: K): nat {
    if k in m then m[k] else 0
  }

  function Pending(sh: Shared, t: Tid): seq<Key> {
    if t in sh.pending then sh.pending[t] else []
  }

  function Needs(c: Config, keys: seq<Key>, i: nat): bool {
    exists k :: k in keys && c.stripe(k) == i
  }

  // ------------------------------------------------------------ lifetimes

  /** service.go localTTL. */
  function LocalTTL(c: Config, k: Key, upstreamTTL: int): int {
    if c.policyTTL(k) <= 0 then 0
    else
      var maxTTL := if c.policyTTL(k) < c.globalTTL then c.policyTTL(k) else c.globalTTL;
      if upstreamTTL == 0 then 0
      else if 0 < upstreamTTL < maxTTL then upstreamTTL
      else maxTTL
  }

  /** storeProbationary further caps the lifetime by the hotness window. */
  function StoreTTL(c: Config, k: Key, upstreamTTL: int, candidate: bool): int {
    var ttl := LocalTTL(c, k, upstreamTTL);
    if candidate && 0 < c.window < ttl then c.window else ttl
  }

  // ---------------------------------------------------------------- locks

  /** The stripe mutexes a thread holds at its program counter; `todo` are the
      demotions it still has to apply. */
  ghost predicate HoldsMu(c: Config, todo: seq<Key>, th: Thread, i: Stripe) {
    match th
    case R(r) => ReaderHolds(c, todo, r, i)
    case F(f) => f.pc !in {FFetch, FLock, FFinish, FEnd} && i == c.stripe(f.key)
    case W(w) => WriterHolds(c, w, i)
    case P(p) => if p.pc.PLock? || p.pc.PUnlock? then i < p.next else !p.pc.PEnd?
  }

  ghost predicate ReaderHolds(c: Config, todo: seq<Key>, r: Reader, i: Stripe) {
    match r.pc
    case Applying(a, _) => a != Begin && todo != [] && i == c.stripe(todo[0])
    case Probing(p) =>
      p in {WaitHeld, HeldHot, HeldProtected, HeldCandidate, HitUnlock, MissUnlock} && i == c.stripe(r.key)
    case Promoting(_) => i == c.stripe(r.key)
    case _ => false
  }

  ghost predicate WriterHolds(c: Config, w: Writer, i: Stripe) {
    match w.pc
    case Invalidating(v) => v != InvLock && w.next < |w.keys| && i == c.stripe(w.keys[w.next])
    case Through(h) => h != ThLock && w.keys != [] && i == c.stripe(w.keys[0])
    case _ => false
  }

  /** The mutation gates a thread holds: acquired in ascending order, released in
      descending order. */
  ghost predicate HoldsGate(c: Config, th: Thread, i: Stripe) {
    th.W? && th.w.gated && Needs(c, th.w.keys, i) &&
    if th.w.pc.Gating? then i < th.w.next else !th.w.pc.Returned? && !th.w.pc.Cancelled?
  }
}
