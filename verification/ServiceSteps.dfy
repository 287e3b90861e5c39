/** The step relation of the service: `Move` is what a thread does next, given
    the choices the environment makes (clock readings, tracker results, upstream
    outcomes, cancellation), and `Next` closes it under starting operations and
    under environment steps (clock, direct origin writes, LRU eviction). */
module ServiceSteps {
  import opened ServiceState

  /** What a step leaves to the environment. `at` is the clock reading of a cache
      call, `hot`/`tracked`/`todo` the tracker's answer (`todo`: the keys with a
      transition out of HOT), `key` a key an upstream write takes effect on. */
  datatype Choice = Choice(
    yes: bool, also: bool, at: int, pttl: int, key: Key, fid: Tid,
    hot: set<Key>, tracked: set<Key>, todo: seq<Key>)

  ghost predicate Fresh(m: map<Key, Entry>, k: Key, at: int) {
    k in m && at < m[k].expiresAt
  }

  ghost predicate Free(sh: Shared, i: Stripe) {
    i !in sh.mu
  }

  /** The tracker may answer anything, except that a key that leaves HOT is
      reported in the same call (HotnessTheorems.HotLeavesReported proves this of the
      tracker). */
  ghost predicate TrackerMay(sh: Shared, ch: Choice) {
    && ch.hot <= ch.tracked
    && forall k :: k in sh.hot && k !in ch.hot ==> k in ch.todo
  }

  /** The shared effect of one step. The effects of a write also carry the
      history they record (`vis`, `clean`, `bar`, `served`). */
  datatype Effect =
    | Nop
    | LockMu(i: Stripe)
    | UnlockMu(i: Stripe)
    | DelProt(k: Key)
    | DelProb(k: Key)
    | PutProt(k: Key, e: Entry)
    | PutProb(k: Key, e: Entry)
    | ClearProt
    | ClearProb
    | SetFlag(i: Stripe, on: bool)
    | Track(hot: set<Key>, tracked: set<Key>, todo: seq<Key>)
    | Discharge(i: Stripe)
    | Launch(fid: Tid, flight: Flight, register: bool)
    | FetchDone(outcome: Outcome)
    | Finish(k: Key)
    | LockGate(i: Stripe)
    | UnlockGate(i: Stripe)
    | WriteOrigin(k: Key)
    | Bump(i: Stripe, vis: map<Key, nat>)
    | PurgeBump(i: Stripe)
    | Seal(k: Key, i: Stripe, clean: map<Key, nat>, bar: nat)
    | Forget(k: Key, served: map<Key, nat>)

  ghost predicate EffectOk(sh: Shared, me: Tid, e: Effect) {
    match e
    case Discharge(_) => Pending(sh, me) != []
    case FetchDone(_) => me in sh.flights
    case Finish(_) => me in sh.flights
    case _ => true
  }

  ghost function Apply(sh: Shared, me: Tid, eff: Effect): Shared
    requires EffectOk(sh, me, eff)
  {
    match eff
    case Nop => sh
    case LockMu(i) => sh.(mu := sh.mu[i := me])
    case UnlockMu(i) => sh.(mu := sh.mu - {i})
    case DelProt(k) => sh.(prot := sh.prot - {k})
    case DelProb(k) => sh.(prob := sh.prob - {k})
    case PutProt(k, e) => sh.(prot := sh.prot[k := e])
    case PutProb(k, e) => sh.(prob := sh.prob[k := e])
    case ClearProt => sh.(prot := map[])
    case ClearProb => sh.(prob := map[])
    case SetFlag(i, on) => sh.(flag := if on then sh.flag + {i} else sh.flag - {i})
    case Track(hot, tracked, todo) =>
      sh.(hot := hot, tracked := tracked, pending := sh.pending[me := Pending(sh, me) + todo])
    case Discharge(i) => sh.(mu := sh.mu - {i}, pending := sh.pending[me := Pending(sh, me)[1..]])
    case Launch(fid, flight, register) =>
      sh.(flights := sh.flights[fid := flight], table := if register then sh.table[flight.key := fid] else sh.table)
    case FetchDone(outcome) => sh.(flights := sh.flights[me := sh.flights[me].(outcome := outcome)])
    case Finish(k) =>
      sh.(flights := sh.flights[me := sh.flights[me].(done := true)],
          table := if k in sh.table && sh.table[k] == me then sh.table - {k} else sh.table)
    case LockGate(i) => sh.(gate := sh.gate[i := me])
    case UnlockGate(i) => sh.(gate := sh.gate - {i})
    case WriteOrigin(k) => sh.(origin := sh.origin[k := At(sh.origin, k) + 1])
    case Bump(i, vis) =>
      sh.(epoch := sh.epoch[i := At(sh.epoch, i) + 1], hist := sh.hist.(vis := sh.hist.vis + vis))
    case PurgeBump(i) =>
      sh.(epoch := sh.epoch[i := At(sh.epoch, i) + 1],
          hist := sh.hist.(stripeBar := sh.hist.stripeBar[i := At(sh.epoch, i) + 1]))
    case Seal(k, i, clean, bar) =>
      sh.(mu := sh.mu - {i},
          hist := sh.hist.(clean := sh.hist.clean + clean,
                           keyBar := sh.hist.keyBar[k := if At(sh.hist.keyBar, k) < bar then bar
                                                    else At(sh.hist.keyBar, k)]))
    case Forget(k, served) =>
      sh.(table := sh.table - {k}, hist := sh.hist.(served := sh.hist.served + served))
  }

  // -------------------------------------------------------------- readers

  ghost function Hit(r: Reader, e: Entry, at: int, pc: ReadPc): Reader {
    r.(pc := pc, hit := e, at := at)
  }

  ghost predicate ObserveCan(c: Config, sh: Shared, r: Reader, ch: Choice) {
    (r.kind != Admin && c.mode(r.key) == Deny) || TrackerMay(sh, ch)
  }

  /** tracker.ObserveWithState; denied keys are not observed. */
  ghost function ObserveMove(c: Config, r: Reader, ch: Choice): (Effect, Reader) {
    if r.kind != Admin && c.mode(r.key) == Deny then (Nop, r.(pc := Missing(Direct)))
    else
      (Track(ch.hot, ch.tracked, ch.todo),
       r.(pc := Applying(Begin, if r.kind == Admin then ThenStop else ThenLookup(r.key in ch.hot))))
  }

  ghost predicate ApplyCan(c: Config, sh: Shared, me: Tid, a: ApplyPc) {
    if a == Begin then Pending(sh, me) == [] || Free(sh, c.stripe(Pending(sh, me)[0])) else Pending(sh, me) != []
  }

  ghost function AfterApply(c: Config, r: Reader, then_: Then): ReadPc {
    match then_
    case ThenLookup(hot) =>
      if c.mode(r.key) != Cache then Missing(Direct) else if hot then Probing(Protected) else Probing(Probation)
    case ThenServe => Over(ServedLocal)
    case ThenMiss => Missing(Capture)
    case ThenStop => Over(Stopped)
  }

  /** applyTransitions: the delayed side effects of demotions. */
  ghost function ApplyMove(c: Config, sh: Shared, me: Tid, r: Reader, a: ApplyPc, then_: Then): (Effect, Reader)
    requires ApplyCan(c, sh, me, a)
  {
    match a
    case Begin =>
      if Pending(sh, me) != [] then (LockMu(c.stripe(Pending(sh, me)[0])), r.(pc := Applying(Held, then_)))
      else (Nop, r.(pc := AfterApply(c, r, then_)))
    case Held => (Nop, r.(pc := Applying(if Pending(sh, me)[0] in sh.hot then Release else DropProt, then_)))
    case DropProt => (DelProt(Pending(sh, me)[0]), r.(pc := Applying(DropProb, then_)))
    case DropProb => (DelProb(Pending(sh, me)[0]), r.(pc := Applying(Release, then_)))
    case Release => (Discharge(c.stripe(Pending(sh, me)[0])), r.(pc := Applying(Begin, then_)))
  }

  ghost predicate ProbeCan(c: Config, sh: Shared, r: Reader, p: ProbePc, ch: Choice) {
    && (p in {Protected, Probation, LastProbe, WaitHeld, HeldProtected, HeldCandidate} ==> r.begun <= ch.at <= sh.now)
    && (p in {WaitLock, LockKey} ==> Free(sh, c.stripe(r.key)))
  }

  /** getFreshCachedInState up to the decision to promote. */
  ghost function ProbeMove(c: Config, sh: Shared, r: Reader, p: ProbePc, ch: Choice): (Effect, Reader) {
    match p
    case Protected =>
      (Nop, if Fresh(sh.prot, r.key, ch.at) then Hit(r, sh.prot[r.key], ch.at, Over(ServedLocal))
            else r.(pc := Probing(Probation)))
    case Probation =>
      (Nop, r.(pc := if !c.probation then Missing(Capture)
                     else if Fresh(sh.prob, r.key, ch.at) then Probing(LockKey) else Probing(Recheck)))
    case Recheck => (Nop, r.(pc := if r.key in sh.hot then Probing(LoadFlag) else Missing(Capture)))
    case LoadFlag => (Nop, r.(pc := Probing(if c.stripe(r.key) in sh.flag then WaitLock else LastProbe)))
    case LastProbe =>
      (Nop, if Fresh(sh.prot, r.key, ch.at) then Hit(r, sh.prot[r.key], ch.at, Over(ServedLocal))
            else r.(pc := Missing(Capture)))
    case WaitLock => (LockMu(c.stripe(r.key)), r.(pc := Probing(WaitHeld)))
    case WaitHeld =>
      (Nop, if Fresh(sh.prot, r.key, ch.at) then Hit(r, sh.prot[r.key], ch.at, Probing(HitUnlock))
            else r.(pc := Probing(MissUnlock)))
    case LockKey => (LockMu(c.stripe(r.key)), r.(pc := Probing(HeldHot)))
    case HeldHot => (Nop, r.(pc := Probing(if r.key in sh.hot then HeldProtected else HeldCandidate)))
    case HeldProtected =>
      (Nop, if Fresh(sh.prot, r.key, ch.at) then Hit(r, sh.prot[r.key], ch.at, Probing(HitUnlock))
            else r.(pc := Probing(HeldCandidate)))
    case HeldCandidate =>
      (Nop, if Fresh(sh.prob, r.key, ch.at) then Hit(r, sh.prob[r.key], ch.at, Promoting(Admit))
            else r.(pc := Probing(MissUnlock)))
    case HitUnlock => (UnlockMu(c.stripe(r.key)), r.(pc := Over(ServedLocal)))
    case MissUnlock => (UnlockMu(c.stripe(r.key)), r.(pc := Missing(Capture)))
  }

  ghost predicate PromoteCan(sh: Shared, r: Reader, m: PromotePc, ch: Choice) {
    && (m == Admit ==> TrackerMay(sh, ch) && (r.key in ch.tracked ==> r.key in ch.hot))
    && (m == Install ==> ch.at <= sh.now && (ch.yes ==> ch.at < r.hit.expiresAt))
  }

  /** getFreshCachedInState: admit, take the candidate out of probation, install
      it with its absolute expiry (PutUntil), release the stripe. */
  ghost function PromoteMove(c: Config, r: Reader, m: PromotePc, ch: Choice): (Effect, Reader) {
    match m
    case Admit =>
      (Track(ch.hot, ch.tracked, ch.todo), r.(pc := Promoting(if r.key in ch.hot then RaiseFlag else TakeOnly)))
    case RaiseFlag => (SetFlag(c.stripe(r.key), true), r.(pc := Promoting(Take)))
    case Take => (DelProb(r.key), r.(pc := Promoting(Install)))
    case TakeOnly => (DelProb(r.key), r.(pc := Promoting(UnlockMiss)))
    case Install =>
      if ch.yes then (PutProt(r.key, r.hit), r.(pc := Promoting(LowerHit)))
      else (DelProt(r.key), r.(pc := Promoting(LowerMiss)))
    case LowerHit => (SetFlag(c.stripe(r.key), false), r.(pc := Promoting(UnlockHit)))
    case LowerMiss => (SetFlag(c.stripe(r.key), false), r.(pc := Promoting(UnlockMiss)))
    case UnlockHit => (UnlockMu(c.stripe(r.key)), r.(pc := Applying(Begin, ThenServe)))
    case UnlockMiss => (UnlockMu(c.stripe(r.key)), r.(pc := Applying(Begin, ThenMiss)))
  }

  ghost predicate MissCan(sh: Shared, r: Reader, x: MissPc, ch: Choice) {
    match x
    case Join(_) => (r.kind == Get && r.key in sh.table) || ch.fid !in sh.flights
    case Await(f) => ch.yes || (f in sh.flights && sh.flights[f].done)
    case Fallback => r.begun <= ch.at <= sh.now
    case _ => true
  }

  /** After a local miss: capture the epoch, DoChan (or the MGET fetch), wait for
      the result or give up, fall back to a stale value if that is allowed. */
  ghost function MissMove(c: Config, sh: Shared, r: Reader, x: MissPc, ch: Choice): (Effect, Reader) {
    match x
    case Capture => (Nop, r.(pc := Missing(Join(At(sh.epoch, c.stripe(r.key))))))
    case Join(epoch) =>
      if r.kind == Get && r.key in sh.table then (Nop, r.(pc := Missing(Await(sh.table[r.key]))))
      else (Launch(ch.fid, Flight(r.key, epoch, Unfetched, false), r.kind == Get), r.(pc := Missing(Await(ch.fid))))
    case Await(f) =>
      (Nop, r.(pc := if !(f in sh.flights && sh.flights[f].done) then Over(Failed)
                     else if sh.flights[f].outcome.Fetched? then Over(Served(sh.flights[f].outcome.ver))
                     else Missing(Fallback)))
    case Fallback =>
      (Nop, r.(pc := if c.allowStale && Fresh(sh.prot, r.key, ch.at - (if c.staleGrace > 0 then c.staleGrace else 0))
                     then Over(Served(sh.prot[r.key].ver)) else Over(Failed)))
    case Direct => (Nop, r.(pc := if ch.yes then Over(Served(At(sh.origin, r.key))) else Over(Failed)))
  }

  ghost predicate ReaderCan(c: Config, sh: Shared, me: Tid, r: Reader, ch: Choice) {
    match r.pc
    case Observing => ObserveCan(c, sh, r, ch)
    case Applying(a, _) => ApplyCan(c, sh, me, a)
    case Probing(p) => ProbeCan(c, sh, r, p, ch)
    case Promoting(m) => PromoteCan(sh, r, m, ch)
    case Missing(x) => MissCan(sh, r, x, ch)
    case Over(_) => false
  }

  ghost function ReaderMove(c: Config, sh: Shared, me: Tid, r: Reader, ch: Choice): (Effect, Reader)
    requires ReaderCan(c, sh, me, r, ch)
  {
    match r.pc
    case Observing => ObserveMove(c, r, ch)
    case Applying(a, then_) => ApplyMove(c, sh, me, r, a, then_)
    case Probing(p) => ProbeMove(c, sh, r, p, ch)
    case Promoting(m) => PromoteMove(c, r, m, ch)
    case Missing(x) => MissMove(c, sh, r, x, ch)
  }

  // -------------------------------------------------------------- flights

  ghost predicate FlierCan(c: Config, sh: Shared, me: Tid, f: Flier, ch: Choice) {
    me in sh.flights &&
    (match f.pc
     case FLock => Free(sh, c.stripe(f.key))
     case FHotStore =>
       ch.yes ==> sh.flights[me].outcome.Fetched? && ch.at <= sh.now && StoreTTL(c, f.key, ch.pttl, false) > 0
     case FColdStore =>
       ch.yes ==>
         && c.probation && sh.flights[me].outcome.Fetched?
         && ch.at <= sh.now && StoreTTL(c, f.key, ch.pttl, true) > 0
     case FCheck => sh.flights[me].outcome.Fetched?
     case FEnd => false
     case _ => true)
  }

  ghost function Refill(c: Config, sh: Shared, me: Tid, f: Flier, ch: Choice, candidate: bool): Entry
    requires me in sh.flights && sh.flights[me].outcome.Fetched?
  {
    Entry(sh.flights[me].outcome.ver, f.epoch, ch.at, ch.pttl, candidate,
          ch.at + StoreTTL(c, f.key, ch.pttl, candidate))
  }

  /** The closure Get passes to DoChan: fetch, then reconcileLocalIfCurrent. */
  ghost function FlierMove(c: Config, sh: Shared, me: Tid, f: Flier, ch: Choice): (Effect, Flier)
    requires FlierCan(c, sh, me, f, ch)
  {
    var i := c.stripe(f.key);
    match f.pc
    case FFetch =>
      if ch.yes then (FetchDone(Fetched(At(sh.origin, f.key), ch.also)), f.(pc := FLock))
      else (FetchDone(Errored), f.(pc := FFinish))
    case FLock => (LockMu(i), f.(pc := FCheck))
    case FCheck =>
      (Nop, f.(pc := if At(sh.epoch, i) != f.epoch then FUnlock
                     else if sh.flights[me].outcome.exists_ then FHot else FGoneProt))
    case FGoneProt => (DelProt(f.key), f.(pc := FGoneProb))
    case FGoneProb => (DelProb(f.key), f.(pc := FUnlock))
    case FHot => (Nop, f.(pc := if f.key in sh.hot then FHotDel else FColdDel))
    case FHotDel => (DelProb(f.key), f.(pc := FHotStore))
    case FHotStore =>
      (if ch.yes then PutProt(f.key, Refill(c, sh, me, f, ch, false)) else DelProt(f.key), f.(pc := FUnlock))
    case FColdDel => (DelProt(f.key), f.(pc := FColdTracked))
    case FColdTracked => (Nop, f.(pc := if f.key in sh.tracked then FColdStore else FUnlock))
    case FColdStore =>
      (if ch.yes then PutProb(f.key, Refill(c, sh, me, f, ch, true)) else DelProb(f.key), f.(pc := FUnlock))
    case FUnlock => (UnlockMu(i), f.(pc := FFinish))
    case FFinish => (Finish(f.key), f.(pc := FEnd))
    case FEnd => (Nop, f)
  }

  // -------------------------------------------------------------- writers

  /** The part of a command's effect the barrier on stripe i covers. */
  ghost function WroteIn(c: Config, w: Writer, i: Stripe): map<Key, nat> {
    if w.final then map k | k in w.wrote && c.stripe(k) == i :: w.wrote[k] else map[]
  }

  ghost function WroteAt(w: Writer, k: Key): map<Key, nat> {
    if w.final && k in w.wrote then map[k := w.wrote[k]] else map[]
  }

  ghost function WriteThrough(c: Config, w: Writer, ch: Choice): Entry
    requires w.keys != [] && w.keys[0] in w.wrote && c.stripe(w.keys[0]) in w.bumped
  {
    Entry(w.wrote[w.keys[0]], w.bumped[c.stripe(w.keys[0])], ch.at, -1, false,
          ch.at + StoreTTL(c, w.keys[0], -1, false))
  }

  ghost predicate GateCan(c: Config, sh: Shared, w: Writer, g: GatePc, ch: Choice) {
    && w.next <= STRIPES
    && (g == Acquire && w.next < STRIPES && Needs(c, w.keys, w.next) && !ch.yes ==> w.next !in sh.gate)
  }

  /** acquireMutationStripes (ascending; cancellation undoes it) and
      releaseMutationStripes (descending). */
  ghost function GateMove(c: Config, sh: Shared, w: Writer, g: GatePc, ch: Choice): (Effect, Writer)
    requires GateCan(c, sh, w, g, ch)
  {
    match g
    case Acquire =>
      if w.next == STRIPES then (Nop, w.(pc := Invalidating(InvLock), next := 0))
      else if !Needs(c, w.keys, w.next) then (Nop, w.(next := w.next + 1))
      else if ch.yes then (Nop, w.(pc := Gating(Cancel)))
      else (LockGate(w.next), w.(next := w.next + 1))
    case _ =>
      if w.next == 0 then (Nop, w.(pc := if g == Cancel then Cancelled else Returned))
      else (if w.gated && Needs(c, w.keys, w.next - 1) then UnlockGate(w.next - 1) else Nop, w.(next := w.next - 1))
  }

  ghost predicate InvalidateCan(c: Config, sh: Shared, w: Writer, v: InvPc) {
    if v == InvLock then w.next < |w.keys| ==> Free(sh, c.stripe(w.keys[w.next])) else w.next < |w.keys|
  }

  /** invalidateCacheKeys: one pass over the keys; a stripe's epoch is advanced
      for the first of its keys only, and released between keys. */
  ghost function InvalidateMove(c: Config, sh: Shared, w: Writer, v: InvPc): (Effect, Writer)
    requires InvalidateCan(c, sh, w, v)
  {
    match v
    case InvLock =>
      if w.next < |w.keys| then (LockMu(c.stripe(w.keys[w.next])), w.(pc := Invalidating(InvBump)))
      else (Nop, w.(pc := if w.final then Forgetting else Calling, next := 0))
    case InvBump =>
      var i := c.stripe(w.keys[w.next]);
      if i in w.bumped then (Nop, w.(pc := Invalidating(InvProt)))
      else (Bump(i, WroteIn(c, w, i)), w.(pc := Invalidating(InvProt), bumped := w.bumped[i := At(sh.epoch, i) + 1]))
    case InvProt => (DelProt(w.keys[w.next]), w.(pc := Invalidating(InvProb)))
    case InvProb => (DelProb(w.keys[w.next]), w.(pc := Invalidating(InvUnlock)))
    case InvUnlock =>
      var k := w.keys[w.next];
      (Seal(k, c.stripe(k), WroteAt(w, k), At(w.bumped, c.stripe(k))),
       w.(pc := Invalidating(InvLock), next := w.next + 1))
  }

  ghost predicate CallCan(w: Writer, ch: Choice) {
    if ch.yes then ch.key in w.keys else ch.also ==> |w.keys| == 1 && w.keys[0] in w.wrote
  }

  /** upstream.Do takes effect on its keys, if at all, before it returns; `also`:
      an acknowledged option-free SET, which goes through writeThroughSet. */
  ghost function CallMove(sh: Shared, w: Writer, ch: Choice): (Effect, Writer) {
    if ch.yes then (WriteOrigin(ch.key), w.(wrote := w.wrote[ch.key := At(sh.origin, ch.key) + 1]))
    else
      (Nop, w.(pc := if ch.also then Through(ThLock) else Invalidating(InvLock), final := true, bumped := map[],
               next := 0))
  }

  ghost predicate ThroughCan(c: Config, sh: Shared, w: Writer, h: ThroughPc, ch: Choice) {
    && w.keys != []
    && (h == ThLock ==> Free(sh, c.stripe(w.keys[0])))
    && (h == ThStore ==>
          && c.stripe(w.keys[0]) in w.bumped
          && (ch.yes ==> ch.at <= sh.now && w.keys[0] in w.wrote && StoreTTL(c, w.keys[0], -1, false) > 0))
  }

  /** writeThroughSet. */
  ghost function ThroughMove(c: Config, sh: Shared, w: Writer, h: ThroughPc, ch: Choice): (Effect, Writer)
    requires ThroughCan(c, sh, w, h, ch)
  {
    var k := w.keys[0];
    var i := c.stripe(k);
    match h
    case ThLock => (LockMu(i), w.(pc := Through(ThBump)))
    case ThBump => (Bump(i, WroteIn(c, w, i)), w.(pc := Through(ThProb), bumped := w.bumped[i := At(sh.epoch, i) + 1]))
    case ThProb => (DelProb(k), w.(pc := Through(ThHot)))
    case ThHot => (Nop, w.(pc := Through(if c.mode(k) == Cache && k in sh.hot then ThStore else ThDel)))
    case ThStore => (if ch.yes then PutProt(k, WriteThrough(c, w, ch)) else DelProt(k), w.(pc := Through(ThUnlock)))
    case ThDel => (DelProt(k), w.(pc := Through(ThUnlock)))
    case ThUnlock => (Seal(k, i, WroteAt(w, k), At(w.bumped, i)), w.(pc := Forgetting, next := 0))
  }

  ghost function ForgetMove(w: Writer): (Effect, Writer) {
    if w.next < |w.keys| then (Forget(w.keys[w.next], WroteAt(w, w.keys[w.next])), w.(next := w.next + 1))
    else (Nop, w.(pc := Gating(Let), next := STRIPES))
  }

  ghost predicate WriterCan(c: Config, sh: Shared, w: Writer, ch: Choice) {
    match w.pc
    case Gating(g) => GateCan(c, sh, w, g, ch)
    case Invalidating(v) => InvalidateCan(c, sh, w, v)
    case Calling => CallCan(w, ch)
    case Through(h) => ThroughCan(c, sh, w, h, ch)
    case Forgetting => true
    case Returned => false
    case Cancelled => false
  }

  ghost function WriterMove(c: Config, sh: Shared, w: Writer, ch: Choice): (Effect, Writer)
    requires WriterCan(c, sh, w, ch)
  {
    match w.pc
    case Gating(g) => GateMove(c, sh, w, g, ch)
    case Invalidating(v) => InvalidateMove(c, sh, w, v)
    case Calling => CallMove(sh, w, ch)
    case Through(h) => ThroughMove(c, sh, w, h, ch)
    case Forgetting => ForgetMove(w)
  }

  // -------------------------------------------------------------- purgers

  ghost predicate PurgerCan(sh: Shared, p: Purger) {
    match p.pc
    case PLock => p.next <= STRIPES && (p.next < STRIPES ==> Free(sh, p.next))
    case PBump | PUnlock => p.next <= STRIPES
    case PEnd => false
    case _ => true
  }

  ghost function PurgerMove(sh: Shared, p: Purger): (Effect, Purger)
    requires PurgerCan(sh, p)
  {
    match p.pc
    case PLock => if p.next == STRIPES then (Nop, p.(pc := PProt)) else (LockMu(p.next), p.(next := p.next + 1))
    case PProt => (ClearProt, p.(pc := PProb))
    case PProb => (ClearProb, p.(pc := PBump, next := 0))
    case PBump =>
      if p.next == STRIPES then (Nop, p.(pc := PUnlock)) else (PurgeBump(p.next), p.(next := p.next + 1))
    case PUnlock => if p.next == 0 then (Nop, p.(pc := PEnd)) else (UnlockMu(p.next - 1), p.(next := p.next - 1))
    case PEnd => (Nop, p)
  }

  // -------------------------------------------------------- whole system

  ghost predicate Can(c: Config, sh: Shared, me: Tid, th: Thread, ch: Choice) {
    match th
    case R(r) => ReaderCan(c, sh, me, r, ch)
    case F(f) => FlierCan(c, sh, me, f, ch)
    case W(w) => WriterCan(c, sh, w, ch)
    case P(p) => PurgerCan(sh, p)
  }

  ghost function Move(c: Config, sh: Shared, me: Tid, th: Thread, ch: Choice): (Effect, Thread)
    requires Can(c, sh, me, th, ch)
    ensures EffectOk(sh, me, Move(c, sh, me, th, ch).0)
  {
    match th
    case R(r) => var (eff, r') := ReaderMove(c, sh, me, r, ch); (eff, R(r'))
    case F(f) => var (eff, f') := FlierMove(c, sh, me, f, ch); (eff, F(f'))
    case W(w) => var (eff, w') := WriterMove(c, sh, w, ch); (eff, W(w'))
    case P(p) => var (eff, p') := PurgerMove(sh, p); (eff, P(p'))
  }

  /** The goroutine a step starts: the flight of a miss. */
  ghost function Spawn(eff: Effect): map<Tid, Thread> {
    if eff.Launch? then map[eff.fid := F(Flier(FFetch, eff.flight.key, eff.flight.epoch))] else map[]
  }

  const NO_ENTRY := Entry(0, 0, 0, 0, false, 0)

  /** A read as it begins: `floor` is the newest write of its key that is already
      visible to later reads, `begun` the time. */
  ghost function NewRead(sh: Shared, key: Key, kind: ReadKind): Thread {
    R(Reader(Observing, key, kind, At(sh.hist.served, key), sh.now, NO_ENTRY, 0))
  }

  ghost function NewWrite(keys: seq<Key>): Thread {
    W(Writer(Gating(Acquire), keys, true, false, 0, map[], map[]))
  }

  /** PurgeCache(key): one invalidation pass and Forget, without gates. */
  ghost function NewKeyPurge(key: Key): Thread {
    W(Writer(Invalidating(InvLock), [key], false, true, 0, map[], map[]))
  }

  ghost function NewPurge(): Thread { P(Purger(PLock, 0)) }

  datatype Label =
    | Act(t: Tid, ch: Choice)
    | StartReads(ops: map<Tid, Key>, kind: ReadKind)   // one GET, or every position of one MGET
    | StartWrite(t: Tid, keys: seq<Key>)
    | StartKeyPurge(t: Tid, key: Key)
    | StartPurge(t: Tid)
    | Tick(to: int)
    | DirectWrite(key: Key)
    | EvictProt(key: Key)
    | EvictProb(key: Key)

  ghost predicate Enabled(c: Config, s: State, l: Label) {
    match l
    case Act(t, ch) =>
      && t in s.threads
      && Can(c, s.sh, t, s.threads[t], ch)
      && Spawn(Move(c, s.sh, t, s.threads[t], ch).0).Keys !! s.threads.Keys
    case StartReads(ops, kind) => ops.Keys !! s.threads.Keys && (kind != MGetMember ==> |ops| == 1)
    case StartWrite(t, _) => t !in s.threads
    case StartKeyPurge(t, _) => t !in s.threads
    case StartPurge(t) => t !in s.threads
    case Tick(to) => s.sh.now <= to
    case _ => true
  }

  ghost function After(c: Config, s: State, l: Label): State
    requires Enabled(c, s, l)
  {
    match l
    case Act(t, ch) =>
      var (eff, th) := Move(c, s.sh, t, s.threads[t], ch);
      State(Apply(s.sh, t, eff), s.threads[t := th] + Spawn(eff))
    case StartReads(ops, kind) =>
      s.(threads := s.threads + (map t | t in ops :: NewRead(s.sh, ops[t], kind)))
    case StartWrite(t, keys) => s.(threads := s.threads[t := NewWrite(keys)])
    case StartKeyPurge(t, key) => s.(threads := s.threads[t := NewKeyPurge(key)])
    case StartPurge(t) => s.(threads := s.threads[t := NewPurge()])
    case Tick(to) => s.(sh := s.sh.(now := to))
    case DirectWrite(k) => s.(sh := s.sh.(origin := s.sh.origin[k := At(s.sh.origin, k) + 1]))
    case EvictProt(k) => s.(sh := s.sh.(prot := s.sh.prot - {k}))
    case EvictProb(k) => s.(sh := s.sh.(prob := s.sh.prob - {k}))
  }

  ghost predicate Init(s: State) {
    && s.threads == map[]
    && s.sh.prot == map[] && s.sh.prob == map[]
    && s.sh.mu == map[] && s.sh.gate == map[] && s.sh.flag == {}
    && s.sh.table == map[] && s.sh.flights == map[] && s.sh.pending == map[]
    && s.sh.epoch == map[] && s.sh.hot == {} && s.sh.tracked == {}
    && s.sh.hist == History(map[], map[], map[], map[], map[])
  }

  ghost predicate Next(c: Config, s: State, s': State) {
    exists l :: Enabled(c, s, l) && s' == After(c, s, l)
  }

  ghost predicate StepAt(c: Config, run: seq<State>, n: nat)
    requires n + 1 < |run|
  {
    Next(c, run[n], run[n + 1])
  }

  /** A run: any number of operations in any interleaving. */
  ghost predicate IsRun(c: Config, run: seq<State>) {
    && run != [] && Init(run[0])
    && forall n :: 0 <= n < |run| - 1 ==> StepAt(c, run, n)
  }
}
