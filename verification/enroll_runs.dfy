/** Every interleaving of enrollments, rollbacks, deletions, code minting and code
    collection (enroll/enroll.go). Each operation on the meta store is one step, also
    inside the section that holds the service mutex; deletions touch the store without
    that mutex, as the source does. */
module EnrollRuns {
  import opened Basics
  import opened Gates
  import opened Enroll

  /** Where a request stands. From `Locked` to `Stored` it holds the mutex, from
      `Gated` to `Leaving` the gate of its principal. */
  datatype Stage =
    | Waiting
    | Locked | Fresh | Vetted | Capped | Consumed | Stored
    | PutFailed
    | Arriving | Queued
    | Gated | Confirmed | Undoing | Undone | RowGone | Leaving(created: bool)
    | Dropping(created: bool)
    | Ended(created: bool)

  datatype Job = Enrolling(key: Key, code: Option<CodeHash>) | Deleting

  datatype Thread = Thread(name: Principal, job: Job, stage: Stage)

  /** `unread` counts the rows whose key could not be read at startup; `peak` is the
      larger of the cap and the count at startup. */
  datatype World = World(
    tables: Tables,
    count: int,
    max: int,
    unread: nat,
    peak: int,
    provision: bool,
    mu: Option<ThreadId>,
    threads: map<ThreadId, Thread>,
    gt: Gates.World,
    minted: set<CodeHash>)

  /** `ok` is false where the store or the provisioner reports an error. */
  datatype SectionStep =
    | TakeMutex | GiveUp | LookUp | CheckCode(now: int) | CheckCap | UseCode(now: int) | InsertRow(ok: bool) | CountIn

  datatype TailStep =
    | ReturnCode(ok: bool) | Unprovisioned | Confirm(ok: bool) | Provision(ok: bool)
    | Undo(ok: bool) | UndoCode(ok: bool)

  datatype DeleteStep = Abort | DeleteRow | CountOut

  datatype Event =
    | Begin(t: ThreadId, key: Key, code: Option<CodeHash>)
    | BeginDelete(t: ThreadId, name: Principal)
    | Section(t: ThreadId, section: SectionStep)
    | Tail(t: ThreadId, tail: TailStep)
    | Delete(t: ThreadId, delete: DeleteStep)
    | AtGate(gate: Gates.Event)
    | MintCode(h: CodeHash, expires: int)
    | Collect(now: int)

  predicate InSection(s: Stage) {
    s.Locked? || s.Fresh? || s.Vetted? || s.Capped? || s.Consumed? || s.Stored?
  }

  predicate SectionReady(mu: Option<ThreadId>, s: Stage, a: SectionStep) {
    match a
    case TakeMutex => s.Waiting? && mu.None?
    case GiveUp => s.Locked? || s.Fresh? || s.Capped?
    case LookUp => s.Locked?
    case CheckCode(_) => s.Fresh?
    case CheckCap => s.Vetted?
    case UseCode(_) => s.Capped?
    case InsertRow(_) => s.Consumed?
    case CountIn => s.Stored?
  }

  predicate TailReady(w: World, s: Stage, a: TailStep) {
    match a
    case ReturnCode(_) => s.PutFailed?
    case Unprovisioned => s.Arriving? && !w.provision
    case Confirm(_) => s.Gated?
    case Provision(_) => s.Confirmed?
    case Undo(_) => s.Undoing? && w.mu.None?
    case UndoCode(_) => s.Undone?
  }

  predicate DeleteReady(w: World, s: Stage, a: DeleteStep) {
    match a
    case Abort => s.Gated?
    case DeleteRow => s.Gated?
    case CountOut => s.RowGone? && w.mu.None?
  }

  predicate GateReady(w: World, th: Thread, g: Gates.Event) {
    match g
    case Arrive(_, name, _) => th.stage.Arriving? && name == th.name && (th.job.Enrolling? ==> w.provision)
    case Lock(_) => th.stage.Queued?
    case Unlock(_) => th.stage.Leaving?
    case Depart(_) => th.stage.Dropping?
  }

  ghost predicate Enabled(w: World, ev: Event) {
    match ev
    case Begin(t, _, _) => t !in w.threads && t !in w.gt.seats
    case BeginDelete(t, _) => t !in w.threads && t !in w.gt.seats
    case Section(t, a) => t in w.threads && w.threads[t].job.Enrolling? && SectionReady(w.mu, w.threads[t].stage, a)
    case Tail(t, a) => t in w.threads && w.threads[t].job.Enrolling? && TailReady(w, w.threads[t].stage, a)
    case Delete(t, a) => t in w.threads && w.threads[t].job.Deleting? && DeleteReady(w, w.threads[t].stage, a)
    case AtGate(g) => g.t in w.threads && GateReady(w, w.threads[g.t], g) && Gates.Inv(w.gt) && Gates.Enabled(w.gt, g)
    case MintCode(h, _) => h !in w.minted
    case Collect(_) => true
  }

  function To(w: World, t: ThreadId, s: Stage): World
    requires t in w.threads
  {
    w.(threads := Restage(w.threads, t, s))
  }

  function Restage(ths: map<ThreadId, Thread>, t: ThreadId, s: Stage): map<ThreadId, Thread>
    requires t in ths
  {
    ths[t := ths[t].(stage := s)]
  }

  /** Release the mutex with nothing done. */
  function Refuse(w: World, t: ThreadId): World
    requires t in w.threads
  {
    To(w, t, Ended(false)).(mu := None)
  }

  function FreeCode(tb: Tables, code: Option<CodeHash>, ok: bool): Tables {
    if code.Some? && ok then ReleaseCode(tb, code.value) else tb
  }

  /** The section under the mutex. */
  ghost function AfterSection(w: World, t: ThreadId, a: SectionStep): World
    requires Enabled(w, Section(t, a))
  {
    var e := w.threads[t].job;
    match a
    case TakeMutex => To(w, t, Locked).(mu := Some(t))
    case GiveUp => Refuse(w, t)
    case LookUp => if HasKey(w.tables, e.key) then Refuse(w, t) else To(w, t, Fresh)
    case CheckCode(now) =>
      if e.code.None? || CodeValid(w.tables, e.code.value, now) then To(w, t, Vetted) else Refuse(w, t)
    case CheckCap => if w.max > 0 && w.count >= w.max then Refuse(w, t) else To(w, t, Capped)
    case UseCode(now) =>
      if e.code.None? then To(w, t, Consumed)
      else
        var (tb, won) := Consume(w.tables, e.code.value, now);
        if won then To(w, t, Consumed).(tables := tb) else Refuse(w, t)
    case InsertRow(ok) =>
      var r := PutEnrolled(w.tables, e.key);
      if ok && r.Some? then To(w, t, Stored).(tables := r.value) else To(w, t, PutFailed).(mu := None)
    case CountIn => To(w, t, Arriving).(count := w.count + 1, mu := None)
  }

  /** After the section: giving a code back, provisioning, rollback. */
  ghost function AfterTail(w: World, t: ThreadId, a: TailStep): World
    requires Enabled(w, Tail(t, a))
  {
    var e := w.threads[t].job;
    match a
    case ReturnCode(ok) => To(w, t, Ended(false)).(tables := FreeCode(w.tables, e.code, ok))
    case Unprovisioned => To(w, t, Ended(true))
    case Confirm(ok) => To(w, t, if ok && HasKey(w.tables, e.key) then Confirmed else Undoing)
    case Provision(ok) => To(w, t, if ok then Leaving(true) else Undoing)
    case Undo(ok) =>
      var (tb, existed) := DeleteEnrolled(w.tables, w.threads[t].name);
      if ok && existed then To(w, t, Undone).(tables := tb, count := w.count - 1) else To(w, t, Undone)
    case UndoCode(ok) => To(w, t, Leaving(false)).(tables := FreeCode(w.tables, e.code, ok))
  }

  ghost function AfterDelete(w: World, t: ThreadId, a: DeleteStep): World
    requires Enabled(w, Delete(t, a))
  {
    match a
    case Abort => To(w, t, Leaving(false))
    case DeleteRow =>
      var (tb, existed) := DeleteEnrolled(w.tables, w.threads[t].name);
      if existed then To(w, t, RowGone).(tables := tb) else To(w, t, Leaving(false))
    case CountOut => To(w, t, Leaving(false)).(count := w.count - 1)
  }

  /** Where a step at the gate takes a thread. */
  function GateStage(s: Stage, g: Gates.Event): Stage {
    match g
    case Arrive(_, _, _) => Queued
    case Lock(_) => Gated
    case Unlock(_) => Dropping(s.Leaving? && s.created)
    case Depart(_) => Ended(s.Dropping? && s.created)
  }

  ghost function Apply(w: World, ev: Event): World
    requires Enabled(w, ev)
  {
    match ev
    case Begin(t, key, code) => w.(threads := w.threads[t := Thread(key.principal, Enrolling(key, code), Waiting)])
    case BeginDelete(t, name) => w.(threads := w.threads[t := Thread(name, Deleting, Arriving)])
    case Section(t, a) => AfterSection(w, t, a)
    case Tail(t, a) => AfterTail(w, t, a)
    case Delete(t, a) => AfterDelete(w, t, a)
    case AtGate(g) => To(w, g.t, GateStage(w.threads[g.t].stage, g)).(gt := Gates.Apply(w.gt, g))
    case MintCode(h, expires) =>
      w.(tables := w.tables.(codes := w.tables.codes[h := Code(expires, false)]), minted := w.minted + {h})
    case Collect(now) => w.(tables := CollectCodes(w.tables, now))
  }

  // ---- The invariant ----

  ghost predicate MutexOk(mu: Option<ThreadId>, ths: map<ThreadId, Thread>) {
    && (mu.Some? ==> mu.value in ths)
    && (forall t <- ths :: InSection(ths[t].stage) <==> mu == Some(t))
  }

  /** Deletions whose row is gone and not yet counted out. */
  ghost function Uncounted(ths: map<ThreadId, Thread>): set<ThreadId> {
    set t | t in ths && ths[t].stage.RowGone?
  }

  ghost predicate Storing(mu: Option<ThreadId>, ths: map<ThreadId, Thread>) {
    mu.Some? && mu.value in ths && ths[mu.value].stage.Stored?
  }

  /** Rows plus deletions in progress are the count and the unread rows; the count
      lags by one exactly while an enrollment has inserted its row and still holds
      the mutex. */
  ghost predicate CountOk(rows: nat, deleting: nat, count: int, unread: nat, storing: bool) {
    rows + deleting == count + unread + (if storing then 1 else 0)
  }

  ghost predicate PastCap(mu: Option<ThreadId>, ths: map<ThreadId, Thread>) {
    mu.Some? && mu.value in ths &&
    (ths[mu.value].stage.Capped? || ths[mu.value].stage.Consumed? || ths[mu.value].stage.Stored?)
  }

  ghost predicate CapOk(count: int, max: int, peak: int, pastCap: bool) {
    max > 0 ==> max <= peak && count <= peak && (pastCap ==> count < max)
  }

  ghost predicate Tallied(w: World) {
    && CountOk(|w.tables.rows|, |Uncounted(w.threads)|, w.count, w.unread, Storing(w.mu, w.threads))
    && CapOk(w.count, w.max, w.peak, PastCap(w.mu, w.threads))
  }

  /** The enrollment has consumed its code and not given it up. */
  predicate HoldsCode(th: Thread) {
    th.job.Enrolling? && th.job.code.Some? &&
    match th.stage
    case Leaving(created) => created
    case Dropping(created) => created
    case Ended(created) => created
    case Waiting => false
    case Locked => false
    case Fresh => false
    case Vetted => false
    case Capped => false
    case _ => true
  }

  ghost predicate HeldOk(codes: map<CodeHash, Code>, minted: set<CodeHash>, th: Thread) {
    HoldsCode(th) ==> th.job.code.value in minted && (th.job.code.value in codes ==> codes[th.job.code.value].used)
  }

  /** A held code is spent (or collected), and held by one enrollment only. */
  ghost predicate CodesOk(codes: map<CodeHash, Code>, minted: set<CodeHash>, ths: map<ThreadId, Thread>) {
    && codes.Keys <= minted
    && (forall t <- ths :: HeldOk(codes, minted, ths[t]))
    && (forall t <- ths, u <- ths ::
          HoldsCode(ths[t]) && HoldsCode(ths[u]) && ths[t].job.code == ths[u].job.code ==> t == u)
  }

  predicate Inside(s: Stage) {
    s.Gated? || s.Confirmed? || s.Undoing? || s.Undone? || s.RowGone? || s.Leaving?
  }

  predicate Seated(s: Stage) {
    s.Queued? || Inside(s) || s.Dropping?
  }

  /** A thread has a seat at its principal's gate from arrival to departure, and holds
      the gate in between. */
  ghost predicate SeatOk(gt: Gates.World, t: ThreadId, th: Thread) {
    if Seated(th.stage) then
      && t in gt.seats && gt.seats[t] in gt.tb.pool && gt.tb.pool[gt.seats[t]].name == th.name
      && (Inside(th.stage) <==> Holding(gt, t))
    else t !in gt.seats
  }

  ghost predicate SeatsOk(gt: Gates.World, ths: map<ThreadId, Thread>) {
    && (forall t <- ths :: SeatOk(gt, t, ths[t]))
    && (forall t <- gt.seats :: t in ths)
  }

  /** Rows are filed under the principal of their key, and so are enrollments. */
  ghost predicate NamesOk(rows: map<Principal, Key>, ths: map<ThreadId, Thread>) {
    && (forall n <- rows :: rows[n].principal == n)
    && (forall t <- ths :: ths[t].job.Enrolling? ==> ths[t].name == ths[t].job.key.principal)
  }

  predicate Provisioning(s: Stage) {
    s.Confirmed? || (s.Leaving? && s.created)
  }

  /** While a database is created for a principal, and until the gate is free again,
      the principal is enrolled. */
  ghost predicate ProvisionOk(rows: map<Principal, Key>, ths: map<ThreadId, Thread>) {
    forall t <- ths :: Provisioning(ths[t].stage) ==> ths[t].name in rows
  }

  ghost predicate Inv(w: World) {
    && Gates.Inv(w.gt)
    && MutexOk(w.mu, w.threads)
    && Tallied(w)
    && CodesOk(w.tables.codes, w.minted, w.threads)
    && SeatsOk(w.gt, w.threads)
    && NamesOk(w.tables.rows, w.threads)
    && ProvisionOk(w.tables.rows, w.threads)
  }

  /** A service started over stored rows, `unread` of which have an unreadable key. */
  ghost function Start(rows: map<Principal, Key>, codes: map<CodeHash, Code>, unread: nat, max: int,
                       provision: bool): (w: World)
    requires unread <= |rows| && forall n <- rows :: rows[n].principal == n
    ensures Inv(w)
  {
    assert Uncounted(map[]) == {};
    var count := |rows| - unread;
    World.World(Tables(rows, codes), count, max, unread, if max > count then max else count, provision, None, map[],
                Gates.Start(), codes.Keys)
  }

  // ---- Preservation, one part at a time ----

  /** A thread may move between stages that agree on the gate. */
  lemma RestageSeats(gt: Gates.World, ths: map<ThreadId, Thread>, t: ThreadId, s: Stage)
    requires SeatsOk(gt, ths) && t in ths
    requires Seated(s) == Seated(ths[t].stage) && Inside(s) == Inside(ths[t].stage)
    ensures SeatsOk(gt, Restage(ths, t, s))
  {
  }

  /** A thread that takes no code may move freely. */
  lemma RestageCodes(codes: map<CodeHash, Code>, minted: set<CodeHash>, ths: map<ThreadId, Thread>, t: ThreadId,
                     s: Stage)
    requires CodesOk(codes, minted, ths) && t in ths && (HoldsCode(ths[t].(stage := s)) ==> HoldsCode(ths[t]))
    ensures CodesOk(codes, minted, Restage(ths, t, s))
  {
  }

  lemma RestageNames(rows: map<Principal, Key>, ths: map<ThreadId, Thread>, t: ThreadId, s: Stage)
    requires NamesOk(rows, ths) && ProvisionOk(rows, ths) && t in ths && (Provisioning(s) ==> ths[t].name in rows)
    ensures NamesOk(rows, Restage(ths, t, s)) && ProvisionOk(rows, Restage(ths, t, s))
  {
  }

  lemma RestageUncounted(ths: map<ThreadId, Thread>, t: ThreadId, s: Stage)
    requires t in ths
    ensures |Uncounted(Restage(ths, t, s))| ==
            |Uncounted(ths)| + (if s.RowGone? then 1 else 0) - (if ths[t].stage.RowGone? then 1 else 0)
  {
    UncountedOthers(ths, t, s);
    hide Uncounted, Restage;
    var was, now := Uncounted(ths), Uncounted(Restage(ths, t, s));
    assert was == (if ths[t].stage.RowGone? then was - {t} + {t} else was - {t});
    assert now == (if s.RowGone? then was - {t} + {t} else was - {t});
  }

  lemma UncountedOthers(ths: map<ThreadId, Thread>, t: ThreadId, s: Stage)
    requires t in ths
    ensures t in Uncounted(ths) <==> ths[t].stage.RowGone?
    ensures t in Uncounted(Restage(ths, t, s)) <==> s.RowGone?
    ensures Uncounted(Restage(ths, t, s)) - {t} == Uncounted(ths) - {t}
  {
  }

  /** Outside the mutex a change of stage touches neither the mutex nor the cap. */
  lemma RestageMutex(mu: Option<ThreadId>, ths: map<ThreadId, Thread>, t: ThreadId, s: Stage)
    requires MutexOk(mu, ths) && t in ths && !InSection(ths[t].stage) && !InSection(s)
    ensures var v := Restage(ths, t, s);
            MutexOk(mu, v) && Storing(mu, v) == Storing(mu, ths) && PastCap(mu, v) == PastCap(mu, ths)
  {
    assert mu != Some(t);
  }

  /** Consuming an unused code: nobody held it. */
  lemma ConsumeCodes(tb: Tables, minted: set<CodeHash>, ths: map<ThreadId, Thread>, t: ThreadId, now: int)
    requires CodesOk(tb.codes, minted, ths) && t in ths
    requires ths[t].job.Enrolling? && ths[t].job.code.Some? && Consume(tb, ths[t].job.code.value, now).1
    ensures CodesOk(Consume(tb, ths[t].job.code.value, now).0.codes, minted, Restage(ths, t, Consumed))
  {
  }

  /** Giving a code back: its only holder lets go of it. */
  lemma FreeCodes(tb: Tables, minted: set<CodeHash>, ths: map<ThreadId, Thread>, t: ThreadId, s: Stage, ok: bool)
    requires CodesOk(tb.codes, minted, ths) && t in ths && ths[t].job.Enrolling?
    requires (ths[t].stage.PutFailed? || ths[t].stage.Undone?) && !HoldsCode(ths[t].(stage := s))
    ensures CodesOk(FreeCode(tb, ths[t].job.code, ok).codes, minted, Restage(ths, t, s))
  {
  }

  lemma SectionMutex(w: World, t: ThreadId, a: SectionStep)
    requires MutexOk(w.mu, w.threads) && Enabled(w, Section(t, a))
    ensures var v := AfterSection(w, t, a); MutexOk(v.mu, v.threads)
  {
  }

  lemma SectionCount(w: World, t: ThreadId, a: SectionStep, gone: nat)
    requires Enabled(w, Section(t, a)) && (a.TakeMutex? || w.mu == Some(t))
    requires CountOk(|w.tables.rows|, gone, w.count, w.unread, Storing(w.mu, w.threads))
    ensures var v := AfterSection(w, t, a); CountOk(|v.tables.rows|, gone, v.count, v.unread, Storing(v.mu, v.threads))
  {
    hide HasKey, CodeValid;
  }

  lemma SectionCap(w: World, t: ThreadId, a: SectionStep)
    requires Enabled(w, Section(t, a)) && (a.TakeMutex? || w.mu == Some(t))
    requires CapOk(w.count, w.max, w.peak, PastCap(w.mu, w.threads))
    ensures var v := AfterSection(w, t, a); CapOk(v.count, v.max, v.peak, PastCap(v.mu, v.threads))
  {
    hide HasKey, CodeValid, Consume;
  }

  lemma SectionTally(w: World, t: ThreadId, a: SectionStep)
    requires MutexOk(w.mu, w.threads) && Tallied(w) && Enabled(w, Section(t, a))
    ensures Tallied(AfterSection(w, t, a))
  {
    assert a.TakeMutex? || w.mu == Some(t);
    hide MutexOk, Uncounted, CountOk, CapOk, Storing, PastCap, AfterSection;
    SectionMoves(w, t, a);
    RestageUncounted(w.threads, t, AfterSection(w, t, a).threads[t].stage);
    SectionCount(w, t, a, |Uncounted(w.threads)|);
    SectionCap(w, t, a);
  }

  lemma SectionNames(w: World, t: ThreadId, a: SectionStep)
    requires NamesOk(w.tables.rows, w.threads) && ProvisionOk(w.tables.rows, w.threads) && Enabled(w, Section(t, a))
    ensures var v := AfterSection(w, t, a); NamesOk(v.tables.rows, v.threads) && ProvisionOk(v.tables.rows, v.threads)
  {
    hide NamesOk, ProvisionOk;
    RestageNames(w.tables.rows, w.threads, t, AfterSection(w, t, a).threads[t].stage);
    MoreRows(w.tables.rows, AfterSection(w, t, a).threads, w.threads[t].job.key);
  }

  lemma MoreRows(rows: map<Principal, Key>, ths: map<ThreadId, Thread>, key: Key)
    requires NamesOk(rows, ths) && ProvisionOk(rows, ths)
    ensures NamesOk(rows[key.principal := key], ths) && ProvisionOk(rows[key.principal := key], ths)
  {
  }

  /** What every step of the section has in common. */
  lemma SectionMoves(w: World, t: ThreadId, a: SectionStep)
    requires Enabled(w, Section(t, a))
    ensures var v := AfterSection(w, t, a);
            && t in v.threads && v.threads == Restage(w.threads, t, v.threads[t].stage)
            && !Seated(v.threads[t].stage) && !Seated(w.threads[t].stage)
            && v.unread == w.unread && v.gt == w.gt && v.minted == w.minted
  {
    hide HasKey, CodeValid, Consume, PutEnrolled;
  }

  lemma SectionCodes(w: World, t: ThreadId, a: SectionStep)
    requires CodesOk(w.tables.codes, w.minted, w.threads) && Enabled(w, Section(t, a))
    ensures var v := AfterSection(w, t, a); CodesOk(v.tables.codes, v.minted, v.threads)
  {
    hide CodesOk, HasKey;
    var s := AfterSection(w, t, a).threads[t].stage;
    if a.UseCode? && s.Consumed? && w.threads[t].job.code.Some? {
      ConsumeCodes(w.tables, w.minted, w.threads, t, a.now);
    } else {
      RestageCodes(w.tables.codes, w.minted, w.threads, t, s);
    }
  }

  lemma SectionKeeps(w: World, t: ThreadId, a: SectionStep)
    requires Inv(w) && Enabled(w, Section(t, a))
    ensures Inv(AfterSection(w, t, a))
  {
    hide Gates.Inv, MutexOk, Tallied, CodesOk, SeatsOk, NamesOk, ProvisionOk, AfterSection;
    SectionMutex(w, t, a);
    SectionTally(w, t, a);
    SectionNames(w, t, a);
    SectionCodes(w, t, a);
    SectionMoves(w, t, a);
    RestageSeats(w.gt, w.threads, t, AfterSection(w, t, a).threads[t].stage);
  }

  /** A row is removed only by the holder of its principal's gate, so never under a
      thread that is provisioning for it. */
  lemma RemoveRow(w: World, t: ThreadId, s: Stage)
    requires Gates.Inv(w.gt) && SeatsOk(w.gt, w.threads)
    requires NamesOk(w.tables.rows, w.threads) && ProvisionOk(w.tables.rows, w.threads)
    requires t in w.threads && Inside(w.threads[t].stage) && !Provisioning(s)
    ensures var rows, v := w.tables.rows - {w.threads[t].name}, Restage(w.threads, t, s);
            NamesOk(rows, v) && ProvisionOk(rows, v)
  {
    forall u | u in w.threads && u != t && Provisioning(w.threads[u].stage)
      ensures w.threads[u].name != w.threads[t].name
    {
      assert SeatOk(w.gt, u, w.threads[u]) && SeatOk(w.gt, t, w.threads[t]);
      if w.threads[u].name == w.threads[t].name {
        OneHolderPerName(w.gt, t, u);
      }
    }
    hide Gates.Inv, SeatsOk;
  }

  lemma FewerRows(rows: map<Principal, Key>, name: Principal)
    ensures |rows - {name}| == |rows| - (if name in rows then 1 else 0)
  {
  }

  /** A move outside the mutex, balanced between rows, deletions and count. */
  lemma TallyMove(w: World, v: World, t: ThreadId, s: Stage)
    requires MutexOk(w.mu, w.threads) && Tallied(w) && t in w.threads
    requires !InSection(w.threads[t].stage) && !InSection(s) && v.threads == Restage(w.threads, t, s)
    requires v.mu == w.mu && v.max == w.max && v.peak == w.peak && v.unread == w.unread && v.count <= w.count
    requires |v.tables.rows| + (if s.RowGone? then 1 else 0) - v.count ==
             |w.tables.rows| + (if w.threads[t].stage.RowGone? then 1 else 0) - w.count
    ensures MutexOk(v.mu, v.threads) && Tallied(v)
  {
    hide MutexOk, Uncounted, Storing, PastCap;
    RestageUncounted(w.threads, t, s);
    RestageMutex(w.mu, w.threads, t, s);
  }

  lemma TailTally(w: World, t: ThreadId, a: TailStep)
    requires MutexOk(w.mu, w.threads) && Tallied(w) && Enabled(w, Tail(t, a))
    ensures var v := AfterTail(w, t, a); MutexOk(v.mu, v.threads) && Tallied(v)
  {
    hide MutexOk, Tallied, Enabled, AfterTail;
    TailMoves(w, t, a);
    FewerRows(w.tables.rows, w.threads[t].name);
    var v := AfterTail(w, t, a);
    TallyMove(w, v, t, v.threads[t].stage);
  }

  /** What every step of the tail has in common: only a rollback touches a row, and it
      counts out exactly what it removes. */
  lemma TailMoves(w: World, t: ThreadId, a: TailStep)
    requires Enabled(w, Tail(t, a))
    ensures var v := AfterTail(w, t, a); var s := w.threads[t].stage;
            && t in w.threads && t in v.threads && v.threads == Restage(w.threads, t, v.threads[t].stage)
            && !InSection(s) && !s.RowGone? && !InSection(v.threads[t].stage) && !v.threads[t].stage.RowGone?
            && v.mu == w.mu && v.max == w.max && v.peak == w.peak && v.unread == w.unread
            && (if v.count == w.count then v.tables.rows == w.tables.rows
                else v.count == w.count - 1 && w.threads[t].name in w.tables.rows
                     && v.tables.rows == w.tables.rows - {w.threads[t].name})
  {
    hide HasKey;
  }

  lemma TailNames(w: World, t: ThreadId, a: TailStep)
    requires Inv(w) && Enabled(w, Tail(t, a))
    ensures var v := AfterTail(w, t, a); NamesOk(v.tables.rows, v.threads) && ProvisionOk(v.tables.rows, v.threads)
  {
    hide Gates.Inv, MutexOk, Tallied, CodesOk, SeatsOk, ProvisionOk;
    var s := AfterTail(w, t, a).threads[t].stage;
    if a.Undo? {
      hide NamesOk;
      RemoveRow(w, t, s);
      RestageNames(w.tables.rows, w.threads, t, s);
    } else {
      if s.Leaving? && s.created { assert w.threads[t].name in w.tables.rows by { StillEnrolled(w, t); } }
      RestageNames(w.tables.rows, w.threads, t, s);
    }
  }

  lemma StillEnrolled(w: World, t: ThreadId)
    requires ProvisionOk(w.tables.rows, w.threads) && t in w.threads && Provisioning(w.threads[t].stage)
    ensures w.threads[t].name in w.tables.rows
  {
  }

  lemma TailKeeps(w: World, t: ThreadId, a: TailStep)
    requires Inv(w) && Enabled(w, Tail(t, a))
    ensures Inv(AfterTail(w, t, a))
  {
    hide Gates.Inv, MutexOk, Tallied, CodesOk, SeatsOk, NamesOk, ProvisionOk;
    TailTally(w, t, a);
    TailNames(w, t, a);
    var s := AfterTail(w, t, a).threads[t].stage;
    RestageSeats(w.gt, w.threads, t, s);
    if a.ReturnCode? || a.UndoCode? {
      FreeCodes(w.tables, w.minted, w.threads, t, s, a.ok);
    } else {
      RestageCodes(w.tables.codes, w.minted, w.threads, t, s);
    }
  }

  /** What every step of a deletion has in common: the row leaves with the first, the
      count with the last. */
  lemma DeleteMoves(w: World, t: ThreadId, a: DeleteStep)
    requires Enabled(w, Delete(t, a))
    ensures var v := AfterDelete(w, t, a); var s := w.threads[t].stage;
            && t in w.threads && t in v.threads && v.threads == Restage(w.threads, t, v.threads[t].stage)
            && !InSection(s) && !InSection(v.threads[t].stage)
            && v.mu == w.mu && v.max == w.max && v.peak == w.peak && v.unread == w.unread
            && v.count == w.count - (if s.RowGone? then 1 else 0)
            && (s.RowGone? ==> !v.threads[t].stage.RowGone?)
            && (if v.threads[t].stage.RowGone?
                then w.threads[t].name in w.tables.rows && v.tables.rows == w.tables.rows - {w.threads[t].name}
                else v.tables.rows == w.tables.rows)
  {
  }

  lemma DeleteTally(w: World, t: ThreadId, a: DeleteStep)
    requires MutexOk(w.mu, w.threads) && Tallied(w) && Enabled(w, Delete(t, a))
    ensures var v := AfterDelete(w, t, a); MutexOk(v.mu, v.threads) && Tallied(v)
  {
    hide MutexOk, Tallied, Enabled, AfterDelete;
    DeleteMoves(w, t, a);
    FewerRows(w.tables.rows, w.threads[t].name);
    var v := AfterDelete(w, t, a);
    TallyMove(w, v, t, v.threads[t].stage);
  }

  lemma DeleteKeeps(w: World, t: ThreadId, a: DeleteStep)
    requires Inv(w) && Enabled(w, Delete(t, a))
    ensures Inv(AfterDelete(w, t, a))
  {
    hide Gates.Inv, MutexOk, Tallied, CodesOk, SeatsOk, NamesOk, ProvisionOk;
    DeleteTally(w, t, a);
    var s := AfterDelete(w, t, a).threads[t].stage;
    RestageSeats(w.gt, w.threads, t, s);
    RestageCodes(w.tables.codes, w.minted, w.threads, t, s);
    RestageNames(w.tables.rows, w.threads, t, s);
    RemoveRow(w, t, s);
  }

  lemma OtherSeat(gt: Gates.World, g: Gates.Event, u: ThreadId, th: Thread)
    requires Gates.Inv(gt) && Gates.Enabled(gt, g) && u != g.t && SeatOk(gt, u, th)
    ensures SeatOk(Gates.Apply(gt, g), u, th)
  {
    OwnSeat(gt, g);
    if u in gt.seats { OthersUndisturbed(gt, g, u); }
    hide Gates.Inv, Gates.Apply;
  }

  lemma OwnMove(w: World, g: Gates.Event, th: Thread)
    requires Gates.Inv(w.gt) && Gates.Enabled(w.gt, g) && SeatOk(w.gt, g.t, th) && GateReady(w, th, g)
    ensures SeatOk(Gates.Apply(w.gt, g), g.t, th.(stage := GateStage(th.stage, g)))
  {
    OwnSeat(w.gt, g);
    hide Gates.Inv, Gates.Apply;
  }

  /** The gate step and the thread's move agree, and nobody else's seat moves. */
  lemma GateSeats(w: World, g: Gates.Event)
    requires SeatsOk(w.gt, w.threads) && Enabled(w, AtGate(g))
    ensures var v := Apply(w, AtGate(g)); SeatsOk(v.gt, v.threads)
  {
    hide Gates.Inv, Gates.Apply, Gates.Enabled, SeatOk, GateReady, GateStage;
    var v := Apply(w, AtGate(g));
    OwnSeat(w.gt, g);
    forall u | u in v.threads ensures SeatOk(v.gt, u, v.threads[u]) {
      if u == g.t { OwnMove(w, g, w.threads[u]); } else { OtherSeat(w.gt, g, u, w.threads[u]); }
    }
  }

  lemma GateKeeps(w: World, g: Gates.Event)
    requires Inv(w) && Enabled(w, AtGate(g))
    ensures Inv(Apply(w, AtGate(g)))
  {
    hide Gates.Inv, MutexOk, CountOk, CapOk, CodesOk, SeatsOk, NamesOk, ProvisionOk;
    hide Gates.Apply, Uncounted, Storing, PastCap;
    var s := GateStage(w.threads[g.t].stage, g);
    Gates.StepKeeps(w.gt, g);
    GateSeats(w, g);
    RestageUncounted(w.threads, g.t, s);
    RestageMutex(w.mu, w.threads, g.t, s);
    RestageCodes(w.tables.codes, w.minted, w.threads, g.t, s);
    RestageNames(w.tables.rows, w.threads, g.t, s);
  }

  /** A new thread holds nothing. */
  lemma BeginKeeps(w: World, t: ThreadId, th: Thread)
    requires Inv(w) && t !in w.threads && t !in w.gt.seats
    requires th.stage.Waiting? || (th.stage.Arriving? && th.job.Deleting?)
    requires th.job.Enrolling? ==> th.name == th.job.key.principal
    ensures Inv(w.(threads := w.threads[t := th]))
  {
    hide Gates.Inv, CodesOk, SeatsOk, NamesOk, ProvisionOk;
    var v := w.threads[t := th];
    assert Uncounted(v) == Uncounted(w.threads);
    BeginCodes(w.tables, w.minted, w.threads, t, th);
    BeginSeats(w.gt, w.threads, t, th);
  }

  lemma BeginCodes(tb: Tables, minted: set<CodeHash>, ths: map<ThreadId, Thread>, t: ThreadId, th: Thread)
    requires t !in ths && !HoldsCode(th) && !Provisioning(th.stage)
    requires th.job.Enrolling? ==> th.name == th.job.key.principal
    requires CodesOk(tb.codes, minted, ths) && NamesOk(tb.rows, ths) && ProvisionOk(tb.rows, ths)
    ensures CodesOk(tb.codes, minted, ths[t := th])
    ensures NamesOk(tb.rows, ths[t := th]) && ProvisionOk(tb.rows, ths[t := th])
  {
  }

  lemma BeginSeats(gt: Gates.World, ths: map<ThreadId, Thread>, t: ThreadId, th: Thread)
    requires SeatsOk(gt, ths) && t !in ths && t !in gt.seats && !Seated(th.stage)
    ensures SeatsOk(gt, ths[t := th])
  {
  }

  lemma CodesKeep(codes: map<CodeHash, Code>, minted: set<CodeHash>, ths: map<ThreadId, Thread>, h: CodeHash,
                  expires: int, now: int)
    requires CodesOk(codes, minted, ths)
    ensures h !in minted ==> CodesOk(codes[h := Code(expires, false)], minted + {h}, ths)
    ensures CodesOk(CollectCodes(Tables(map[], codes), now).codes, minted, ths)
  {
  }

  /** Every step of every request keeps the invariant. */
  lemma StepKeeps(w: World, ev: Event)
    requires Inv(w) && Enabled(w, ev)
    ensures Inv(Apply(w, ev))
  {
    hide Gates.Inv, MutexOk, Tallied, CodesOk, SeatsOk, NamesOk, ProvisionOk, AfterSection, AfterTail, AfterDelete;
    match ev
    case Begin(t, key, code) => BeginKeeps(w, t, Thread(key.principal, Enrolling(key, code), Waiting));
    case BeginDelete(t, name) => BeginKeeps(w, t, Thread(name, Deleting, Arriving));
    case Section(t, a) => SectionKeeps(w, t, a);
    case Tail(t, a) => TailKeeps(w, t, a);
    case Delete(t, a) => DeleteKeeps(w, t, a);
    case AtGate(g) => GateKeeps(w, g);
    case MintCode(h, expires) =>
      CodesKeep(w.tables.codes, w.minted, w.threads, h, expires, 0);
      TallyRows(w, Apply(w, ev));
    case Collect(now) =>
      CodesKeep(w.tables.codes, w.minted, w.threads, CodeHash(""), 0, now);
      TallyRows(w, Apply(w, ev));
  }

  lemma TallyRows(w: World, v: World)
    requires Tallied(w) && v.(tables := w.tables, minted := w.minted) == w && v.tables.rows == w.tables.rows
    ensures Tallied(v)
  {
  }

  // ---- Runs ----

  ghost function Next(w: World, ev: Event): (v: World)
    requires Inv(w) && Enabled(w, ev)
    ensures Inv(v)
  {
    StepKeeps(w, ev);
    Apply(w, ev)
  }

  ghost predicate Legal(w: World, evs: seq<Event>)
    requires Inv(w)
    decreases |evs|
  {
    evs == [] || (Enabled(w, evs[0]) && Legal(Next(w, evs[0]), evs[1..]))
  }

  ghost function Run(w: World, evs: seq<Event>): (v: World)
    requires Inv(w) && Legal(w, evs)
    ensures Inv(v)
    decreases |evs|
  {
    if evs == [] then w else Run(Next(w, evs[0]), evs[1..])
  }

  lemma {:induction false} Appended(w: World, evs: seq<Event>, ev: Event)
    requires Inv(w) && Legal(w, evs) && Enabled(Run(w, evs), ev)
    ensures Legal(w, evs + [ev]) && Run(w, evs + [ev]) == Next(Run(w, evs), ev)
    decreases |evs|
  {
    hide Inv, Apply, Enabled;
    if evs == [] {
      assert evs + [ev] == [ev] && [ev][1..] == [];
    } else {
      Appended(Next(w, evs[0]), evs[1..], ev);
      assert (evs + [ev])[1..] == evs[1..] + [ev];
    }
  }

  lemma DoneStep(w: World, ev: Event, t: ThreadId)
    requires Enabled(w, ev)
    ensures var v := Apply(w, ev); v.max == w.max && v.peak == w.peak && v.unread == w.unread
    ensures t in w.threads && w.threads[t].stage.Ended? ==>
              t in Apply(w, ev).threads && Apply(w, ev).threads[t] == w.threads[t]
  {
    hide Gates.Inv, Gates.Apply, Gates.Enabled;
  }

  /** A thread that is done stays as it is, and the settings never change. */
  lemma {:induction false} DoneStays(w: World, evs: seq<Event>, t: ThreadId)
    requires Inv(w) && Legal(w, evs)
    ensures var v := Run(w, evs); v.max == w.max && v.peak == w.peak && v.unread == w.unread
    ensures t in w.threads && w.threads[t].stage.Ended? ==>
              t in Run(w, evs).threads && Run(w, evs).threads[t] == w.threads[t]
    decreases |evs|
  {
    hide Inv, Apply, Enabled;
    if evs != [] {
      DoneStep(w, evs[0], t);
      DoneStays(Next(w, evs[0]), evs[1..], t);
    }
  }

  /** From any start, after any run: whenever nobody holds the mutex, stored rows plus
      deletions in progress are the counted principals plus the rows unread at
      startup; and a cap is never exceeded, save by what was there at startup. */
  lemma CountLaw(rows: map<Principal, Key>, codes: map<CodeHash, Code>, unread: nat, max: int, provision: bool,
                 evs: seq<Event>)
    requires unread <= |rows| && forall n <- rows :: rows[n].principal == n
    requires Legal(Start(rows, codes, unread, max, provision), evs)
    ensures var v := Run(Start(rows, codes, unread, max, provision), evs);
            && (v.mu.None? ==> |v.tables.rows| + |Uncounted(v.threads)| == v.count + unread)
            && (max > 0 ==> v.count <= max || v.count <= |rows| - unread)
  {
    DoneStays(Start(rows, codes, unread, max, provision), evs, 0);
  }

  /** Provisioning and deletion of one principal exclude each other, and so do two
      provisionings; while one is under way the principal is enrolled. */
  lemma ProvisionExclusive(w: World, evs: seq<Event>, t: ThreadId, u: ThreadId)
    requires Inv(w) && Legal(w, evs)
    requires t in Run(w, evs).threads && Provisioning(Run(w, evs).threads[t].stage)
    requires u in Run(w, evs).threads && Inside(Run(w, evs).threads[u].stage)
    ensures Run(w, evs).threads[t].name in Run(w, evs).tables.rows
    ensures Run(w, evs).threads[t].name == Run(w, evs).threads[u].name ==> t == u
  {
    var v := Run(w, evs);
    assert SeatOk(v.gt, t, v.threads[t]) && SeatOk(v.gt, u, v.threads[u]);
    if v.threads[t].name == v.threads[u].name {
      OneHolderPerName(v.gt, t, u);
    }
  }

  /** A code that enrolled somebody is spent for good: whatever happens afterwards, it
      is never valid again and no other enrollment completes with it. */
  lemma CodeSpentOnce(w: World, evs: seq<Event>, t: ThreadId, u: ThreadId, now: int)
    requires Inv(w) && Legal(w, evs)
    requires t in w.threads && w.threads[t].stage == Ended(true) && HoldsCode(w.threads[t])
    ensures !CodeValid(Run(w, evs).tables, w.threads[t].job.code.value, now)
    ensures var v := Run(w, evs);
            u != t && u in v.threads && v.threads[u].stage == Ended(true) && v.threads[u].job.Enrolling? ==>
              v.threads[u].job.code != w.threads[t].job.code
  {
    DoneStays(w, evs, t);
    var v := Run(w, evs);
    assert HeldOk(v.tables.codes, v.minted, v.threads[t]);
  }

  // ---- Is a code given back? ----

  /** Thread `t` gives its code back, or tries to. */
  predicate GivesBack(ev: Event, t: ThreadId) {
    ev.Tail? && ev.t == t && (ev.tail.ReturnCode? || ev.tail.UndoCode?)
  }

  lemma HeldOnly(w: World, t: ThreadId, u: ThreadId)
    requires CodesOk(w.tables.codes, w.minted, w.threads) && t in w.threads && HoldsCode(w.threads[t])
    ensures var h := w.threads[t].job.code.value;
            && h in w.minted && (h in w.tables.codes ==> w.tables.codes[h].used)
            && (u in w.threads && u != t && HoldsCode(w.threads[u]) ==> w.threads[u].job.code != Some(h))
  {
    assert HeldOk(w.tables.codes, w.minted, w.threads[t]);
  }

  /** A code in use keeps its expiry, and only a collection removes it. */
  lemma HeldCodeStep(w: World, ev: Event, t: ThreadId)
    requires CodesOk(w.tables.codes, w.minted, w.threads) && Enabled(w, ev) && !GivesBack(ev, t)
    requires t in w.threads && HoldsCode(w.threads[t])
    ensures var v := Apply(w, ev); var h := w.threads[t].job.code.value;
            && StillHeld(w, v, t)
            && (h in v.tables.codes <==> h in w.tables.codes && !ev.Collect?)
            && (h in v.tables.codes ==> v.tables.codes[h] == w.tables.codes[h])
  {
    hide CodesOk, Gates.Inv, Gates.Apply, Gates.Enabled, AfterSection, AfterTail, StillHeld;
    HeldOnly(w, t, if ev.Section? || ev.Tail? then ev.t else t);
    match ev
    case Section(u, a) => HeldSection(w, t, u, a);
    case Tail(u, a) => HeldTail(w, t, u, a);
    case _ => HeldElsewhere(w, ev, t);
  }

  ghost predicate StillHeld(w: World, v: World, t: ThreadId) {
    t in w.threads && t in v.threads && v.threads[t].job == w.threads[t].job && HoldsCode(v.threads[t])
  }

  lemma HeldSection(w: World, t: ThreadId, u: ThreadId, a: SectionStep)
    requires Enabled(w, Section(u, a)) && t in w.threads && HoldsCode(w.threads[t])
    requires var h := w.threads[t].job.code.value; h in w.tables.codes ==> w.tables.codes[h].used
    ensures var v := AfterSection(w, u, a); var h := w.threads[t].job.code.value;
            && StillHeld(w, v, t) && (h in v.tables.codes <==> h in w.tables.codes)
            && (h in v.tables.codes ==> v.tables.codes[h] == w.tables.codes[h])
  {
    hide HasKey;
  }

  lemma HeldTail(w: World, t: ThreadId, u: ThreadId, a: TailStep)
    requires Enabled(w, Tail(u, a)) && t in w.threads && HoldsCode(w.threads[t]) && !GivesBack(Tail(u, a), t)
    requires u != t && HoldsCode(w.threads[u]) ==> w.threads[u].job.code != w.threads[t].job.code
    ensures var v := AfterTail(w, u, a); var h := w.threads[t].job.code.value;
            && StillHeld(w, v, t) && (h in v.tables.codes <==> h in w.tables.codes)
            && (h in v.tables.codes ==> v.tables.codes[h] == w.tables.codes[h])
  {
    hide HasKey;
  }

  lemma HeldElsewhere(w: World, ev: Event, t: ThreadId)
    requires Enabled(w, ev) && t in w.threads && HoldsCode(w.threads[t]) && !ev.Section? && !ev.Tail?
    requires var h := w.threads[t].job.code.value; h in w.minted && (h in w.tables.codes ==> w.tables.codes[h].used)
    ensures var v := Apply(w, ev); var h := w.threads[t].job.code.value;
            && StillHeld(w, v, t)
            && (h in v.tables.codes <==> h in w.tables.codes && !ev.Collect?)
            && (h in v.tables.codes ==> v.tables.codes[h] == w.tables.codes[h])
  {
    hide Gates.Inv, Gates.Apply, Gates.Enabled;
  }

  lemma {:induction false} HeldCodeRun(w: World, evs: seq<Event>, t: ThreadId)
    requires Inv(w) && Legal(w, evs) && t in w.threads && HoldsCode(w.threads[t])
    requires forall ev <- evs :: !GivesBack(ev, t)
    ensures var v := Run(w, evs); var h := w.threads[t].job.code.value;
            && StillHeld(w, v, t)
            && (h in v.tables.codes <==> h in w.tables.codes && forall ev <- evs :: !ev.Collect?)
            && (h in v.tables.codes ==> v.tables.codes[h] == w.tables.codes[h])
    decreases |evs|
  {
    if evs != [] {
      assert evs[0] in evs && forall ev <- evs[1..] :: ev in evs;
      HeldCodeStep(w, evs[0], t);
      hide Inv, Apply, Enabled, HoldsCode, GivesBack;
      HeldCodeRun(Next(w, evs[0]), evs[1..], t);
      assert forall ev <- evs :: ev == evs[0] || ev in evs[1..];
    }
  }

  /** What a rollback promises, exactly: an enrollment that consumed a code and gives it
      back after any history leaves it valid at `now` if and only if no collection came
      in between and the code has not expired. */
  lemma CodeReturned(w: World, evs: seq<Event>, t: ThreadId, back: TailStep, now: int)
    requires Inv(w) && Legal(w, evs) && t in w.threads && HoldsCode(w.threads[t])
    requires w.threads[t].job.code.value in w.tables.codes && forall ev <- evs :: !GivesBack(ev, t)
    requires Enabled(Run(w, evs), Tail(t, back)) && (back == ReturnCode(true) || back == UndoCode(true))
    ensures var h := w.threads[t].job.code.value;
            CodeValid(Apply(Run(w, evs), Tail(t, back)).tables, h, now) <==>
              (forall ev <- evs :: !ev.Collect?) && w.tables.codes[h].expires > now
  {
    HeldCodeRun(w, evs, t);
    hide Inv, Run, Legal, HoldsCode;
  }

  /** The failing input: one collection while the code is in use, and it is gone for good,
      through its return and every history after that. */
  lemma CodeBurnt(w: World, t: ThreadId, at: int, evs: seq<Event>, now: int)
    requires Inv(w) && t in w.threads && HoldsCode(w.threads[t]) && Legal(Next(w, Collect(at)), evs)
    ensures !CodeValid(Run(Next(w, Collect(at)), evs).tables, w.threads[t].job.code.value, now)
  {
    hide Gates.Inv, MutexOk, Tallied, CodesOk, SeatsOk, NamesOk, ProvisionOk, Apply;
    HeldOnly(w, t, t);
    CollectTakes(w, at, w.threads[t].job.code.value);
    CollectedStays(Next(w, Collect(at)), evs, w.threads[t].job.code.value);
  }

  lemma CollectTakes(w: World, at: int, h: CodeHash)
    requires h in w.tables.codes ==> w.tables.codes[h].used
    ensures var v := Apply(w, Collect(at)); h !in v.tables.codes && v.minted == w.minted
  {
  }

  lemma {:induction false} CollectedStays(w: World, evs: seq<Event>, h: CodeHash)
    requires Inv(w) && Legal(w, evs) && h in w.minted && h !in w.tables.codes
    ensures h !in Run(w, evs).tables.codes
    decreases |evs|
  {
    hide Inv, Apply, Enabled;
    if evs != [] {
      CollectedStep(w, evs[0], h);
      CollectedStays(Next(w, evs[0]), evs[1..], h);
    }
  }

  lemma CollectedStep(w: World, ev: Event, h: CodeHash)
    requires Enabled(w, ev) && h in w.minted && h !in w.tables.codes
    ensures h in Apply(w, ev).minted && h !in Apply(w, ev).tables.codes
  {
    hide Gates.Inv, Gates.Apply, Gates.Enabled, HasKey;
  }

  /** Nobody is stuck at the gate on the way out. */
  lemma CanLeave(w: World, t: ThreadId)
    requires Inv(w) && t in w.threads
    ensures w.threads[t].stage.Leaving? ==> Enabled(w, AtGate(Unlock(t)))
    ensures w.threads[t].stage.Dropping? ==> Enabled(w, AtGate(Depart(t)))
  {
    assert SeatOk(w.gt, t, w.threads[t]);
  }
}
