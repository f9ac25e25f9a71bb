/** What an enrollment, its rollback and a deletion leave behind when nobody interferes, and
    what only somebody else can undo (enroll/enroll.go, meta/meta.go). */
module EnrollAnswers {
  import opened Basics
  import Gates
  import opened Enroll
  import opened EnrollRuns

  // ---- The section under the mutex ----

  /** The thread's next step of the section, with no store error; nothing outside it. */
  ghost function Proceed(w: World, t: Gates.ThreadId, now: int): World
    requires t in w.threads && w.threads[t].job.Enrolling? && (w.threads[t].stage.Waiting? ==> w.mu.None?)
  {
    match w.threads[t].stage
    case Waiting => AfterSection(w, t, TakeMutex)
    case Locked => AfterSection(w, t, LookUp)
    case Fresh => AfterSection(w, t, CheckCode(now))
    case Vetted => AfterSection(w, t, CheckCap)
    case Capped => AfterSection(w, t, UseCode(now))
    case Consumed => AfterSection(w, t, InsertRow(true))
    case Stored => AfterSection(w, t, CountIn)
    case _ => w
  }

  /** The thread goes on for `n` steps. */
  ghost function GoesOn(w: World, t: Gates.ThreadId, now: int, n: nat): World
    requires t in w.threads && w.threads[t].job.Enrolling? && (w.threads[t].stage.Waiting? ==> w.mu.None?)
    decreases n
  {
    if n == 0 then w
    else
      StaysOn(w, t, now);
      GoesOn(Proceed(w, t, now), t, now, n - 1)
  }

  lemma StaysOn(w: World, t: Gates.ThreadId, now: int)
    requires t in w.threads && w.threads[t].job.Enrolling? && (w.threads[t].stage.Waiting? ==> w.mu.None?)
    ensures var v := Proceed(w, t, now);
            t in v.threads && v.threads[t].job == w.threads[t].job && !v.threads[t].stage.Waiting?
  {
    hide HasKey, CodeValid, PutEnrolled;
  }

  /** Done with the section, with the mutex free again. */
  ghost function Out(w: World, t: Gates.ThreadId, s: Stage, tables: Tables, count: int): World
    requires t in w.threads
  {
    w.(threads := Restage(w.threads, t, s), mu := None, tables := tables, count := count)
  }

  ghost function Spent(tb: Tables, code: Option<CodeHash>): Tables {
    if code.Some? && code.value in tb.codes
    then tb.(codes := tb.codes[code.value := tb.codes[code.value].(used := true)]) else tb
  }

  lemma Still(w: World, t: Gates.ThreadId, now: int, n: nat)
    requires t in w.threads && w.threads[t].job.Enrolling?
    requires !w.threads[t].stage.Waiting? && !InSection(w.threads[t].stage)
    ensures GoesOn(w, t, now, n) == w
  {
    if n > 0 {
      Still(w, t, now, n - 1);
    }
  }

  lemma Twice(ths: map<Gates.ThreadId, Thread>, t: Gates.ThreadId, a: Stage, b: Stage)
    requires t in ths
    ensures Restage(Restage(ths, t, a), t, b) == Restage(ths, t, b)
  {
  }

  lemma FromStored(w: World, t: Gates.ThreadId, now: int, n: nat)
    requires t in w.threads && w.threads[t].job.Enrolling? && w.threads[t].stage == Stored && n >= 1
    ensures GoesOn(w, t, now, n) == Out(w, t, Arriving, w.tables, w.count + 1)
  {
    Still(Proceed(w, t, now), t, now, n - 1);
  }

  /** The row goes in unless its name or its key is taken. */
  ghost function Inserted(w: World, t: Gates.ThreadId, tb: Tables, key: Key): World
    requires t in w.threads
  {
    if key.principal in tb.rows || exists p <- tb.rows :: tb.rows[p] == key then Out(w, t, PutFailed, tb, w.count)
    else Out(w, t, Arriving, tb.(rows := tb.rows[key.principal := key]), w.count + 1)
  }

  lemma FromConsumed(w: World, t: Gates.ThreadId, now: int, n: nat)
    requires t in w.threads && w.threads[t].job.Enrolling? && w.threads[t].stage == Consumed && n >= 2
    ensures GoesOn(w, t, now, n) == Inserted(w, t, w.tables, w.threads[t].job.key)
  {
    var v := Proceed(w, t, now);
    if v.threads[t].stage == Stored {
      hide HasKey;
      FromStored(v, t, now, n - 1);
      Twice(w.threads, t, Stored, Arriving);
    } else {
      Still(v, t, now, n - 1);
    }
  }

  lemma FromCapped(w: World, t: Gates.ThreadId, now: int, n: nat)
    requires t in w.threads && w.threads[t].job.Enrolling? && w.threads[t].stage == Capped && n >= 3
    requires var code := w.threads[t].job.code; code.Some? ==> CodeValid(w.tables, code.value, now)
    ensures GoesOn(w, t, now, n) == Inserted(w, t, Spent(w.tables, w.threads[t].job.code), w.threads[t].job.key)
  {
    var v := Proceed(w, t, now);
    assert v.threads == Restage(w.threads, t, Consumed) && v.tables == Spent(w.tables, w.threads[t].job.code);
    FromConsumed(v, t, now, n - 1);
    Twice(w.threads, t, Consumed, PutFailed);
    Twice(w.threads, t, Consumed, Arriving);
  }

  lemma FromVetted(w: World, t: Gates.ThreadId, now: int, n: nat)
    requires t in w.threads && w.threads[t].job.Enrolling? && w.threads[t].stage == Vetted && n >= 4
    requires var code := w.threads[t].job.code; code.Some? ==> CodeValid(w.tables, code.value, now)
    ensures GoesOn(w, t, now, n) ==
              if w.max > 0 && w.count >= w.max then Out(w, t, Ended(false), w.tables, w.count)
              else Inserted(w, t, Spent(w.tables, w.threads[t].job.code), w.threads[t].job.key)
  {
    var v := Proceed(w, t, now);
    if w.max > 0 && w.count >= w.max {
      Still(v, t, now, n - 1);
    } else {
      FromCapped(v, t, now, n - 1);
      Twice(w.threads, t, Capped, PutFailed);
      Twice(w.threads, t, Capped, Arriving);
    }
  }

  /** Refused: unknown, spent or expired code, or no room. */
  predicate Refused(w: World, code: Option<CodeHash>, now: int) {
    || (code.Some? && !(code.value in w.tables.codes && !w.tables.codes[code.value].used
                        && w.tables.codes[code.value].expires > now))
    || (w.max > 0 && w.count >= w.max)
  }

  lemma FromFresh(w: World, t: Gates.ThreadId, now: int, n: nat)
    requires t in w.threads && w.threads[t].job.Enrolling? && w.threads[t].stage == Fresh && n >= 5
    ensures GoesOn(w, t, now, n) ==
              if Refused(w, w.threads[t].job.code, now) then Out(w, t, Ended(false), w.tables, w.count)
              else Inserted(w, t, Spent(w.tables, w.threads[t].job.code), w.threads[t].job.key)
  {
    var v := Proceed(w, t, now);
    var code := w.threads[t].job.code;
    if code.Some? && !CodeValid(w.tables, code.value, now) {
      Still(v, t, now, n - 1);
    } else {
      FromVetted(v, t, now, n - 1);
      Twice(w.threads, t, Vetted, PutFailed);
      Twice(w.threads, t, Vetted, Arriving);
      Twice(w.threads, t, Vetted, Ended(false));
    }
  }

  lemma FromLocked(w: World, t: Gates.ThreadId, now: int, n: nat)
    requires t in w.threads && w.threads[t].job.Enrolling? && w.threads[t].stage == Locked && n >= 6
    ensures GoesOn(w, t, now, n) ==
              if (exists p <- w.tables.rows :: w.tables.rows[p] == w.threads[t].job.key)
                 || Refused(w, w.threads[t].job.code, now)
              then Out(w, t, Ended(false), w.tables, w.count)
              else Inserted(w, t, Spent(w.tables, w.threads[t].job.code), w.threads[t].job.key)
  {
    var v := Proceed(w, t, now);
    if HasKey(w.tables, w.threads[t].job.key) {
      Still(v, t, now, n - 1);
    } else {
      FromFresh(v, t, now, n - 1);
      Twice(w.threads, t, Fresh, PutFailed);
      Twice(w.threads, t, Fresh, Arriving);
      Twice(w.threads, t, Fresh, Ended(false));
    }
  }

  /** The whole section, undisturbed: a key already enrolled, a code that is not valid or a
      full service changes nothing; otherwise the code is spent and the row stored and
      counted, unless the name is taken by another key, which is left to the caller to
      undo. The mutex is free again in every case. */
  lemma SectionExact(w: World, t: Gates.ThreadId, now: int)
    requires t in w.threads && w.threads[t].job.Enrolling? && w.threads[t].stage == Waiting && w.mu.None?
    ensures var Enrolling(key, code) := w.threads[t].job;
            GoesOn(w, t, now, 7) ==
              if (exists p <- w.tables.rows :: w.tables.rows[p] == key) || Refused(w, code, now)
              then Out(w, t, Ended(false), w.tables, w.count)
              else if key.principal in w.tables.rows then Out(w, t, PutFailed, Spent(w.tables, code), w.count)
              else Out(w, t, Arriving, Spent(w.tables, code).(rows := w.tables.rows[key.principal := key]), w.count + 1)
  {
    var v := Proceed(w, t, now);
    FromLocked(v, t, now, 6);
    Twice(w.threads, t, Locked, PutFailed);
    Twice(w.threads, t, Locked, Arriving);
    Twice(w.threads, t, Locked, Ended(false));
    assert Spent(w.tables, w.threads[t].job.code).rows == w.tables.rows;
  }

  // ---- Provisioning and rollback ----

  /** The steps inside the gate: confirm, provision, and on either failing roll back, with
      the rollback's own store operations succeeding. */
  ghost function Provisioned(w: World, t: Gates.ThreadId, confirm: bool, provision: bool): World
    requires t in w.threads && w.threads[t].job.Enrolling? && w.threads[t].stage == Gated && w.mu.None?
  {
    var w1 := AfterTail(w, t, Confirm(confirm));
    var w2 := if w1.threads[t].stage == Confirmed then AfterTail(w1, t, Provision(provision)) else w1;
    if w2.threads[t].stage == Undoing then AfterTail(AfterTail(w2, t, Undo(true)), t, UndoCode(true)) else w2
  }

  ghost function Freed(tb: Tables, code: Option<CodeHash>): map<CodeHash, Code> {
    if code.Some? && code.value in tb.codes
    then tb.codes[code.value := tb.codes[code.value].(used := false)] else tb.codes
  }

  /** Undisturbed, an enrollment is reported as created if and only if its row was still
      there to confirm and provisioning succeeded, and then nothing has changed. Otherwise
      it leaves nothing behind: no row under its name, a count lower by one exactly if
      there was one, and its code, if it is still on record, unused. */
  lemma ProvisionExact(w: World, t: Gates.ThreadId, confirm: bool, provision: bool)
    requires t in w.threads && w.threads[t].job.Enrolling? && w.threads[t].stage == Gated && w.mu.None?
    ensures var v := Provisioned(w, t, confirm, provision); var Thread(name, job, _) := w.threads[t];
            var created := confirm && provision && exists p <- w.tables.rows :: w.tables.rows[p] == job.key;
            && v.threads == Restage(w.threads, t, Leaving(created))
            && (created ==> v.tables == w.tables && v.count == w.count)
            && (!created ==>
                  && name !in v.tables.rows && v.tables.rows == w.tables.rows - {name}
                  && v.count == (if name in w.tables.rows then w.count - 1 else w.count)
                  && v.tables.codes == Freed(w.tables, job.code))
  {
    hide HasKey, AfterTail;
    ConfirmExact(w, t, confirm);
    var w1 := AfterTail(w, t, Confirm(confirm));
    if w1.threads[t].stage == Confirmed {
      AttemptExact(w1, t, provision);
      Twice(w.threads, t, Confirmed, Leaving(true));
      Twice(w.threads, t, Confirmed, Undoing);
      if !provision { UndoneExact(AfterTail(w1, t, Provision(false)), t); }
    } else {
      UndoneExact(w1, t);
    }
    Twice(w.threads, t, Undoing, Leaving(false));
  }

  lemma ConfirmExact(w: World, t: Gates.ThreadId, confirm: bool)
    requires t in w.threads && w.threads[t].job.Enrolling? && w.threads[t].stage == Gated
    ensures AfterTail(w, t, Confirm(confirm)) ==
              To(w, t, if confirm && exists p <- w.tables.rows :: w.tables.rows[p] == w.threads[t].job.key
                       then Confirmed else Undoing)
  {
  }

  lemma AttemptExact(w: World, t: Gates.ThreadId, provision: bool)
    requires t in w.threads && w.threads[t].job.Enrolling? && w.threads[t].stage == Confirmed
    ensures AfterTail(w, t, Provision(provision)) == To(w, t, if provision then Leaving(true) else Undoing)
  {
  }

  lemma UndoneExact(w: World, t: Gates.ThreadId)
    requires t in w.threads && w.threads[t].job.Enrolling? && w.threads[t].stage == Undoing && w.mu.None?
    ensures Enabled(AfterTail(w, t, Undo(true)), Tail(t, UndoCode(true)))
    ensures var v := AfterTail(AfterTail(w, t, Undo(true)), t, UndoCode(true));
            var Thread(name, job, _) := w.threads[t];
            && v.threads == Restage(w.threads, t, Leaving(false))
            && v.tables == Tables(w.tables.rows - {name}, Freed(w.tables, job.code))
            && v.count == (if name in w.tables.rows then w.count - 1 else w.count)
  {
    Twice(w.threads, t, Undone, Leaving(false));
    assert w.threads[t].name !in w.tables.rows ==> w.tables.rows - {w.threads[t].name} == w.tables.rows;
  }

  /** The rollback's removal, whatever goes on around it. */
  lemma UndoExact(w: World, t: Gates.ThreadId)
    requires Enabled(w, Tail(t, Undo(true)))
    ensures var v := Apply(w, Tail(t, Undo(true))); var name := w.threads[t].name;
            && name !in v.tables.rows && v.tables.rows == w.tables.rows - {name}
            && v.count == (if name in w.tables.rows then w.count - 1 else w.count)
            && t in v.threads && v.threads[t].stage == Undone && v.threads[t].name == name
  {
    assert w.threads[t].name !in w.tables.rows ==> w.tables.rows - {w.threads[t].name} == w.tables.rows;
  }

  /** Past its rollback or its end, a thread stores nothing more. */
  predicate Past(s: Stage) {
    s.Undone? || s.Leaving? || s.Dropping? || s.Ended?
  }

  /** The step stores a row under `name` for a thread other than `t`. */
  ghost predicate StoresFor(w: World, ev: Event, name: Gates.Principal, t: Gates.ThreadId) {
    ev.Section? && ev.t != t && ev.section == InsertRow(true) && ev.t in w.threads && w.threads[ev.t].job.Enrolling?
    && w.threads[ev.t].job.key.principal == name
  }

  /** No other enrollment of that name stores its row along the run. */
  ghost predicate NoneStores(w: World, evs: seq<Event>, name: Gates.Principal, t: Gates.ThreadId)
    requires Inv(w) && Legal(w, evs)
    decreases |evs|
  {
    |evs| == 0 || (!StoresFor(w, evs[0], name, t) && NoneStores(Next(w, evs[0]), evs[1..], name, t))
  }

  lemma GoneStep(w: World, ev: Event, name: Gates.Principal, t: Gates.ThreadId)
    requires Enabled(w, ev) && t in w.threads && Past(w.threads[t].stage) && name !in w.tables.rows
    requires !StoresFor(w, ev, name, t)
    ensures var v := Apply(w, ev); t in v.threads && Past(v.threads[t].stage) && name !in v.tables.rows
  {
    hide Gates.Inv, Gates.Apply, Gates.Enabled, AfterSection, AfterTail, AfterDelete;
    match ev
    case Section(u, a) => GoneSection(w, u, a, name, t);
    case Tail(u, a) => GoneTail(w, u, a, name, t);
    case Delete(u, a) => GoneDelete(w, u, a, name, t);
    case _ =>
  }

  lemma GoneSection(w: World, u: Gates.ThreadId, a: SectionStep, name: Gates.Principal, t: Gates.ThreadId)
    requires Enabled(w, Section(u, a)) && t in w.threads && Past(w.threads[t].stage) && name !in w.tables.rows
    requires !StoresFor(w, Section(u, a), name, t)
    ensures var v := AfterSection(w, u, a); t in v.threads && Past(v.threads[t].stage) && name !in v.tables.rows
  {
    hide HasKey, CodeValid;
  }

  lemma GoneTail(w: World, u: Gates.ThreadId, a: TailStep, name: Gates.Principal, t: Gates.ThreadId)
    requires Enabled(w, Tail(u, a)) && t in w.threads && Past(w.threads[t].stage) && name !in w.tables.rows
    ensures var v := AfterTail(w, u, a); t in v.threads && Past(v.threads[t].stage) && name !in v.tables.rows
  {
    hide HasKey;
  }

  lemma GoneDelete(w: World, u: Gates.ThreadId, a: DeleteStep, name: Gates.Principal, t: Gates.ThreadId)
    requires Enabled(w, Delete(u, a)) && t in w.threads && Past(w.threads[t].stage) && name !in w.tables.rows
    ensures var v := AfterDelete(w, u, a); t in v.threads && Past(v.threads[t].stage) && name !in v.tables.rows
  {
  }

  lemma {:induction false} GoneStays(w: World, evs: seq<Event>, name: Gates.Principal, t: Gates.ThreadId)
    requires Inv(w) && Legal(w, evs) && t in w.threads && Past(w.threads[t].stage) && name !in w.tables.rows
    requires NoneStores(w, evs, name, t)
    ensures name !in Run(w, evs).tables.rows
    decreases |evs|
  {
    hide Inv, Apply, Enabled, StoresFor, Past;
    if |evs| > 0 {
      GoneStep(w, evs[0], name, t);
      GoneStays(Next(w, evs[0]), evs[1..], name, t);
    }
  }

  /** A rollback stands: once it has removed the row, the principal is enrolled again only
      by another enrollment of its own storing a new row, whatever else happens, inside
      the gate or long after. */
  lemma RollbackStands(w: World, t: Gates.ThreadId, evs: seq<Event>)
    requires Inv(w) && Enabled(w, Tail(t, Undo(true))) && Legal(Next(w, Tail(t, Undo(true))), evs)
    requires NoneStores(Next(w, Tail(t, Undo(true))), evs, w.threads[t].name, t)
    ensures w.threads[t].name !in Run(Next(w, Tail(t, Undo(true))), evs).tables.rows
  {
    hide Inv;
    UndoExact(w, t);
    hide Apply, Enabled;
    GoneStays(Next(w, Tail(t, Undo(true))), evs, w.threads[t].name, t);
  }

  // ---- The way there and back ----

  /** A request begins at the mutex, a deletion at the gate; each with what it was given. */
  lemma BeginExact(w: World, t: Gates.ThreadId, key: Key, code: Option<CodeHash>, name: Gates.Principal)
    requires t !in w.threads && t !in w.gt.seats
    ensures Apply(w, Begin(t, key, code)) ==
              w.(threads := w.threads[t := Thread(key.principal, Enrolling(key, code), Waiting)])
    ensures Apply(w, BeginDelete(t, name)) == w.(threads := w.threads[t := Thread(name, Deleting, Arriving)])
  {
  }

  /** What was decided inside the gate is what the request ends with: it queues, enters,
      leaves and departs, and reports as created exactly what it left with. Without
      provisioning it is created as soon as it is counted. */
  lemma EndsAsDecided(w: World, g: Gates.Event)
    requires Enabled(w, AtGate(g))
    ensures var s := w.threads[g.t].stage; var v := Apply(w, AtGate(g));
            && g.t in v.threads && v.threads[g.t].job == w.threads[g.t].job
            && v.tables == w.tables && v.count == w.count
            && v.threads[g.t].stage == match g
                                       case Arrive(_, _, _) => Queued
                                       case Lock(_) => Gated
                                       case Unlock(_) => Dropping(s.created)
                                       case Depart(_) => Ended(s.created)
  {
    hide Gates.Inv, Gates.Apply, Gates.Enabled;
  }

  lemma UnprovisionedExact(w: World, t: Gates.ThreadId)
    requires Enabled(w, Tail(t, Unprovisioned))
    ensures Apply(w, Tail(t, Unprovisioned)) == To(w, t, Ended(true))
  {
  }

  /** A refused row gives its code back: the tables are as they were before the section. */
  lemma ReturnExact(w: World, t: Gates.ThreadId)
    requires Enabled(w, Tail(t, ReturnCode(true)))
    ensures var v := Apply(w, Tail(t, ReturnCode(true)));
            && v.threads == Restage(w.threads, t, Ended(false))
            && v.tables == Tables(w.tables.rows, Freed(w.tables, w.threads[t].job.code)) && v.count == w.count
  {
  }

  // ---- Deletion ----

  /** A deletion's store operations, undisturbed. */
  ghost function Deleted(w: World, t: Gates.ThreadId): World
    requires t in w.threads && w.threads[t].job.Deleting? && w.threads[t].stage == Gated && w.mu.None?
  {
    var w1 := AfterDelete(w, t, DeleteRow);
    if w1.threads[t].stage == RowGone then AfterDelete(w1, t, CountOut) else w1
  }

  /** A deletion removes its row, counts it out exactly if there was one, and touches no
      other row and no code; an aborted one changes nothing. */
  lemma DeleteExact(w: World, t: Gates.ThreadId)
    requires t in w.threads && w.threads[t].job.Deleting? && w.threads[t].stage == Gated && w.mu.None?
    ensures var name := w.threads[t].name;
            Deleted(w, t) == w.(threads := Restage(w.threads, t, Leaving(false)),
                                tables := w.tables.(rows := w.tables.rows - {name}),
                                count := if name in w.tables.rows then w.count - 1 else w.count)
    ensures AfterDelete(w, t, Abort) == w.(threads := Restage(w.threads, t, Leaving(false)))
  {
    Twice(w.threads, t, RowGone, Leaving(false));
    assert w.threads[t].name !in w.tables.rows ==> w.tables.rows - {w.threads[t].name} == w.tables.rows;
  }

  // ---- Codes ----

  /** A new code is valid until it expires. */
  lemma MintedValid(w: World, h: CodeHash, expires: int, now: int)
    requires Enabled(w, MintCode(h, expires))
    ensures CodeValid(Apply(w, MintCode(h, expires)).tables, h, now) <==> now < expires
  {
  }

  /** A collection changes the validity of no code at any later time, keeps no code that
      was spent or had expired, and touches no row. */
  lemma CollectExact(w: World, at: int, h: CodeHash, now: int)
    requires now >= at
    ensures var v := Apply(w, Collect(at));
            && (CodeValid(v.tables, h, now) <==> CodeValid(w.tables, h, now))
            && (h in v.tables.codes <==> CodeValid(w.tables, h, at))
            && v.tables.rows == w.tables.rows
  {
  }
}
