/** What the enrollment cap bounds (enroll/enroll.go): the count never passes it, but rows
    whose key could not be read at startup are stored and not counted. */
module EnrollCap {
  import opened Basics
  import Gates
  import opened Enroll
  import opened EnrollRuns

  type Rows = map<Gates.Principal, Key>

  /** Rows as this service files them. */
  ghost predicate Filed(rows: Rows) {
    forall n <- rows :: rows[n].principal == n
  }

  /** The most rows that a service with this cap and this start ever stores. */
  ghost function Most(rows: Rows, unread: nat, max: int): int {
    (if max > |rows| - unread then max else |rows| - unread) + unread
  }

  /** Whoever holds the mutex, the stored rows exceed the cap by at most the rows unread
      at startup, unless more were already there. */
  lemma RowsCapped(rows: Rows, codes: map<CodeHash, Code>, unread: nat, max: int, provision: bool, evs: seq<Event>)
    requires 0 < max && unread <= |rows| && Filed(rows) && Legal(Start(rows, codes, unread, max, provision), evs)
    ensures |Run(Start(rows, codes, unread, max, provision), evs).tables.rows| <= Most(rows, unread, max)
  {
    DoneStays(Start(rows, codes, unread, max, provision), evs, 0);
  }

  // ---- One more enrollment ----

  /** A new principal's enrollment at stage `s`, without a code and below the cap. */
  ghost predicate Welcome(w: World, t: Gates.ThreadId, key: Key, s: Stage) {
    && t in w.threads && w.threads[t] == Thread(key.principal, Enrolling(key, None), s)
    && key.principal !in w.tables.rows && !HasKey(w.tables, key)
    && (w.max > 0 ==> w.count < w.max)
    && (s.Waiting? ==> w.mu.None?)
  }

  /** The steps of its section, each with the stage it starts from. */
  const SECTION := [(Waiting, TakeMutex), (Locked, LookUp), (Fresh, CheckCode(0)), (Vetted, CheckCap),
                    (Capped, UseCode(0)), (Consumed, InsertRow(true))]

  lemma Advance(w: World, t: Gates.ThreadId, key: Key, k: nat)
    requires k < 5 && Welcome(w, t, key, SECTION[k].0)
    ensures Enabled(w, Section(t, SECTION[k].1))
    ensures var v := Apply(w, Section(t, SECTION[k].1));
            Welcome(v, t, key, SECTION[k + 1].0) && v.tables == w.tables && v.count == w.count
  {
    hide HasKey;
  }

  lemma {:induction false} Reaches(w: World, t: Gates.ThreadId, key: Key, k: nat) returns (evs: seq<Event>)
    requires Inv(w) && k <= 5 && Welcome(w, t, key, SECTION[k].0)
    ensures Legal(w, evs)
    ensures var v := Run(w, evs); Welcome(v, t, key, Consumed) && v.tables == w.tables && v.count == w.count
    decreases 5 - k
  {
    hide Inv, Welcome, Apply, Enabled;
    if k == 5 {
      evs := [];
    } else {
      Advance(w, t, key, k);
      var ev := Section(t, SECTION[k].1);
      var rest := Reaches(Next(w, ev), t, key, k + 1);
      evs := [ev] + rest;
      assert evs[1..] == rest;
    }
  }

  lemma Starts(w: World, t: Gates.ThreadId, key: Key)
    requires Inv(w) && w.mu.None? && t !in w.threads && (w.max > 0 ==> w.count < w.max)
    requires key.principal !in w.tables.rows && !HasKey(w.tables, key)
    ensures Enabled(w, Begin(t, key, None))
    ensures var v := Apply(w, Begin(t, key, None));
            Welcome(v, t, key, Waiting) && v.tables == w.tables && v.count == w.count
  {
    hide Gates.Inv, MutexOk, Tallied, CodesOk, NamesOk, ProvisionOk, HasKey;
  }

  lemma Stores(w: World, t: Gates.ThreadId, key: Key)
    requires Welcome(w, t, key, Consumed)
    ensures Enabled(w, Section(t, InsertRow(true)))
    ensures var v := Apply(w, Section(t, InsertRow(true)));
            && v.tables.rows == w.tables.rows[key.principal := key] && v.count == w.count
            && t in v.threads && v.threads[t].job.Enrolling? && v.threads[t].stage.Stored?
  {
    hide HasKey;
  }

  lemma Counts(w: World, t: Gates.ThreadId)
    requires t in w.threads && w.threads[t].job.Enrolling? && w.threads[t].stage.Stored?
    ensures Enabled(w, Section(t, CountIn))
    ensures var v := Apply(w, Section(t, CountIn)); v.tables == w.tables && v.count == w.count + 1 && v.mu.None?
  {
  }

  /** Below the cap, by its count, the service takes another row. */
  lemma OneMore(w: World, t: Gates.ThreadId, key: Key) returns (evs: seq<Event>)
    requires Inv(w) && w.mu.None? && t !in w.threads && (w.max > 0 ==> w.count < w.max)
    requires key.principal !in w.tables.rows && !HasKey(w.tables, key)
    ensures Legal(w, evs)
    ensures var v := Run(w, evs);
            v.mu.None? && v.tables.rows == w.tables.rows[key.principal := key] && v.count == w.count + 1
  {
    var first := Begin(t, key, None);
    Starts(w, t, key);
    hide Inv, Welcome, Apply, Enabled;
    var w1 := Next(w, first);
    var some := Reaches(w1, t, key, 0);
    Stores(Run(w1, some), t, key);
    Appended(w1, some, Section(t, InsertRow(true)));
    some := some + [Section(t, InsertRow(true))];
    Counts(Run(w1, some), t);
    Appended(w1, some, Section(t, CountIn));
    some := some + [Section(t, CountIn)];
    evs := [first] + some;
    assert evs[1..] == some;
  }

  // ---- There is always another principal ----

  lemma {:induction false} FreshThread(ts: set<Gates.ThreadId>) returns (n: Gates.ThreadId)
    ensures forall t <- ts :: t < n
    decreases |ts|
  {
    if ts == {} {
      n := 0;
    } else {
      var t :| t in ts;
      var m := FreshThread(ts - {t});
      n := if m > t then m else t + 1;
      assert forall u <- ts :: u == t || u in ts - {t};
    }
  }

  lemma {:induction false} LongestName(names: set<Gates.Principal>) returns (n: nat)
    ensures forall p <- names :: |p.text| < n
    decreases |names|
  {
    if names == {} {
      n := 0;
    } else {
      var p :| p in names;
      var m := LongestName(names - {p});
      n := if m > |p.text| then m else |p.text| + 1;
      assert forall q <- names :: q == p || q in names - {p};
    }
  }

  /** A key nobody has enrolled. */
  lemma FreshKey(rows: Rows) returns (key: Key)
    requires Filed(rows)
    ensures key.principal !in rows && forall n <- rows :: rows[n] != key
  {
    var n := LongestName(rows.Keys);
    key := Key("", Gates.Principal(seq(n, i => 'a')));
  }

  lemma {:induction false} Fill(w: World, n: nat) returns (evs: seq<Event>)
    requires Inv(w) && w.mu.None? && w.max > 0 && w.count + n == w.max
    ensures Legal(w, evs) && |Run(w, evs).tables.rows| == |w.tables.rows| + n
    decreases n
  {
    if n == 0 {
      evs := [];
    } else {
      Known(w);
      hide Inv;
      var key := FreshKey(w.tables.rows);
      var t := FreshThread(w.threads.Keys);
      var some := OneMore(w, t, key);
      DoneStays(w, some, 0);
      var rest := Fill(Run(w, some), n - 1);
      Joined(w, some, rest);
      evs := some + rest;
    }
  }

  lemma Known(w: World)
    requires Inv(w)
    ensures Filed(w.tables.rows)
  {
    hide Gates.Inv, MutexOk, Tallied, CodesOk, SeatsOk, ProvisionOk;
  }

  lemma {:induction false} Joined(w: World, a: seq<Event>, b: seq<Event>)
    requires Inv(w) && Legal(w, a) && Legal(Run(w, a), b)
    ensures Legal(w, a + b) && Run(w, a + b) == Run(Run(w, a), b)
    decreases |a|
  {
    hide Inv, Apply, Enabled;
    if a == [] {
      assert a + b == b;
    } else {
      Joined(Next(w, a[0]), a[1..], b);
      assert (a + b)[1..] == a[1..] + b;
    }
  }

  // ---- The bound is exact ----

  /** From every start some run stores that many rows, so `RowsCapped` cannot be improved. */
  lemma RowsReached(rows: Rows, codes: map<CodeHash, Code>, unread: nat, max: int, provision: bool)
      returns (evs: seq<Event>)
    requires 0 < max && unread <= |rows| && Filed(rows)
    ensures Legal(Start(rows, codes, unread, max, provision), evs)
    ensures |Run(Start(rows, codes, unread, max, provision), evs).tables.rows| == Most(rows, unread, max)
  {
    var w := Start(rows, codes, unread, max, provision);
    if w.count < max {
      evs := Fill(w, max - w.count);
    } else {
      evs := [];
    }
  }

  /** The cap bounds the stored rows in every run if and only if every stored key was read
      at startup and the rows were within the cap then. */
  lemma CapExact(rows: Rows, codes: map<CodeHash, Code>, unread: nat, max: int, provision: bool)
    requires 0 < max && unread <= |rows| && Filed(rows)
    ensures var w := Start(rows, codes, unread, max, provision);
            (forall evs :: Legal(w, evs) ==> |Run(w, evs).tables.rows| <= max) <==> unread == 0 && |rows| <= max
  {
    var w := Start(rows, codes, unread, max, provision);
    if unread == 0 && |rows| <= max {
      forall evs | Legal(w, evs) ensures |Run(w, evs).tables.rows| <= max {
        RowsCapped(rows, codes, unread, max, provision, evs);
      }
    } else {
      var evs := RowsReached(rows, codes, unread, max, provision);
    }
  }

  /** The smallest failing input: one stored row, unread, under a cap of one. */
  lemma CapExceeded(key: Key, provision: bool)
    ensures var w := Start(map[key.principal := key], map[], 1, 1, provision);
            exists evs :: Legal(w, evs) && |Run(w, evs).tables.rows| == 2
  {
    var evs := RowsReached(map[key.principal := key], map[], 1, 1, provision);
  }
}
