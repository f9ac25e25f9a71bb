/** The conditional batch of a Hrana stream (httpapi/hrana.go, `runHranaBatch` and
    `evalCond`). The engine is a parameter: how a statement changes the connection,
    what it returns, and whether the connection is in autocommit mode. */
module Batch {
  import opened Basics

  datatype Col = Col(name: Option<string>, decltype: Option<string>)
  type Row = seq<string>

  datatype StmtResult = StmtResult(
    cols: seq<Col>, rows: seq<Row>, affected: int, lastInsert: Option<string>, truncated: bool)
  datatype HError = HError(message: string, code: Option<string>)
  datatype Outcome = Done(res: StmtResult) | Failed(err: HError)

  /** A step index is a 32-bit signed integer that may be absent. */
  datatype Cond =
    | OkAt(step: Option<int>)
    | ErrorAt(step: Option<int>)
    | Not(cond: Option<Cond>)
    | And(conds: seq<Cond>)
    | Or(conds: seq<Cond>)
    | IsAutocommit
    | Unrecognized

  /** Indexing with a negative step panics. */
  datatype Verdict = Yes | No | Panic

  function Of(b: bool): Verdict {
    if b then Yes else No
  }

  type Results = seq<Option<StmtResult>>
  type Errors = seq<Option<HError>>

  function Present<T>(slots: seq<Option<T>>, step: Option<int>): Verdict {
    if step.None? || step.value >= |slots| then No
    else if step.value < 0 then Panic
    else Of(slots[step.value].Some?)
  }

  function EvalCond(c: Cond, results: Results, errors: Errors, ac: bool): Verdict
    decreases c, 0
  {
    match c
    case OkAt(step) => Present(results, step)
    case ErrorAt(step) => Present(errors, step)
    case Not(None) => No
    case Not(Some(d)) =>
      var v := EvalCond(d, results, errors, ac);
      if v == Panic then Panic else Of(v == No)
    case And(cs) => EvalSeq(cs, results, errors, ac, No)
    case Or(cs) => EvalSeq(cs, results, errors, ac, Yes)
    case IsAutocommit => Of(ac)
    case Unrecognized => No
  }

  /** Evaluate in order and stop at the first `stop`: No for a conjunction, Yes for a
      disjunction. */
  function EvalSeq(cs: seq<Cond>, results: Results, errors: Errors, ac: bool, stop: Verdict): Verdict
    requires stop != Panic
    decreases cs, |cs|
  {
    if |cs| == 0 then (if stop == No then Yes else No)
    else
      var v := EvalCond(cs[0], results, errors, ac);
      if v == stop || v == Panic then v else EvalSeq(cs[1..], results, errors, ac, stop)
  }

  datatype Step<S> = Step(cond: Option<Cond>, stmt: S)

  /** A batch in progress on connection state `d`. */
  datatype Progress<D> = Progress(d: D, ac: bool, results: Results, errors: Errors, panicked: bool)

  function Begun<D>(n: nat, d: D, auto: D -> bool): Progress<D> {
    Progress(d, auto(d), seq(n, i => None), seq(n, i => None), false)
  }

  /** One turn of the loop, at step `i`. */
  function Turn<D, S>(p: Progress<D>, i: nat, step: Step<S>, exec: (D, S) -> (D, Outcome), auto: D -> bool): Progress<D>
    requires i < |p.results| == |p.errors|
  {
    if p.panicked then p
    else
      var v := if step.cond.Some? then EvalCond(step.cond.value, p.results, p.errors, p.ac) else Yes;
      match v
      case Panic => p.(panicked := true)
      case No => p
      case Yes =>
        var (d, out) := exec(p.d, step.stmt);
        match out
        case Done(res) => p.(d := d, ac := auto(d), results := p.results[i := Some(res)])
        case Failed(err) => p.(d := d, ac := auto(d), errors := p.errors[i := Some(err)])
  }

  /** The batch after its first `k` steps. */
  function After<D, S>(steps: seq<Step<S>>, k: nat, d: D, exec: (D, S) -> (D, Outcome),
                       auto: D -> bool): (p: Progress<D>)
    requires k <= |steps|
    ensures |p.results| == |p.errors| == |steps|
  {
    if k == 0 then Begun(|steps|, d, auto)
    else Turn(After(steps, k - 1, d, exec, auto), k - 1, steps[k - 1], exec, auto)
  }

  /** The loop as the pipeline's `batch` request runs it. */
  method RunBatch<D, S>(steps: seq<Step<S>>, d0: D, exec: (D, S) -> (D, Outcome), auto: D -> bool)
      returns (d: D, results: Results, errors: Errors, panicked: bool)
    ensures var p := After(steps, |steps|, d0, exec, auto);
            p.d == d && p.results == results && p.errors == errors && p.panicked == panicked
  {
    d, panicked := d0, false;
    results, errors := seq(|steps|, i => None), seq(|steps|, i => None);
    var ac := auto(d);
    for i := 0 to |steps|
      invariant |results| == |errors| == |steps|
      invariant Progress(d, ac, results, errors, panicked) == After(steps, i, d0, exec, auto)
    {
      var v := if panicked then No
               else if steps[i].cond.Some? then EvalCond(steps[i].cond.value, results, errors, ac) else Yes;
      if v == Panic {
        panicked := true;
      } else if v == Yes {
        var (d', out) := exec(d, steps[i].stmt);
        d := d';
        match out {
          case Done(res) => results := results[i := Some(res)];
          case Failed(err) => errors := errors[i := Some(err)];
        }
        ac := auto(d);
      }
    }
  }

  // ---- What the loop keeps ----

  /** No step both succeeds and fails, steps not reached have no outcome, and the
      autocommit flag is the connection's. */
  lemma {:induction false} Progressed<D, S>(steps: seq<Step<S>>, k: nat, d: D, exec: (D, S) -> (D, Outcome),
                                            auto: D -> bool)
    requires k <= |steps|
    ensures var p := After(steps, k, d, exec, auto);
            && (forall i :: 0 <= i < |steps| ==> p.results[i].None? || p.errors[i].None?)
            && (forall i :: k <= i < |steps| ==> p.results[i].None? && p.errors[i].None?)
            && p.ac == auto(p.d)
  {
    if k > 0 {
      Progressed(steps, k - 1, d, exec, auto);
    }
  }

  /** Later steps never rewrite the outcome of an earlier one. */
  lemma {:induction false} OutcomesFixed<D, S>(steps: seq<Step<S>>, k: nat, m: nat, i: nat, d: D,
                                               exec: (D, S) -> (D, Outcome), auto: D -> bool)
    requires i < k <= m <= |steps|
    ensures var p := After(steps, k, d, exec, auto); var q := After(steps, m, d, exec, auto);
            q.results[i] == p.results[i] && q.errors[i] == p.errors[i]
    decreases m
  {
    if k < m {
      OutcomesFixed(steps, k, m - 1, i, d, exec, auto);
    }
  }

  /** Two views of the outcomes agree on the first `k` steps; beyond them neither
      shows anything. */
  ghost predicate SameBefore<T>(a: seq<Option<T>>, b: seq<Option<T>>, k: nat) {
    && k <= |a| && k <= |b|
    && (forall i :: 0 <= i < k ==> a[i].Some? == b[i].Some?)
    && (forall i :: k <= i < |a| ==> a[i].None?)
    && (forall i :: k <= i < |b| ==> b[i].None?)
  }

  /** The steps that have an outcome of this kind. */
  ghost function Hits<T>(slots: seq<Option<T>>): set<int> {
    set i | 0 <= i < |slots| && slots[i].Some?
  }

  /** The condition read as a formula over the steps that succeeded and failed. */
  ghost predicate Holds(c: Cond, ok: set<int>, bad: set<int>, ac: bool)
    decreases c
  {
    match c
    case OkAt(step) => step.Some? && step.value in ok
    case ErrorAt(step) => step.Some? && step.value in bad
    case Not(d) => d.Some? && !Holds(d.value, ok, bad, ac)
    case And(cs) => forall d <- cs :: Holds(d, ok, bad, ac)
    case Or(cs) => exists d <- cs :: Holds(d, ok, bad, ac)
    case IsAutocommit => ac
    case Unrecognized => false
  }

  // ---- When a condition panics ----

  predicate NonNegative(step: Option<int>) {
    step.Some? ==> step.value >= 0
  }

  /** No negative step index is reached: a list is read up to its first member that
      settles it, and a negative index behind that one does no harm. */
  ghost predicate Safe(c: Cond, ok: set<int>, bad: set<int>, ac: bool)
    decreases c
  {
    match c
    case OkAt(step) => NonNegative(step)
    case ErrorAt(step) => NonNegative(step)
    case Not(d) => d.Some? ==> Safe(d.value, ok, bad, ac)
    case And(cs) => forall i :: 0 <= i < |cs| && Reached(cs, i, ok, bad, ac, false) ==> Safe(cs[i], ok, bad, ac)
    case Or(cs) => forall i :: 0 <= i < |cs| && Reached(cs, i, ok, bad, ac, true) ==> Safe(cs[i], ok, bad, ac)
    case _ => true
  }

  /** No member of the list before the `i`-th has the value that settles it. */
  ghost predicate Reached(cs: seq<Cond>, i: nat, ok: set<int>, bad: set<int>, ac: bool, stop: bool)
    requires i <= |cs|
    decreases cs, 0
  {
    forall j :: 0 <= j < i ==> Holds(cs[j], ok, bad, ac) != stop
  }

  /** A condition panics exactly when it reaches a negative step index; otherwise it
      evaluates to its reading as a formula. */
  lemma {:induction false} CondMeaning(c: Cond, results: Results, errors: Errors, ac: bool)
    ensures var ok, bad := Hits(results), Hits(errors);
            EvalCond(c, results, errors, ac) == (if Safe(c, ok, bad, ac) then Of(Holds(c, ok, bad, ac)) else Panic)
    decreases c, 0
  {
    match c
    case Not(Some(d)) => CondMeaning(d, results, errors, ac);
    case And(cs) => SeqMeaning(cs, results, errors, ac, false);
    case Or(cs) => SeqMeaning(cs, results, errors, ac, true);
    case _ =>
  }

  ghost predicate SeqSafe(cs: seq<Cond>, ok: set<int>, bad: set<int>, ac: bool, stop: bool) {
    forall i :: 0 <= i < |cs| && Reached(cs, i, ok, bad, ac, stop) ==> Safe(cs[i], ok, bad, ac)
  }

  /** The same for a list: it stops at the first member whose value is `stop`, and has
      that value exactly if there is such a member. */
  lemma {:induction false} SeqMeaning(cs: seq<Cond>, results: Results, errors: Errors, ac: bool, stop: bool)
    ensures var ok, bad := Hits(results), Hits(errors);
            EvalSeq(cs, results, errors, ac, Of(stop)) ==
              (if SeqSafe(cs, ok, bad, ac, stop)
               then Of((exists c <- cs :: Holds(c, ok, bad, ac) == stop) == stop) else Panic)
    decreases cs, |cs|
  {
    var ok, bad := Hits(results), Hits(errors);
    if |cs| > 0 {
      CondMeaning(cs[0], results, errors, ac);
      SeqMeaning(cs[1..], results, errors, ac, stop);
      SafeTail(cs, ok, bad, ac, stop);
      assert forall c :: c in cs <==> c == cs[0] || c in cs[1..];
    }
  }

  lemma SafeTail(cs: seq<Cond>, ok: set<int>, bad: set<int>, ac: bool, stop: bool)
    requires |cs| > 0
    ensures SeqSafe(cs, ok, bad, ac, stop) <==>
              Safe(cs[0], ok, bad, ac) && (Holds(cs[0], ok, bad, ac) == stop || SeqSafe(cs[1..], ok, bad, ac, stop))
  {
    hide Safe, Holds;
    assert Reached(cs, 0, ok, bad, ac, stop);
    forall i | 0 < i < |cs|
      ensures Reached(cs, i, ok, bad, ac, stop) <==>
                Holds(cs[0], ok, bad, ac) != stop && Reached(cs[1..], i - 1, ok, bad, ac, stop)
    {
      ReachedTail(cs, i, ok, bad, ac, stop);
    }
    hide Reached;
    var rest := cs[1..];
    assert forall i :: 0 <= i < |rest| ==> rest[i] == cs[i + 1];
  }

  lemma ReachedTail(cs: seq<Cond>, i: nat, ok: set<int>, bad: set<int>, ac: bool, stop: bool)
    requires 0 < i < |cs|
    ensures Reached(cs, i, ok, bad, ac, stop) <==>
              Holds(cs[0], ok, bad, ac) != stop && Reached(cs[1..], i - 1, ok, bad, ac, stop)
  {
    hide Holds;
    var rest := cs[1..];
    assert forall j :: 0 < j < i ==> cs[j] == rest[j - 1];
  }

  /** The shortest failing input, and the same index made harmless by its place. */
  lemma NegativeIndex(results: Results, errors: Errors, ac: bool)
    ensures EvalCond(OkAt(Some(-1)), results, errors, ac) == Panic
    ensures EvalCond(And([Unrecognized, OkAt(Some(-1))]), results, errors, ac) == No
  {
  }

  /** Every step index the condition mentions is non-negative. */
  ghost predicate Indexed(c: Cond)
    decreases c
  {
    match c
    case OkAt(step) => NonNegative(step)
    case ErrorAt(step) => NonNegative(step)
    case Not(d) => d.Some? ==> Indexed(d.value)
    case And(cs) => forall d <- cs :: Indexed(d)
    case Or(cs) => forall d <- cs :: Indexed(d)
    case _ => true
  }

  /** What a client can check without knowing any outcome. */
  lemma {:induction false} IndexedSafe(c: Cond, ok: set<int>, bad: set<int>, ac: bool)
    requires Indexed(c)
    ensures Safe(c, ok, bad, ac)
  {
    match c
    case Not(Some(d)) => IndexedSafe(d, ok, bad, ac);
    case And(cs) => forall i | 0 <= i < |cs| ensures Safe(cs[i], ok, bad, ac) { IndexedSafe(cs[i], ok, bad, ac); }
    case Or(cs) => forall i | 0 <= i < |cs| ensures Safe(cs[i], ok, bad, ac) { IndexedSafe(cs[i], ok, bad, ac); }
    case _ =>
  }

  /** A condition depends only on earlier steps and on autocommit, also in whether it
      panics: a reference to this step, a later one or one that does not exist reads
      as not executed. */
  lemma CondLooksBack(c: Cond, k: nat, r1: Results, e1: Errors, r2: Results, e2: Errors, ac: bool)
    requires SameBefore(r1, r2, k) && SameBefore(e1, e2, k)
    ensures EvalCond(c, r1, e1, ac) == EvalCond(c, r2, e2, ac)
  {
    CondMeaning(c, r1, e1, ac);
    CondMeaning(c, r2, e2, ac);
    assert Hits(r1) == Hits(r2) && Hits(e1) == Hits(e2);
  }

  // ---- What a batch does ----

  /** The condition of step `k`, read over the outcomes of the steps before it. */
  ghost predicate Wanted<D, S>(steps: seq<Step<S>>, k: nat, d: D, exec: (D, S) -> (D, Outcome), auto: D -> bool)
    requires k < |steps|
  {
    var p := After(steps, k, d, exec, auto);
    steps[k].cond.None? || Holds(steps[k].cond.value, Hits(p.results), Hits(p.errors), auto(p.d))
  }

  /** Every step of every batch that does not panic: if its condition holds, the statement
      runs on the connection as the steps before left it, and what it returns, result or
      error, is what the batch reports for it; otherwise nothing runs and nothing is
      reported. */
  lemma StepOutcome<D, S>(steps: seq<Step<S>>, k: nat, d: D, exec: (D, S) -> (D, Outcome), auto: D -> bool)
    requires k < |steps| && !After(steps, |steps|, d, exec, auto).panicked
    ensures var p := After(steps, k, d, exec, auto); var q := After(steps, |steps|, d, exec, auto);
            var next := After(steps, k + 1, d, exec, auto).d;
            if Wanted(steps, k, d, exec, auto) then
              var (d', out) := exec(p.d, steps[k].stmt);
              && next == d'
              && q.results[k] == (if out.Done? then Some(out.res) else None)
              && q.errors[k] == (if out.Failed? then Some(out.err) else None)
            else next == p.d && q.results[k] == None && q.errors[k] == None
  {
    hide Turn, Holds, Safe, Hits, EvalCond, PanicsAt;
    Progressed(steps, k, d, exec, auto);
    BatchPanics(steps, |steps|, d, exec, auto);
    OutcomesFixed(steps, k + 1, |steps|, k, d, exec, auto);
    NotYet(steps, k, d, exec, auto);
    assert !PanicsAt(steps, k, d, exec, auto);
    TurnOutcome(steps, k, d, exec, auto);
  }

  lemma TurnOutcome<D, S>(steps: seq<Step<S>>, k: nat, d: D, exec: (D, S) -> (D, Outcome), auto: D -> bool)
    requires k < |steps| && !PanicsAt(steps, k, d, exec, auto)
    requires var p := After(steps, k, d, exec, auto);
             !p.panicked && p.results[k].None? && p.errors[k].None? && p.ac == auto(p.d)
    ensures var p := After(steps, k, d, exec, auto); var q := After(steps, k + 1, d, exec, auto);
            if Wanted(steps, k, d, exec, auto) then
              var (d', out) := exec(p.d, steps[k].stmt);
              && q.d == d'
              && q.results[k] == (if out.Done? then Some(out.res) else None)
              && q.errors[k] == (if out.Failed? then Some(out.err) else None)
            else q.d == p.d && q.results[k] == None && q.errors[k] == None
  {
    var p := After(steps, k, d, exec, auto);
    assert After(steps, k + 1, d, exec, auto) == Turn(p, k, steps[k], exec, auto);
    if steps[k].cond.Some? {
      CondMeaning(steps[k].cond.value, p.results, p.errors, p.ac);
    }
    hide EvalCond, Safe, Hits, Holds, After;
    if Wanted(steps, k, d, exec, auto) {
      RunsStep(p, k, steps[k], exec, auto);
    }
  }

  lemma RunsStep<D, S>(p: Progress<D>, k: nat, step: Step<S>, exec: (D, S) -> (D, Outcome), auto: D -> bool)
    requires k < |p.results| == |p.errors| && !p.panicked && p.results[k].None? && p.errors[k].None?
    requires step.cond.Some? ==> EvalCond(step.cond.value, p.results, p.errors, p.ac) == Yes
    ensures var q := Turn(p, k, step, exec, auto); var (d', out) := exec(p.d, step.stmt);
            && q.d == d' && |q.results| == |q.errors| == |p.results|
            && q.results[k] == (if out.Done? then Some(out.res) else None)
            && q.errors[k] == (if out.Failed? then Some(out.err) else None)
  {
    hide EvalCond;
    var (d', out) := exec(p.d, step.stmt);
    match out
    case Done(res) =>
    case Failed(err) =>
  }

  /** A batch that has panicked stays so. */
  lemma {:induction false} NotYet<D, S>(steps: seq<Step<S>>, k: nat, d: D, exec: (D, S) -> (D, Outcome),
                                        auto: D -> bool)
    requires k <= |steps| && !After(steps, |steps|, d, exec, auto).panicked
    ensures !After(steps, k, d, exec, auto).panicked
    decreases |steps| - k
  {
    if k < |steps| {
      NotYet(steps, k + 1, d, exec, auto);
      hide EvalCond;
    }
  }

  // ---- When a batch panics ----

  /** Step `k` is reached and its condition reaches a negative index. */
  ghost predicate PanicsAt<D, S>(steps: seq<Step<S>>, k: nat, d: D, exec: (D, S) -> (D, Outcome), auto: D -> bool)
    requires k < |steps|
  {
    var p := After(steps, k, d, exec, auto);
    !p.panicked && steps[k].cond.Some? && !Safe(steps[k].cond.value, Hits(p.results), Hits(p.errors), p.ac)
  }

  /** A batch panics exactly if one of its steps does; everything is then as that step
      found it. */
  lemma {:induction false} BatchPanics<D, S>(steps: seq<Step<S>>, m: nat, d: D, exec: (D, S) -> (D, Outcome),
                                             auto: D -> bool)
    requires m <= |steps|
    ensures After(steps, m, d, exec, auto).panicked <==> exists k :: 0 <= k < m && PanicsAt(steps, k, d, exec, auto)
    ensures forall k :: 0 <= k < m && PanicsAt(steps, k, d, exec, auto) ==>
              After(steps, m, d, exec, auto) == After(steps, k, d, exec, auto).(panicked := true)
  {
    if m > 0 {
      BatchPanics(steps, m - 1, d, exec, auto);
      var p := After(steps, m - 1, d, exec, auto);
      if steps[m - 1].cond.Some? {
        CondMeaning(steps[m - 1].cond.value, p.results, p.errors, p.ac);
      }
      hide EvalCond, Safe, Hits;
      assert PanicsAt(steps, m - 1, d, exec, auto) <==>
               !p.panicked && After(steps, m, d, exec, auto).panicked;
    }
  }

  /** With non-negative indices throughout, no batch panics, whatever the outcomes. */
  lemma IndexedBatch<D, S>(steps: seq<Step<S>>, d: D, exec: (D, S) -> (D, Outcome), auto: D -> bool)
    requires forall step <- steps :: step.cond.Some? ==> Indexed(step.cond.value)
    ensures !After(steps, |steps|, d, exec, auto).panicked
  {
    BatchPanics(steps, |steps|, d, exec, auto);
    forall k | 0 <= k < |steps| ensures !PanicsAt(steps, k, d, exec, auto) {
      var p := After(steps, k, d, exec, auto);
      if steps[k].cond.Some? {
        assert steps[k] in steps;
        IndexedSafe(steps[k].cond.value, Hits(p.results), Hits(p.errors), p.ac);
      }
    }
  }
}
