/** The cursor stream (httpapi/hrana_cursor.go): the same batch, delivered as a line
    per entry while it runs, and the client's reading of it. */
module Cursor {
  import opened Basics
  import opened Batch

  datatype Entry =
    | Prelude(baton: string)
    | StepBegin(step: nat, cols: seq<Col>)
    | RowEntry(row: Row)
    | StepEnd(affected: int, lastInsert: Option<string>, truncated: bool)
    | StepError(step: nat, err: HError)

  function RowEntries(rows: seq<Row>): seq<Entry> {
    seq(|rows|, i requires 0 <= i < |rows| => RowEntry(rows[i]))
  }

  /** The entries of one step: none if it was skipped. */
  function EntriesOf(i: nat, res: Option<StmtResult>, err: Option<HError>): seq<Entry> {
    if err.Some? then [StepError(i, err.value)]
    else if res.None? then []
    else [StepBegin(i, res.value.cols)] + RowEntries(res.value.rows)
         + [StepEnd(res.value.affected, res.value.lastInsert, res.value.truncated)]
  }

  /** The entries of the first `k` steps of a batch's outcome. */
  function Stream(results: Results, errors: Errors, k: nat): seq<Entry>
    requires k <= |results| == |errors|
  {
    if k == 0 then [] else Stream(results, errors, k - 1) + EntriesOf(k - 1, results[k - 1], errors[k - 1])
  }

  // ---- Writing ----

  /** The response body. The client goes away after `lines` lines: a later write fails. */
  class Sink {
    var out: seq<Entry>
    const lines: nat

    constructor (lines: nat)
      ensures out == [] && this.lines == lines
    {
      out := [];
      this.lines := lines;
    }

    method Write(e: Entry) returns (ok: bool)
      requires |out| <= lines
      modifies this
      ensures |out| <= lines
      ensures ok == (|old(out)| < lines)
      ensures out == if ok then old(out) + [e] else old(out)
    {
      ok := |out| < lines;
      if ok {
        out := out + [e];
      }
    }
  }

  /** `out` is `all`, or the first `lines` entries of it, and which of the two `ok` says. */
  ghost predicate Sent(out: seq<Entry>, all: seq<Entry>, lines: nat, ok: bool) {
    out <= all && (if ok then out == all else |out| == lines)
  }

  method EmitRows(sink: Sink, rows: seq<Row>) returns (ok: bool)
    requires |sink.out| <= sink.lines
    modifies sink
    ensures |sink.out| <= sink.lines
    ensures Sent(sink.out, old(sink.out) + RowEntries(rows), sink.lines, ok)
  {
    ok := true;
    ghost var all := RowEntries(rows);
    for j := 0 to |rows|
      invariant |sink.out| <= sink.lines && ok
      invariant sink.out == old(sink.out) + all[..j]
    {
      ok := sink.Write(RowEntry(rows[j]));
      if !ok {
        return;
      }
      assert all[..j + 1] == all[..j] + [RowEntry(rows[j])];
    }
    assert all[..|rows|] == all;
  }

  /** The callback: one step's entries, stopping at the first failed write. */
  method Emit(sink: Sink, i: nat, out: Outcome) returns (ok: bool)
    requires |sink.out| <= sink.lines
    modifies sink
    ensures |sink.out| <= sink.lines
    ensures Sent(sink.out, old(sink.out) + Emitted(i, out), sink.lines, ok)
  {
    hide RowEntries;
    match out {
      case Failed(err) =>
        ok := sink.Write(StepError(i, err));
      case Done(res) =>
        ok := sink.Write(StepBegin(i, res.cols));
        if ok {
          ghost var begun := sink.out;
          ok := EmitRows(sink, res.rows);
          if ok {
            ok := sink.Write(StepEnd(res.affected, res.lastInsert, res.truncated));
          } else {
            SentMore(sink.out, begun + RowEntries(res.rows), old(sink.out) + Emitted(i, out), sink.lines);
          }
        }
    }
  }

  function Emitted(i: nat, out: Outcome): seq<Entry> {
    match out
    case Done(res) => EntriesOf(i, Some(res), None)
    case Failed(err) => EntriesOf(i, None, Some(err))
  }

  lemma {:induction false} StreamSame(r1: Results, e1: Errors, r2: Results, e2: Errors, k: nat)
    requires k <= |r1| == |e1| && k <= |r2| == |e2|
    requires forall i :: 0 <= i < k ==> r1[i] == r2[i] && e1[i] == e2[i]
    ensures Stream(r1, e1, k) == Stream(r2, e2, k)
  {
    if k > 0 {
      StreamSame(r1, e1, r2, e2, k - 1);
    }
  }

  lemma {:induction false} StreamPrefix(r: Results, e: Errors, k: nat, m: nat)
    requires k <= m <= |r| == |e|
    ensures Stream(r, e, k) <= Stream(r, e, m)
    decreases m
  {
    hide EntriesOf;
    if k < m {
      StreamPrefix(r, e, k, m - 1);
      assert Stream(r, e, m - 1) <= Stream(r, e, m);
    }
  }

  /** What a batch has sent after `k` steps is a prefix of what it sends in all. */
  lemma StreamGrows<D, S>(steps: seq<Step<S>>, k: nat, d: D, exec: (D, S) -> (D, Outcome), auto: D -> bool)
    requires k <= |steps|
    ensures var p := After(steps, k, d, exec, auto); var q := After(steps, |steps|, d, exec, auto);
            Stream(p.results, p.errors, k) <= Stream(q.results, q.errors, |steps|)
  {
    var p := After(steps, k, d, exec, auto);
    var q := After(steps, |steps|, d, exec, auto);
    forall i | 0 <= i < k ensures p.results[i] == q.results[i] && p.errors[i] == q.errors[i] {
      OutcomesFixed(steps, k, |steps|, i, d, exec, auto);
    }
    StreamSame(p.results, p.errors, q.results, q.errors, k);
    StreamPrefix(q.results, q.errors, k, |steps|);
  }

  /** One turn adds exactly its own step's entries. */
  lemma TurnStream<D, S>(steps: seq<Step<S>>, k: nat, d: D, exec: (D, S) -> (D, Outcome), auto: D -> bool)
    requires k < |steps|
    ensures var p := After(steps, k, d, exec, auto); var q := After(steps, k + 1, d, exec, auto);
            Stream(q.results, q.errors, k + 1) ==
            Stream(p.results, p.errors, k) + EntriesOf(k, q.results[k], q.errors[k])
  {
    var p := After(steps, k, d, exec, auto);
    var q := After(steps, k + 1, d, exec, auto);
    StreamSame(p.results, p.errors, q.results, q.errors, k);
  }

  /** Everything a cursor response holds once the first `k` steps are sent. */
  ghost function Body<D, S>(steps: seq<Step<S>>, k: nat, d: D, exec: (D, S) -> (D, Outcome), auto: D -> bool,
                            baton: string): seq<Entry>
    requires k <= |steps|
  {
    var p := After(steps, k, d, exec, auto);
    [Prelude(baton)] + Stream(p.results, p.errors, k)
  }

  lemma BodyGrows<D, S>(steps: seq<Step<S>>, k: nat, d: D, exec: (D, S) -> (D, Outcome), auto: D -> bool, baton: string)
    requires k < |steps|
    ensures var q := After(steps, k + 1, d, exec, auto);
            Body(steps, k + 1, d, exec, auto, baton) ==
            Body(steps, k, d, exec, auto, baton) + EntriesOf(k, q.results[k], q.errors[k])
    ensures Body(steps, k + 1, d, exec, auto, baton) <= Body(steps, |steps|, d, exec, auto, baton)
  {
    hide EntriesOf;
    TurnStream(steps, k, d, exec, auto);
    StreamGrows(steps, k + 1, d, exec, auto);
  }

  lemma SentMore(out: seq<Entry>, some: seq<Entry>, all: seq<Entry>, lines: nat)
    requires Sent(out, some, lines, false) && some <= all
    ensures Sent(out, all, lines, false)
  {
  }

  method EmitStep(sink: Sink, i: nat, res: Option<StmtResult>, err: Option<HError>) returns (ok: bool)
    requires |sink.out| <= sink.lines && (res.None? || err.None?)
    modifies sink
    ensures |sink.out| <= sink.lines
    ensures Sent(sink.out, old(sink.out) + EntriesOf(i, res, err), sink.lines, ok)
  {
    ok := true;
    if err.Some? {
      ok := Emit(sink, i, Failed(err.value));
    } else if res.Some? {
      ok := Emit(sink, i, Done(res.value));
    }
  }

  /** The cursor request: the prelude, then the batch with its entries written step by
      step. A failed write abandons the batch after `done` steps. Everything sent is a
      prefix of the stream of the whole batch, and all of it if no write failed. */
  method RunCursor<D, S>(steps: seq<Step<S>>, d0: D, exec: (D, S) -> (D, Outcome), auto: D -> bool,
                         baton: string, sink: Sink)
      returns (d: D, done: nat, ok: bool, panicked: bool)
    requires sink.out == []
    modifies sink
    ensures Sent(sink.out, Body(steps, |steps|, d0, exec, auto, baton), sink.lines, ok)
    ensures done <= |steps| && d == After(steps, done, d0, exec, auto).d && (ok ==> done == |steps|)
    ensures panicked == After(steps, done, d0, exec, auto).panicked
  {
    hide Stream, EntriesOf;
    d, done, panicked := d0, 0, false;
    ok := sink.Write(Prelude(baton));
    if !ok {
      return;
    }
    var p := Begun(|steps|, d0, auto);
    assert Body(steps, 0, d0, exec, auto, baton) == [Prelude(baton)] by { NothingYet(p.results, p.errors); }
    hide Body;
    while done < |steps|
      invariant 0 <= done <= |steps| && |sink.out| <= sink.lines && ok
      invariant p == After(steps, done, d0, exec, auto) && d == p.d && panicked == p.panicked
      invariant sink.out == Body(steps, done, d0, exec, auto, baton)
    {
      BodyGrows(steps, done, d0, exec, auto, baton);
      Progressed(steps, done + 1, d0, exec, auto);
      p := Turn(p, done, steps[done], exec, auto);
      d, panicked := p.d, p.panicked;
      done := done + 1;
      hide Turn;
      ok := EmitStep(sink, done - 1, p.results[done - 1], p.errors[done - 1]);
      if !ok {
        SentMore(sink.out, Body(steps, done, d0, exec, auto, baton), Body(steps, |steps|, d0, exec, auto, baton),
                 sink.lines);
        return;
      }
    }
  }

  lemma NothingYet(r: Results, e: Errors)
    requires |r| == |e|
    ensures Stream(r, e, 0) == []
  {
  }

  // ---- Reading ----

  /** The client's state: outcomes so far, the step being received, and the least step
      index still acceptable. */
  datatype Reading = Reading(results: Results, errors: Errors, open: Option<Partial>, next: nat)
  datatype Partial = Partial(step: nat, cols: seq<Col>, rows: seq<Row>)

  /** One line; `None` for a line that does not belong there. */
  function Read(r: Reading, e: Entry): Option<Reading> {
    match e
    case StepBegin(i, cols) =>
      if r.open.None? && r.next <= i < |r.results|
      then Some(r.(open := Some(Partial(i, cols, [])), next := i + 1)) else None
    case RowEntry(row) =>
      if r.open.Some? then Some(r.(open := Some(r.open.value.(rows := r.open.value.rows + [row])))) else None
    case StepEnd(affected, lastInsert, truncated) =>
      if r.open.Some? && r.open.value.step < |r.results| then
        var Partial(i, cols, rows) := r.open.value;
        Some(r.(open := None, results := r.results[i := Some(StmtResult(cols, rows, affected, lastInsert, truncated))]))
      else None
    case StepError(i, err) =>
      if r.open.None? && r.next <= i < |r.errors|
      then Some(r.(errors := r.errors[i := Some(err)], next := i + 1)) else None
    case Prelude(_) => None
  }

  function ReadAll(r: Reading, es: seq<Entry>): Option<Reading> {
    if |es| == 0 then Some(r)
    else
      var most := ReadAll(r, es[..|es| - 1]);
      if most.None? then None else Read(most.value, es[|es| - 1])
  }

  function Blank(n: nat): Reading {
    Reading(seq(n, i => None), seq(n, i => None), None, 0)
  }

  function Parse(lines: seq<Entry>, n: nat): Option<(Results, Errors)> {
    if |lines| == 0 || !lines[0].Prelude? then None
    else
      var r := ReadAll(Blank(n), lines[1..]);
      if r.None? || r.value.open.Some? then None else Some((r.value.results, r.value.errors))
  }

  lemma {:induction false} ReadConcat(r: Reading, a: seq<Entry>, b: seq<Entry>)
    ensures ReadAll(r, a + b) == (if ReadAll(r, a).None? then None else ReadAll(ReadAll(r, a).value, b))
    decreases |b|
  {
    if |b| == 0 {
      assert a + b == a;
    } else {
      ReadConcat(r, a, b[..|b| - 1]);
      assert (a + b)[..|a + b| - 1] == a + b[..|b| - 1];
    }
  }

  lemma {:induction false} ReadRows(r: Reading, rows: seq<Row>)
    requires r.open.Some?
    ensures ReadAll(r, RowEntries(rows)) == Some(r.(open := Some(r.open.value.(rows := r.open.value.rows + rows))))
    decreases |rows|
  {
    if |rows| == 0 {
      assert r.open.value.rows + rows == r.open.value.rows;
    } else {
      var most := rows[..|rows| - 1];
      ReadRows(r, most);
      assert RowEntries(rows)[..|rows| - 1] == RowEntries(most);
      assert r.open.value.rows + most + [rows[|rows| - 1]] == r.open.value.rows + rows;
    }
  }

  /** A step's entries are read as that step's outcome. */
  lemma ReadStep(r: Reading, i: nat, res: Option<StmtResult>, err: Option<HError>)
    requires r.open.None? && r.next <= i < |r.results| == |r.errors| && (res.None? || err.None?)
    requires r.results[i].None? && r.errors[i].None?
    ensures ReadAll(r, EntriesOf(i, res, err)) ==
            Some(r.(results := r.results[i := res], errors := r.errors[i := err],
                    next := if res.Some? || err.Some? then i + 1 else r.next))
  {
    hide ReadAll;
    if err.Some? {
      ReadOne(r, StepError(i, err.value));
      assert r.results[i := res] == r.results;
    } else if res.Some? {
      ReadDone(r, i, res.value);
      assert r.errors[i := err] == r.errors;
    } else {
      ReadNone(r);
      assert r.results[i := res] == r.results && r.errors[i := err] == r.errors;
    }
  }

  lemma ReadNone(r: Reading)
    ensures ReadAll(r, []) == Some(r)
  {
  }

  lemma ReadOne(r: Reading, e: Entry)
    ensures ReadAll(r, [e]) == Read(r, e)
  {
    assert [e][..0] == [];
  }

  lemma ReadDone(r: Reading, i: nat, x: StmtResult)
    requires r.open.None? && r.next <= i < |r.results|
    ensures ReadAll(r, EntriesOf(i, Some(x), None)) == Some(r.(results := r.results[i := Some(x)], next := i + 1))
  {
    hide ReadAll, RowEntries;
    var first, last := StepBegin(i, x.cols), StepEnd(x.affected, x.lastInsert, x.truncated);
    var started := r.(open := Some(Partial(i, x.cols, [])), next := i + 1);
    ReadOne(r, first);
    ReadConcat(r, [first], RowEntries(x.rows));
    ReadRows(started, x.rows);
    ReadConcat(r, [first] + RowEntries(x.rows), [last]);
    ReadOne(started.(open := Some(Partial(i, x.cols, x.rows))), last);
    assert [] + x.rows == x.rows;
  }

  /** The outcomes of the first `k` steps have been read, and no others. */
  ghost predicate ReadUpTo(r: Reading, results: Results, errors: Errors, k: nat) {
    && r.open.None? && r.next <= k && |r.results| == |r.errors| == |results| == |errors|
    && (forall i :: 0 <= i < |results| ==>
          r.results[i] == (if i < k then results[i] else None) && r.errors[i] == (if i < k then errors[i] else None))
  }

  lemma {:induction false} ReadStream(results: Results, errors: Errors, k: nat)
    requires k <= |results| == |errors|
    requires forall i :: 0 <= i < |results| ==> results[i].None? || errors[i].None?
    ensures var r := ReadAll(Blank(|results|), Stream(results, errors, k));
            r.Some? && ReadUpTo(r.value, results, errors, k)
  {
    hide EntriesOf, Blank, ReadUpTo, ReadAll, Stream;
    if k == 0 {
      ReadNothing(results, errors);
    } else {
      StreamStep(results, errors, k);
      ReadStream(results, errors, k - 1);
      ReadConcat(Blank(|results|), Stream(results, errors, k - 1), EntriesOf(k - 1, results[k - 1], errors[k - 1]));
      ReadMore(ReadAll(Blank(|results|), Stream(results, errors, k - 1)).value, results, errors, k - 1);
    }
  }

  lemma ReadNothing(results: Results, errors: Errors)
    requires |results| == |errors|
    ensures Stream(results, errors, 0) == [] && ReadAll(Blank(|results|), []) == Some(Blank(|results|))
    ensures ReadUpTo(Blank(|results|), results, errors, 0)
  {
  }

  lemma StreamStep(results: Results, errors: Errors, k: nat)
    requires 0 < k <= |results| == |errors|
    ensures Stream(results, errors, k) ==
            Stream(results, errors, k - 1) + EntriesOf(k - 1, results[k - 1], errors[k - 1])
  {
  }

  lemma ReadMore(r: Reading, results: Results, errors: Errors, k: nat)
    requires ReadUpTo(r, results, errors, k) && k < |results| && (results[k].None? || errors[k].None?)
    ensures var q := ReadAll(r, EntriesOf(k, results[k], errors[k]));
            q.Some? && ReadUpTo(q.value, results, errors, k + 1)
  {
    hide ReadAll, EntriesOf;
    ReadStep(r, k, results[k], errors[k]);
  }

  /** The pipeline's answer to the batch: none at all after a panic. */
  function Reply<D>(p: Progress<D>): Option<(Results, Errors)> {
    if p.panicked then None else Some((p.results, p.errors))
  }

  /** For every batch, engine and starting state: parsing the complete cursor stream
      gives back exactly the step results and step errors of the pipeline batch. The
      parser accepts only well-bracketed streams with strictly increasing steps. */
  lemma CursorEqualsPipeline<D, S>(steps: seq<Step<S>>, d: D, exec: (D, S) -> (D, Outcome), auto: D -> bool,
                                   baton: string)
    ensures var p := After(steps, |steps|, d, exec, auto);
            !p.panicked ==> Parse(Body(steps, |steps|, d, exec, auto, baton), |steps|) == Reply(p)
  {
    StreamParses(steps, d, exec, auto, baton);
  }

  /** A batch that panics has no pipeline answer, while its cursor stream is cut off
      before the step that panicked: it holds the outcomes of the earlier steps, and
      reads as a batch whose remaining steps were skipped. */
  lemma CursorAfterPanic<D, S>(steps: seq<Step<S>>, k: nat, d: D, exec: (D, S) -> (D, Outcome), auto: D -> bool,
                               baton: string)
    requires k < |steps| && PanicsAt(steps, k, d, exec, auto)
    ensures Reply(After(steps, |steps|, d, exec, auto)) == None
    ensures Body(steps, |steps|, d, exec, auto, baton) == Body(steps, k, d, exec, auto, baton)
    ensures var p := After(steps, k, d, exec, auto);
            Parse(Body(steps, k, d, exec, auto, baton), |steps|) == Some((p.results, p.errors))
  {
    hide PanicsAt, Parse;
    var p := After(steps, k, d, exec, auto);
    Progressed(steps, k, d, exec, auto);
    BatchPanics(steps, |steps|, d, exec, auto);
    StreamPadded(p.results, p.errors, k, |steps|);
    StreamParses(steps, d, exec, auto, baton);
  }

  /** Steps without an outcome add nothing to the stream. */
  lemma {:induction false} StreamPadded(r: Results, e: Errors, k: nat, n: nat)
    requires k <= n <= |r| == |e| && forall i :: k <= i < n ==> r[i].None? && e[i].None?
    ensures Stream(r, e, n) == Stream(r, e, k)
    decreases n
  {
    hide EntriesOf;
    if k < n {
      StreamPadded(r, e, k, n - 1);
      assert r[n - 1] == None && e[n - 1] == None;
      NoEntries(n - 1);
    }
  }

  lemma NoEntries(i: nat)
    ensures EntriesOf(i, None, None) == []
  {
  }

  lemma StreamParses<D, S>(steps: seq<Step<S>>, d: D, exec: (D, S) -> (D, Outcome), auto: D -> bool, baton: string)
    ensures var p := After(steps, |steps|, d, exec, auto);
            Parse(Body(steps, |steps|, d, exec, auto, baton), |steps|) == Some((p.results, p.errors))
  {
    var p := After(steps, |steps|, d, exec, auto);
    Progressed(steps, |steps|, d, exec, auto);
    var lines := [Prelude(baton)] + Stream(p.results, p.errors, |steps|);
    assert lines[1..] == Stream(p.results, p.errors, |steps|);
    ReadStream(p.results, p.errors, |steps|);
    var r := ReadAll(Blank(|steps|), lines[1..]).value;
    assert r.results == p.results && r.errors == p.errors;
  }
}

/** The batch shape clients use for an atomic transaction, over an abstract
    transactional connection (httpapi/hrana.go). */
module AtomicBatch {
  import opened Basics
  import opened Batch

  /** What is durable, and the private copy of an open transaction. */
  datatype Conn<T> = Conn(committed: T, tx: Option<T>)

  datatype Stmt<!T> = Begin | Work(effect: T -> T) | Commit | Rollback

  /** Any statement may fail; a failure may also abort the open transaction. */
  datatype Fate = Succeeds | Fails | Aborts

  const NO_ROWS := Done(StmtResult([], [], 0, None, false))
  const REFUSED := Failed(HError("", None))

  function Exec<T>(c: Conn<T>, s: (Stmt<T>, Fate)): (Conn<T>, Outcome) {
    match s.0
    case Begin => if s.1.Succeeds? && c.tx.None? then (c.(tx := Some(c.committed)), NO_ROWS) else (c, REFUSED)
    case Work(f) =>
      if s.1.Succeeds? then
        (if c.tx.Some? then c.(tx := Some(f(c.tx.value))) else c.(committed := f(c.committed)), NO_ROWS)
      else (if s.1.Aborts? then c.(tx := None) else c, REFUSED)
    case Commit =>
      if s.1.Succeeds? && c.tx.Some? then (Conn(c.tx.value, None), NO_ROWS)
      else (if s.1.Aborts? then c.(tx := None) else c, REFUSED)
    case Rollback => if s.1.Succeeds? && c.tx.Some? then (c.(tx := None), NO_ROWS) else (c, REFUSED)
  }

  function InAutocommit<T>(c: Conn<T>): bool {
    c.tx.None?
  }

  /** BEGIN; each statement if the previous step succeeded; COMMIT if the last did;
      ROLLBACK unless COMMIT did. `fates` says what becomes of each. */
  function Shape<T>(work: seq<T -> T>, fates: seq<Fate>): (steps: seq<Step<(Stmt<T>, Fate)>>)
    requires |fates| == |work| + 3
    ensures |steps| == |work| + 3
  {
    var n := |work|;
    seq(n + 3, i requires 0 <= i < n + 3 =>
      if i == 0 then Step(None, (Begin, fates[0]))
      else if i <= n then Step(Some(OkAt(Some(i - 1))), (Work(work[i - 1]), fates[i]))
      else if i == n + 1 then Step(Some(OkAt(Some(n))), (Commit, fates[n + 1]))
      else Step(Some(Not(Some(OkAt(Some(n + 1))))), (Rollback, fates[n + 2])))
  }

  function AllEffects<T>(work: seq<T -> T>, k: nat, t: T): T
    requires k <= |work|
  {
    if k == 0 then t else work[k - 1](AllEffects(work, k - 1, t))
  }

  /** Up to the last statement nothing durable changes, and while every step so far
      succeeded the transaction holds exactly the effects so far. */
  lemma {:induction false} Accumulates<T>(work: seq<T -> T>, fates: seq<Fate>, c: Conn<T>, k: nat)
    requires |fates| == |work| + 3 && 1 <= k <= |work| + 1
    ensures var p := After(Shape(work, fates), k, c, Exec, InAutocommit);
            && !p.panicked && p.d.committed == c.committed
            && (forall i :: k <= i < |work| + 3 ==> p.results[i].None?)
            && (p.results[k - 1].Some? ==> p.d.tx == Some(AllEffects(work, k - 1, c.committed)))
  {
    if k > 1 {
      Accumulates(work, fates, c, k - 1);
    }
  }

  /** COMMIT is the one step that changes anything durable. */
  lemma CommitTurn<T>(work: seq<T -> T>, fates: seq<Fate>, c: Conn<T>)
    requires |fates| == |work| + 3
    ensures var n := |work|;
            var p := After(Shape(work, fates), n + 2, c, Exec, InAutocommit);
            && !p.panicked && p.results[n + 2].None?
            && p.d.committed == (if p.results[n + 1].Some? then AllEffects(work, n, c.committed) else c.committed)
            && (p.results[n + 1].Some? ==> p.d.tx.None?)
  {
    hide AllEffects;
    Accumulates(work, fates, c, |work| + 1);
  }

  /** All or nothing, for batches of any length, from any connection state and however
      the statements fail: the durable state ends with all effects if COMMIT succeeded
      and unchanged otherwise. */
  lemma AllOrNothing<T>(work: seq<T -> T>, fates: seq<Fate>, c: Conn<T>)
    requires |fates| == |work| + 3
    ensures var n := |work|;
            var p := After(Shape(work, fates), n + 3, c, Exec, InAutocommit);
            && !p.panicked
            && p.d.committed == (if p.results[n + 1].Some? then AllEffects(work, n, c.committed) else c.committed)
            && (p.results[n + 1].Some? || p.results[n + 2].Some? ==> p.d.tx.None?)
  {
    hide AllEffects;
    var n := |work|;
    CommitTurn(work, fates, c);
    var p := After(Shape(work, fates), n + 2, c, Exec, InAutocommit);
    assert EvalCond(OkAt(Some(n + 1)), p.results, p.errors, p.ac) == Of(p.results[n + 1].Some?);
  }

  /** With no failing statement the batch, started outside a transaction, commits. */
  lemma {:induction false} CommitsWhenAllSucceed<T>(work: seq<T -> T>, fates: seq<Fate>, c: Conn<T>, k: nat)
    requires |fates| == |work| + 3 && c.tx.None? && 1 <= k <= |work| + 2
    requires forall i :: 0 <= i <= |work| + 1 ==> fates[i].Succeeds?
    ensures After(Shape(work, fates), k, c, Exec, InAutocommit).results[k - 1].Some?
  {
    if k > 1 {
      CommitsWhenAllSucceed(work, fates, c, k - 1);
      Accumulates(work, fates, c, k - 1);
    }
  }
}
