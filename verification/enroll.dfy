/** Self-service enrollment (enroll/enroll.go) over the tables it keeps in the meta
    store (meta/meta.go). */
module Enroll {
  import opened Basics
  import opened Gates

  /** A canonical key line with the principal name derived from its hash. */
  datatype Key = Key(line: string, principal: Principal)
  datatype CodeHash = CodeHash(hex: string)
  datatype Code = Code(expires: int, used: bool)

  /** The enrolled principals and the single-use enrollment codes. */
  datatype Tables = Tables(rows: map<Principal, Key>, codes: map<CodeHash, Code>)

  predicate HasKey(tb: Tables, key: Key) {
    exists n <- tb.rows :: tb.rows[n] == key
  }

  /** Insert; both the name and the key are unique. */
  function PutEnrolled(tb: Tables, key: Key): Option<Tables> {
    if key.principal in tb.rows || HasKey(tb, key) then None
    else Some(tb.(rows := tb.rows[key.principal := key]))
  }

  function DeleteEnrolled(tb: Tables, name: Principal): (Tables, bool) {
    (tb.(rows := tb.rows - {name}), name in tb.rows)
  }

  predicate CodeValid(tb: Tables, h: CodeHash, now: int) {
    h in tb.codes && !tb.codes[h].used && tb.codes[h].expires > now
  }

  function Consume(tb: Tables, h: CodeHash, now: int): (Tables, bool) {
    if CodeValid(tb, h, now) then (tb.(codes := tb.codes[h := tb.codes[h].(used := true)]), true) else (tb, false)
  }

  function ReleaseCode(tb: Tables, h: CodeHash): Tables {
    if h in tb.codes then tb.(codes := tb.codes[h := tb.codes[h].(used := false)]) else tb
  }

  function CollectCodes(tb: Tables, now: int): Tables {
    tb.(codes := map h | h in tb.codes && !tb.codes[h].used && tb.codes[h].expires > now :: tb.codes[h])
  }

  /** The meta store: each operation is one atomic statement. */
  class MetaStore {
    var rows: map<Principal, Key>
    var codes: map<CodeHash, Code>

    ghost function Contents(): Tables
      reads this
    {
      Tables(rows, codes)
    }

    method Insert(key: Key) returns (ok: bool)
      modifies this
      ensures ok == PutEnrolled(old(Contents()), key).Some?
      ensures Contents() == (if ok then PutEnrolled(old(Contents()), key).value else old(Contents()))
    {
      ok := key.principal !in rows && forall n <- rows :: rows[n] != key;
      if ok {
        rows := rows[key.principal := key];
      }
    }

    method Delete(name: Principal) returns (existed: bool)
      modifies this
      ensures (Contents(), existed) == DeleteEnrolled(old(Contents()), name)
    {
      existed := name in rows;
      rows := rows - {name};
    }

    method UseCode(h: CodeHash, now: int) returns (won: bool)
      modifies this
      ensures (Contents(), won) == Consume(old(Contents()), h, now)
    {
      won := h in codes && !codes[h].used && codes[h].expires > now;
      if won {
        codes := codes[h := codes[h].(used := true)];
      }
    }

    method ReturnCode(h: CodeHash)
      modifies this
      ensures Contents() == ReleaseCode(old(Contents()), h)
    {
      if h in codes {
        codes := codes[h := codes[h].(used := false)];
      }
    }
  }

  /** The presented token: none needed, a static shared one, a single-use code, or
      anything else. */
  datatype Presented = NotRequired | Static | Single(h: CodeHash) | Worthless

  datatype EnrollResult = Existing | BadToken | AtCapacity | StoreFailed | Enrolled

  /** The store operations that may report an error. */
  datatype StoreOp = LookUpOp | CheckOp | ConsumeOp | InsertOp | ReturnOp

  class Service {
    const store: MetaStore
    const max: int
    var count: int

    constructor (store: MetaStore, max: int, count: int)
      ensures this.store == store && this.max == max && this.count == count
    {
      this.store, this.max, this.count := store, max, count;
    }

    /** The locked section of an enrollment when nobody interferes and the operations in
        `faults` fail: it either enrolls completely (row, spent code, count) or leaves
        everything as it was, save that a code stays spent if the row is refused and
        the code cannot be given back. */
    method EnrollLocked(key: Key, token: Presented, now: int, faults: set<StoreOp>) returns (r: EnrollResult)
      modifies this, store
      ensures var was := old(store.Contents());
              r == if LookUpOp in faults then StoreFailed
                   else if HasKey(was, key) then Existing
                   else if token.Worthless? || (token.Single? && (CheckOp in faults || !CodeValid(was, token.h, now)))
                   then BadToken
                   else if max > 0 && old(count) >= max then AtCapacity
                   else if token.Single? && ConsumeOp in faults then StoreFailed
                   else if InsertOp in faults || key.principal in was.rows then StoreFailed
                   else Enrolled
      ensures r == Enrolled ==> store.rows == old(store.rows)[key.principal := key] && count == old(count) + 1
      ensures r != Enrolled ==> store.rows == old(store.rows) && count == old(count)
      ensures store.codes == (if Spends(r, token, faults)
                              then Consume(old(store.Contents()), token.h, now).0.codes else old(store.codes))
      ensures 0 < max && old(count) <= max ==> count <= max
    {
      if LookUpOp in faults {
        return StoreFailed;
      }
      if exists n <- store.rows :: store.rows[n] == key {
        return Existing;
      }
      if token.Worthless? || (token.Single? && CheckOp in faults) {
        return BadToken;
      }
      if token.Single? &&
         !(token.h in store.codes && !store.codes[token.h].used && store.codes[token.h].expires > now) {
        return BadToken;
      }
      if max > 0 && count >= max {
        return AtCapacity;
      }
      if token.Single? {
        if ConsumeOp in faults {
          return StoreFailed;
        }
        var _ := store.UseCode(token.h, now);
      }
      var ok := false;
      if InsertOp !in faults {
        ok := store.Insert(key);
      }
      if !ok {
        if token.Single? && ReturnOp !in faults {
          store.ReturnCode(token.h);
          assert store.codes == old(store.codes);
        }
        return StoreFailed;
      }
      count := count + 1;
      r := Enrolled;
    }

    /** A single-use code is spent by an enrollment, or by one whose row was refused and
        whose code could not be given back. */
    ghost predicate Spends(r: EnrollResult, token: Presented, faults: set<StoreOp>) {
      token.Single? &&
      (r == Enrolled ||
       (r == StoreFailed && !(LookUpOp in faults || ConsumeOp in faults) && ReturnOp in faults))
    }
  }
}
