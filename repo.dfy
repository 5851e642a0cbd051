/**
 * The outbox store: the `message_box` table as a map from id to row, with the
 * three statements the service issues (insert, filtered select, partial update).
 * Database failures come from `driver`, which gives the outcome of the k-th
 * call into the database driver.
 */
module Repo {
  import opened Results
  import opened Errors
  import opened Model

  /** The values `Create` inserts; id, status and timestamps are the store's. */
  datatype CreateMessageIn = CreateMessageIn(
    bizId: string,
    message: string,
    sourceRequest: string,
    sourceType: int,
    destinationType: int)

  /** The row `Create` inserts under `id` at time `now`. */
  function NewRow(id: int, req: CreateMessageIn, now: int): Row
  {
    Row(id, req.bizId, Pending, req.message, req.sourceRequest,
        req.sourceType, req.destinationType, now, None, None)
  }

  /** The outcome of `Create`: the table, id counter and driver-call count after it, and what it returns. */
  datatype Insertion = Insertion(
    rows: map<int, Row>,
    nextId: int,
    driverCalls: nat,
    record: Option<MessageBox>,
    err: Outcome<Error>)

  /**
   * `Create` on table `rows`: the INSERT is driver call `driverCalls`, reading
   * the new id back is the next one. A failed INSERT changes nothing; once it
   * succeeds the row is in the table under `nextId`, even if the id read fails.
   */
  function Insert(rows: map<int, Row>, nextId: int, driverCalls: nat, driver: nat -> Outcome<string>,
                  req: CreateMessageIn, now: int): (r: Insertion)
    ensures r.record.None? <==> r.err.Fail?
    ensures driver(driverCalls).Fail? ==>
      && r.rows == rows && r.nextId == nextId && r.driverCalls == driverCalls + 1
      && r.err == Fail(Db(driver(driverCalls).error))
    ensures driver(driverCalls).Pass? ==>
      && r.rows.Keys == rows.Keys + {nextId}
      && r.rows[nextId] == NewRow(nextId, req, now)
      && (forall id :: id in rows && id != nextId ==> r.rows[id] == rows[id])
      && r.nextId == nextId + 1 && r.driverCalls == driverCalls + 2
      && (driver(driverCalls + 1).Fail? ==> r.err == Fail(Db(driver(driverCalls + 1).error)))
      && (driver(driverCalls + 1).Pass? ==> r.err == Pass)
    ensures r.record.Some? ==> r.record.value == Record(NewRow(nextId, req, now))
  {
    var exec := driver(driverCalls);
    if exec.Fail? then Insertion(rows, nextId, driverCalls + 1, None, Fail(Db(exec.error)))
    else
      var rows' := rows[nextId := NewRow(nextId, req, now)];
      var lastId := driver(driverCalls + 1);
      if lastId.Fail? then Insertion(rows', nextId + 1, driverCalls + 2, None, Fail(Db(lastId.error)))
      else Insertion(rows', nextId + 1, driverCalls + 2, Some(Record(NewRow(nextId, req, now))), Pass)
  }

  /** The columns an update may name (the keys of `UpdateByID`'s `data`); `None` leaves a column alone. */
  datatype Patch = Patch(status: Option<Status>, lastSentAt: Option<int>, lastError: Option<string>)

  /** The columns no update can reach. */
  function Identity(r: Row): (string, string, string, int, int, int, int)
  {
    (r.bizId, r.message, r.sourceRequest, r.sourceType, r.destinationType, r.createdAt, r.id)
  }

  /** A row after a partial update. */
  function ApplyPatch(r: Row, p: Patch): (r': Row)
    ensures Identity(r') == Identity(r)
    ensures p.status.Some? ==> r'.status == p.status.value
    ensures p.status.None? ==> r'.status == r.status
    ensures p.lastSentAt.Some? ==> r'.lastSentAt == p.lastSentAt
    ensures p.lastSentAt.None? ==> r'.lastSentAt == r.lastSentAt
    ensures p.lastError.Some? ==> r'.lastError == p.lastError
    ensures p.lastError.None? ==> r'.lastError == r.lastError
  {
    var r1 := match p.status case Some(s) => r.(status := s) case None => r;
    var r2 := match p.lastSentAt case Some(_) => r1.(lastSentAt := p.lastSentAt) case None => r1;
    match p.lastError case Some(_) => r2.(lastError := p.lastError) case None => r2
  }

  /** The table after `UPDATE message_box SET <p> WHERE id = <id>`. */
  function UpdateTable(t: map<int, Row>, id: int, p: Patch): (t': map<int, Row>)
    ensures t'.Keys == t.Keys
    ensures forall k :: k in t && k != id ==> t'[k] == t[k]
    ensures id in t ==> t'[id] == ApplyPatch(t[id], p)
    ensures id !in t ==> t' == t
  {
    if id in t then t[id := ApplyPatch(t[id], p)] else t
  }

  /** Applying the same partial update twice gives the table applying it once gives. */
  lemma UpdateIdempotent(t: map<int, Row>, id: int, p: Patch)
    ensures UpdateTable(UpdateTable(t, id, p), id, p) == UpdateTable(t, id, p)
  {
    if id in t {
      var once := UpdateTable(t, id, p);
      assert ApplyPatch(once[id], p) == once[id];
    }
  }

  /** A row the retry sweep picks up: still Pending and created strictly before `cutoff`. */
  predicate IsStuck(r: Row, cutoff: int)
  {
    r.status == Pending && r.createdAt < cutoff
  }

  /**
   * `batch` is an answer to `ListFailedBefore(cutoff)` over table `t`: the records
   * of exactly the stuck rows, each once, in an order the store chooses.
   */
  ghost predicate IsListing(t: map<int, Row>, cutoff: int, batch: seq<MessageBox>)
  {
    && (forall i :: 0 <= i < |batch| ==>
          batch[i].id in t && batch[i] == Record(t[batch[i].id]) && IsStuck(t[batch[i].id], cutoff))
    && (forall i, j :: 0 <= i < j < |batch| ==> batch[i].id != batch[j].id)
    && (forall id :: id in t && IsStuck(t[id], cutoff) ==>
          exists i :: 0 <= i < |batch| && batch[i].id == id)
  }

  /** A row created less than `cutoff` ago, or a Sent row, is never listed. */
  lemma ListingExcludes(t: map<int, Row>, cutoff: int, batch: seq<MessageBox>, id: int)
    requires IsListing(t, cutoff, batch)
    requires id in t && (t[id].status == Sent || t[id].createdAt >= cutoff)
    ensures forall i :: 0 <= i < |batch| ==> batch[i].id != id
  {
  }

  /** Go's conversion `int32(x)`: two's-complement wrap-around to 32 bits. */
  function Int32Of(x: int): (r: int)
    ensures -0x8000_0000 <= r < 0x8000_0000
    ensures -0x8000_0000 <= x < 0x8000_0000 ==> r == x
    ensures (x - r) % 0x1_0000_0000 == 0
  {
    (x + 0x8000_0000) % 0x1_0000_0000 - 0x8000_0000
  }

  /**
   * As written, `Create` narrows the inserted row id to int32. The row with id
   * 2^31 comes back as -2^31, and the status update keyed by that number
   * reaches no row, so the message is never marked Sent.
   */
  lemma NarrowedIdMissesRow(t: map<int, Row>, p: Patch)
    requires 0x8000_0000 in t
    requires forall id :: id in t ==> id >= 1
    ensures Int32Of(0x8000_0000) == -0x8000_0000 != 0x8000_0000
    ensures UpdateTable(t, Int32Of(0x8000_0000), p) == t
  {
  }

  lemma HasElement(s: set<int>)
    requires s != {}
    ensures exists x :: x in s
  {
    if forall x :: x !in s {
      assert false;
    }
  }

  class MessageBoxRepo {
    /** The table, keyed by id. */
    var rows: map<int, Row>
    /** The id the next insert receives (the table is never deleted from). */
    var nextId: int
    /** How many driver calls have been made. */
    var driverCalls: nat
    /** The outcome of each driver call, by its position. */
    const driver: nat -> Outcome<string>

    ghost predicate Valid()
      reads this
    {
      1 <= nextId && forall id :: id in rows ==> 1 <= id < nextId && rows[id].id == id
    }

    constructor (driver: nat -> Outcome<string>)
      ensures Valid()
      ensures rows == map[] && nextId == 1 && driverCalls == 0 && this.driver == driver
    {
      rows := map[];
      nextId := 1;
      driverCalls := 0;
      this.driver := driver;
    }

    /** One call into the driver: its outcome is the next one `driver` gives. */
    method Call() returns (r: Outcome<string>)
      modifies this`driverCalls
      ensures driverCalls == old(driverCalls) + 1
      ensures r == driver(old(driverCalls))
    {
      r := driver(driverCalls);
      driverCalls := driverCalls + 1;
    }

    /**
     * INSERT a Pending row stamped `now` under a fresh id, then read that id
     * back. An insert that fails leaves the table as it was; a failing id read
     * after a successful insert leaves the row in place and still reports the error.
     */
    method Create(req: CreateMessageIn, now: int) returns (m: Option<MessageBox>, err: Outcome<Error>)
      requires Valid()
      modifies this
      ensures Valid()
      ensures old(nextId) !in old(rows)
      ensures Insertion(rows, nextId, driverCalls, m, err)
              == Insert(old(rows), old(nextId), old(driverCalls), driver, req, now)
    {
      var exec := Call();
      if exec.Fail? {
        return None, Fail(Db(exec.error));
      }
      var id := nextId;
      rows := rows[id := NewRow(id, req, now)];
      nextId := nextId + 1;
      var lastId := Call();
      if lastId.Fail? {
        return None, Fail(Db(lastId.error));
      }
      m, err := Some(Record(rows[id])), Pass;
    }

    /** The SELECT itself: the records of the stuck rows, in an order of the store's choosing. */
    method SelectStuck(cutoff: int) returns (batch: seq<MessageBox>)
      requires Valid()
      ensures IsListing(rows, cutoff, batch)
    {
      var todo := rows.Keys;
      batch := [];
      while todo != {}
        invariant todo <= rows.Keys
        invariant forall i :: 0 <= i < |batch| ==>
          batch[i].id in rows && batch[i].id !in todo &&
          batch[i] == Record(rows[batch[i].id]) && IsStuck(rows[batch[i].id], cutoff)
        invariant forall i, j :: 0 <= i < j < |batch| ==> batch[i].id != batch[j].id
        invariant forall id :: id in rows && id !in todo && IsStuck(rows[id], cutoff) ==>
          exists i :: 0 <= i < |batch| && batch[i].id == id
        decreases todo
      {
        HasElement(todo);
        var id :| id in todo;
        if IsStuck(rows[id], cutoff) {
          ghost var prev := batch;
          batch := batch + [Record(rows[id])];
          assert forall i :: 0 <= i < |prev| ==> batch[i] == prev[i];
          assert batch[|batch| - 1].id == id;
        }
        todo := todo - {id};
      }
    }

    /** Pending rows created strictly before `cutoff`; the table is not changed. */
    method ListFailedBefore(cutoff: int) returns (batch: seq<MessageBox>, err: Outcome<Error>)
      requires Valid()
      modifies this`driverCalls
      ensures driverCalls == old(driverCalls) + 1
      ensures driver(old(driverCalls)).Fail? ==>
        batch == [] && err == Fail(Db(driver(old(driverCalls)).error))
      ensures driver(old(driverCalls)).Pass? ==> err == Pass && IsListing(rows, cutoff, batch)
    {
      var r := Call();
      if r.Fail? {
        return [], Fail(Db(r.error));
      }
      batch := SelectStuck(cutoff);
      err := Pass;
    }

    /** UPDATE the columns `p` names on the row with this id; no check that the row exists. */
    method UpdateByID(id: int, p: Patch) returns (err: Outcome<Error>)
      requires Valid()
      modifies this`rows, this`driverCalls
      ensures Valid()
      ensures driverCalls == old(driverCalls) + 1
      ensures driver(old(driverCalls)).Fail? ==>
        rows == old(rows) && err == Fail(Db(driver(old(driverCalls)).error))
      ensures driver(old(driverCalls)).Pass? ==> rows == UpdateTable(old(rows), id, p) && err == Pass
    {
      var r := Call();
      if r.Fail? {
        return Fail(Db(r.error));
      }
      rows := UpdateTable(rows, id, p);
      err := Pass;
    }
  }
}
