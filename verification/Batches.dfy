/** The write batch: a transaction that commits itself when it becomes too big. */
module Batches {
  import opened Common

  datatype Op = Put(key: Bytes, value: Bytes) | Remove(key: Bytes)

  /** A database with some writes done in order. */
  function Write(db: map<Bytes, Bytes>, op: Op): map<Bytes, Bytes> {
    match op
    case Put(key, value) => db[key := value]
    case Remove(key) => db - {key}
  }

  function WriteAll(db: map<Bytes, Bytes>, ops: seq<Op>): map<Bytes, Bytes> {
    if ops == [] then db else Write(WriteAll(db, ops[..|ops| - 1]), ops[|ops| - 1])
  }

  /** What a transaction that holds some writes sees: the last write to each key. */
  function Seen(db: map<Bytes, Bytes>, pending: map<Bytes, Option<Bytes>>): map<Bytes, Bytes> {
    map k | k in db.Keys + pending.Keys && (k in pending ==> pending[k].Some?) ::
      if k in pending then pending[k].value else db[k]
  }

  function Hold(pending: map<Bytes, Option<Bytes>>, op: Op): map<Bytes, Option<Bytes>> {
    match op
    case Put(key, value) => pending[key := Some(value)]
    case Remove(key) => pending[key := None]
  }

  lemma HoldIsWrite(db: map<Bytes, Bytes>, pending: map<Bytes, Option<Bytes>>, op: Op)
    ensures Seen(db, Hold(pending, op)) == Write(Seen(db, pending), op)
  {
  }

  lemma WriteIs(db: map<Bytes, Bytes>, op: Op)
    ensures Write(db, op) == if op.Put? then db[op.key := op.value] else db - {op.key}
  {
  }

  function ReadKey(db: map<Bytes, Bytes>, key: Bytes): Option<Bytes> {
    if key in db then Some(db[key]) else None
  }

  /** After any writes a key holds what the last write to it, if there is one, left there. */
  lemma {:induction false} LastWriteWins(db: map<Bytes, Bytes>, ops: seq<Op>, key: Bytes, last: int)
    requires -1 <= last < |ops| && (last >= 0 ==> ops[last].key == key) && forall i :: last < i < |ops| ==> ops[i].key != key
    ensures ReadKey(WriteAll(db, ops), key) == if last < 0 then ReadKey(db, key) else if ops[last].Put? then Some(ops[last].value) else None
    decreases |ops|
  {
    if ops != [] && last < |ops| - 1 {
      LastWriteWins(db, ops[..|ops| - 1], key, last);
    }
  }

  lemma HoldSize(pending: map<Bytes, Option<Bytes>>, op: Op)
    ensures |Hold(pending, op)| <= |pending| + 1
  {
    var value := if op.Put? then Some(op.value) else None;
    var after := pending[op.key := value];
    assert Hold(pending, op) == after && after.Keys == pending.Keys + {op.key};
  }

  lemma NothingPending(db: map<Bytes, Bytes>)
    ensures Seen(db, map[]) == db
  {
  }

  lemma WriteTwice(db: map<Bytes, Bytes>, op: Op)
    ensures Write(Write(db, op), op) == Write(db, op)
  {
  }

  class Batch {
    const maxSize: uint64
    var database: map<Bytes, Bytes>
    var pending: map<Bytes, Option<Bytes>>
    var count: uint64

    constructor (database: map<Bytes, Bytes>, maxSize: uint64)
      ensures Value() == this.database == database && this.maxSize == maxSize && count == 0
    {
      this.database, this.maxSize, pending, count := database, maxSize, map[], 0;
      new;
      NothingPending(database);
    }

    /** The database as the transaction sees it. */
    function Value(): map<Bytes, Bytes>
      reads this
    {
      Seen(database, pending)
    }

    /** A read sees every earlier write. */
    method Get(key: Bytes) returns (value: Option<Bytes>)
      ensures value == if key in Value() then Some(Value()[key]) else None
    {
      if key in pending {
        return pending[key];
      }
      return if key in database then Some(database[key]) else None;
    }

    /** Commits what is pending and goes on with a new transaction. */
    method Flush()
      modifies this`database, this`pending, this`count
      ensures Value() == database == old(Value()) && pending == map[] && count == 0
    {
      database, pending, count := Value(), map[], 0;
      NothingPending(database);
    }

    /** One write, when the transaction may turn out to be too big for it.  A commit by count
        comes after the write, which the next transaction then repeats. */
    method Do(op: Op, tooBig: bool)
      modifies this`database, this`pending, this`count
      ensures Value() == Write(old(Value()), op)
      ensures Value() == if op.Put? then old(Value())[op.key := op.value] else old(Value()) - {op.key}
      ensures var full := (old(count) + 1) % TWO64 == maxSize;
              && database == (if tooBig then old(Value()) else if full then Value() else old(database))
              && count == (if tooBig || full then 1 else (old(count) + 1) % TWO64)
      ensures old(count) < maxSize || old(count) == 0 ==> (count < maxSize <==> maxSize >= 2)
      ensures |old(pending)| <= old(count) < maxSize && maxSize >= 2 ==> |pending| <= count
    {
      hide Seen, Write, Hold;
      WriteIs(Value(), op);
      HoldSize(pending, op);
      HoldSize(map[], op);
      HoldIsWrite(database, pending, op);
      if !tooBig {
        pending := Hold(pending, op);
      }
      if tooBig || Add64(count, 1) == maxSize {
        Flush();
        HoldIsWrite(database, pending, op);
        WriteTwice(old(Value()), op);
        pending := Hold(pending, op);
      }
      count := Add64(count, 1);
    }

    method Commit()
      modifies this`database, this`pending
      ensures database == old(Value()) && pending == map[]
    {
      database, pending := Value(), map[];
    }
  }

  /** Any writes ended by a commit leave the database as writing them in order would,
      wherever the commits in between fall. */
  method WriteBatch(database: map<Bytes, Bytes>, maxSize: uint64, ops: seq<Op>, tooBig: seq<bool>) returns (after: map<Bytes, Bytes>)
    requires |tooBig| == |ops|
    ensures after == WriteAll(database, ops)
  {
    hide Write;
    var batch := new Batch(database, maxSize);
    for i := 0 to |ops|
      invariant batch.Value() == WriteAll(database, ops[..i])
    {
      assert ops[..i + 1][..i] == ops[..i];
      batch.Do(ops[i], tooBig[i]);
    }
    assert ops[..|ops|] == ops;
    batch.Commit();
    return batch.database;
  }
}
