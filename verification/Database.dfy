/**
 Transaction ownership on one database connection: direct transactions, the
 move-only transaction guard with its token, poisoning after a failed
 rollback, and the thread the connection belongs to.
 */
module Databases {
  import opened Wrappers

  datatype Owner = NoOwner | Direct | Guarded

  datatype DbError =
    | InvalidDatabase | ClosedDatabase | WrongThread | ConnectionFailed | QueryActive | GuardActive
    | TransactionActive | NoTransaction | OwnerMismatch | DriverFailed

  type Outcome = Result<(), DbError>

  /** What the driver answers; a failed begin, commit or rollback may leave a native transaction open or not. */
  datatype Answer = Done | Failed(inside: bool)

  /** What the driver is asked to do. */
  datatype Request = OpenRequest | CloseRequest | BeginRequest | CommitRequest | RollbackRequest

  class Driver {
    var native: bool
    var script: seq<Answer>
    ghost var nested: bool               // begin was reached inside a native transaction
    ghost var requests: seq<Request>

    constructor (script: seq<Answer>)
      ensures !native && !nested && this.script == script && requests == []
    {
      native, nested, this.script, requests := false, false, script, [];
    }

    /** The answer to the next request; an exhausted script refuses. */
    function Ahead(): Answer
      reads this`script
    {
      if script == [] then Failed(false) else script[0]
    }

    function Behind(): seq<Answer>
      reads this`script
    {
      if script == [] then [] else script[1..]
    }

    method Next(ghost request: Request) returns (answer: Answer)
      modifies this`script, this`requests
      ensures answer == old(Ahead()) && script == old(Behind()) && requests == old(requests) + [request]
    {
      answer := Ahead();
      script := Behind();
      requests := requests + [request];
    }

    /** Opening and closing: a connection starts, and ends, without a native transaction. */
    method Reset(ghost request: Request) returns (ok: bool)
      modifies this`native, this`script, this`requests
      ensures ok == old(Ahead()).Done? && native == (old(native) && !ok)
      ensures script == old(Behind()) && requests == old(requests) + [request]
    {
      var answer := Next(request);
      ok := answer.Done?;
      if ok {
        native := false;
      }
    }

    method Begin() returns (ok: bool)
      modifies this
      ensures ok == old(Ahead()).Done? && native == (old(Ahead()) != Failed(false))
      ensures nested == (old(nested) || old(native))
      ensures script == old(Behind()) && requests == old(requests) + [BeginRequest]
    {
      nested := nested || native;
      var answer := Next(BeginRequest);
      ok := answer.Done?;
      native := ok || answer.inside;
    }

    /** Commit and rollback: a success ends the native transaction, and a failure may. */
    method Finish(commit: bool) returns (ok: bool)
      modifies this`native, this`script, this`requests
      ensures ok == old(Ahead()).Done? && native == (old(native) && old(Ahead()) == Failed(true))
      ensures script == old(Behind()) && requests == old(requests) + [if commit then CommitRequest else RollbackRequest]
    {
      var answer := Next(if commit then CommitRequest else RollbackRequest);
      ok := answer.Done?;
      native := native && answer.Failed? && answer.inside;
    }
  }

  const TOKENS := 0x1_0000_0000_0000_0000

  class Database {
    const driver: Driver?
    var isOpen: bool
    var poisoned: bool
    var owner: Owner
    var token: nat
    var nextToken: nat
    var thread: Option<int>
    var queries: nat
    var lastError: Option<DbError>

    ghost var stray: bool                // since it was opened, a begin failed and left a native transaction open
    ghost var live: set<Transaction>     // guards made and not destroyed
    ghost var holder: Transaction?       // the guard that was given the current token

    constructor (driver: Driver?)
      requires driver != null ==> !driver.native
      ensures Sound() && !isOpen && !stray && live == {} && this.driver == driver
      ensures !poisoned && owner == NoOwner && nextToken == 1 && thread.None? && queries == 0 && lastError.None?
    {
      this.driver := driver;
      isOpen, poisoned, owner, token, nextToken := false, false, NoOwner, 0, 1;
      thread, queries, lastError := None, 0, None;
      stray, live, holder := false, {}, null;
    }

    ghost predicate Native()
      reads this, driver
    {
      driver != null && driver.native
    }

    /** A native transaction is owned, or the connection is poisoned. */
    ghost predicate Held()
      reads this, driver
    {
      Native() ==> owner != NoOwner || poisoned
    }

    /** Every native transaction is held unless a begin left one behind; a poisoned connection has no owner. */
    ghost predicate Connection()
      reads this, driver
    {
      && (Native() ==> isOpen)
      && (!stray ==> Held())
      && (poisoned ==> owner == NoOwner)
      && (owner != NoOwner ==> isOpen)
      && (isOpen ==> driver != null && thread.Some?)
      && (owner == Guarded <==> token != 0)
      && 0 < nextToken < TOKENS
    }

    /** Every active guard is the one that holds the current token. */
    ghost predicate Valid()
      reads this, driver, live
    {
      && Connection()
      && (forall g :: g in live && g.Active() ==> g.database == this && g == holder && owner == Guarded && g.token == token)
    }

    /** Guarded ownership has its guard: exactly one guard is active, and otherwise none. */
    ghost predicate Sound()
      reads this, driver, live
    {
      Valid() && (owner == Guarded ==> holder in live && holder.Active())
    }

    /** Guarded ownership that no guard can give up. */
    ghost predicate Orphaned()
      reads this, driver, live
    {
      Valid() && owner == Guarded && forall g :: g in live ==> !g.Active()
    }

    /** A transaction goes stray only by not being held, and the driver is asked to nest only where one is stray. */
    twostate predicate Strays()
      reads this, driver
    {
      && (stray && !old(stray) ==> !Held())
      && (driver != null && driver.nested ==> old(driver.nested) || old(stray))
    }

    /** What an operation without a guard keeps, in good and in orphaned states. */
    twostate predicate Kept()
      reads this, driver, live
    {
      && Valid() && live == old(live) && holder == old(holder) && Strays()
      && (old(Sound()) ==> Sound()) && (old(Orphaned()) ==> Orphaned())
    }

    /** The begin of this caller reaches the driver. */
    predicate MayBegin(caller: int)
      reads this
    {
      OperationError(caller).None? && owner == NoOwner
    }

    /** The driver was asked for nothing else since. */
    twostate predicate Asked(requests: seq<Request>)
      reads this, driver
    {
      driver != null ==> driver.requests == old(driver.requests) + requests
    }

    /** The connection's own state is what it was. */
    twostate predicate Same()
      reads this
    {
      && isOpen == old(isOpen) && poisoned == old(poisoned) && owner == old(owner) && token == old(token)
      && nextToken == old(nextToken) && thread == old(thread) && queries == old(queries) && stray == old(stray)
    }

    /** The connection's own state is what it was, but for owner, token and poison. */
    twostate predicate SameConnection()
      reads this
    {
      isOpen == old(isOpen) && nextToken == old(nextToken) && thread == old(thread) && queries == old(queries)
    }

    method Fail(error: DbError) returns (r: Outcome)
      modifies this`lastError
      ensures r == Err(error) && lastError == Some(error)
    {
      lastError := Some(error);
      return Err(error);
    }

    /** What every operation but open and close checks first. */
    function OperationError(caller: int): (e: Option<DbError>)
      reads this
      ensures e.None? <==> driver != null && isOpen && thread == Some(caller) && !poisoned
    {
      if driver == null then Some(InvalidDatabase)
      else if !isOpen then Some(ClosedDatabase)
      else if thread != Some(caller) then Some(WrongThread)
      else if poisoned then Some(ConnectionFailed)
      else None
    }

    method Open(caller: int) returns (r: Outcome)
      requires Valid()
      modifies this, driver
      ensures stray ==> old(stray)
      ensures Kept() && owner == old(owner)
      ensures r.Ok? ==> isOpen && thread == Some(caller) && !poisoned
      ensures r.Ok? && !old(isOpen) ==> !Native() && owner == NoOwner
      ensures r.Err? || old(isOpen) ==> Same()
      ensures r.Ok? <==> driver != null && if old(isOpen) then old(thread) == Some(caller) && !old(poisoned)
                                          else old(driver.Ahead()).Done?
      ensures r == Err(InvalidDatabase) <==> driver == null
      ensures r == Err(WrongThread) <==> driver != null && old(isOpen) && old(thread) != Some(caller)
      ensures r == Err(DriverFailed) ==> !old(isOpen)
      ensures Asked(if old(isOpen) then [] else [OpenRequest])
      ensures driver != null && !old(isOpen) ==> driver.script == old(driver.Behind())
      ensures token == old(token) && nextToken == old(nextToken) && queries == old(queries)
      ensures lastError == if r.Err? then Some(r.error) else None
    {
      if driver == null {
        r := Fail(InvalidDatabase);
        return;
      }
      if isOpen {
        if thread != Some(caller) {
          r := Fail(WrongThread);
        } else if poisoned {
          r := Fail(ConnectionFailed);
        } else {
          lastError := None;
          r := Ok(());
        }
        return;
      }
      var done := driver.Reset(OpenRequest);
      if !done {
        r := Fail(DriverFailed);
        return;
      }
      isOpen, poisoned, thread, stray, lastError := true, false, Some(caller), false, None;
      return Ok(());
    }
  
    /** What close() checks before it touches the driver. */
    function CloseError(caller: int): (e: Option<DbError>)
      reads this
      ensures e.None? <==>
                driver != null && (isOpen ==> thread == Some(caller)) && queries == 0 && owner != Guarded
    {
      if driver == null then Some(InvalidDatabase)
      else if isOpen && thread != Some(caller) then Some(WrongThread)
      else if queries != 0 then Some(QueryActive)
      else if owner == Guarded then Some(GuardActive)
      else None
    }

    /** close(): refuses live queries and guarded ownership, and rolls a direct transaction back. */
    method Close(caller: int) returns (r: Outcome)
      requires Valid()
      modifies this, driver
      ensures stray ==> old(stray)
      ensures queries == old(queries) && nextToken == old(nextToken)
      ensures Kept()
      ensures r.Ok? ==> !isOpen && !poisoned && !Native() && owner == NoOwner
      ensures old(CloseError(caller)).Some? ==> r == Err(old(CloseError(caller)).value) && Same() && Asked([])
      ensures old(CloseError(caller)).None? ==> if old(isOpen) then Released(r) else r.Ok? && Asked([])
      ensures lastError == if r.Err? then Some(r.error) else None
    {
      var error := CloseError(caller);
      if error.Some? {
        r := Fail(error.value);
        return;
      }
      if !isOpen {
        poisoned, lastError := false, None;
        return Ok(());
      }
      r := Release();
    }

    /** A direct transaction is rolled back before the close, which is not asked for when that fails. */
    twostate predicate Released(r: Outcome)
      requires driver != null
      reads this, driver
    {
      if old(owner) != Direct then
        && Asked([CloseRequest]) && (r.Ok? <==> old(driver.Ahead()).Done?)
        && (r.Err? ==> Same() && r.error == DriverFailed)
      else if !old(driver.Ahead()).Done? then
        && Asked([RollbackRequest]) && r == Err(DriverFailed)
        && owner == NoOwner && poisoned && SameConnection() && stray == old(stray)
      else
        && Asked([RollbackRequest, CloseRequest])
        && (r.Ok? <==> old(driver.Behind()) != [] && old(driver.Behind())[0].Done?)
        && (r.Err? ==> r.error == DriverFailed && owner == NoOwner && poisoned == old(poisoned) && SameConnection())
    }

    /** The direct transaction is rolled back and given up, whatever the driver answers. */
    method EndDirect() returns (ok: bool)
      requires Valid() && isOpen && owner == Direct
      modifies this`owner, this`poisoned, driver
      ensures Kept() && owner == NoOwner && Asked([RollbackRequest])
      ensures ok == old(driver.Ahead()).Done? && driver.script == old(driver.Behind())
      ensures poisoned == (old(poisoned) || !ok) && driver.nested == old(driver.nested)
      ensures ok ==> !Native()
    {
      ok := driver.Finish(false);
      owner := NoOwner;
      if !ok {
        poisoned := true;
      }
    }

    /** Roll a direct transaction back, then close the native connection. */
    method Release() returns (r: Outcome)
      requires Valid() && isOpen && owner != Guarded
      modifies this, driver
      ensures stray ==> old(stray)
      ensures queries == old(queries) && nextToken == old(nextToken)
      ensures Kept()
      ensures r.Ok? ==> !isOpen && !poisoned && !Native() && owner == NoOwner
      ensures Released(r)
      ensures lastError == if r.Err? then Some(r.error) else None
    {
      if owner == Direct {
        var rolledBack := EndDirect();
        if !rolledBack {
          r := Fail(DriverFailed);
          return;
        }
      }
      var closed := driver.Reset(CloseRequest);
      if !closed {
        r := Fail(DriverFailed);
        return;
      }
      isOpen, poisoned, owner, token, thread, stray, lastError := false, false, NoOwner, 0, None, false, None;
      return Ok(());
    }

    method Begin(caller: int) returns (r: Outcome)
      requires Valid()
      modifies this, driver
      ensures Kept()
      ensures r.Ok? ==> owner == Direct && Native() && old(owner) == NoOwner
      ensures r.Err? ==> owner == old(owner) && poisoned == old(poisoned) && (!stray ==> Native() == old(Native()))
      ensures stray == (old(stray) || (r == Err(DriverFailed) && Native()))
      ensures driver != null ==> driver.nested == (old(driver.nested) || (old(MayBegin(caller)) && old(Native())))
      ensures r.Ok? <==> old(MayBegin(caller)) && old(driver.Ahead()).Done?
      ensures old(MayBegin(caller)) ==>
                driver.script == old(driver.Behind()) && Native() == (old(driver.Ahead()) != Failed(false))
      ensures Asked(if old(MayBegin(caller)) then [BeginRequest] else [])
      ensures old(OperationError(caller)).Some? ==> r == Err(old(OperationError(caller)).value)
      ensures SameConnection() && token == old(token)
      ensures lastError == if r.Err? then Some(r.error) else None
    {
      var error := OperationError(caller);
      if error.Some? {
        r := Fail(error.value);
        return;
      }
      if owner != NoOwner {
        r := Fail(TransactionActive);
        return;
      }
      var begun := driver.Begin();
      if !begun {
        stray := stray || driver.native;
        r := Fail(DriverFailed);
        return;
      }
      owner, lastError := Direct, None;
      return Ok(());
    }

    /** What commit and rollback of a direct transaction check. */
    function DirectError(caller: int): (e: Option<DbError>)
      reads this
      ensures e.None? <==> OperationError(caller).None? && owner == Direct
    {
      if OperationError(caller).Some? then OperationError(caller)
      else
        match owner
        case NoOwner => Some(NoTransaction)
        case Guarded => Some(GuardActive)
        case Direct => None
    }

    method Commit(caller: int) returns (r: Outcome)
      requires Valid()
      modifies this, driver
      ensures stray ==> old(stray)
      ensures Kept()
      ensures r.Ok? ==> old(owner) == Direct && owner == NoOwner && !Native()
      ensures r.Err? ==> owner == old(owner)
      ensures r.Ok? <==> old(DirectError(caller)).None? && old(driver.Ahead()).Done?
      ensures old(DirectError(caller)).Some? ==> r == Err(old(DirectError(caller)).value)
      ensures Asked(if old(DirectError(caller)).None? then [CommitRequest] else [])
      ensures SameConnection() && token == old(token) && poisoned == old(poisoned)
      ensures lastError == if r.Err? then Some(r.error) else None
    {
      var error := DirectError(caller);
      if error.Some? {
        r := Fail(error.value);
        return;
      }
      var committed := driver.Finish(true);
      if !committed {
        r := Fail(DriverFailed);
        return;
      }
      owner, lastError := NoOwner, None;
      return Ok(());
    }

    method Rollback(caller: int) returns (r: Outcome)
      requires Valid()
      modifies this, driver
      ensures stray ==> old(stray)
      ensures Kept()
      ensures r.Ok? ==> old(owner) == Direct && owner == NoOwner && !Native() && !poisoned
      ensures r.Ok? <==> old(DirectError(caller)).None? && old(driver.Ahead()).Done?
      ensures old(DirectError(caller)).Some? ==> r == Err(old(DirectError(caller)).value) && Same()
      ensures old(DirectError(caller)).None? ==> owner == NoOwner && poisoned == r.Err?
      ensures Asked(if old(DirectError(caller)).None? then [RollbackRequest] else [])
      ensures SameConnection() && token == old(token)
      ensures lastError == if r.Err? then Some(r.error) else None
    {
      var error := DirectError(caller);
      if error.Some? {
        r := Fail(error.value);
        return;
      }
      var rolledBack := driver.Finish(false);
      owner := NoOwner;
      if !rolledBack {
        poisoned := true;
        r := Fail(DriverFailed);
        return;
      }
      lastError := None;
      return Ok(());
    }

    // ---------- What the guard calls ----------

    method BeginGuarded(caller: int) returns (r: Result<nat, DbError>)
      requires Valid()
      modifies this, driver
      ensures live == old(live) && (r.Err? ==> Kept() && owner == old(owner))
      ensures r.Ok? ==> Connection() && owner == Guarded && Native() && r.value == token != 0 && thread == Some(caller)
      ensures r.Ok? ==> old(owner) == NoOwner && forall g :: g in live ==> !g.Active()
      ensures r.Ok? <==> old(MayBegin(caller)) && old(driver.Ahead()).Done?
      ensures old(OperationError(caller)).Some? ==> r == Err(old(OperationError(caller)).value)
      ensures Asked(if old(MayBegin(caller)) then [BeginRequest] else [])
      ensures isOpen == old(isOpen) && thread == old(thread) && queries == old(queries) && poisoned == old(poisoned)
      ensures r.Err? ==> token == old(token) && nextToken == old(nextToken)
      ensures r.Ok? ==> token == old(nextToken)
                        && nextToken == if old(nextToken) + 1 == TOKENS then 1 else old(nextToken) + 1
      ensures stray == (old(stray) || (r == Err(DriverFailed) && Native())) && Strays()
      ensures driver != null ==> driver.nested == (old(driver.nested) || (old(MayBegin(caller)) && old(Native())))
      ensures lastError == if r.Err? then Some(r.error) else None
    {
      var error := OperationError(caller);
      if error.Some? {
        var failed := Fail(error.value);
        return Err(error.value);
      }
      if owner != NoOwner {
        var failed := Fail(TransactionActive);
        return Err(TransactionActive);
      }
      var begun := driver.Begin();
      if !begun {
        stray := stray || driver.native;
        var failed := Fail(DriverFailed);
        return Err(DriverFailed);
      }
      owner, token, lastError := Guarded, nextToken, None;
      nextToken := if nextToken + 1 == TOKENS then 1 else nextToken + 1;
      return Ok(token);
    }

    predicate OwnsGuarded(t: nat)
      reads this
    {
      t != 0 && owner == Guarded && token == t
    }

    /** Ending the guarded transaction `t` reaches the driver. */
    predicate MayFinish(caller: int, t: nat)
      reads this
    {
      OperationError(caller).None? && OwnsGuarded(t)
    }

    /** Ends the guarded transaction `t`; a failed commit keeps it, a failed rollback poisons the connection. */
    method FinishGuarded(caller: int, t: nat, commit: bool) returns (r: Outcome)
      requires Connection()
      modifies this, driver
      ensures Connection() && live == old(live) && holder == old(holder) && thread == old(thread) && stray == old(stray)
      ensures driver != null ==> driver.nested == old(driver.nested)
      ensures r.Ok? ==> old(OwnsGuarded(t)) && owner == NoOwner && !Native()
      ensures r.Ok? <==> old(MayFinish(caller, t)) && old(driver.Ahead()).Done?
      ensures old(OperationError(caller)).Some? ==> r == Err(old(OperationError(caller)).value) && Same()
      ensures old(OperationError(caller)).None? && !old(OwnsGuarded(t)) ==>
                r == Err(OwnerMismatch) && owner == NoOwner && token == 0 && poisoned
      ensures old(MayFinish(caller, t)) && r.Err? ==> r == Err(DriverFailed)
      ensures Asked(if !old(MayFinish(caller, t)) then [] else if commit then [CommitRequest] else [RollbackRequest])
      ensures SameConnection()
      ensures old(OwnsGuarded(t)) && thread != Some(caller) ==> r == Err(WrongThread)
      ensures r == Err(WrongThread) ==> owner == old(owner) && token == old(token)
      ensures old(OwnsGuarded(t)) ==> r != Err(OwnerMismatch)
      ensures old(OwnsGuarded(t)) && thread == Some(caller) ==> OwnsGuarded(t) == (commit && r.Err?)
      ensures old(OwnsGuarded(t)) ==> poisoned == (r.Err? && !OwnsGuarded(t))
      ensures lastError == if r.Err? then Some(r.error) else None
    {
      var error := OperationError(caller);
      if error.Some? {
        r := Fail(error.value);
        return;
      }
      if !OwnsGuarded(t) {
        owner, token, poisoned := NoOwner, 0, true;
        r := Fail(OwnerMismatch);
        return;
      }
      var done := driver.Finish(commit);
      if !done && commit {
        r := Fail(DriverFailed);
        return;
      }
      owner, token := NoOwner, 0;
      if !done {
        poisoned := true;
        r := Fail(DriverFailed);
        return;
      }
      lastError := None;
      return Ok(());
    }
  }

  class Transaction {
    var database: Database?
    var token: nat

    predicate Active()
      reads this
    {
      database != null && token != 0
    }

    constructor (database: Database?, token: nat)
      ensures this.database == database && this.token == token
    {
      this.database, this.token := database, token;
    }

    /** Transaction::begin(): a success makes the one active guard. */
    static method Start(db: Database, caller: int) returns (r: Result<Transaction, DbError>)
      requires db.Valid()
      modifies db, db.driver
      ensures db.Valid() && (old(db.Sound()) ==> db.Sound()) && (old(db.Orphaned()) ==> r.Err? && db.Orphaned())
      ensures r.Ok? ==> db.Sound() && db.owner == Guarded && db.Native() && old(db.owner) == NoOwner
      ensures r.Ok? ==> fresh(r.value) && r.value == db.holder && r.value.Active() && db.live == old(db.live) + {r.value}
      ensures r.Err? ==> db.live == old(db.live) && db.owner == old(db.owner)
      ensures db.Strays()
      ensures r.Ok? <==> old(db.MayBegin(caller)) && old(db.driver.Ahead()).Done?
      ensures db.Asked(if old(db.MayBegin(caller)) then [BeginRequest] else [])
      ensures db.queries == old(db.queries) && db.isOpen == old(db.isOpen) && db.thread == old(db.thread)
    {
      var begun := db.BeginGuarded(caller);
      if begun.Err? {
        return Err(begun.error);
      }
      var guard := new Transaction(db, begun.value);
      db.live, db.holder := db.live + {guard}, guard;
      return Ok(guard);
    }

    /** Commit or rollback through the guard; it lets go exactly when it no longer owns the transaction. */
    method Finish(ghost db: Database, caller: int, commit: bool) returns (r: Outcome)
      requires db.Valid() && this in db.live
      modifies this, db, db.driver
      ensures db.Valid() && db.live == old(db.live) && db.holder == old(db.holder) && db.thread == old(db.thread)
      ensures old(db.Sound()) ==> db.Sound()
      ensures old(db.Orphaned()) ==> r.Err? && db.Orphaned()
      ensures db.Strays() && db.stray == old(db.stray)
      ensures !old(Active()) ==> r == Err(NoTransaction) && unchanged(db) && unchanged(this) && db.Asked([])
      ensures old(Active()) ==> r != Err(OwnerMismatch)
      ensures old(Active()) && db.thread == Some(caller) ==> Active() == (commit && r.Err?)
      ensures old(Active()) && db.thread != Some(caller) ==> r == Err(WrongThread) && Active()
      ensures r.Ok? ==> !db.Native() && db.owner == NoOwner
      ensures r.Err? && old(Active()) && !Active() ==> db.poisoned
      ensures old(Active()) && !Active() ==> database == null && token == 0
      ensures old(Active()) && Active() ==> database == old(database) && token == old(token)
      ensures old(Active()) && old(db.MayFinish(caller, token)) ==>
                && (r.Ok? <==> old(db.driver.Ahead()).Done?)
                && db.Asked(if commit then [CommitRequest] else [RollbackRequest])
      ensures old(Active()) && !old(db.MayFinish(caller, token)) ==> r.Err? && db.Asked([])
    {
      if !Active() {
        return Err(NoTransaction);
      }
      var held := database;
      r := held.FinishGuarded(caller, token, commit);
      if !held.OwnsGuarded(token) {
        database, token := null, 0;
      }
    }

    /** Moving a guard hands its ownership over and leaves the source inactive. */
    method Move(ghost db: Database) returns (moved: Transaction)
      requires db.Valid() && this in db.live
      modifies this, db`live, db`holder
      ensures db.Valid() && fresh(moved) && db.live == old(db.live) + {moved}
      ensures database == null && token == 0 && moved.database == old(database) && moved.token == old(token)
      ensures !Active() && moved.Active() == old(Active())
      ensures old(db.Sound()) ==> db.Sound()
      ensures old(db.Orphaned()) ==> db.Orphaned()
    {
      moved := new Transaction(database, token);
      if Active() {
        db.holder := moved;
      }
      db.live := db.live + {moved};
      database, token := null, 0;
    }

    /**
     The destructor rolls an active guard back. Guarded ownership keeps its
     guard exactly when the guard was inactive or is destroyed on the
     connection's own thread.
     */
    method Destroy(ghost db: Database, caller: int)
      requires db.Valid() && this in db.live
      modifies this, db, db.driver
      ensures db.Valid() && db.live == old(db.live) - {this} && db.thread == old(db.thread)
      ensures old(db.Sound()) ==> (db.Sound() <==> !(old(Active()) && db.thread != Some(caller)))
      ensures old(db.Sound()) && !db.Sound() ==> db.Orphaned()
      ensures old(db.Orphaned()) ==> db.Orphaned()
      ensures db.Strays() && db.stray == old(db.stray)
      ensures old(Active()) && db.thread == Some(caller) ==> db.owner == NoOwner && (db.Native() ==> db.poisoned)
      ensures db.Asked(if old(Active()) && old(db.MayFinish(caller, token)) then [RollbackRequest] else [])
    {
      if Active() {
        var rolledBack := Finish(db, caller, false);
      }
      db.live := db.live - {this};
    }
  }

  // ---------- Whole runs ----------

  datatype Operation =
    | DoOpen | DoClose | DoBegin | DoCommit | DoRollback
    | StartGuard | FinishGuard(index: nat, commit: bool) | MoveGuard(index: nat) | DestroyGuard(index: nat)
    | StartQuery | EndQuery

  /** What an operation without a guard asks of the driver first, if anything. */
  function Asks(db: Database, op: Operation, caller: int): seq<Request>
    reads db
  {
    match op
    case DoOpen => if db.isOpen then [] else [OpenRequest]
    case DoClose =>
      if db.CloseError(caller).Some? || !db.isOpen then []
      else if db.owner == Owner.Direct then [RollbackRequest] else [CloseRequest]
    case DoBegin => if db.MayBegin(caller) then [BeginRequest] else []
    case DoCommit => if db.DirectError(caller).None? then [CommitRequest] else []
    case DoRollback => if db.DirectError(caller).None? then [RollbackRequest] else []
    case _ => []
  }

  /** Each operation asks the driver for what it stands for, and only queries count queries. */
  method Direct(db: Database, op: Operation, caller: int)
    requires db.Valid()
    modifies db, db.driver
    ensures db.Kept()
    ensures db.driver != null ==> old(db.driver.requests) + old(Asks(db, op, caller)) <= db.driver.requests
    ensures db.queries == if op.StartQuery? then old(db.queries) + 1
                          else if op.EndQuery? && old(db.queries) > 0 then old(db.queries) - 1 else old(db.queries)
  {
    match op {
      case DoOpen => var _ := db.Open(caller);
      case DoClose => var _ := db.Close(caller);
      case DoBegin => var _ := db.Begin(caller);
      case DoCommit => var _ := db.Commit(caller);
      case DoRollback => var _ := db.Rollback(caller);
      case StartQuery => db.queries := db.queries + 1;
      case EndQuery => db.queries := if db.queries > 0 then db.queries - 1 else 0;
      case _ =>
    }
  }

  /** The distinct guards a program holds. */
  ghost predicate Guards(db: Database, guards: seq<Transaction>)
    reads db
  {
    && (forall i :: 0 <= i < |guards| ==> guards[i] in db.live)
    && (forall i, j :: 0 <= i < j < |guards| ==> guards[i] != guards[j])
  }

  /** The guard operations; ownership is lost exactly when an active guard is destroyed on a foreign thread. */
  method Guard(db: Database, guards: seq<Transaction>, op: Operation, caller: int)
    returns (after: seq<Transaction>, lost: bool)
    requires db.Valid() && Guards(db, guards)
    modifies db, db.driver, guards
    ensures db.Valid() && Guards(db, after) && db.Strays()
    ensures forall i :: 0 <= i < |after| ==> after[i] in guards || fresh(after[i])
    ensures lost <==> (op.DestroyGuard? && op.index < |guards|
                       && old(guards[op.index].Active()) && old(db.thread) != Some(caller))
    ensures old(db.Sound()) ==> if lost then db.Orphaned() else db.Sound()
    ensures old(db.Orphaned()) ==> db.Orphaned()
    ensures op.StartGuard? && old(db.MayBegin(caller)) && old(db.driver.Ahead()).Done? ==>
              |after| == |guards| + 1 && after[|guards|].Active() && db.holder == after[|guards|]
    ensures op.MoveGuard? && op.index < |guards| ==>
              |after| == |guards| + 1 && !guards[op.index].Active()
              && after[|guards|].Active() == old(guards[op.index].Active())
    ensures op.DestroyGuard? && op.index < |guards| ==> after == guards[..op.index] + guards[op.index + 1..]
    ensures op.FinishGuard? ==> after == guards
    ensures db.driver != null ==> old(db.driver.requests) <= db.driver.requests
    ensures op.FinishGuard? && op.index < |guards| && old(db.MayFinish(caller, guards[op.index].token))
            && old(guards[op.index].Active()) ==>
              db.Asked(if op.commit then [CommitRequest] else [RollbackRequest])
  {
    after, lost := guards, false;
    match op {
      case StartGuard =>
        var started := Transaction.Start(db, caller);
        if started.Ok? {
          after := guards + [started.value];
        }
      case FinishGuard(i, commit) =>
        if i < |guards| {
          var _ := guards[i].Finish(db, caller, commit);
        }
      case MoveGuard(i) =>
        if i < |guards| {
          var moved := guards[i].Move(db);
          after := guards + [moved];
        }
      case DestroyGuard(i) =>
        if i < |guards| {
          lost := guards[i].Active() && db.thread != Some(caller);
          guards[i].Destroy(db, caller);
          after := guards[..i] + guards[i + 1..];
        }
      case _ =>
    }
  }

  /** The operations a program has performed. */
  class Journal {
    ghost var done: seq<Operation>

    constructor ()
      ensures done == []
    {
      done := [];
    }
  }

  /** One operation of a program; `lost` says that it lost ownership. */
  method Perform(journal: Journal, db: Database, guards: seq<Transaction>, op: Operation, caller: int)
    returns (after: seq<Transaction>, lost: bool)
    requires db.Valid() && Guards(db, guards)
    modifies journal, db, db.driver, guards
    ensures journal.done == old(journal.done) + [op]
    ensures db.Valid() && Guards(db, after) && db.Strays()
    ensures forall i :: 0 <= i < |after| ==> after[i] in guards || fresh(after[i])
    ensures lost <==> (op.DestroyGuard? && op.index < |guards|
                       && old(guards[op.index].Active()) && old(db.thread) != Some(caller))
    ensures old(db.Sound()) ==> if lost then db.Orphaned() else db.Sound()
    ensures old(db.Orphaned()) ==> db.Orphaned()
    ensures db.driver != null ==> old(db.driver.requests) + old(Asks(db, op, caller)) <= db.driver.requests
    ensures op.StartGuard? && old(db.MayBegin(caller)) && old(db.driver.Ahead()).Done? ==> |after| == |guards| + 1
  {
    if op.StartGuard? || op.FinishGuard? || op.MoveGuard? || op.DestroyGuard? {
      after, lost := Guard(db, guards, op, caller);
    } else {
      after, lost := guards, false;
      Direct(db, op, caller);
    }
    journal.done := journal.done + [op];
  }

  /**
   Any run of operations from any threads against any driver. Ownership stays
   sound until a step loses it, and from then on the connection stays orphaned.
   A native transaction is without owner and poison at some point exactly when
   some begin failed and left one open, and begin reaches the driver inside a
   native transaction only after that.
   */
  method Drive(db: Database, ops: seq<(Operation, int)>)
    returns (lost: seq<bool>, journal: Journal, ghost unheld: bool, ghost stray: bool)
    requires db.Sound() && db.live == {} && !db.stray && db.Held() && (db.driver != null ==> !db.driver.nested)
    modifies db, db.driver
    ensures fresh(journal) && |journal.done| == |ops| && forall k :: 0 <= k < |ops| ==> journal.done[k] == ops[k].0
    ensures |lost| == |ops| && db.Valid() && (if true in lost then db.Orphaned() else db.Sound())
    ensures forall k :: 0 <= k < |ops| && lost[k] ==> ops[k].0.DestroyGuard?
    ensures unheld <==> stray
    ensures db.driver != null && db.driver.nested ==> stray
  {
    lost, unheld, stray := [], false, false;
    journal := new Journal();
    var guards: seq<Transaction> := [];
    for k := 0 to |ops|
      invariant |lost| == k && db.Valid() && (if true in lost then db.Orphaned() else db.Sound())
      invariant |journal.done| == k && forall i :: 0 <= i < k ==> journal.done[i] == ops[i].0
      invariant forall i :: 0 <= i < k && lost[i] ==> ops[i].0.DestroyGuard?
      invariant Guards(db, guards) && forall i :: 0 <= i < |guards| ==> fresh(guards[i])
      invariant unheld == stray && (db.stray ==> stray)
      invariant db.driver != null && db.driver.nested ==> stray
    {
      var l;
      guards, l := Perform(journal, db, guards, ops[k].0, ops[k].1);
      lost := lost + [l];
      unheld, stray := unheld || !db.Held(), stray || db.stray;
    }
  }

  /** A begin that fails inside leaves a transaction nobody holds, and the next begin asks the driver to nest. */
  method StrayBegin(caller: int) returns (db: Database)
    ensures db.stray && db.driver != null && db.driver.nested
  {
    var driver := new Driver([Done, Failed(true), Done]);
    db := new Database(driver);
    var r := db.Open(caller);
    r := db.Begin(caller);
    assert db.stray && !db.Held();
    r := db.Begin(caller);
  }
}
