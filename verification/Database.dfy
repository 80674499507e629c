/** The kernel as a program: tables that commands change row by row, inside transactions that may roll back. */
module KernelDatabase {
  import opened Prelude
  import opened RuntimeModel
  import opened KernelState
  import opened Commands
  import opened Pipeline

  class Database {
    const catalog: Catalog
    var directory: Directory
    var ledgers: map<Uuid, Ledger>
    var receipts: seq<Receipt>

    constructor (catalog: Catalog, directory: Directory)
      ensures this.catalog == catalog && State() == DbState(directory, map[], [])
    {
      this.catalog := catalog;
      this.directory := directory;
      ledgers := map[];
      receipts := [];
    }

    function State(): DbState
      reads this
    {
      DbState(directory, ledgers, receipts)
    }

    // ----- Row inserts: each reports a broken constraint -----

    method InsertContext(id: Uuid, c: ContextFact) returns (ok: bool)
      requires id in ledgers
      modifies this`ledgers
      ensures ok <==> ContextInsertable(old(ledgers), old(ledgers)[id].contexts, c)
      ensures ok ==> ledgers == old(ledgers)[id := old(ledgers)[id].(contexts := old(ledgers)[id].contexts + [c])]
    {
      ok := ContextInsertable(ledgers, ledgers[id].contexts, c);
      if ok {
        ledgers := ledgers[id := ledgers[id].(contexts := ledgers[id].contexts + [c])];
      }
    }

    method InsertSubmission(id: Uuid, s: SubmissionFact) returns (ok: bool)
      requires id in ledgers
      modifies this`ledgers
      ensures ok <==> SubmissionInsertable(old(ledgers), s)
      ensures ok ==> ledgers == old(ledgers)[id := old(ledgers)[id].(submissions := old(ledgers)[id].submissions + [s])]
    {
      ok := SubmissionInsertable(ledgers, s);
      if ok {
        ledgers := ledgers[id := ledgers[id].(submissions := ledgers[id].submissions + [s])];
      }
    }

    method InsertVisit(id: Uuid, v: VisitFact) returns (ok: bool)
      requires id in ledgers
      modifies this`ledgers
      ensures ok <==> VisitInsertable(old(ledgers), old(ledgers)[id].visits, v)
      ensures ok ==> ledgers == old(ledgers)[id := old(ledgers)[id].(visits := old(ledgers)[id].visits + [v])]
    {
      ok := VisitInsertable(ledgers, ledgers[id].visits, v);
      if ok {
        ledgers := ledgers[id := ledgers[id].(visits := ledgers[id].visits + [v])];
      }
    }

    method UpdateInstance(id: Uuid, projection: Projection) returns (ok: bool)
      requires id in ledgers
      modifies this`ledgers
      ensures ok <==> IsPositiveI32(projection.workflowStateVersion)
      ensures ok ==> ledgers == old(ledgers)[id := old(ledgers)[id].(
                                  instance := old(ledgers)[id].instance.(projection := projection))]
    {
      ok := IsPositiveI32(projection.workflowStateVersion);
      if ok {
        ledgers := ledgers[id := ledgers[id].(instance := ledgers[id].instance.(projection := projection))];
      }
    }

    method InsertEvent(id: Uuid, e: EventFact) returns (ok: bool)
      requires id in ledgers
      modifies this`ledgers
      ensures ok <==> EventInsertable(old(ledgers), old(ledgers)[id].events, e)
      ensures ok ==> ledgers == old(ledgers)[id := old(ledgers)[id].(events := old(ledgers)[id].events + [e])]
    {
      ok := EventInsertable(ledgers, ledgers[id].events, e);
      if ok {
        ledgers := ledgers[id := ledgers[id].(events := ledgers[id].events + [e])];
      }
    }

    /** The writes of one command, in the order of its statements. */
    method AppendRows(id: Uuid, entry: Entry) returns (ok: bool)
      requires id in ledgers
      modifies this`ledgers
      ensures ok <==> EntryInsertable(old(ledgers), old(ledgers)[id], entry)
      ensures ok ==> ledgers == old(ledgers)[id := Append(old(ledgers)[id], entry)]
    {
      hide ContextInsertable, SubmissionInsertable, VisitInsertable, EventInsertable;
      ghost var l := ledgers[id];
      ghost var l1 := l.(contexts := l.contexts + Optionally(entry.context));
      ghost var l2 := l1.(submissions := l.submissions + Optionally(entry.submission));
      ghost var l3 := l2.(visits := l.visits + Optionally(entry.visit));
      ghost var l4 := l3.(instance := l.instance.(projection := entry.projection));
      assert l.contexts + [] == l.contexts && l.submissions + [] == l.submissions && l.visits + [] == l.visits;
      ok := true;
      if entry.context.Some? {
        ok := InsertContext(id, entry.context.value);
        if !ok {
          return;
        }
      }
      assert ledgers == old(ledgers)[id := l1];
      InsertsAreIndependent(old(ledgers), id, l, l1, entry);
      if entry.submission.Some? {
        ok := InsertSubmission(id, entry.submission.value);
        if !ok {
          return;
        }
      }
      assert ledgers == old(ledgers)[id := l2];
      InsertsAreIndependent(old(ledgers), id, l, l2, entry);
      if entry.visit.Some? {
        ok := InsertVisit(id, entry.visit.value);
        if !ok {
          return;
        }
      }
      assert ledgers == old(ledgers)[id := l3];
      ok := UpdateInstance(id, entry.projection);
      if !ok {
        return;
      }
      assert ledgers == old(ledgers)[id := l4];
      InsertsAreIndependent(old(ledgers), id, l, l4, entry);
      ok := InsertEvent(id, entry.event);
    }

    // ----- Commands -----

    method CompleteReceipt(at: nat, status: int, body: ResponseBody)
      requires at < |receipts|
      modifies this`receipts
      ensures receipts == old(receipts)[at := Completed(old(receipts)[at], status, body)]
    {
      receipts := receipts[at := Completed(receipts[at], status, body)];
    }

    method WriteFacts(write: Write) returns (ok: bool)
      modifies this`ledgers
      ensures ok <==> WriteFits(old(ledgers), write)
      ensures ok ==> ledgers == ApplyWrite(old(ledgers), write)
    {
      hide EntryInsertable, LedgerInsertable;
      match write {
        case CreateLedger(l) =>
          ok := LedgerInsertable(ledgers, l);
          if ok {
            ledgers := ledgers[l.instance.workflowInstanceId := l];
          }
        case AppendEntry(id, entry) =>
          if id !in ledgers {
            return false;
          }
          ok := AppendRows(id, entry);
        case SetProjection(id, projection) =>
          if id !in ledgers {
            return false;
          }
          ok := UpdateInstance(id, projection);
        case NoWrite =>
          ok := true;
      }
    }

    /** One request: the receipt is inserted first, and everything after it commits or rolls back with it. */
    method Handle(r: Request, ids: FreshIds) returns (outcome: Outcome)
      modifies this
      ensures (State(), outcome) == Execute(catalog, old(State()), r, ids)
    {
      hide Decide, WriteFits, Answer, FindReceipt, FindCommand, Precheck, StatusCode, FailureBodyOf;
      var env := Env(catalog, directory);
      var early := Precheck(env, r.call);
      if early.Some? {
        return Failed(early.value);
      }
      var existing := FindReceipt(receipts, PrincipalOf(r.call), KeyOf(r));
      if existing.Some? {
        return Answer(env, State(), r, existing.value);
      }
      if FindCommand(receipts, ids.commandId).Some? {
        return Failed(StorageError(ConstraintViolation));
      }
      var before := State();
      var at := |receipts|;
      receipts := receipts + [OpenReceipt(r, ids)];
      match Decide(env, before, r.call, ids) {
        case Abort(e) =>
          receipts := before.receipts;
          return Failed(e);
        case Refuse(e) =>
          CompleteReceipt(at, StatusCode(e), FailureBodyOf(r.call, e));
          assert receipts == before.receipts + [Completed(OpenReceipt(r, ids), StatusCode(e), FailureBodyOf(r.call, e))];
          return Failed(e);
        case Go(plan) =>
          var ok := WriteFacts(plan.write);
          if !ok {
            ledgers, receipts := before.ledgers, before.receipts;
            return Failed(StorageError(ConstraintViolation));
          }
          CompleteReceipt(at, 200, plan.body);
          assert receipts == before.receipts + [Completed(OpenReceipt(r, ids), 200, plan.body)];
          assert State() == ExecuteOwned(catalog, before, r, ids).0;
          return Executed(plan.body);
      }
    }
  }

  /** Rows of one table do not touch the constraints of the others. */
  lemma InsertsAreIndependent(ledgers: map<Uuid, Ledger>, id: Uuid, l: Ledger, l': Ledger, entry: Entry)
    requires id in ledgers && ledgers[id] == l
    ensures l'.submissions == l.submissions && entry.submission.Some? ==>
              (SubmissionInsertable(ledgers[id := l'], entry.submission.value)
               <==> SubmissionInsertable(ledgers, entry.submission.value))
    ensures l'.visits == l.visits && entry.visit.Some? ==>
              (VisitInsertable(ledgers[id := l'], l'.visits, entry.visit.value)
               <==> VisitInsertable(ledgers, l.visits, entry.visit.value))
    ensures l'.events == l.events ==>
              (EventInsertable(ledgers[id := l'], l'.events, entry.event)
               <==> EventInsertable(ledgers, l.events, entry.event))
  {
    var ledgers' := ledgers[id := l'];
    assert l'.submissions == l.submissions ==> forall k :: k in ledgers' ==> ledgers'[k].submissions == ledgers[k].submissions;
    assert l'.visits == l.visits ==> forall k :: k in ledgers' ==> ledgers'[k].visits == ledgers[k].visits;
    assert l'.events == l.events ==> forall k :: k in ledgers' ==> ledgers'[k].events == ledgers[k].events;
  }
}
