/** Optimistic versions: one winner for each expected version, and versions that count events. */
module Concurrency {
  import opened Prelude
  import opened RuntimeModel
  import opened KernelState
  import opened Snapshot
  import opened Commands
  import opened Pipeline
  import opened Agreement
  import opened WriterAgreement
  import opened KernelRuns

  datatype Expectation = Expectation(instanceId: Uuid, version: int)

  /** The instance and state version that a command expects, for the commands that expect one. */
  function ExpectationOf(call: Call): Option<Expectation> {
    match call
    case Revise(c) => Some(Expectation(c.workflowInstanceId, c.expectedVersion))
    case Transition(c) => Some(Expectation(c.workflowInstanceId, c.expectedVersion))
    case Combined(c) => Some(Expectation(c.workflowInstanceId, c.expectedVersion))
    case Override(c) => Some(Expectation(c.workflowInstanceId, c.expectedVersion))
    case _ => None
  }

  function VersionOf(st: DbState, id: Uuid): int {
    if id in st.ledgers then st.ledgers[id].instance.projection.workflowStateVersion else 0
  }

  /** One event was appended, to this instance, and it carries the next version. */
  predicate AdvancesByOneEvent(st: DbState, id: Uuid, version: int, after: DbState) {
    && id in st.ledgers && id in after.ledgers
    && VersionOf(st, id) == version && VersionOf(after, id) == version + 1
    && |after.ledgers[id].events| == |st.ledgers[id].events| + 1
    && after.ledgers[id].events[..|st.ledgers[id].events|] == st.ledgers[id].events
    && after.ledgers[id].events[|st.ledgers[id].events|].eventSequence == version + 1
    && after.ledgers == st.ledgers[id := after.ledgers[id]]
  }

  /** The write of a command that expects a version, as its decision states it. */
  lemma DecisionAdvances(env: Env, st: DbState, call: Call, ids: FreshIds)
    requires Decide(env, st, call, ids).Go? && ExpectationOf(call).Some?
    ensures var expected, w := ExpectationOf(call).value, Decide(env, st, call, ids).value.write;
      && w.AppendEntry? && w.instanceId == expected.instanceId
      && expected.instanceId in st.ledgers
      && VersionOf(st, expected.instanceId) == expected.version
      && w.entry.projection.workflowStateVersion == Inc32(expected.version)
      && w.entry.event.eventSequence == Inc32(expected.version)
      && w.entry.event.newWorkflowStateVersion == Inc32(expected.version)
      && w.entry.event.oldWorkflowStateVersion == expected.version
  {
    hide CheckRevise, CheckTransition, CheckCombined, CheckOverride;
    match call
    case Revise(c) => RevisePlanFacts(env, st.ledgers, c, CheckRevise(env, st.ledgers, c).value);
    case Transition(c) => TransitionPlanFacts(env, st.ledgers, c, CheckTransition(env, st.ledgers, c).value);
    case Combined(c) => CombinedPlanFacts(env, st.ledgers, c, CheckCombined(env, st.ledgers, c).value);
    case Override(c) => OverridePlanFacts(env, st, c, CheckOverride(env, st, c).value);
  }

  /** Every success of such a command found the expected version and raised it by exactly one. */
  lemma SuccessAdvancesByOne(catalog: Catalog, st: DbState, r: Request, ids: FreshIds)
    requires ExpectationOf(r.call).Some?
    ensures Execute(catalog, st, r, ids).1.Executed? ==>
              var expected := ExpectationOf(r.call).value;
              AdvancesByOneEvent(st, expected.instanceId, expected.version, Execute(catalog, st, r, ids).0)
  {
    hide Decide, FindReceipt, FindCommand, Precheck, EntryInsertable, ExpectationOf;
    if Execute(catalog, st, r, ids).1.Executed? {
      var env, expected := Env(catalog, st.directory), ExpectationOf(r.call).value;
      var plan := Decide(env, st, r.call, ids).value;
      DecisionAdvances(env, st, r.call, ids);
      assert IsPositiveI32(Inc32(expected.version)) by {
        InsertableVersion(st.ledgers, st.ledgers[expected.instanceId], plan.write.entry);
      }
      AppendedEvents(st.ledgers[expected.instanceId], plan.write.entry);
    }
  }

  lemma InsertableVersion(ledgers: map<Uuid, Ledger>, l: Ledger, e: Entry)
    requires EntryInsertable(ledgers, l, e)
    ensures IsPositiveI32(e.projection.workflowStateVersion)
  {
  }

  /** No action ever lowers an instance's version or drops the instance. */
  lemma VersionNeverFalls(catalog: Catalog, st: DbState, a: Action, id: Uuid)
    requires Inv(catalog, st) && id in st.ledgers
    ensures id in Next(catalog, st, a).ledgers && VersionOf(st, id) <= VersionOf(Next(catalog, st, a), id)
  {
    hide Inv, Decide, FindReceipt, FindCommand, Precheck, Answer, StatusCode, FailureBodyOf, AdvancesByOneEvent;
    if a.Command? && Execute(catalog, st, a.request, a.ids).1.Executed? {
      var r, ids := a.request, a.ids;
      ExecutedWasDecided(catalog, st, r, ids);
      if ExpectationOf(r.call).Some? {
        SuccessAdvancesByOne(catalog, st, r, ids);
        AdvancedElsewhere(st, ExpectationOf(r.call).value, Next(catalog, st, a), id);
      } else {
        OtherDecisions(catalog, st, r.call, ids);
      }
    } else if a.Command? {
      UnexecutedKeepsLedgers(catalog, st, a.request, a.ids);
    }
  }

  lemma ExecutedWasDecided(catalog: Catalog, st: DbState, r: Request, ids: FreshIds)
    requires Execute(catalog, st, r, ids).1.Executed?
    ensures Decide(Env(catalog, st.directory), st, r.call, ids).Go?
  {
    hide Decide, FindReceipt, FindCommand, Precheck, Access, WriteFits, ApplyWrite;
  }

  lemma AdvancedElsewhere(st: DbState, expected: Expectation, after: DbState, id: Uuid)
    requires AdvancesByOneEvent(st, expected.instanceId, expected.version, after) && id in st.ledgers
    ensures id in after.ledgers && VersionOf(st, id) <= VersionOf(after, id)
  {
  }

  lemma UnexecutedKeepsLedgers(catalog: Catalog, st: DbState, r: Request, ids: FreshIds)
    requires !Execute(catalog, st, r, ids).1.Executed?
    ensures Execute(catalog, st, r, ids).0.ledgers == st.ledgers
  {
    hide Decide, FindReceipt, FindCommand, Precheck, StatusCode, FailureBodyOf, WriteFits, Answer;
  }

  /** Creations add a new instance; in a coherent state a rebuild writes nothing. */
  lemma OtherDecisions(catalog: Catalog, st: DbState, call: Call, ids: FreshIds)
    requires Inv(catalog, st) && ExpectationOf(call).None?
    requires Decide(Env(catalog, st.directory), st, call, ids).Go?
    ensures var w := Decide(Env(catalog, st.directory), st, call, ids).value.write; w.CreateLedger? || w.NoWrite?
  {
    hide Inv, CheckCreate, CheckImport, CheckRebuild;
    if call.Rebuild? {
      RebuildChangesNothing(Env(catalog, st.directory), st, call.rebuild, ids,
                            Decide(Env(catalog, st.directory), st, call, ids).value);
    }
  }

  lemma {:induction false} VersionsNeverFallInRuns(catalog: Catalog, run: seq<DbState>, actions: seq<Action>,
                                                   i: nat, j: nat, id: Uuid)
    requires KeyedCatalog(catalog) && IsRun(catalog, run, actions) && i <= j < |run| && id in run[i].ledgers
    ensures id in run[j].ledgers && VersionOf(run[i], id) <= VersionOf(run[j], id)
  {
    hide Next, KeyedCatalog, Inv;
    if i < j {
      VersionsNeverFallInRuns(catalog, run, actions, i, j - 1, id);
      RunKeepsInv(catalog, run, actions, j - 1);
      VersionNeverFalls(catalog, run[j - 1], actions[j - 1], id);
    }
  }

  ghost predicate WinsAt(catalog: Catalog, run: seq<DbState>, actions: seq<Action>, i: nat, expected: Expectation)
    requires i < |actions| < |run|
  {
    && actions[i].Command?
    && ExpectationOf(actions[i].request.call) == Some(expected)
    && Execute(catalog, run[i], actions[i].request, actions[i].ids).1.Executed?
  }

  /**
   Optimistic concurrency: in a run, at most one revise, transition, combined or override command that
   names the same instance and the same expected version succeeds.
   */
  lemma AtMostOneWinner(catalog: Catalog, run: seq<DbState>, actions: seq<Action>, i: nat, j: nat, expected: Expectation)
    requires KeyedCatalog(catalog) && IsRun(catalog, run, actions) && i < |actions| && j < |actions|
    ensures WinsAt(catalog, run, actions, i, expected) && WinsAt(catalog, run, actions, j, expected) ==> i == j
  {
    hide Execute, KeyedCatalog, ExpectationOf;
    if WinsAt(catalog, run, actions, i, expected) && WinsAt(catalog, run, actions, j, expected) {
      SuccessAdvancesByOne(catalog, run[i], actions[i].request, actions[i].ids);
      SuccessAdvancesByOne(catalog, run[j], actions[j].request, actions[j].ids);
      var id := expected.instanceId;
      if i < j {
        VersionsNeverFallInRuns(catalog, run, actions, i + 1, j, id);
      } else if j < i {
        VersionsNeverFallInRuns(catalog, run, actions, j + 1, i, id);
      }
    }
  }

  /** In every state of every run the version counts the events, and the `k`-th event carries sequence `k`. */
  lemma VersionCountsEvents(catalog: Catalog, run: seq<DbState>, actions: seq<Action>, i: nat, id: Uuid)
    requires KeyedCatalog(catalog) && IsRun(catalog, run, actions) && i < |run| && id in run[i].ledgers
    ensures VersionOf(run[i], id) == |run[i].ledgers[id].events| <= I32_MAX
    ensures forall k :: 0 <= k < |run[i].ledgers[id].events| ==> run[i].ledgers[id].events[k].eventSequence == k + 1
  {
    hide KeyedCatalog, IsRun, Coherent, Inv;
    var l := run[i].ledgers[id];
    RunKeepsInv(catalog, run, actions, i);
    CoherentAt(catalog, run[i], id);
    VersionBounded(catalog, l);
    forall k | 0 <= k < |l.events| ensures l.events[k].eventSequence == k + 1 {
      SequenceIsPosition(catalog, l, k);
    }
  }
}
