/**
 The two halves together: the definition tables and the kernel run side by side, and the kernel reads the
 graphs and statuses that the definition tables hold. What the publish protocol certifies is then true of
 every definition that an instance runs on, and no theorem about instances has to assume it.
 */
module Composition {
  import opened Prelude
  import opened DefinitionModel
  import opened GraphRules
  import opened GraphProgress
  import opened CanonicalDigest
  import opened RuntimeModel
  import opened KernelState
  import opened EventReplay
  import opened Snapshot
  import opened Commands
  import opened Pipeline
  import opened KernelRuns
  import opened RunLength
  import Publish

  // ----- An instance's version was published when the instance was made -----

  /** The directory has the version as published. */
  predicate IsPublished(d: Directory, versionId: Uuid) {
    versionId in d.versionStatus && d.versionStatus[versionId].Published?
  }

  lemma CreationIsPublished(env: Env, cmd: CreateCommand)
    requires CheckCreate(env, cmd).Go?
    ensures IsPublished(env.directory, cmd.definitionVersionId)
  {
    hide DomainEnabled, PrincipalEnabled, IsMember, ReadDraftNode, ResolveRule, ConformsTo;
  }

  lemma ImportIsPublished(env: Env, ledgers: map<Uuid, Ledger>, cmd: ImportCommand)
    requires CheckImport(env, ledgers, cmd).Go?
    ensures IsPublished(env.directory, cmd.definitionVersionId)
  {
    hide DomainEnabled, PrincipalEnabled, IsSoleMigrator, CheckSnapshot, CheckDomainKey, ImportCreator, ImportAssignee,
         ConformsTo, NodeOf, ReferenceUsed;
  }

  lemma DecisionIsPublished(env: Env, st: DbState, call: Call, ids: FreshIds, id: Uuid)
    requires Decide(env, st, call, ids).Go? && WriteFits(st.ledgers, Decide(env, st, call, ids).value.write)
    requires id in ApplyWrite(st.ledgers, Decide(env, st, call, ids).value.write)
    ensures var row := ApplyWrite(st.ledgers, Decide(env, st, call, ids).value.write)[id].instance;
      || (id in st.ledgers && row.definitionVersionId == st.ledgers[id].instance.definitionVersionId)
      || IsPublished(env.directory, row.definitionVersionId)
  {
    hide CheckCreate, CheckImport, CheckRevise, CheckTransition, CheckCombined, CheckOverride, CheckRebuild, IsPublished,
         LedgerInsertable, EntryInsertable, TransitionEntry, CombinedEntry, ReviseEntry, OverrideEntry;
    match call
    case Create(c) => CreationIsPublished(env, c);
    case Import(c) => ImportIsPublished(env, st.ledgers, c);
    case _ =>
  }

  lemma StepIsPublished(catalog: Catalog, st: DbState, a: Action, id: Uuid)
    requires id in Next(catalog, st, a).ledgers
    ensures var versionId := Next(catalog, st, a).ledgers[id].instance.definitionVersionId;
      || (id in st.ledgers && versionId == st.ledgers[id].instance.definitionVersionId)
      || IsPublished(st.directory, versionId)
  {
    hide Decide, WriteFits, ApplyWrite, Answer, FindReceipt, FindCommand, Precheck, StatusCode, FailureBodyOf, IsPublished;
    if a.Command? {
      var env := Env(catalog, st.directory);
      var decision := Decide(env, st, a.request.call, a.ids);
      if decision.Go? && WriteFits(st.ledgers, decision.value.write)
         && id in ApplyWrite(st.ledgers, decision.value.write) {
        DecisionIsPublished(env, st, a.request.call, a.ids, id);
      }
    }
  }

  lemma {:induction false} VersionWasPublished(catalog: Catalog, run: seq<DbState>, actions: seq<Action>, i: nat, id: Uuid)
    returns (j: nat)
    requires IsRun(catalog, run, actions) && i < |run| && id in run[i].ledgers
    ensures j < i && IsPublished(run[j].directory, run[i].ledgers[id].instance.definitionVersionId)
  {
    hide Next, IsPublished;
    j := 0;
    if i > 0 {
      StepIsPublished(catalog, run[i - 1], actions[i - 1], id);
      if IsPublished(run[i - 1].directory, run[i].ledgers[id].instance.definitionVersionId) {
        j := i - 1;
      } else {
        j := VersionWasPublished(catalog, run, actions, i - 1, id);
      }
    }
  }

  // ----- Both runs side by side -----

  /** The kernel reads the statuses that the definition tables hold. */
  predicate StatusesAgree(d: Directory, versions: Publish.Versions) {
    && d.versionStatus.Keys == versions.Keys
    && forall v :: v in versions ==> d.versionStatus[v] == versions[v].status
  }

  /** The catalog holds the rows of the definition tables. */
  predicate Catalogues(catalog: Catalog, versions: Publish.Versions) {
    && catalog.versions.Keys == versions.Keys
    && forall v :: v in versions ==> CataloguesRow(catalog.versions[v], versions[v])
  }

  predicate CataloguesRow(entry: VersionEntry, row: Publish.VersionRow) {
    && entry.graph == row.graph
    && entry.digest == (if row.digest.Some? then Some(OfDefinition(row.digest.value)) else None)
  }

  /**
   A run of the definition tables and a run of the kernel: `at` says how far the tables have come at each
   kernel state. The catalog is the last state of the tables, since rows do not change once they left DRAFT;
   a version that is created later reads as not published rather than as not found.
   */
  ghost predicate SideBySide(isSchema: Json -> bool, stores: seq<Publish.Store>, steps: seq<Publish.Step>, catalog: Catalog,
                             run: seq<DbState>, actions: seq<Action>, at: seq<nat>)
  {
    && Publish.IsRun(isSchema, stores, steps) && IsRun(catalog, run, actions)
    && Catalogues(catalog, stores[|stores| - 1].versions)
    && |at| == |run|
    && forall i :: 0 <= i < |run| ==> at[i] < |stores| && StatusesAgree(run[i].directory, stores[at[i]].versions)
  }

  lemma TablesAreKeyed(isSchema: Json -> bool, stores: seq<Publish.Store>, steps: seq<Publish.Step>, catalog: Catalog)
    requires Publish.IsRun(isSchema, stores, steps) && Catalogues(catalog, stores[|stores| - 1].versions)
    ensures KeyedCatalog(catalog)
  {
    Publish.RunKeepsInv(isSchema, stores, steps, |stores| - 1);
    hide Publish.IsRun, UniqueNodeIds;
    var versions := stores[|stores| - 1].versions;
    forall v | v in catalog.versions
      ensures UniqueNodeIds(catalog.versions[v].graph.nodes) && UniqueTransitionIds(catalog.versions[v].graph.transitions)
    {
      assert CataloguesRow(catalog.versions[v], versions[v]) && Publish.ValidRow(isSchema, versions[v]);
    }
  }

  /** What every definition that an instance runs on promises. */
  ghost predicate RunsOnCertified(isSchema: Json -> bool, catalog: Catalog, versionId: Uuid) {
    var g := GraphOf(catalog, versionId);
    && versionId in catalog.versions && Validated(g) && UniqueRows(g) && Publish.SchemasLegal(isSchema, g)
    && exists header :: catalog.versions[versionId].digest == Some(OfDefinition(ComputeDigest(header, g)))
  }

  /**
   In every kernel state beside every interleaving of publications, replacements and lifecycle changes,
   every instance runs on a graph that the validator accepts, with unique rows and legal schemas, and
   the catalog's digest is that of this graph.
   */
  lemma InstancesRunOnCertifiedDefinitions(isSchema: Json -> bool, stores: seq<Publish.Store>, steps: seq<Publish.Step>,
                                           catalog: Catalog, run: seq<DbState>, actions: seq<Action>, at: seq<nat>, i: nat,
                                           id: Uuid)
    ensures SideBySide(isSchema, stores, steps, catalog, run, actions, at) && i < |run| && id in run[i].ledgers ==>
              KeyedCatalog(catalog) && RunsOnCertified(isSchema, catalog, run[i].ledgers[id].instance.definitionVersionId)
  {
    if !(SideBySide(isSchema, stores, steps, catalog, run, actions, at) && i < |run| && id in run[i].ledgers) {
      return;
    }
    var versionId := run[i].ledgers[id].instance.definitionVersionId;
    var last := |stores| - 1;
    var j := VersionWasPublished(catalog, run, actions, i, id);
    assert StatusesAgree(run[j].directory, stores[at[j]].versions);
    Publish.PublishedVersionsAreFrozen(isSchema, stores, steps, at[j], last, versionId);
    Publish.PublishedVersionsAreCertified(isSchema, stores, steps, last, versionId);
    Publish.RunKeepsInv(isSchema, stores, steps, last);
    TablesAreKeyed(isSchema, stores, steps, catalog);
    hide Accepts, KeyedCatalog, Publish.SchemasLegal, ComputeDigest, IsRun, Publish.IsRun;
    var row := stores[last].versions[versionId];
    assert CataloguesRow(catalog.versions[versionId], row) && Publish.ValidRow(isSchema, row);
    assert catalog.versions[versionId].digest == Some(OfDefinition(ComputeDigest(row.header, row.graph)));
  }

  /** For example the bound on transitions, without assuming that the definition is validated. */
  lemma EveryRunIsBounded(isSchema: Json -> bool, stores: seq<Publish.Store>, steps: seq<Publish.Step>, catalog: Catalog,
                          run: seq<DbState>, actions: seq<Action>, at: seq<nat>, i: nat, id: Uuid)
    ensures SideBySide(isSchema, stores, steps, catalog, run, actions, at) && i < |run| && id in run[i].ledgers
            && !Overridden(run[i].ledgers[id].events) ==>
              var l := run[i].ledgers[id];
              TransitionCount(l.events)
              < (ReturnCount(l.events) + 1) * |GraphOf(catalog, l.instance.definitionVersionId).nodes|
  {
    if !(SideBySide(isSchema, stores, steps, catalog, run, actions, at) && i < |run| && id in run[i].ledgers
         && !Overridden(run[i].ledgers[id].events)) {
      return;
    }
    InstancesRunOnCertifiedDefinitions(isSchema, stores, steps, catalog, run, actions, at, i, id);
    hide IsRun, KeyedCatalog, Validated, GraphOf, Publish.IsRun, Catalogues, Publish.SchemasLegal, UniqueRows;
    RunLengthBound(catalog, run, actions, i, id);
  }
}
