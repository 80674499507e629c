/**
 The kernel's tables as one value, the environment that commands read, and the writes that a
 transaction can commit. A write that breaks a key, a unique index or a check is rolled back.
 */
module KernelState {
  import opened Prelude
  import opened DefinitionModel
  import opened RuntimeModel

  // ----- What commands read -----

  /** A definition version as the runtime sees it. It never changes once the version left DRAFT. */
  datatype VersionEntry = VersionEntry(domainId: Uuid, digest: Option<Digest>, graph: WorkflowGraph)

  /**
   Everything fixed: published definitions, domain keys, principal types, and two functions of libraries outside
   the model: JSON Schema conformance and the serialized size of a value.
   */
  datatype Catalog = Catalog(
    versions: map<Uuid, VersionEntry>,
    domainKeys: map<Uuid, string>,
    principalTypes: map<Uuid, PrincipalType>,
    conforms: (Json, Json) -> bool,
    sizeOf: Json -> nat)

  datatype Role = DOMAIN_OWNER_ROLE | WORKFLOW_ADMIN | WORKFLOW_MIGRATION | OTHER_ROLE

  datatype Binding = Binding(principalId: Uuid, role: Role, enabled: bool)

  /** Everything that other parts of the system change between commands. */
  datatype Directory = Directory(
    versionStatus: map<Uuid, VersionStatus>,
    principals: map<Uuid, bool>,
    domains: map<Uuid, bool>,
    bindings: map<Uuid, seq<Binding>>)

  datatype DbState = DbState(directory: Directory, ledgers: map<Uuid, Ledger>, receipts: seq<Receipt>)

  /** Every instance refers to a version of the catalog, and lookups by id find rows of that id. */
  function GraphOf(catalog: Catalog, versionId: Uuid): WorkflowGraph {
    if versionId in catalog.versions then catalog.versions[versionId].graph else WorkflowGraph([], [], None)
  }

  function NodeOf(catalog: Catalog, versionId: Uuid, nodeId: Uuid): (n: Option<NodeDefinition>)
    ensures n.Some? ==> n.value.nodeId == nodeId && n.value in GraphOf(catalog, versionId).nodes
  {
    var nodes := NodesById(GraphOf(catalog, versionId).nodes);
    if nodeId in nodes then Some(nodes[nodeId]) else None
  }

  function TransitionOf(catalog: Catalog, versionId: Uuid, transitionId: Uuid): (t: Option<TransitionDefinition>)
    ensures t.Some? ==> t.value.transitionId == transitionId && t.value in GraphOf(catalog, versionId).transitions
  {
    var transitions := TransitionsById(GraphOf(catalog, versionId).transitions);
    if transitionId in transitions then Some(transitions[transitionId]) else None
  }

  function DefinitionDigest(catalog: Catalog, versionId: Uuid): Option<Digest> {
    if versionId in catalog.versions then catalog.versions[versionId].digest else None
  }

  function PrincipalTypeOf(catalog: Catalog, principalId: Uuid): PrincipalType {
    if principalId in catalog.principalTypes then catalog.principalTypes[principalId] else HUMAN
  }

  function BindingsOf(directory: Directory, domainId: Uuid): seq<Binding> {
    if domainId in directory.bindings then directory.bindings[domainId] else []
  }

  predicate IsEnabled(directory: Directory, principalId: Uuid) {
    principalId in directory.principals && directory.principals[principalId]
  }

  /** The first enabled binding of the role; which one comes first is the database's choice. */
  function FirstHolder(bindings: seq<Binding>, role: Role): (b: Option<Binding>)
    ensures b.Some? ==> b.value in bindings && b.value.enabled && b.value.role == role
    ensures b.None? ==> forall x :: x in bindings ==> !(x.enabled && x.role == role)
  {
    if bindings == [] then None
    else if bindings[0].enabled && bindings[0].role == role then Some(bindings[0])
    else FirstHolder(bindings[1..], role)
  }

  // ----- Reading a ledger -----

  function CurrentVisit(l: Ledger): Option<VisitFact> {
    Lookup(VisitsById(l.visits), l.instance.projection.currentNodeVisitId)
  }

  function CurrentContext(l: Ledger): Option<ContextFact> {
    Lookup(ContextsById(l.contexts), l.instance.projection.currentContextRevisionId)
  }

  /** `MAX(visit_number)` of a node's visits, 0 when there is none. */
  function MaxVisitNumber(visits: seq<VisitFact>, nodeId: Uuid): int {
    if visits == [] then 0
    else
      var last, before := visits[|visits| - 1], MaxVisitNumber(visits[..|visits| - 1], nodeId);
      if last.nodeId == nodeId && last.visitNumber > before then last.visitNumber else before
  }

  // ----- Writes -----

  /** The rows that one command appends to a ledger, and the projection it leaves. */
  datatype Entry = Entry(
    context: Option<ContextFact>,
    submission: Option<SubmissionFact>,
    visit: Option<VisitFact>,
    event: EventFact,
    projection: Projection)

  function Optionally<T>(o: Option<T>): seq<T> {
    if o.Some? then [o.value] else []
  }

  function Append(l: Ledger, e: Entry): Ledger {
    Ledger(l.instance.(projection := e.projection),
           l.contexts + Optionally(e.context),
           l.visits + Optionally(e.visit),
           l.submissions + Optionally(e.submission),
           l.events + [e.event])
  }

  datatype Write =
    | CreateLedger(ledger: Ledger)
    | AppendEntry(instanceId: Uuid, entry: Entry)
    | SetProjection(instanceId: Uuid, projection: Projection)
    | NoWrite

  predicate ContextIdUsed(ledgers: map<Uuid, Ledger>, id: Uuid) {
    exists k :: k in ledgers && exists c :: c in ledgers[k].contexts && c.contextRevisionId == id
  }

  predicate VisitIdUsed(ledgers: map<Uuid, Ledger>, id: Uuid) {
    exists k :: k in ledgers && exists v :: v in ledgers[k].visits && v.nodeVisitId == id
  }

  predicate SubmissionIdUsed(ledgers: map<Uuid, Ledger>, id: Uuid) {
    exists k :: k in ledgers && exists s :: s in ledgers[k].submissions && s.submissionId == id
  }

  predicate SourceVisitUsed(ledgers: map<Uuid, Ledger>, visitId: Uuid) {
    exists k :: k in ledgers && exists s :: s in ledgers[k].submissions && s.sourceNodeVisitId == visitId
  }

  predicate EventIdUsed(ledgers: map<Uuid, Ledger>, id: Uuid) {
    exists k :: k in ledgers && exists e :: e in ledgers[k].events && e.eventId == id
  }

  predicate CommandIdUsed(ledgers: map<Uuid, Ledger>, id: Uuid) {
    exists k :: k in ledgers && exists e :: e in ledgers[k].events && e.commandId == Some(id)
  }

  predicate IsPositiveI32(n: int) {
    1 <= n <= I32_MAX
  }

  predicate ContextInsertable(ledgers: map<Uuid, Ledger>, existing: seq<ContextFact>, c: ContextFact) {
    && !ContextIdUsed(ledgers, c.contextRevisionId)
    && IsPositiveI32(c.revisionNumber)
    && forall x :: x in existing ==> x.revisionNumber != c.revisionNumber
  }

  /** The assignee trigger: a terminal visit has none, any other has one. */
  predicate VisitInsertable(ledgers: map<Uuid, Ledger>, existing: seq<VisitFact>, v: VisitFact) {
    && !VisitIdUsed(ledgers, v.nodeVisitId)
    && IsPositiveI32(v.visitNumber)
    && (v.nodeType.TERMINAL? <==> v.assigneePrincipalId.None?)
    && forall x :: x in existing ==> x.nodeId != v.nodeId || x.visitNumber != v.visitNumber
  }

  predicate SubmissionInsertable(ledgers: map<Uuid, Ledger>, s: SubmissionFact) {
    !SubmissionIdUsed(ledgers, s.submissionId) && !SourceVisitUsed(ledgers, s.sourceNodeVisitId)
  }

  predicate EventInsertable(ledgers: map<Uuid, Ledger>, existing: seq<EventFact>, e: EventFact) {
    && !EventIdUsed(ledgers, e.eventId)
    && (e.commandId.Some? ==> !CommandIdUsed(ledgers, e.commandId.value))
    && IsPositiveI32(e.newWorkflowStateVersion)
    && e.newWorkflowStateVersion == e.oldWorkflowStateVersion + 1
    && e.eventSequence == e.newWorkflowStateVersion
    && forall x :: x in existing ==> x.eventSequence != e.eventSequence
  }

  predicate EntryInsertable(ledgers: map<Uuid, Ledger>, l: Ledger, e: Entry) {
    && (e.context.Some? ==> ContextInsertable(ledgers, l.contexts, e.context.value))
    && (e.submission.Some? ==> SubmissionInsertable(ledgers, e.submission.value))
    && (e.visit.Some? ==> VisitInsertable(ledgers, l.visits, e.visit.value))
    && EventInsertable(ledgers, l.events, e.event)
    && IsPositiveI32(e.projection.workflowStateVersion)
  }

  /** A new instance: one context, one visit and one event, all of them insertable. */
  predicate LedgerInsertable(ledgers: map<Uuid, Ledger>, l: Ledger) {
    && l.instance.workflowInstanceId !in ledgers
    && |l.contexts| == |l.visits| == |l.events| == 1 && l.submissions == []
    && ContextInsertable(ledgers, [], l.contexts[0])
    && VisitInsertable(ledgers, [], l.visits[0])
    && EventInsertable(ledgers, [], l.events[0])
  }

  predicate WriteFits(ledgers: map<Uuid, Ledger>, w: Write) {
    match w
    case CreateLedger(l) => LedgerInsertable(ledgers, l)
    case AppendEntry(id, e) => id in ledgers && EntryInsertable(ledgers, ledgers[id], e)
    case SetProjection(id, p) => id in ledgers && IsPositiveI32(p.workflowStateVersion)
    case NoWrite => true
  }

  function ApplyWrite(ledgers: map<Uuid, Ledger>, w: Write): map<Uuid, Ledger>
    requires WriteFits(ledgers, w)
  {
    match w
    case CreateLedger(l) => ledgers[l.instance.workflowInstanceId := l]
    case AppendEntry(id, e) => ledgers[id := Append(ledgers[id], e)]
    case SetProjection(id, p) => ledgers[id := ledgers[id].(instance := ledgers[id].instance.(projection := p))]
    case NoWrite => ledgers
  }

  // ----- Verdicts -----

  /** The result of a command's checks: go on, refuse with a stored failure, or abort with a rollback. */
  datatype Verdict<+T> = Go(value: T) | Refuse(error: CommandError) | Abort(error: CommandError) {
    predicate IsFailure() {
      !Go?
    }

    function PropagateFailure<U>(): Verdict<U>
      requires IsFailure()
    {
      if Refuse? then Refuse(error) else Abort(error)
    }

    function Extract(): T
      requires Go?
    {
      value
    }
  }

  function Require(condition: bool, error: CommandError): Verdict<()> {
    if condition then Go(()) else Refuse(error)
  }

  // ----- Receipts -----

  function FindReceipt(receipts: seq<Receipt>, principalId: Uuid, key: Key): (r: Option<Receipt>)
    ensures r.Some? ==> r.value in receipts && r.value.principalId == principalId && r.value.key == key
    ensures r.None? ==> forall x :: x in receipts ==> x.principalId != principalId || x.key != key
  {
    if receipts == [] then None
    else
      var last := receipts[|receipts| - 1];
      if last.principalId == principalId && last.key == key then Some(last)
      else FindReceipt(receipts[..|receipts| - 1], principalId, key)
  }

  function FindCommand(receipts: seq<Receipt>, commandId: Uuid): (r: Option<Receipt>)
    ensures r.Some? ==> r.value in receipts && r.value.commandId == commandId
    ensures r.None? ==> forall x :: x in receipts ==> x.commandId != commandId
  {
    if receipts == [] then None
    else
      var last := receipts[|receipts| - 1];
      if last.commandId == commandId then Some(last) else FindCommand(receipts[..|receipts| - 1], commandId)
  }
}
