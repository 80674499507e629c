/**
 The kernel's rules in their own words: who is who in the directory, whom a node's rule designates, and
 which definition versions, submissions and returns are lawful. Nothing here names a function of a command.
 */
module Rules {
  import opened Prelude
  import opened DefinitionModel
  import opened RuntimeModel
  import opened KernelState

  // ----- The directory -----

  predicate Active(d: Directory, principalId: Uuid) {
    principalId in d.principals && d.principals[principalId]
  }

  predicate IsHumanOrAgent(catalog: Catalog, principalId: Uuid) {
    !(principalId in catalog.principalTypes && catalog.principalTypes[principalId] == SERVICE)
  }

  /** A principal without an entry counts as a human. */
  predicate HasType(catalog: Catalog, principalId: Uuid, principalType: PrincipalType) {
    if principalId in catalog.principalTypes then catalog.principalTypes[principalId] == principalType else principalType.HUMAN?
  }

  /** An active human or agent. */
  predicate CanOwnWork(catalog: Catalog, d: Directory, principalId: Uuid) {
    Active(d, principalId) && IsHumanOrAgent(catalog, principalId)
  }

  function DomainBindings(d: Directory, domainId: Uuid): seq<Binding> {
    if domainId in d.bindings then d.bindings[domainId] else []
  }

  predicate Gives(b: Binding, role: Role) {
    b.role == role && b.enabled
  }

  /** Some enabled binding gives the principal the role in the domain. */
  predicate HasRole(d: Directory, domainId: Uuid, principalId: Uuid, role: Role) {
    exists b :: b in DomainBindings(d, domainId) && b.principalId == principalId && Gives(b, role)
  }

  /** Some enabled binding, of whatever role, ties the principal to the domain. */
  predicate BelongsTo(d: Directory, domainId: Uuid, principalId: Uuid) {
    exists b :: b in DomainBindings(d, domainId) && b.principalId == principalId && b.enabled
  }

  /** The domain's only enabled binding of the role is the principal's. */
  predicate IsSole(bindings: seq<Binding>, principalId: Uuid, role: Role) {
    exists i :: 0 <= i < |bindings| && IsSoleAt(bindings, i, role) && bindings[i].principalId == principalId
  }

  predicate IsSoleAt(bindings: seq<Binding>, i: nat, role: Role)
    requires i < |bindings|
  {
    Gives(bindings[i], role) && forall j :: 0 <= j < |bindings| && j != i ==> !Gives(bindings[j], role)
  }

  /** The first enabled owner binding, in the order of the bindings, belongs to an active principal. */
  predicate FirstOwnerIsActive(d: Directory, bindings: seq<Binding>) {
    exists i :: 0 <= i < |bindings| && IsFirstOwnerAt(bindings, i) && Active(d, bindings[i].principalId)
  }

  predicate IsFirstOwnerAt(bindings: seq<Binding>, i: nat)
    requires i < |bindings|
  {
    Gives(bindings[i], DOMAIN_OWNER_ROLE) && forall j :: 0 <= j < i ==> !Gives(bindings[j], DOMAIN_OWNER_ROLE)
  }

  predicate IsOpenDomain(d: Directory, domainId: Uuid) {
    domainId in d.domains && d.domains[domainId]
  }

  /** An active human or agent with an enabled administrator binding in the domain. */
  predicate IsAdministrator(catalog: Catalog, d: Directory, domainId: Uuid, principalId: Uuid) {
    && Active(d, principalId) && IsHumanOrAgent(catalog, principalId)
    && HasRole(d, domainId, principalId, WORKFLOW_ADMIN)
  }

  // ----- Versions -----

  predicate IsPublishedVersion(d: Directory, versionId: Uuid) {
    versionId in d.versionStatus && d.versionStatus[versionId].Published?
  }

  /** Instances of the version go on. */
  predicate IsLiveVersion(d: Directory, versionId: Uuid) {
    versionId in d.versionStatus && (d.versionStatus[versionId].Published? || d.versionStatus[versionId].Deprecated?)
  }

  predicate Satisfies(catalog: Catalog, schema: Option<Json>, payload: Json) {
    schema.Some? ==> catalog.conforms(schema.value, payload)
  }

  const ONE_MIB: nat := 0x10_0000

  // ----- Assignment -----

  /** The directory lets the node's rule designate exactly this assignee for a visit. */
  predicate Designates(d: Directory, n: NodeDefinition, creatorId: Uuid, domainId: Uuid, assignee: Option<Uuid>) {
    if n.nodeType.TERMINAL? then assignee.None?
    else
      && assignee.Some? && n.assigneeRef.Some?
      && match n.assigneeRef.value.refType
         case WORKFLOW_CREATOR => assignee.value == creatorId
         case FIXED_PRINCIPAL => n.assigneeRef.value.fixedPrincipalId == assignee && Active(d, assignee.value)
         case DOMAIN_OWNER => HasRole(d, domainId, assignee.value, DOMAIN_OWNER_ROLE) && Active(d, assignee.value)
  }

  /** The rule finds someone: for an owner the first owner counts, and has to be active. */
  predicate Resolves(d: Directory, rule: Option<AssigneeRef>, domainId: Uuid) {
    && rule.Some?
    && match rule.value.refType
       case WORKFLOW_CREATOR => true
       case FIXED_PRINCIPAL => rule.value.fixedPrincipalId.Some? && Active(d, rule.value.fixedPrincipalId.value)
       case DOMAIN_OWNER => FirstOwnerIsActive(d, DomainBindings(d, domainId))
  }

  /** The rule finds someone for an administrator: whoever it is has to be active, and any active owner counts. */
  predicate ResolvesForAdmin(d: Directory, rule: Option<AssigneeRef>, creatorId: Uuid, domainId: Uuid) {
    && rule.Some?
    && match rule.value.refType
       case WORKFLOW_CREATOR => Active(d, creatorId)
       case FIXED_PRINCIPAL => rule.value.fixedPrincipalId.Some? && Active(d, rule.value.fixedPrincipalId.value)
       case DOMAIN_OWNER =>
         exists b :: b in DomainBindings(d, domainId) && Gives(b, DOMAIN_OWNER_ROLE) && Active(d, b.principalId)
  }

  // ----- Graphs and steps -----

  predicate IsNodeOf(g: WorkflowGraph, n: NodeDefinition, nodeId: Uuid) {
    n in g.nodes && n.nodeId == nodeId
  }

  /** `n` is the graph's one DRAFT node. */
  ghost predicate IsDraftOf(g: WorkflowGraph, n: NodeDefinition) {
    n in g.nodes && n.nodeType.DRAFT? && forall m :: m in g.nodes && m.nodeType.DRAFT? ==> m == n
  }

  /** The runtime takes `t` from `source` to `target`. */
  predicate IsLawfulStep(t: TransitionDefinition, source: NodeDefinition, target: NodeDefinition) {
    && t.sourceNodeId == source.nodeId && t.targetNodeId == target.nodeId
    && match t.transitionEffect
       case ADVANCE => source.primaryAdvanceTransitionId == Some(t.transitionId)
       case RETURN =>
         && source.primaryAdvanceTransitionId != Some(t.transitionId)
         && !target.nodeType.TERMINAL? && target.orderIndex < source.orderIndex
       case TERMINATE => source.primaryAdvanceTransitionId != Some(t.transitionId) && target.nodeType.TERMINAL?
  }

  predicate NamesVisit(l: Ledger, j: Json) {
    j.IdText? && exists v :: v in l.visits && v.nodeVisitId == j.id
  }

  predicate NamesSubmission(l: Ledger, j: Json) {
    j.IdText? && exists s :: s in l.submissions && s.submissionId == j.id
  }

  /** A RETURN's payload: a reason, its code, a visit of the instance as its cause, and submissions of the instance. */
  predicate IsLawfulReturn(l: Ledger, payload: Json) {
    && payload.Object?
    && "reason" in payload.fields && "reasonCode" in payload.fields
    && "rootCauseNodeVisitId" in payload.fields && NamesVisit(l, payload.fields["rootCauseNodeVisitId"])
    && ("relatedSubmissionIds" in payload.fields && payload.fields["relatedSubmissionIds"].Array? ==>
          forall j :: j in payload.fields["relatedSubmissionIds"].items ==> NamesSubmission(l, j))
  }

  /** A submission for `t`, or none. */
  predicate IsLawfulSubmission(catalog: Catalog, l: Ledger, t: TransitionDefinition, payload: Option<Json>) {
    if payload.None? then t.submissionSchema.None?
    else
      && catalog.sizeOf(payload.value) <= ONE_MIB && Satisfies(catalog, t.submissionSchema, payload.value)
      && (t.transitionEffect.RETURN? ==> IsLawfulReturn(l, payload.value))
  }

  // ----- The payload of an override -----

  predicate IsControlCharacter(c: char) {
    c as int < 0x20 || 0x7f <= c as int < 0xa0
  }

  /** Unicode's White_Space property. */
  predicate IsWhiteSpace(c: char) {
    || 0x9 <= c as int <= 0xd || 0x2000 <= c as int <= 0x200a
    || c as int in {0x20, 0x85, 0xa0, 0x1680, 0x2028, 0x2029, 0x202f, 0x205f, 0x3000}
  }

  /** How many characters have at least this code point. */
  function CountFrom(s: string, codePoint: int): nat {
    if s == "" then 0 else (if s[0] as int >= codePoint then 1 else 0) + CountFrom(s[1..], codePoint)
  }

  /** The size in UTF-8: each character takes a byte, and one more for each boundary that it passes. */
  function ByteSize(s: string): nat {
    |s| + CountFrom(s, 0x80) + CountFrom(s, 0x800) + CountFrom(s, 0x1_0000)
  }

  predicate HasNoControls(s: string) {
    forall i :: 0 <= i < |s| ==> !IsControlCharacter(s[i])
  }

  /** 1 to 2000 characters without controls, and no white space at either end. */
  predicate IsBoundedReason(reason: string) {
    && 1 <= |reason| <= 2000 && HasNoControls(reason)
    && !IsWhiteSpace(reason[0]) && !IsWhiteSpace(reason[|reason| - 1])
  }

  predicate IsBoundedName(s: string, bytes: nat) {
    |s| > 0 && ByteSize(s) <= bytes && HasNoControls(s)
  }

  predicate AreBoundedReferences(references: seq<RelatedReference>) {
    && |references| <= 20
    && forall i :: 0 <= i < |references| ==>
                     IsBoundedName(references[i].resourceType, 128) && IsBoundedName(references[i].resourceId, 256)
  }

  // ----- Where an instance stands -----

  /** The instance's pointer names this visit. */
  predicate IsCurrentVisit(l: Ledger, v: VisitFact) {
    v in l.visits && l.instance.projection.currentNodeVisitId == Some(v.nodeVisitId)
  }

  predicate IsCurrentContext(l: Ledger, c: ContextFact) {
    c in l.contexts && l.instance.projection.currentContextRevisionId == Some(c.contextRevisionId)
  }
}
