/** The lookups and checks that the commands share, against the rules. */
module Resolution {
  import opened Prelude
  import opened DefinitionModel
  import opened RuntimeModel
  import opened KernelState
  import opened EventReplay
  import opened Snapshot
  import opened Commands
  import opened Rules

  // ----- Roles -----

  lemma {:induction false} FirstHolderIsFirst(d: Directory, bindings: seq<Binding>)
    ensures var first := FirstHolder(bindings, DOMAIN_OWNER_ROLE);
      FirstOwnerIsActive(d, bindings) <==> first.Some? && IsEnabled(d, first.value.principalId)
  {
    if bindings != [] {
      var rest := bindings[1..];
      FirstHolderIsFirst(d, rest);
      if Gives(bindings[0], DOMAIN_OWNER_ROLE) {
        assert IsFirstOwnerAt(bindings, 0);
      } else {
        forall i | 0 <= i < |rest|
          ensures IsFirstOwnerAt(rest, i) <==> IsFirstOwnerAt(bindings, i + 1)
        {
          assert forall j :: 0 <= j < i ==> rest[j] == bindings[j + 1];
        }
        if FirstOwnerIsActive(d, rest) {
          var i :| 0 <= i < |rest| && IsFirstOwnerAt(rest, i) && Active(d, rest[i].principalId);
          assert IsFirstOwnerAt(bindings, i + 1) && Active(d, bindings[i + 1].principalId);
        }
        if FirstOwnerIsActive(d, bindings) {
          var i :| 0 <= i < |bindings| && IsFirstOwnerAt(bindings, i) && Active(d, bindings[i].principalId);
          assert IsFirstOwnerAt(rest, i - 1) && Active(d, rest[i - 1].principalId);
        }
      }
    }
  }

  lemma {:induction false} EnabledHoldersAre(d: Directory, bindings: seq<Binding>)
    ensures forall b :: b in EnabledHolders(d, bindings) <==> b in bindings && IsEnabled(d, b.principalId)
  {
    if bindings != [] {
      EnabledHoldersAre(d, bindings[1..]);
    }
  }

  lemma {:induction false} HoldersAre(bindings: seq<Binding>, role: Role)
    ensures forall b :: b in Holders(bindings, role) <==> b in bindings && Gives(b, role)
    ensures (forall b :: b in bindings ==> !Gives(b, role)) ==> Holders(bindings, role) == []
  {
    if bindings != [] {
      HoldersAre(bindings[1..], role);
      assert bindings[0] in bindings && forall b :: b in bindings[1..] ==> b in bindings;
    }
  }

  lemma {:induction false} OneHolder(bindings: seq<Binding>, principalId: Uuid, role: Role)
    ensures IsSole(bindings, principalId, role)
       <==> |Holders(bindings, role)| == 1 && Holders(bindings, role)[0].principalId == principalId
  {
    if bindings != [] {
      var rest := bindings[1..];
      HoldersAre(rest, role);
      OneHolder(rest, principalId, role);
      if Gives(bindings[0], role) {
        if IsSole(bindings, principalId, role) {
          var i :| 0 <= i < |bindings| && IsSoleAt(bindings, i, role) && bindings[i].principalId == principalId;
          assert i == 0;
          assert forall b :: b in rest ==> !Gives(b, role);
        }
        if |Holders(bindings, role)| == 1 && bindings[0].principalId == principalId {
          assert Holders(rest, role) == [];
          assert forall j :: 0 <= j < |rest| ==> rest[j] in rest;
          assert IsSoleAt(bindings, 0, role);
        }
      } else {
        SoleInRest(bindings, principalId, role);
      }
    }
  }

  lemma SoleInRest(bindings: seq<Binding>, principalId: Uuid, role: Role)
    requires bindings != [] && !Gives(bindings[0], role)
    ensures IsSole(bindings, principalId, role) <==> IsSole(bindings[1..], principalId, role)
  {
    var rest := bindings[1..];
    if IsSole(bindings, principalId, role) {
      var i :| 0 <= i < |bindings| && IsSoleAt(bindings, i, role) && bindings[i].principalId == principalId;
      assert IsSoleAt(rest, i - 1, role);
    }
    if IsSole(rest, principalId, role) {
      var i :| 0 <= i < |rest| && IsSoleAt(rest, i, role) && rest[i].principalId == principalId;
      forall j | 0 <= j < |bindings| && j != i + 1
        ensures !Gives(bindings[j], role)
      {
        assert j > 0 ==> bindings[j] == rest[j - 1];
      }
      assert IsSoleAt(bindings, i + 1, role);
    }
  }

  // ----- Assignees, submissions and steps -----

  /** Assignee resolution finds someone exactly when the rule resolves, and then someone whom it designates. */
  lemma ResolutionIsDesignation(d: Directory, target: NodeDefinition, creatorId: Uuid, domainId: Uuid)
    ensures ResolveAssignee(d, target, creatorId, domainId).Go?
       <==> target.nodeType.TERMINAL? || Resolves(d, target.assigneeRef, domainId)
    ensures ResolveAssignee(d, target, creatorId, domainId).Go? ==>
              Designates(d, target, creatorId, domainId, ResolveAssignee(d, target, creatorId, domainId).value)
  {
    hide FirstHolder, FirstOwnerIsActive;
    FirstHolderIsFirst(d, BindingsOf(d, domainId));
  }

  lemma AdminCandidateIsDesignation(env: Env, n: NodeDefinition, creatorId: Uuid, domainId: Uuid)
    requires !n.nodeType.TERMINAL?
    ensures var candidate := AdminCandidate(env, n.assigneeRef, creatorId, domainId);
      && (candidate.Go? && IsEnabled(env.directory, candidate.value)
          <==> ResolvesForAdmin(env.directory, n.assigneeRef, creatorId, domainId))
      && (candidate.Go? && IsEnabled(env.directory, candidate.value) ==>
            Designates(env.directory, n, creatorId, domainId, Some(candidate.value)))
  {
    hide FirstHolder, EnabledHolders;
    EnabledHoldersAre(env.directory, BindingsOf(env.directory, domainId));
  }

  lemma ReturnsAgree(l: Ledger, payload: Json)
    ensures ReturnReferencesHold(l, payload) <==> IsLawfulReturn(l, payload)
  {
    hide VisitsById, SubmissionsById;
    assert forall id :: id in VisitsById(l.visits) <==> exists v :: v in l.visits && v.nodeVisitId == id;
    assert forall id :: id in SubmissionsById(l.submissions) <==> exists s :: s in l.submissions && s.submissionId == id;
  }

  lemma SubmissionsAgree(catalog: Catalog, l: Ledger, t: TransitionDefinition, payload: Option<Json>)
    ensures SubmissionFitsSchema(catalog, l, t, payload).Go? <==> IsLawfulSubmission(catalog, l, t, payload)
  {
    hide ReturnReferencesHold, IsLawfulReturn;
    if payload.Some? {
      ReturnsAgree(l, payload.value);
    }
  }

  lemma StepsAgree(t: TransitionDefinition, source: NodeDefinition, target: NodeDefinition)
    requires t.sourceNodeId == source.nodeId && t.targetNodeId == target.nodeId
    ensures EffectFits(source, t).Go? && TargetFits(source, t, target).Go? <==> IsLawfulStep(t, source, target)
  {
  }

  // ----- Administration -----

  /** The instance exists, its version has a status, and the principal administers the instance's domain. */
  predicate LawfulAdministration(catalog: Catalog, d: Directory, ledgers: map<Uuid, Ledger>, instanceId: Uuid, principalId: Uuid) {
    && instanceId in ledgers
    && ledgers[instanceId].instance.definitionVersionId in d.versionStatus
    && IsAdministrator(catalog, d, ledgers[instanceId].instance.domainId, principalId)
  }

  /** An administrator is let in exactly when entitled. */
  lemma AdministratorAdmitted(env: Env, ledgers: map<Uuid, Ledger>, instanceId: Uuid, principalId: Uuid)
    ensures CheckAdmin(env, ledgers, instanceId, principalId).Go?
       <==> LawfulAdministration(env.catalog, env.directory, ledgers, instanceId, principalId)
  {
    if instanceId in ledgers {
      assert BindingsOf(env.directory, ledgers[instanceId].instance.domainId)
          == DomainBindings(env.directory, ledgers[instanceId].instance.domainId);
    }
  }

  lemma AdministeredLedger(env: Env, ledgers: map<Uuid, Ledger>, instanceId: Uuid, principalId: Uuid)
    requires CheckAdmin(env, ledgers, instanceId, principalId).Go?
    ensures instanceId in ledgers && CheckAdmin(env, ledgers, instanceId, principalId).value == ledgers[instanceId]
    ensures ledgers[instanceId].instance.definitionVersionId in env.directory.versionStatus
  {
  }

  /** The digest that the caller expects, if any, is a digest and that of the stored projection. */
  predicate ExpectsSnapshot(l: Ledger, expected: Option<Digest>) {
    expected.Some? ==>
      expected.value == OfSnapshot(BeforeSnapshot(l.instance.workflowInstanceId, l.instance.domainId,
                                                  l.instance.definitionVersionId, l.instance.createdByPrincipalId,
                                                  l.instance.projection))
  }

  lemma ExpectationAgrees(l: Ledger, expected: Option<Digest>)
    ensures ExpectDigest(expected, SnapshotDigest(l)).Go? <==> ExpectsSnapshot(l, expected)
  {
  }

  /** The operation fits the target, and someone is designated there unless the target is terminal. */
  predicate LawfulMove(d: Directory, l: Ledger, operation: AdminOperation, target: NodeDefinition) {
    && (operation.TERMINATE_INSTANCE? <==> target.nodeType.TERMINAL?)
    && (target.nodeType.TERMINAL?
        || ResolvesForAdmin(d, target.assigneeRef, l.instance.createdByPrincipalId, l.instance.domainId))
  }

  lemma MoveAgrees(env: Env, l: Ledger, operation: AdminOperation, target: NodeDefinition)
    ensures AdminTarget(env, l, operation, target).Go? <==> LawfulMove(env.directory, l, operation, target)
    ensures AdminTarget(env, l, operation, target).Go? ==>
              Designates(env.directory, target, l.instance.createdByPrincipalId, l.instance.domainId,
                         AdminTarget(env, l, operation, target).value)
  {
    hide AdminCandidate, ResolvesForAdmin;
    if !target.nodeType.TERMINAL? {
      AdminCandidateIsDesignation(env, target, l.instance.createdByPrincipalId, l.instance.domainId);
    }
  }

  // ----- The payload of an override -----

  lemma {:induction false} SizesAgree(s: string)
    ensures Utf8Length(s) == ByteSize(s)
  {
    if s != "" {
      SizesAgree(s[1..]);
    }
  }

  lemma CharactersAgree(c: char)
    ensures IsControl(c) <==> IsControlCharacter(c)
    ensures IsBlank(c) <==> IsWhiteSpace(c)
  {
  }

  lemma ControlsAgree(s: string)
    ensures (forall c :: c in s ==> !IsControl(c)) <==> HasNoControls(s)
  {
    hide IsControl, IsControlCharacter;
    forall c: char
      ensures IsControl(c) <==> IsControlCharacter(c)
    {
      CharactersAgree(c);
    }
  }

  lemma NamesAgree(s: string, bytes: nat)
    ensures FieldBounded(s, bytes) <==> IsBoundedName(s, bytes)
  {
    hide Utf8Length, ByteSize, HasNoControls, IsControl;
    SizesAgree(s);
    ControlsAgree(s);
  }

  lemma PayloadBoundsAgree(reason: string, references: seq<RelatedReference>)
    ensures AdminPayloadBounded(reason, references) <==> IsBoundedReason(reason) && AreBoundedReferences(references)
  {
    hide FieldBounded, IsBoundedName, HasNoControls, IsBlank, IsWhiteSpace, IsControl;
    ControlsAgree(reason);
    if reason != "" {
      CharactersAgree(reason[0]);
      CharactersAgree(reason[|reason| - 1]);
    }
    forall i | 0 <= i < |references|
      ensures FieldBounded(references[i].resourceType, 128) <==> IsBoundedName(references[i].resourceType, 128)
      ensures FieldBounded(references[i].resourceId, 256) <==> IsBoundedName(references[i].resourceId, 256)
    {
      NamesAgree(references[i].resourceType, 128);
      NamesAgree(references[i].resourceId, 256);
    }
  }

  // ----- Import -----

  /** A legacy creator who can own work, or otherwise the domain's one owner, who has to. */
  predicate IsImportCreator(catalog: Catalog, d: Directory, cmd: ImportCommand, creatorId: Uuid) {
    if cmd.legacyCreatorId.Some? && CanOwnWork(catalog, d, cmd.legacyCreatorId.value) then Some(creatorId) == cmd.legacyCreatorId
    else IsSole(DomainBindings(d, cmd.domainId), creatorId, DOMAIN_OWNER_ROLE) && CanOwnWork(catalog, d, creatorId)
  }

  /** The legacy assignee is the one that the node's rule designates. */
  predicate IsImportAssignee(catalog: Catalog, d: Directory, cmd: ImportCommand, n: NodeDefinition, creatorId: Uuid) {
    if n.nodeType.TERMINAL? then cmd.legacyAssigneeId.None?
    else
      && cmd.legacyAssigneeId.Some? && n.assigneeRef.Some?
      && var assignee := cmd.legacyAssigneeId.value;
      && Active(d, assignee)
      && match n.assigneeRef.value.refType
         case WORKFLOW_CREATOR => assignee == creatorId
         case FIXED_PRINCIPAL => n.assigneeRef.value.fixedPrincipalId == Some(assignee)
         case DOMAIN_OWNER =>
           IsSole(DomainBindings(d, cmd.domainId), assignee, DOMAIN_OWNER_ROLE) && CanOwnWork(catalog, d, assignee)
  }

  /** A service with the domain's one migration binding. */
  predicate IsMigrationService(catalog: Catalog, d: Directory, domainId: Uuid, principalId: Uuid) {
    && Active(d, principalId) && !IsHumanOrAgent(catalog, principalId)
    && IsSole(DomainBindings(d, domainId), principalId, WORKFLOW_MIGRATION)
  }

  predicate LawfulSnapshot(catalog: Catalog, cmd: ImportCommand) {
    && cmd.shape.WellShaped? && cmd.expectedSnapshotDigest == OfLegacySnapshot(cmd.legacySnapshot)
    && cmd.domainId in catalog.domainKeys && catalog.domainKeys[cmd.domainId] == cmd.domainKey
  }

  lemma SoleOwnerIs(env: Env, domainId: Uuid, p: Uuid)
    ensures SoleOwner(env, domainId) == Go(p)
       <==> IsSole(DomainBindings(env.directory, domainId), p, DOMAIN_OWNER_ROLE) && CanOwnWork(env.catalog, env.directory, p)
  {
    hide Holders, IsSole;
    OneHolder(DomainBindings(env.directory, domainId), p, DOMAIN_OWNER_ROLE);
  }

  lemma ImportCreatorIs(env: Env, cmd: ImportCommand, creatorId: Uuid)
    ensures ImportCreator(env, cmd).Go? && ImportCreator(env, cmd).value.0 == creatorId
       <==> IsImportCreator(env.catalog, env.directory, cmd, creatorId)
    ensures ImportCreator(env, cmd).Go? ==>
              ImportCreator(env, cmd).value.1
              == if cmd.legacyCreatorId.Some? && CanOwnWork(env.catalog, env.directory, cmd.legacyCreatorId.value)
                 then LEGACY_CREATOR else DOMAIN_OWNER_FALLBACK
  {
    hide SoleOwner, IsSole;
    SoleOwnerIs(env, cmd.domainId, creatorId);
  }

  lemma ImportAssigneeIs(env: Env, cmd: ImportCommand, n: NodeDefinition, creatorId: Uuid)
    ensures ImportAssignee(env, cmd, n, creatorId).Go? <==> IsImportAssignee(env.catalog, env.directory, cmd, n, creatorId)
    ensures ImportAssignee(env, cmd, n, creatorId).Go? ==> ImportAssignee(env, cmd, n, creatorId).value == cmd.legacyAssigneeId
    ensures ImportAssignee(env, cmd, n, creatorId).Go? ==>
              Designates(env.directory, n, creatorId, cmd.domainId, cmd.legacyAssigneeId)
  {
    hide SoleOwner, IsSole, FirstHolder;
    if cmd.legacyAssigneeId.Some? {
      SoleOwnerIs(env, cmd.domainId, cmd.legacyAssigneeId.value);
      SoleHasRole(env.directory, cmd.domainId, cmd.legacyAssigneeId.value, DOMAIN_OWNER_ROLE);
    }
  }

  lemma SoleHasRole(d: Directory, domainId: Uuid, p: Uuid, role: Role)
    ensures IsSole(DomainBindings(d, domainId), p, role) ==> HasRole(d, domainId, p, role)
  {
    var bindings := DomainBindings(d, domainId);
    if IsSole(bindings, p, role) {
      var i :| 0 <= i < |bindings| && IsSoleAt(bindings, i, role) && bindings[i].principalId == p;
      assert bindings[i] in bindings;
    }
  }
}
