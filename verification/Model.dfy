/**
 The Hub's durable entities (internal/core/model.go and internal/federation/adapter.go).
 Times are integers counted from Go's zero time, so ZERO_TIME is the value of an unset
 time field. Optional pointers are Options. Part contents are opaque.
 */
module Model {
  import opened Wrappers

  type Time = int
  const ZERO_TIME: Time := 0

  /** A (tenant, id) pair: the resource key of a tenant whose name holds no NUL. */
  datatype Key = Key(tenant: string, id: string)

  datatype TaskState =
    Unknown | Submitted | Working | InputRequired | AuthRequired |
    Completed | Failed | Canceled | Rejected
  {
    predicate Terminal() {
      Completed? || Failed? || Canceled? || Rejected?
    }

    /** FAILED, REJECTED or CANCELED. */
    predicate Unsuccessful() {
      Failed? || Canceled? || Rejected?
    }

    /** INPUT_REQUIRED or AUTH_REQUIRED. */
    predicate Waiting() {
      InputRequired? || AuthRequired?
    }
  }

  datatype DeliveryState = DeliveryPending | DeliveryAcknowledged | DeliveryAmbiguous

  datatype Part = Part(content: string)

  datatype Artifact = Artifact(
    id: string, name: string, description: string, parts: seq<Part>, complete: bool)

  datatype Problem = Problem(
    category: string, code: string, message: string, retryable: bool, ambiguous: bool)

  datatype Agent = Agent(id: string, tenantId: string, name: string, endpoint: string, streaming: bool)

  datatype Task = Task(
    id: string, tenantId: string, agentId: string, messageId: string,
    inputDigest: string, idempotencyKey: string, priority: int,
    remoteTaskId: string, remoteContextId: string,
    state: TaskState, delivery: DeliveryState, cancelRequested: bool, pushTokenHash: string,
    artifacts: seq<Artifact>, problem: Option<Problem>, lastRemoteObservedAt: Option<Time>,
    createdAt: Time, updatedAt: Time, revision: nat, lastSequence: nat)
  {
    function ResourceKey(): Key { Key(tenantId, id) }
  }

  datatype Event = Event(
    id: string, dedupKey: string, taskId: string, tenantId: string, sequence: nat,
    kind: string, source: string, state: Option<TaskState>, artifact: Option<Artifact>,
    problem: Option<Problem>, observedAt: Option<Time>, createdAt: Time)

  /** The bytes of an outbox item: an encoded event, or whatever an external caller enqueued. */
  datatype Payload = EventPayload(event: Event) | RawPayload(bytes: string)

  datatype OutboxItem = OutboxItem(
    id: string, tenantId: string, taskId: string, dedupKey: string, topic: string,
    payload: Payload, createdAt: Time)

  datatype ArtifactUpdate = ArtifactUpdate(artifact: Artifact, append: bool)

  datatype Observation = Observation(
    dedupKey: string, source: string, remoteTaskId: string, remoteContextId: string,
    state: TaskState, artifacts: seq<ArtifactUpdate>, problem: Option<Problem>,
    remoteObservedAt: Option<Time>, cancelRequested: bool)

  datatype InboxPayload = EncodedObservation(observation: Observation) | Undecodable

  datatype InboxItem = InboxItem(
    id: string, tenantId: string, taskId: string, dedupKey: string, protocol: string,
    payload: InboxPayload, createdAt: Time)

  /** The deduplication key of inbox and outbox items. */
  datatype ItemKey = ItemKey(tenant: string, task: string, dedup: string)

  datatype RevocationKey = RevocationKey(issuer: string, tokenId: string, tenant: string)

  datatype TokenRevocation = TokenRevocation(
    issuer: string, tokenId: string, tenantId: string, reason: string,
    revokedAt: Time, expiresAt: Time)

  datatype ObjectStatus = Pending | Available | Quarantined | FailedObject | Deleting | Deleted
  {
    /** The statuses whose bytes count against the tenant's quota. */
    predicate Charged() {
      Pending? || Available? || Quarantined? || Deleting?
    }
  }

  datatype ScanStatus = Clean | Infected | ScanError | NotScanned

  datatype ArtifactObject = ArtifactObject(
    id: string, tenantId: string, taskId: string, artifactId: string, partIndex: int,
    storageKey: string, sha256: string, sizeBytes: int, detectedMediaType: string,
    status: ObjectStatus, scanStatus: ScanStatus,
    createdAt: Time, updatedAt: Time, expiresAt: Time, deletedAt: Option<Time>, failureCode: string)
  {
    function ResourceKey(): Key { Key(tenantId, id) }
  }

  datatype ArtifactQuota = ArtifactQuota(maxBytes: int, maxObjects: int)

  datatype ArtifactUsage = ArtifactUsage(tenantId: string, bytes: int, objects: int)

  datatype WorkflowState =
    WorkflowPending | WorkflowRunning | WorkflowWaitingInput | WorkflowCompleted | WorkflowFailed |
    WorkflowPartiallyFailed | WorkflowCompensating | WorkflowCompensated | WorkflowCanceled | WorkflowPaused
  {
    predicate Terminal() {
      WorkflowCompleted? || WorkflowFailed? || WorkflowPartiallyFailed? ||
      WorkflowCompensated? || WorkflowCanceled?
    }
  }

  datatype WorkflowStep = WorkflowStep(
    id: string, agentId: string, dependsOn: seq<string>, inputRef: string, taskId: string,
    state: TaskState, required: bool, attempt: nat,
    compensationText: string, compensationTaskId: string, compensationState: Option<TaskState>)

  datatype Workflow = Workflow(
    id: string, tenantId: string, maxConcurrency: int, state: WorkflowState,
    steps: seq<WorkflowStep>, updatedAt: Time, revision: nat, lastSequence: nat)
  {
    function ResourceKey(): Key { Key(tenantId, id) }
  }

  datatype WorkflowEvent = WorkflowEvent(
    id: string, dedupKey: string, workflowId: string, tenantId: string, sequence: nat,
    kind: string, createdAt: Time)

  datatype WorkerControl = WorkerControl(scope: string, mode: string, revision: nat, updatedAt: Time)
}
