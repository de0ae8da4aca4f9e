/** The records the Hub keeps about Stage Devices: one constructor or row type per SQL table
    and per stored column that the assignment protocol reads or writes. */
module StageTypes {

  datatype Option<+T> = None | Some(value: T)

  predicate NoRepeats<T(==)>(s: seq<T>) {
    forall i, j | 0 <= i < j < |s| :: s[i] != s[j]
  }

  /** Ids, challenges and hashes are opaque tokens; NO_ID is the empty string (SQL NULL read
      through COALESCE). */
  type Id = int
  const NO_ID: Id := 0

  const MAX_CHANNELS := 12
  const MAX_INT64 := 0x7fff_ffff_ffff_ffff
  const MAX_GENERATION := 9007199254740991
  const RESERVATION_TTL_US := 30_000_000

  datatype Protocol = V1 | V2
  datatype Profile = LightingNode | TabletProfile | StageLaserProfile | OtherProfile(name: Id)
  datatype Kind = TabletPlayer | StageDisplay | RenderNode | Generic

  datatype Device = Device(protocol: Protocol, profile: Profile, kind: Kind, project: Id, enabled: bool)

  datatype AssignmentState = Legacy | Unassigned | Blocked | Active

  datatype Assignment = Assignment(state: AssignmentState, project: Id, snapshot: Id, epoch: int)

  /** SHA-256 is injective on the 32-byte challenges the Hub draws. */
  datatype Digest = Sha256(nonce: Id)

  datatype Quality = Tracked | Confirmed | UnknownQuality

  /** The five audit tables as one log in commit order. */
  datatype Audit =
    | TransferAudit(id: Id, device: Id, key: Id, actor: Id, fromProject: Id, toProject: Id,
                    fromEpoch: int, toEpoch: int, generation: int, digest: Digest, next: AssignmentState)
    | ActivationAudit(id: Id, device: Id, actor: Id, project: Id, snapshot: Id, epoch: int,
                      generation: int, digest: Digest, config: Id)
    | TabletAudit(id: Id, device: Id, actor: Id, fromProject: Id, toProject: Id, fromSnapshot: Id,
                  toSnapshot: Id, fromEpoch: int, toEpoch: int, generation: int, digest: Digest,
                  next: AssignmentState)
    | LaserAudit(id: Id, device: Id, actor: Id, project: Id, snapshot: Id, fromEpoch: int,
                 toEpoch: int, generation: int, digest: Digest, quality: Quality)
    | MigrationAudit(id: Id, device: Id, actor: Id, project: Id, fromEpoch: int, toEpoch: int)

  datatype IntentStatus = Pending | Expired | Cancelled | Committed

  datatype Intent = Intent(device: Id, fromProject: Id, toProject: Id, epoch: int, generation: int,
                           channels: int, digest: Digest, status: IntentStatus, actor: Id, expires: int)

  datatype EpochKey = EpochKey(device: Id, epoch: int)
  datatype EpochAck = EpochAck(project: Id, generation: int, channels: int)

  datatype CommandStatus = Accepted | Rejected | Completed | Failed | TimedOut | CancelledCommand

  /** `key` is the idempotency key of the request, NO_ID when it has none. */
  datatype Command = Command(device: Id, project: Id, snapshot: Id, key: Id, status: CommandStatus)

  /** A Runtime Snapshot row with what its manifest says about each device: the configuration
      hash of a valid lighting binding, and whether it is a StageLaser target. */
  datatype Snapshot = Snapshot(project: Id, published: bool, lighting: map<Id, Id>, lasers: set<Id>)

  /** Everything the protocol reads but other parts of the Hub write. */
  datatype Env = Env(now: int, projects: set<Id>, shows: set<Id>, sessions: set<Id>, snapshots: map<Id, Snapshot>)

  datatype Tables = Tables(
    devices: map<Id, Device>,
    assignments: map<Id, Assignment>,
    log: seq<Audit>,
    intents: map<Id, Intent>,
    acks: map<EpochKey, EpochAck>,
    commands: map<Id, Command>,
    generation: int,
    env: Env)

  /** The StageLaser observation carried by a safe-off acknowledgment, already decoded. `valid`
      is the verdict of the observation's own schema and limit checks. */
  datatype LaserObservation = LaserObservation(valid: bool, contractMatches: bool, disarmed: bool, off: bool,
                                               quality: Quality, resync: bool, pulse: bool, flash: bool)
}
