/**
 Values shared by every component: devices, observations, faults, overrides, passes, cycles
 and tickets. Times are integers and 0 is the zero time; weights are integers in kilograms.
 */
module Domain {

  datatype Option<+T> = None | Some(value: T)

  type Time = int

  datatype Mode = NoMode | Normal | Degraded | Manual | Lockout

  datatype Health = NoHealth | Healthy | Stale | Disconnected | Faulty

  datatype Role = NoRole | Operator | Supervisor

  datatype Device =
    | Scale | Rfid | Lpr | EntrySensor | FrontSensor | RearSensor | ExitSensor
    | EntryBarrier | ExitBarrier | PhysicalSafety | RemoteIO | AuditStore

  datatype State =
    | Idle | Approach | Identifying | IdentityMismatch | QueueMismatch | EntryAuthorized | Entering
    | Positioning | ReadyToWeigh | Weighing | PairInvalid | LocalCommitted | ExitAuthorized | Exiting
    | Completed | FaultLockout

  datatype Identity = IdPending | IdAccepted | IdMismatch | IdManual

  datatype Positioned = PosPending | PosAccepted | PosManual

  datatype Direction = NoDirection | AToB | BToA

  datatype CycleStatus =
    | Queued | Called | Complete | OrphanedFirstPass | UnpairedReturn
    | PairTimeInvalid | PairWeightInvalid | WrongTruck

  /** Override evidence after trimming and case folding. */
  datatype Evidence = PositionConfirmed | IdentityConfirmed | ExitClearConfirmed | OtherEvidence(text: string)

  datatype RawRef = RawRef(seq_: nat, hash: string) {
    /** A reference to a journal record that exists: both parts are set. */
    predicate Present() {
      seq_ != 0 && hash != ""
    }
  }

  datatype Reading = Reading(kg: int, stable: bool, overload: bool, fault: string, health: Health, observed: Time) {
    predicate Sound() {
      health == Healthy && fault == "" && !overload
    }
  }

  datatype Audited = Audited(reading: Reading, rawRef: RawRef)

  datatype Weight = Weight(kg: int, observed: Time, rawRef: RawRef)

  datatype Position = Position(
    entryPresent: bool, frontPresent: bool, rearPresent: bool, exitPresent: bool,
    entryOpen: bool, entryClosed: bool, exitOpen: bool, exitClosed: bool,
    safetyClear: bool, observed: Time)

  datatype Outputs = Outputs(entryGreen: bool, exitGreen: bool, buzzer: bool, entryOpen: bool, exitOpen: bool)

  const ALL_OFF := Outputs(false, false, false, false, false)

  datatype TagRead = TagRead(tag: string, health: Health, observed: Time)

  datatype PlateRead = PlateRead(plate: string, imageRef: string, health: Health, observed: Time)

  datatype Fault = Fault(device: Device, health: Health, reason: string, overridable: bool, critical: bool) {
    /** A fault no override can bridge. */
    predicate Locking() {
      device == Scale || critical || !overridable
    }
  }

  datatype Override = Override(
    txID: string, device: Device, reason: string, requestedBy: string, authorizedBy: string,
    authorizedAs: Role, authorizedAt: Time, evidence: seq<Evidence>, expiredAt: Option<Time>)

  datatype Camera = Camera(cameraID: string, imageRef: string, capturedAt: Time)

  /** What the physical pass hands to the commit bridge when a weight is accepted. */
  datatype PassTicket = PassTicket(
    id: string, station: string, txID: string, plate: string, rfid: string,
    weight: Weight, mode: Mode, overrides: seq<Override>, committedAt: Time)

  datatype WeighPass = WeighPass(
    id: string, cycleID: string, number: nat, direction: Direction, station: string, plate: string, rfid: string,
    weight: Weight, mode: Mode, overrides: seq<Override>, camera: seq<Camera>, committedAt: Time)

  datatype WeighCycle = WeighCycle(
    id: string, station: string, plate: string, rfid: string, status: CycleStatus,
    first: WeighPass, second: Option<WeighPass>,
    queuedAt: Time, calledAt: Option<Time>, completedAt: Option<Time>,
    elapsed: int, gross: int, tare: int, net: int)

  datatype Ticket = Ticket(
    id: string, station: string, txID: string, cycleID: string, plate: string, rfid: string,
    firstPassID: string, secondPassID: string, gross: int, tare: int, net: int,
    firstObserved: Time, secondObserved: Time, firstRawRef: RawRef, secondRawRef: RawRef, elapsedSeconds: int,
    camera: seq<Camera>, mode: Mode, overrides: seq<Override>, committedAt: Time)

  function Abs(x: int): int {
    if x < 0 then -x else x
  }

  function OrElse(id: string, default: string): string {
    if id == "" then default else id
  }
}
