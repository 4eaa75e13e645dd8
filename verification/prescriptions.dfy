/** The prescriptions slice: an append-only list of prescriptions and the
    loading/error flags of the create request. */
module Prescriptions {
  import opened Lifecycle

  datatype Prescription = Prescription(
    id: string,
    appointmentId: string,
    medicineName: string,
    dosage: string,
    instructions: string,
    createdAt: string)

  /** What the caller hands to the create request: a prescription without
      its id and creation time. */
  datatype PrescriptionInput = PrescriptionInput(
    appointmentId: string,
    medicineName: string,
    dosage: string,
    instructions: string)

  datatype PrescriptionsState = PrescriptionsState(
    prescriptions: seq<Prescription>,
    loading: bool,
    error: Option<string>)

  /** The synchronous action and the three lifecycle events of the create
      request. A rejection carries the failure's message, if any. */
  datatype PrescriptionsAction =
    | ClearPrescriptionError
    | CreatePending
    | CreateFulfilled(payload: Prescription)
    | CreateRejected(message: Option<string>)

  const CreateFailedMessage: string := "Failed to create prescription"

  /** The state the slice starts in. */
  function InitialState(): (s: PrescriptionsState)
    ensures |s.prescriptions| == 0 && !s.loading && s.error.None?
  {
    PrescriptionsState([], false, None)
  }

  /** The record the create request resolves with: the input's four fields,
      plus an id and a creation time supplied by the caller (the source draws
      them from the clock). */
  function MakePrescription(input: PrescriptionInput, id: string, createdAt: string): (p: Prescription)
    ensures p.id == id && p.createdAt == createdAt
    ensures p.appointmentId == input.appointmentId && p.medicineName == input.medicineName
    ensures p.dosage == input.dosage && p.instructions == input.instructions
  {
    Prescription(id, input.appointmentId, input.medicineName, input.dosage, input.instructions, createdAt)
  }

  /** The input a prescription was made from. */
  function InputOf(p: Prescription): PrescriptionInput {
    PrescriptionInput(p.appointmentId, p.medicineName, p.dosage, p.instructions)
  }

  function ApplyClearError(s: PrescriptionsState): (r: PrescriptionsState)
    ensures r.error.None?
    ensures r.prescriptions == s.prescriptions && r.loading == s.loading
  {
    s.(error := None)
  }

  function ApplyCreatePending(s: PrescriptionsState): (r: PrescriptionsState)
    ensures r.loading && r.error.None?
    ensures r.prescriptions == s.prescriptions
  {
    s.(loading := true, error := None)
  }

  /** Appends the created prescription, whatever appointment it names: the
      slice does not check that the appointment exists. */
  function ApplyCreateFulfilled(s: PrescriptionsState, p: Prescription): (r: PrescriptionsState)
    ensures !r.loading && r.error == s.error
    ensures |r.prescriptions| == |s.prescriptions| + 1
    ensures r.prescriptions[..|s.prescriptions|] == s.prescriptions
    ensures r.prescriptions[|s.prescriptions|] == p
  {
    s.(loading := false, prescriptions := s.prescriptions + [p])
  }

  function ApplyCreateRejected(s: PrescriptionsState, message: Option<string>): (r: PrescriptionsState)
    ensures !r.loading && r.error.Some? && r.error.value != ""
    ensures message.Some? && message.value != "" ==> r.error == message
    ensures message.None? || message.value == "" ==> r.error == Some(CreateFailedMessage)
    ensures r.prescriptions == s.prescriptions
  {
    s.(loading := false, error := Some(RejectionMessage(message, CreateFailedMessage)))
  }

  /** The slice's reducer. */
  function Reduce(s: PrescriptionsState, a: PrescriptionsAction): (r: PrescriptionsState)
    ensures a.ClearPrescriptionError? ==> r.loading == s.loading
    ensures r.prescriptions == s.prescriptions + (if a.CreateFulfilled? then [a.payload] else [])
    ensures WellFormedError(s.error) ==> WellFormedError(r.error)
  {
    match a
    case ClearPrescriptionError => ApplyClearError(s)
    case CreatePending => ApplyCreatePending(s)
    case CreateFulfilled(p) => ApplyCreateFulfilled(s, p)
    case CreateRejected(message) => ApplyCreateRejected(s, message)
  }

  /** The state after dispatching `acts` in order. */
  function ReduceAll(s: PrescriptionsState, acts: seq<PrescriptionsAction>): PrescriptionsState {
    Run(Reduce, s, acts)
  }

  /** The prescriptions carried by the fulfilled events of `acts`, in order. */
  function Created(acts: seq<PrescriptionsAction>): (ps: seq<Prescription>)
    ensures |ps| <= |acts|
    decreases |acts|
  {
    if |acts| == 0 then []
    else (if acts[0].CreateFulfilled? then [acts[0].payload] else []) + Created(acts[1..])
  }
}
