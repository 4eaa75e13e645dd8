/** The appointments slice: a list of appointments, a status filter, and the
    loading/error flags of the fetch request, changed only by the reducer
    below. */
module Appointments {
  import opened Lifecycle

  datatype Status = Scheduled | Completed | Cancelled

  /** The four filter values: `all`, or one of the three statuses. */
  datatype Filter = All | ByStatus(status: Status)

  datatype Appointment = Appointment(
    id: string,
    patientName: string,
    age: int,
    symptoms: string,
    time: string,
    date: string,
    phone: string,
    email: string,
    status: Status,
    notes: Option<string>)

  datatype AppointmentsState = AppointmentsState(
    appointments: seq<Appointment>,
    loading: bool,
    error: Option<string>,
    filter: Filter)

  /** The two synchronous actions and the three lifecycle events of the
      fetch request. A rejection carries the failure's message, if any. */
  datatype AppointmentsAction =
    | SetFilter(filter: Filter)
    | UpdateAppointmentStatus(id: string, status: Status)
    | FetchPending
    | FetchFulfilled(payload: seq<Appointment>)
    | FetchRejected(message: Option<string>)

  const FetchFailedMessage: string := "Failed to fetch appointments"

  /** The state the slice starts in. */
  function InitialState(): (s: AppointmentsState)
    ensures |s.appointments| == 0
    ensures !s.loading && s.error.None? && s.filter == All
  {
    AppointmentsState([], false, None, All)
  }

  /** `k` is the position of the first appointment whose id is `id`. */
  predicate IsFirstMatch(xs: seq<Appointment>, id: string, k: int) {
    && 0 <= k < |xs|
    && xs[k].id == id
    && forall j :: 0 <= j < k ==> xs[j].id != id
  }

  /** No appointment has id `id`. */
  predicate NoMatch(xs: seq<Appointment>, id: string) {
    forall i :: 0 <= i < |xs| ==> xs[i].id != id
  }

  /** The position `Array.prototype.find` stops at when looking for `id`. */
  function FindFirst(xs: seq<Appointment>, id: string): (r: Option<nat>)
    ensures r.None? <==> NoMatch(xs, id)
    ensures r.Some? ==> IsFirstMatch(xs, id, r.value)
    decreases |xs|
  {
    if |xs| == 0 then None
    else if xs[0].id == id then Some(0)
    else
      match FindFirst(xs[1..], id)
      case None => None
      case Some(k) => Some(k + 1)
  }

  function ApplySetFilter(s: AppointmentsState, f: Filter): (r: AppointmentsState)
    ensures r.filter == f
    ensures r.appointments == s.appointments && r.loading == s.loading && r.error == s.error
  {
    s.(filter := f)
  }

  /** Changes the status of the first appointment with the given id, and
      nothing else; silently does nothing when no appointment has that id. */
  function ApplyUpdateStatus(s: AppointmentsState, id: string, status: Status): (r: AppointmentsState)
    ensures r.loading == s.loading && r.error == s.error && r.filter == s.filter
    ensures |r.appointments| == |s.appointments|
    ensures NoMatch(s.appointments, id) ==> r == s
    ensures forall k :: IsFirstMatch(s.appointments, id, k) ==>
      r.appointments == s.appointments[k := s.appointments[k].(status := status)]
  {
    match FindFirst(s.appointments, id)
    case None => s
    case Some(k) =>
      s.(appointments := s.appointments[k := s.appointments[k].(status := status)])
  }

  function ApplyFetchPending(s: AppointmentsState): (r: AppointmentsState)
    ensures r.loading && r.error.None?
    ensures r.appointments == s.appointments && r.filter == s.filter
  {
    s.(loading := true, error := None)
  }

  /** The fetched list replaces the old one wholesale; the error is left as
      it was (the preceding pending event already cleared it). */
  function ApplyFetchFulfilled(s: AppointmentsState, payload: seq<Appointment>): (r: AppointmentsState)
    ensures !r.loading && r.appointments == payload
    ensures r.error == s.error && r.filter == s.filter
  {
    s.(loading := false, appointments := payload)
  }

  function ApplyFetchRejected(s: AppointmentsState, message: Option<string>): (r: AppointmentsState)
    ensures !r.loading && r.error.Some? && r.error.value != ""
    ensures message.Some? && message.value != "" ==> r.error == message
    ensures message.None? || message.value == "" ==> r.error == Some(FetchFailedMessage)
    ensures r.appointments == s.appointments && r.filter == s.filter
  {
    s.(loading := false, error := Some(RejectionMessage(message, FetchFailedMessage)))
  }

  /** The slice's reducer. */
  function Reduce(s: AppointmentsState, a: AppointmentsAction): (r: AppointmentsState)
    ensures r.filter == (if a.SetFilter? then a.filter else s.filter)
    ensures a.SetFilter? || a.UpdateAppointmentStatus? ==> r.loading == s.loading && r.error == s.error
    ensures |r.appointments| == (if a.FetchFulfilled? then |a.payload| else |s.appointments|)
    ensures !a.FetchFulfilled? && !a.UpdateAppointmentStatus? ==> r.appointments == s.appointments
    ensures WellFormedError(s.error) ==> WellFormedError(r.error)
  {
    match a
    case SetFilter(f) => ApplySetFilter(s, f)
    case UpdateAppointmentStatus(id, status) => ApplyUpdateStatus(s, id, status)
    case FetchPending => ApplyFetchPending(s)
    case FetchFulfilled(payload) => ApplyFetchFulfilled(s, payload)
    case FetchRejected(message) => ApplyFetchRejected(s, message)
  }

  /** The state after dispatching `acts` in order. */
  function ReduceAll(s: AppointmentsState, acts: seq<AppointmentsAction>): AppointmentsState {
    Run(Reduce, s, acts)
  }

  /** How many appointments have status `st`. */
  function CountStatus(xs: seq<Appointment>, st: Status): (n: nat)
    ensures n <= |xs|
    decreases |xs|
  {
    if |xs| == 0 then 0
    else (if xs[0].status == st then 1 else 0) + CountStatus(xs[1..], st)
  }

  /** No two appointments share an id. */
  predicate DistinctIds(xs: seq<Appointment>) {
    forall i, j :: 0 <= i < j < |xs| ==> xs[i].id != xs[j].id
  }
}
