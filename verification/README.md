# Doctor appointment app: the two store slices

The app keeps its state in two Redux Toolkit slices. The appointments slice holds a
list of appointments, the status filter the doctor picked, and the loading and error
flags of the fetch request. The prescriptions slice holds an append-only list of
prescriptions and the loading and error flags of the create request. Each slice is a
reducer, and here each reducer is a pure function `(state, action) -> state` over
immutable datatypes. The pending, fulfilled and rejected events of the asynchronous
requests are ordinary actions. Lemmas cover single transitions, whole action
sequences (`ReduceAll`) and short scenarios.

Files:

- `lifecycle.dfy`: `Option`, the `message || fallback` rule both rejection handlers use, and `Run`, which replays actions through a reducer.
- `appointments.dfy`: the appointment records, the state, the actions and the reducer.
- `appointments_fixture.dfy`: the five appointments the mock fetch resolves with.
- `appointments_properties.dfy`: lemmas about the appointments reducer.
- `prescriptions.dfy`: the prescription records, the payload builder, the state, the actions and the reducer.
- `prescriptions_properties.dfy`: lemmas about the prescriptions reducer.

Two behaviours of the code are worth stating plainly:

- The fulfilled handler of `fetchAppointments` keeps `error` as it was
  (store/slices/appointmentsSlice.ts:123-126). A fetch therefore ends with no error
  only because its pending event clears the error first (`FetchSucceeds`).
- `updateAppointmentStatus` looks the id up with `find` (store/slices/appointmentsSlice.ts:111),
  so it changes only the first appointment with that id. Later duplicates stay as they are
  (`UpdateStatusLeavesLaterDuplicates`).

## Model

| member | source | states |
|---|---|---|
| Lifecycle.RejectionMessage | store/slices/appointmentsSlice.ts:129 | A present, non-empty message is kept. A missing or empty message gives the fallback. With a non-empty fallback the result is never empty. |
| Appointments.InitialState | store/slices/appointmentsSlice.ts:23-28 | The list is empty, not loading, no error, filter `all`. |
| Appointments.FindFirst | store/slices/appointmentsSlice.ts:111 | Returns None exactly when no appointment has the id. Otherwise returns the position of the first appointment with that id. |
| Appointments.ApplySetFilter | store/slices/appointmentsSlice.ts:107-109 | The filter becomes the given value. The list, loading and error are unchanged. |
| Appointments.ApplyUpdateStatus | store/slices/appointmentsSlice.ts:110-115 | If no appointment has the id, the state is unchanged and no error is recorded. Otherwise only the first match's slot changes, and only its status. Length, loading, error and filter are unchanged. |
| Appointments.ApplyFetchPending | store/slices/appointmentsSlice.ts:119-122 | Loading becomes true and the error is cleared. The list and filter are unchanged. |
| Appointments.ApplyFetchFulfilled | store/slices/appointmentsSlice.ts:123-126 | Loading becomes false. The list becomes exactly the payload, with no merge. Error and filter are unchanged. |
| Appointments.ApplyFetchRejected | store/slices/appointmentsSlice.ts:127-130 | Loading becomes false. The error is the message if it is non-empty, else "Failed to fetch appointments", so it is never empty. The list and filter are unchanged. |
| Appointments.Reduce | store/slices/appointmentsSlice.ts:103-132 | Only `setFilter` changes the filter. Synchronous actions leave loading and error alone. Only fulfilled changes the length. Every action keeps the error absent or non-empty. |
| AppointmentsFixture.MockFixtureShape | store/slices/appointmentsSlice.ts:38-99 | The mock payload has 5 appointments with distinct ids: 3 scheduled, 1 completed, 1 cancelled. |
| AppointmentsProperties.UpdateStatusChangesOnlyFirstMatch | store/slices/appointmentsSlice.ts:110-115 | The first match gets the new status. All its other fields are kept. Every other appointment is unchanged. |
| AppointmentsProperties.UpdateStatusLeavesLaterDuplicates | store/slices/appointmentsSlice.ts:111-113 | An appointment whose id already appears earlier in the list is not touched. |
| AppointmentsProperties.UpdateStatusThenLookup | store/slices/appointmentsSlice.ts:111-113 | After the update, looking up the id finds the same position, and it has the new status. |
| AppointmentsProperties.UpdateStatusKeepsIds | store/slices/appointmentsSlice.ts:110-115 | The update changes no id, so distinct ids stay distinct. |
| AppointmentsProperties.UpdateStatusIdempotent | store/slices/appointmentsSlice.ts:110-115 | Applying the same update twice gives the same state as applying it once. |
| AppointmentsProperties.CountAfterStatusChange | store/slices/appointmentsSlice.ts:113 | Changing one status removes one from the old status count and adds one to the new. |
| AppointmentsProperties.CountsPartition | store/slices/appointmentsSlice.ts:12 | A consequence of the three-valued `status` type, not a behaviour of the slice: for any list, the scheduled, completed and cancelled counts sum to its length. |
| AppointmentsProperties.ReduceAllKeepsErrorWellFormed | store/slices/appointmentsSlice.ts:119-130 | After any action sequence, the stored error is absent or non-empty. |
| AppointmentsProperties.ReduceAllKeepsDistinctIds | store/slices/appointmentsSlice.ts:103-132 | If every fetched payload has distinct ids, the ids in the list stay distinct after any action sequence. |
| AppointmentsProperties.SyncActionsKeepRequestState | store/slices/appointmentsSlice.ts:106-116 | A run of `setFilter` and `updateAppointmentStatus` never changes loading, error or the list length. |
| AppointmentsProperties.FetchSucceeds | store/slices/appointmentsSlice.ts:119-126 | From any state, pending then fulfilled leaves exactly the payload, not loading, no error, same filter. |
| AppointmentsProperties.FetchFails | store/slices/appointmentsSlice.ts:119-130 | From any state, pending then rejected keeps the list and filter, stops loading and leaves a non-empty error. |
| AppointmentsProperties.FetchFilterCompleteScenario | store/slices/appointmentsSlice.ts:38-130 | From the initial state: fetch the mock list, filter to scheduled, then complete "1". Result: 5 entries, "1" completed, rest unchanged; counts 2 scheduled, 2 completed, 1 cancelled. |
| Prescriptions.InitialState | store/slices/prescriptionsSlice.ts:18-22 | The list is empty, not loading, no error. |
| Prescriptions.MakePrescription | store/slices/prescriptionsSlice.ts:31-35 | The four input fields are copied verbatim. The id and creation time are the supplied values. |
| Prescriptions.ApplyClearError | store/slices/prescriptionsSlice.ts:43-45 | The error is cleared whatever it was. The list and loading are unchanged. |
| Prescriptions.ApplyCreatePending | store/slices/prescriptionsSlice.ts:49-52 | Loading becomes true and the error is cleared. The list is unchanged. |
| Prescriptions.ApplyCreateFulfilled | store/slices/prescriptionsSlice.ts:53-56 | Loading becomes false and the error is unchanged. The list grows by exactly one. The old entries keep their order, and the payload is last. |
| Prescriptions.ApplyCreateRejected | store/slices/prescriptionsSlice.ts:57-60 | Loading becomes false. The error is the message if it is non-empty, else "Failed to create prescription", so it is never empty. The list is unchanged. |
| Prescriptions.Reduce | store/slices/prescriptionsSlice.ts:39-62 | Only fulfilled adds to the list, and it appends exactly its payload. Clearing the error leaves loading alone. Every action keeps the error absent or non-empty. |
| PrescriptionsProperties.MakePrescriptionRoundTrip | store/slices/prescriptionsSlice.ts:24-37 | Reading the input back from a built prescription gives the original input. Rebuilding from that input, id and time gives the same prescription. |
| PrescriptionsProperties.ReduceAllAppends | store/slices/prescriptionsSlice.ts:53-56 | After any action sequence, the list is the old list followed by the fulfilled payloads, in order. |
| PrescriptionsProperties.ReduceAllKeepsPrefix | store/slices/prescriptionsSlice.ts:53-56 | Earlier prescriptions are never changed, removed or reordered. |
| PrescriptionsProperties.ReduceAllKeepsErrorWellFormed | store/slices/prescriptionsSlice.ts:43-60 | After any action sequence, the stored error is absent or non-empty. |
| PrescriptionsProperties.CreateSucceeds | store/slices/prescriptionsSlice.ts:31-56 | From any state, pending then fulfilled appends exactly the built prescription, stops loading and leaves no error. |
| PrescriptionsProperties.CreateFails | store/slices/prescriptionsSlice.ts:49-60 | From any state, pending then rejected keeps the list, stops loading and leaves a non-empty error. |
| PrescriptionsProperties.CreateAcceptsAnyAppointmentId | store/slices/prescriptionsSlice.ts:53-56 | Fulfilled appends a prescription with the given appointment id, with no check that the appointment exists. |
| PrescriptionsProperties.TwoCreatesScenario | store/slices/prescriptionsSlice.ts:31-56 | Two creates append exactly the two built prescriptions, in completion order, and end not loading with no error. Given two different ids, the two new entries have different ids. |

## Left out

- The simulated delays (`setTimeout`) and the clock (`Date.now()`, `new Date().toISOString()`) in the two request functions. The id and creation time of a prescription are parameters of `MakePrescription`.
- The request functions themselves. They are modelled only through the lifecycle events they cause. The mock fetch result is the constant `MockAppointments`.
- Overlapping requests that race. Events are one sequence in dispatch order, so a racing run is just one such sequence.
- Redux Toolkit itself: `createSlice`, the immer drafts, `configureStore` and the routing of actions to slices in store/store.ts. The root store only pairs the two slices, and its routing belongs to the library.
- How the library fills in `action.error.message`. A rejection carries `Option<string>`.
- The screens: the filtered list and per-status counts in the home screen, the per-appointment prescription list, input trimming and validation before dispatch, theming and the animated filter bar. These are presentation. `CountStatus` is used only for the mock-list facts, the scenario, `CountAfterStatusChange` and `CountsPartition`. The last is a fact about the `status` type, not about the screen's counts.
- Appointment `age` is a JavaScript number. The model uses an unbounded `int`, which is enough for the mock ages.
- PrescriptionsProperties.TwoCreatesScenario: assumes the two generated ids differ (`requires id1 != id2`) rather than proving it. The source takes ids from `Date.now().toString()` (store/slices/prescriptionsSlice.ts:32), which has millisecond resolution, so two creates in the same millisecond get the same id. Like the source, the reducer appends both entries either way.
