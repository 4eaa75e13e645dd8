/** Properties of the appointments reducer: single transitions, action
    sequences, and a fetch-then-update scenario over the mock payload. */
module AppointmentsProperties {
  import opened Lifecycle
  import opened Appointments
  import opened AppointmentsFixture

  /** Only the first appointment with the id changes, and of it only the
      status; every other appointment stays as it was. */
  lemma UpdateStatusChangesOnlyFirstMatch(s: AppointmentsState, id: string, status: Status, k: int)
    requires IsFirstMatch(s.appointments, id, k)
    ensures var r := ApplyUpdateStatus(s, id, status);
      && r.appointments[k].status == status
      && r.appointments[k].(status := s.appointments[k].status) == s.appointments[k]
      && forall j :: 0 <= j < |s.appointments| && j != k ==> r.appointments[j] == s.appointments[j]
  {
  }

  /** Later appointments that share the id are not touched (the source looks
      the id up with `find`, which stops at the first hit). */
  lemma UpdateStatusLeavesLaterDuplicates(s: AppointmentsState, id: string, status: Status, j: int)
    requires 0 <= j < |s.appointments| && s.appointments[j].id == id
    requires exists i :: 0 <= i < j && s.appointments[i].id == id
    ensures ApplyUpdateStatus(s, id, status).appointments[j] == s.appointments[j]
  {
  }

  /** After the update, looking the id up again finds the same position, now
      carrying the new status. */
  lemma UpdateStatusThenLookup(s: AppointmentsState, id: string, status: Status)
    requires !NoMatch(s.appointments, id)
    ensures var r := ApplyUpdateStatus(s, id, status);
      && FindFirst(r.appointments, id) == FindFirst(s.appointments, id)
      && r.appointments[FindFirst(r.appointments, id).value].status == status
  {
  }

  /** There is at most one first match. */
  lemma FirstMatchUnique(xs: seq<Appointment>, id: string, k1: int, k2: int)
    requires IsFirstMatch(xs, id, k1) && IsFirstMatch(xs, id, k2)
    ensures k1 == k2
  {
  }

  /** The update never changes any id, so distinct ids stay distinct. */
  lemma UpdateStatusKeepsIds(s: AppointmentsState, id: string, status: Status)
    ensures var r := ApplyUpdateStatus(s, id, status);
      && (forall i :: 0 <= i < |s.appointments| ==> r.appointments[i].id == s.appointments[i].id)
      && (DistinctIds(s.appointments) ==> DistinctIds(r.appointments))
  {
  }

  /** Setting the same status twice is the same as setting it once. */
  lemma UpdateStatusIdempotent(s: AppointmentsState, id: string, status: Status)
    ensures var once := ApplyUpdateStatus(s, id, status);
      ApplyUpdateStatus(once, id, status) == once
  {
    var once := ApplyUpdateStatus(s, id, status);
    if !NoMatch(s.appointments, id) {
      var k := FindFirst(s.appointments, id).value;
      assert IsFirstMatch(once.appointments, id, k);
      FirstMatchUnique(once.appointments, id, k, FindFirst(once.appointments, id).value);
      assert once.appointments[k := once.appointments[k].(status := status)] == once.appointments;
    }
  }

  /** Changing one appointment's status moves it from its old status count to
      the new one; the other counts are unaffected. */
  lemma {:induction false} CountAfterStatusChange(xs: seq<Appointment>, k: int, status: Status, c: Status)
    requires 0 <= k < |xs|
    ensures CountStatus(xs[k := xs[k].(status := status)], c)
      == CountStatus(xs, c) - (if xs[k].status == c then 1 else 0) + (if status == c then 1 else 0)
    decreases |xs|
  {
    var ys := xs[k := xs[k].(status := status)];
    if k == 0 {
      assert ys[1..] == xs[1..];
    } else {
      assert ys[1..] == xs[1..][k - 1 := xs[1..][k - 1].(status := status)];
      CountAfterStatusChange(xs[1..], k - 1, status, c);
    }
  }

  /** Every appointment has exactly one of the three statuses, so the three
      counts add up to the length of the list. */
  lemma {:induction false} CountsPartition(xs: seq<Appointment>)
    ensures CountStatus(xs, Scheduled) + CountStatus(xs, Completed) + CountStatus(xs, Cancelled) == |xs|
    decreases |xs|
  {
    if |xs| > 0 {
      CountsPartition(xs[1..]);
    }
  }

  /** Whatever is dispatched, a stored error is never the empty string. */
  lemma ReduceAllKeepsErrorWellFormed(s: AppointmentsState, acts: seq<AppointmentsAction>)
    requires WellFormedError(s.error)
    ensures WellFormedError(ReduceAll(s, acts).error)
  {
    RunPreserves(Reduce, (t: AppointmentsState) => WellFormedError(t.error), s, acts);
  }

  /** Every fetched list in `acts` has distinct ids. */
  predicate PayloadsHaveDistinctIds(acts: seq<AppointmentsAction>) {
    forall i :: 0 <= i < |acts| && acts[i].FetchFulfilled? ==> DistinctIds(acts[i].payload)
  }

  /** Ids stay unique as long as every fetched list has unique ids: status
      updates never touch ids and nothing else adds appointments. */
  lemma {:induction false} ReduceAllKeepsDistinctIds(s: AppointmentsState, acts: seq<AppointmentsAction>)
    requires DistinctIds(s.appointments)
    requires PayloadsHaveDistinctIds(acts)
    ensures DistinctIds(ReduceAll(s, acts).appointments)
    decreases |acts|
  {
    if |acts| > 0 {
      var next := Reduce(s, acts[0]);
      if acts[0].UpdateAppointmentStatus? {
        UpdateStatusKeepsIds(s, acts[0].id, acts[0].status);
      }
      assert PayloadsHaveDistinctIds(acts[1..]) by {
        forall i | 0 <= i < |acts[1..]| && acts[1..][i].FetchFulfilled?
          ensures DistinctIds(acts[1..][i].payload)
        {
          assert acts[1..][i] == acts[i + 1];
        }
      }
      ReduceAllKeepsDistinctIds(next, acts[1..]);
    }
  }

  /** The synchronous actions. */
  predicate IsSync(a: AppointmentsAction) {
    a.SetFilter? || a.UpdateAppointmentStatus?
  }

  /** Synchronous actions never touch the request flags, and never change the
      length of the list. */
  lemma {:induction false} SyncActionsKeepRequestState(s: AppointmentsState, acts: seq<AppointmentsAction>)
    requires forall i :: 0 <= i < |acts| ==> IsSync(acts[i])
    ensures var r := ReduceAll(s, acts);
      r.loading == s.loading && r.error == s.error && |r.appointments| == |s.appointments|
    decreases |acts|
  {
    if |acts| > 0 {
      SyncActionsKeepRequestState(Reduce(s, acts[0]), acts[1..]);
    }
  }

  /** A successful fetch (pending, then fulfilled) from any state ends with
      exactly the fetched list, no error, not loading, same filter. */
  lemma FetchSucceeds(s: AppointmentsState, payload: seq<Appointment>)
    ensures ReduceAll(s, [FetchPending, FetchFulfilled(payload)])
      == AppointmentsState(payload, false, None, s.filter)
  {
    RunPair(Reduce, s, FetchPending, FetchFulfilled(payload));
  }

  /** A failed fetch (pending, then rejected) from any state keeps the list
      and the filter, stops loading, and stores a non-empty error. */
  lemma FetchFails(s: AppointmentsState, message: Option<string>)
    ensures var r := ReduceAll(s, [FetchPending, FetchRejected(message)]);
      && r.appointments == s.appointments && r.filter == s.filter && !r.loading
      && r.error == Some(RejectionMessage(message, FetchFailedMessage))
      && r.error.value != ""
  {
    RunPair(Reduce, s, FetchPending, FetchRejected(message));
  }

  /** Starting from the initial state: fetch the mock list, choose the
      scheduled filter, then mark appointment "1" completed. The list keeps
      five entries, "1" is now completed, and the counts become two
      scheduled, two completed, one cancelled. */
  lemma FetchFilterCompleteScenario()
    ensures var r := ReduceAll(InitialState(),
      [FetchPending, FetchFulfilled(MockAppointments), SetFilter(ByStatus(Scheduled)),
       UpdateAppointmentStatus("1", Completed)]);
      && !r.loading && r.error.None? && r.filter == ByStatus(Scheduled)
      && |r.appointments| == 5
      && r.appointments[0].id == "1" && r.appointments[0].status == Completed
      && r.appointments[1..] == MockAppointments[1..]
      && CountStatus(r.appointments, Scheduled) == 2
      && CountStatus(r.appointments, Completed) == 2
      && CountStatus(r.appointments, Cancelled) == 1
  {
    var acts := [FetchPending, FetchFulfilled(MockAppointments), SetFilter(ByStatus(Scheduled)),
                 UpdateAppointmentStatus("1", Completed)];
    assert acts == [FetchPending, FetchFulfilled(MockAppointments)]
      + [SetFilter(ByStatus(Scheduled)), UpdateAppointmentStatus("1", Completed)];
    RunConcat(Reduce, InitialState(), [FetchPending, FetchFulfilled(MockAppointments)],
      [SetFilter(ByStatus(Scheduled)), UpdateAppointmentStatus("1", Completed)]);
    FetchSucceeds(InitialState(), MockAppointments);
    var fetched := AppointmentsState(MockAppointments, false, None, All);
    var filtered := Reduce(fetched, SetFilter(ByStatus(Scheduled)));
    var r := Reduce(filtered, UpdateAppointmentStatus("1", Completed));
    RunPair(Reduce, fetched, SetFilter(ByStatus(Scheduled)), UpdateAppointmentStatus("1", Completed));
    assert ReduceAll(InitialState(), acts) == r;
    assert IsFirstMatch(MockAppointments, "1", 0);
    assert r.appointments == MockAppointments[0 := MockAppointments[0].(status := Completed)];
    MockFixtureShape();
    CountAfterStatusChange(MockAppointments, 0, Completed, Scheduled);
    CountAfterStatusChange(MockAppointments, 0, Completed, Completed);
    CountAfterStatusChange(MockAppointments, 0, Completed, Cancelled);
  }
}
