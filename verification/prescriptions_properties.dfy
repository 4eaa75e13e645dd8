/** Properties of the prescriptions reducer: the payload round trip, the
    append-only list, and create request scenarios. */
module PrescriptionsProperties {
  import opened Lifecycle
  import opened Prescriptions

  /** A created prescription is its input plus the id and time it was given,
      so the input can be read back from it, and it can be rebuilt from that
      input. */
  lemma MakePrescriptionRoundTrip(input: PrescriptionInput, id: string, createdAt: string, p: Prescription)
    ensures InputOf(MakePrescription(input, id, createdAt)) == input
    ensures MakePrescription(InputOf(p), p.id, p.createdAt) == p
  {
  }

  /** The list is append-only: after any actions it is the old list followed
      by the created prescriptions, in the order they were fulfilled. */
  lemma {:induction false} ReduceAllAppends(s: PrescriptionsState, acts: seq<PrescriptionsAction>)
    ensures ReduceAll(s, acts).prescriptions == s.prescriptions + Created(acts)
    decreases |acts|
  {
    if |acts| > 0 {
      var next := Reduce(s, acts[0]);
      ReduceAllAppends(next, acts[1..]);
      assert next.prescriptions + Created(acts[1..]) == s.prescriptions + Created(acts);
    }
  }

  /** Hence earlier prescriptions are never changed, reordered or removed. */
  lemma ReduceAllKeepsPrefix(s: PrescriptionsState, acts: seq<PrescriptionsAction>)
    ensures var r := ReduceAll(s, acts);
      && |s.prescriptions| <= |r.prescriptions|
      && r.prescriptions[..|s.prescriptions|] == s.prescriptions
  {
    ReduceAllAppends(s, acts);
  }

  /** Whatever is dispatched, a stored error is never the empty string. */
  lemma ReduceAllKeepsErrorWellFormed(s: PrescriptionsState, acts: seq<PrescriptionsAction>)
    requires WellFormedError(s.error)
    ensures WellFormedError(ReduceAll(s, acts).error)
  {
    RunPreserves(Reduce, (t: PrescriptionsState) => WellFormedError(t.error), s, acts);
  }

  /** A successful create (pending, then fulfilled) from any state appends
      exactly one prescription built from the input, stops loading and leaves
      no error. */
  lemma CreateSucceeds(s: PrescriptionsState, input: PrescriptionInput, id: string, createdAt: string)
    ensures ReduceAll(s, [CreatePending, CreateFulfilled(MakePrescription(input, id, createdAt))])
      == PrescriptionsState(s.prescriptions + [MakePrescription(input, id, createdAt)], false, None)
  {
    RunPair(Reduce, s, CreatePending, CreateFulfilled(MakePrescription(input, id, createdAt)));
  }

  /** A failed create (pending, then rejected) keeps the list, stops loading
      and stores a non-empty error. */
  lemma CreateFails(s: PrescriptionsState, message: Option<string>)
    ensures var r := ReduceAll(s, [CreatePending, CreateRejected(message)]);
      && r.prescriptions == s.prescriptions && !r.loading
      && r.error == Some(RejectionMessage(message, CreateFailedMessage))
      && r.error.value != ""
  {
    RunPair(Reduce, s, CreatePending, CreateRejected(message));
  }

  /** The appointment id is stored as given, whether or not any appointment
      has it: the slice never consults the appointments. */
  lemma CreateAcceptsAnyAppointmentId(s: PrescriptionsState, input: PrescriptionInput, id: string, createdAt: string)
    ensures var r := Reduce(s, CreateFulfilled(MakePrescription(input, id, createdAt)));
      && |r.prescriptions| == |s.prescriptions| + 1
      && r.prescriptions[|s.prescriptions|].appointmentId == input.appointmentId
  {
  }

  /** Two creates in a row, given different ids, append two prescriptions in
      completion order, with distinct ids. */
  lemma TwoCreatesScenario(s: PrescriptionsState,
                           in1: PrescriptionInput, id1: string, t1: string,
                           in2: PrescriptionInput, id2: string, t2: string)
    requires id1 != id2
    ensures var p1 := MakePrescription(in1, id1, t1);
            var p2 := MakePrescription(in2, id2, t2);
            var r := ReduceAll(s, [CreatePending, CreateFulfilled(p1), CreatePending, CreateFulfilled(p2)]);
      && r.prescriptions == s.prescriptions + [p1, p2]
      && r.prescriptions[|s.prescriptions|].id != r.prescriptions[|s.prescriptions| + 1].id
      && !r.loading && r.error.None?
  {
    var p1 := MakePrescription(in1, id1, t1);
    var p2 := MakePrescription(in2, id2, t2);
    var first := [CreatePending, CreateFulfilled(p1)];
    var second := [CreatePending, CreateFulfilled(p2)];
    assert [CreatePending, CreateFulfilled(p1), CreatePending, CreateFulfilled(p2)] == first + second;
    RunConcat(Reduce, s, first, second);
    CreateSucceeds(s, in1, id1, t1);
    var mid := PrescriptionsState(s.prescriptions + [p1], false, None);
    CreateSucceeds(mid, in2, id2, t2);
    assert s.prescriptions + [p1] + [p2] == s.prescriptions + [p1, p2];
  }
}
