/** The fixed list the mock fetch request resolves with. */
module AppointmentsFixture {
  import opened Lifecycle
  import opened Appointments

  const MockAppointments: seq<Appointment> := [
    Appointment("1", "Sarah Johnson", 34, "Persistent headaches, dizziness",
      "09:00 AM", "2024-01-15", "+1 (555) 123-4567", "sarah.johnson@email.com",
      Scheduled, Some("Patient reports headaches for the past week")),
    Appointment("2", "Michael Chen", 28, "Chest pain, shortness of breath",
      "10:30 AM", "2024-01-15", "+1 (555) 987-6543", "michael.chen@email.com",
      Scheduled, Some("Urgent consultation needed")),
    Appointment("3", "Emma Williams", 45, "Joint pain, fatigue",
      "02:00 PM", "2024-01-15", "+1 (555) 456-7890", "emma.williams@email.com",
      Completed, Some("Follow-up appointment required")),
    Appointment("4", "David Rodriguez", 52, "High blood pressure, routine check",
      "03:30 PM", "2024-01-15", "+1 (555) 321-0987", "david.rodriguez@email.com",
      Scheduled, Some("Regular monthly check-up")),
    Appointment("5", "Lisa Anderson", 31, "Skin rash, itching",
      "04:45 PM", "2024-01-15", "+1 (555) 654-3210", "lisa.anderson@email.com",
      Cancelled, Some("Patient cancelled due to emergency"))
  ]

  /** The fixture holds five appointments with distinct ids, three of them
      scheduled, one completed and one cancelled. */
  lemma MockFixtureShape()
    ensures |MockAppointments| == 5
    ensures DistinctIds(MockAppointments)
    ensures CountStatus(MockAppointments, Scheduled) == 3
    ensures CountStatus(MockAppointments, Completed) == 1
    ensures CountStatus(MockAppointments, Cancelled) == 1
  {
  }
}
