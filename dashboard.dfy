/**
 * The hospital dashboard: a status-to-badge lookup, one view per role, and
 * the admin's short list of recent registrations.
 */
module Dashboard {

  const SuccessClasses := "bg-success text-success-foreground"
  const DestructiveClasses := "bg-destructive text-destructive-foreground"
  const SecondaryClasses := "bg-secondary text-secondary-foreground"
  const MutedClasses := "bg-muted text-muted-foreground"

  /** The statuses the `switch` of `getStatusColor` lists, with their classes. */
  const StatusTable: map<string, string> :=
    map["stable" := SuccessClasses, "scheduled" := SuccessClasses,
        "critical" := DestructiveClasses,
        "recovering" := SecondaryClasses, "completed" := SecondaryClasses,
        "cancelled" := MutedClasses]

  /** `getStatusColor`: the `switch` with its `default` case. */
  function StatusColor(status: string): (r: string)
    ensures r in {SuccessClasses, DestructiveClasses, SecondaryClasses, MutedClasses}
    ensures r == SuccessClasses <==> status == "stable" || status == "scheduled"
    ensures r == DestructiveClasses <==> status == "critical"
    ensures r == SecondaryClasses <==> status == "recovering" || status == "completed"
  {
    match status
    case "stable" => SuccessClasses
    case "scheduled" => SuccessClasses
    case "critical" => DestructiveClasses
    case "recovering" => SecondaryClasses
    case "completed" => SecondaryClasses
    case "cancelled" => MutedClasses
    case _ => MutedClasses
  }

  /** The `switch` agrees with a table lookup that defaults to the muted classes. */
  lemma StatusColorIsTableLookup(status: string)
    ensures StatusColor(status) == if status in StatusTable then StatusTable[status] else MutedClasses
  {
  }

  /** A status outside the table, like "cancelled", gets the muted classes. */
  lemma UnlistedStatusIsMuted(status: string)
    requires status !in StatusTable || status == "cancelled"
    ensures StatusColor(status) == MutedClasses
  {
  }

  datatype View = AdminView | DoctorView | PatientView

  /** The role dispatch: the admin and doctor views by name, the patient portal for anything else. */
  function ViewFor(role: string): (v: View)
    ensures v == AdminView <==> role == "admin"
    ensures v == DoctorView <==> role == "doctor"
    ensures v == PatientView <==> role != "admin" && role != "doctor"
  {
    if role == "admin" then AdminView
    else if role == "doctor" then DoctorView
    else PatientView
  }

  datatype Patient = Patient(id: string, name: string, age: nat, condition: string, lastVisit: string, status: string)

  /** `patients.slice(0, 3)`: the admin's "Recent Registrations". */
  function RecentRegistrations(patients: seq<Patient>): (r: seq<Patient>)
    ensures |r| == if |patients| < 3 then |patients| else 3
    ensures r == patients[..|r|]
  {
    if |patients| <= 3 then patients else patients[..3]
  }

  /** Every patient, and only those, up to the third is listed, at its own position. */
  lemma RecentRegistrationsAt(patients: seq<Patient>, k: nat)
    requires k < |patients|
    ensures k < |RecentRegistrations(patients)| <==> k < 3
    ensures k < 3 ==> RecentRegistrations(patients)[k] == patients[k]
  {
  }
}
