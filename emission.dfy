/**
 * What a builder appends to the generator's three output lists: the
 * template's resources, the alerts and the copy-blob manifest entries.
 * Sequential building is concatenation of what each step appends.
 */
module Emission {
  import opened Wrappers
  import opened ArmTemplate

  datatype Emitted = Emitted(
    resources: seq<ArmResource>,
    alerts: seq<Alert>,
    copyBlobs: seq<Option<CopyBlobDetail>>)
  {
    /** This step followed by the next one. */
    function Then(next: Emitted): Emitted {
      Emitted(resources + next.resources, alerts + next.alerts, copyBlobs + next.copyBlobs)
    }
  }

  const Nothing: Emitted := Emitted([], [], [])

  function Resources(rs: seq<ArmResource>): Emitted {
    Emitted(rs, [], [])
  }

  /** Proof glue for the category loops: sequential steps group either way. */
  lemma ThenIsAssociative(x: Emitted, y: Emitted, z: Emitted)
    ensures x.Then(y).Then(z) == x.Then(y.Then(z))
    ensures x.Then(Nothing) == x && Nothing.Then(x) == x
  {
  }
}
