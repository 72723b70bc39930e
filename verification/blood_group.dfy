/** The eight ABO/Rh blood groups that both the Emergency and the Donor schema accept. */
module BloodGroups {
  import opened Wrappers

  datatype BloodGroup = APos | ANeg | BPos | BNeg | ABPos | ABNeg | OPos | ONeg

  /** The spelling stored in the database. */
  function Name(g: BloodGroup): string {
    match g
    case APos => "A+"
    case ANeg => "A-"
    case BPos => "B+"
    case BNeg => "B-"
    case ABPos => "AB+"
    case ABNeg => "AB-"
    case OPos => "O+"
    case ONeg => "O-"
  }

  /** The schema's `enum` check: the blood group a string names, if any. */
  function Parse(s: string): (r: Option<BloodGroup>)
    ensures r.Some? ==> Name(r.value) == s
    ensures r.Some? <==> s in {"A+", "A-", "B+", "B-", "AB+", "AB-", "O+", "O-"}
  {
    if s == "A+" then Some(APos)
    else if s == "A-" then Some(ANeg)
    else if s == "B+" then Some(BPos)
    else if s == "B-" then Some(BNeg)
    else if s == "AB+" then Some(ABPos)
    else if s == "AB-" then Some(ABNeg)
    else if s == "O+" then Some(OPos)
    else if s == "O-" then Some(ONeg)
    else None
  }

  /** Every stored blood group reads back as itself. */
  lemma ParseName(g: BloodGroup)
    ensures Parse(Name(g)) == Some(g)
  {
  }
}
