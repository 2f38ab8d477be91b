/** The record both storage back ends share: a row of the `users` table. */
module Schema {
  import opened Common

  /** A row of the `users` table; the timestamps are not modelled. */
  datatype User = User(
    id: string,
    email: Option<string>,
    firstName: Option<string>,
    lastName: Option<string>,
    profileImageUrl: Option<string>,
    wisdomScore: int,
    criticScore: real,
    expertiseGoal: int,
    junkTolerance: int)
}
