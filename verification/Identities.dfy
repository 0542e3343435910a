/** Who calls. */
module Identities {

  const ANALYST := "analyst"
  const SALES := "sales"
  const ADMIN := "admin"

  datatype Identity = Identity(userID: string, role: string, team: string, keyID: int)
}
