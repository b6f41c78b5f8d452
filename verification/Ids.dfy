/** Identifiers, clocks and leases shared by every table. */
module Ids {
  /** A UUID is a number of 128 bits. */
  type Uuid = n: int | 0 <= n < 0x1_0000_0000_0000_0000_0000_0000_0000_0000

  type ProjectId = Uuid
  type DeploymentId = Uuid
  type WorkerId = nat
  /** Claim tokens are fresh random ids; only their being different matters, so they are counted. */
  type Token = nat
  type Time = int

  datatype ProjectStatus = Draft | Ready | Deleting

  datatype Lease = Lease(owner: WorkerId, token: Token, expiresAt: Time)
}
