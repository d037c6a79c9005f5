/** The entities of internal/domain that every other module shares. */
module Domain {

  type Id = string

  /** Instants and spans are in nanoseconds; a calendar day is taken as a fixed span. */
  const DAY := 86_400_000_000_000

  datatype Option<+T> = None | Some(value: T)

  /** The error classes of internal/domain/errors.go, plus a plain database failure. */
  datatype Error = NotFound | Conflict | Invalid | Failure

  datatype Result<+T> = Ok(value: T) | Err(error: Error)

  /** The four named states; an update may also store any other word. */
  datatype UserStatus = Active | Suspended | Expired | Disabled | Custom(word: string)

  datatype SyncStatus = Pending | Applied | Failed | Removing

  datatype User = User(
    email: string,
    planId: Option<Id>,
    status: UserStatus,
    dataLimit: Option<int>,
    usedUp: int,
    usedDown: int,
    expiresAt: Option<int>,
    externalId: Option<string>,
    note: string)
  {
    function UsedTotal(): int { usedUp + usedDown }

    predicate OverQuota() { dataLimit.Some? && UsedTotal() >= dataLimit.value }

    /** Past its expiry at the instant `now`; the expiry instant itself is already past. */
    predicate Due(now: int) { expiresAt.Some? && expiresAt.value <= now }

    /** ResetTraffic: both counters at zero. */
    function Emptied(): User { this.(usedUp := 0, usedDown := 0) }

    /** UpdateUser: the columns of `v` written over this row as it stands; email and counters are not among them. */
    function Overwritten(v: User): User {
      this.(planId := v.planId, status := v.status, dataLimit := v.dataLimit, expiresAt := v.expiresAt,
            note := v.note, externalId := v.externalId)
    }
  }

  /** UNIQUE (email). */
  ghost predicate UniqueEmails(us: map<Id, User>) {
    forall a, b :: a in us && b in us && us[a].email == us[b].email ==> a == b
  }

  datatype Plan = Plan(dataLimit: Option<int>, durationDays: Option<int>)

  datatype Inbound = Inbound(node: Id, tag: string)

  datatype Direction = Uplink | Downlink

  /** Bytes in either direction. */
  datatype Traffic = Traffic(up: int, down: int) {
    function Of(d: Direction): int { if d.Uplink? then up else down }
  }

  /** Primary key of a user_inbounds row. */
  datatype Key = Key(user: Id, inbound: Id)
}
