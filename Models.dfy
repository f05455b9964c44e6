/** The records the core reads and writes: the ORM models of app/models/. */
module Models {
  import opened Optional
  import opened Enums

  /** One row of `instance_status_events` for a fixed instance. `changedAt` is nullable
      in the schema (it has a server default), hence the `Option`. */
  datatype StatusEvent = StatusEvent(fromStatus: Option<string>, toStatus: string, changedAt: Option<int>)

  /** An event added to the session with `db.add(...)`; the database stamps
      `changed_at` when the transaction commits, so it carries no time here. */
  datatype PendingEvent = PendingEvent(instanceId: int, fromStatus: Option<string>, toStatus: string)

  /** A `UserBotInstance` row as loaded into the session; times are in seconds. */
  class Instance {
    const id: int
    const externalId: string
    const createdAt: Option<int>
    var status: Status
    var lastChargeAt: Option<int>
    var nextChargeAt: Option<int>

    constructor (id: int, externalId: string, createdAt: Option<int>, status: Status)
      ensures this.id == id && this.externalId == externalId && this.createdAt == createdAt
      ensures this.status == status && lastChargeAt == None && nextChargeAt == None
    {
      this.id := id;
      this.externalId := externalId;
      this.createdAt := createdAt;
      this.status := status;
      lastChargeAt := None;
      nextChargeAt := None;
    }
  }

  /** A `User` row; the balance is an integer in the smallest currency unit. */
  class User {
    var balance: int

    constructor (balance: int)
      ensures this.balance == balance
    {
      this.balance := balance;
    }
  }

  /** A `Bot` row: only its monthly rate matters to billing, and it is not changed. */
  datatype Bot = Bot(rate: int)

  /** The unit of work: the status events added to it and not yet committed. */
  class Session {
    var added: seq<PendingEvent>

    constructor ()
      ensures added == []
    {
      added := [];
    }
  }
}
