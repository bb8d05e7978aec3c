/**
 * The outbox table: `OutboxStatus` and the `OutboxMixin` record. Times are
 * whole seconds on one clock; the row's `id` (a uuid4 primary key) is not
 * modelled, rows being identified by their position in the table.
 */
module OutboxRecords {
  import opened Wrappers
  import opened Externals

  datatype OutboxStatus = Pending | Processed | Failed

  /** The string each status is stored as. */
  function StatusValue(s: OutboxStatus): string {
    match s
    case Pending => "PENDING"
    case Processed => "PROCESSED"
    case Failed => "FAILED"
  }

  /** The three stored strings are distinct, so the column determines the status. */
  lemma StatusValueIsInjective(a: OutboxStatus, b: OutboxStatus)
    ensures StatusValue(a) == StatusValue(b) <==> a == b
  {
  }

  datatype OutboxRecord = OutboxRecord(
    eventType: string,
    payload: Payload,
    status: OutboxStatus,
    attempts: nat,
    scheduledAt: int,
    lastError: Option<string>,
    occurredAt: int,
    processedAt: Option<int>)

  /**
   * `outbox_model(event_type=..., payload=...)` created at time `now`: the two
   * arguments are the only caller-supplied fields; the rest take their
   * column defaults.
   */
  function NewRecord(eventType: string, payload: Payload, now: int): OutboxRecord {
    OutboxRecord(eventType, payload, Pending, 0, now, None, now, None)
  }

  /** The outbox table as the processor and the unit of work share it. */
  class OutboxStore {
    var rows: seq<OutboxRecord>

    constructor ()
      ensures rows == []
    {
      rows := [];
    }
  }
}
