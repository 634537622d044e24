/** The per-date idempotency ledger (`sent_jobs`): one row per user, content
    type, day index and local date that was actually delivered. */
module SentJobs {
  import opened Clock

  datatype SentKey = SentKey(userId: int, contentType: string, dayIndex: int, forDate: Day)

  class SentJobsRepo {
    var rows: set<SentKey>

    constructor ()
      ensures rows == {}
    {
      rows := {};
    }

    /** `was_sent`: is the key recorded? */
    function WasSent(k: SentKey): bool
      reads this
    {
      k in rows
    }

    /** `mark_sent`: insert-if-absent; reports whether this call inserted the row. */
    method MarkSent(k: SentKey) returns (inserted: bool)
      modifies this
      ensures rows == old(rows) + {k}
      ensures inserted <==> k !in old(rows)
    {
      inserted := k !in rows;
      rows := rows + {k};
    }
  }
}

/** The per-day delivery ledger (`deliveries`), keyed by user, day index and item
    type ("lesson" or "quest"). */
module Deliveries {

  datatype DeliveryKey = DeliveryKey(userId: int, dayIndex: int, itemType: string)

  class DeliveriesRepo {
    var rows: set<DeliveryKey>

    constructor ()
      ensures rows == {}
    {
      rows := {};
    }

    function WasSent(userId: int, dayIndex: int, itemType: string): bool
      reads this
    {
      DeliveryKey(userId, dayIndex, itemType) in rows
    }

    /** `mark_sent`: insert-if-absent, nothing returned. */
    method MarkSent(userId: int, dayIndex: int, itemType: string)
      modifies this
      ensures rows == old(rows) + {DeliveryKey(userId, dayIndex, itemType)}
    {
      rows := rows + {DeliveryKey(userId, dayIndex, itemType)};
    }
  }
}
