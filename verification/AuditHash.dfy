/** What a row of the audit table hashes, column by column. */
module AuditHash {
  import opened Types
  import opened AuditChain

  /** The hashed text is the columns one after the other. */
  lemma Spelled(r: Row)
    requires r.prevHash.Some?
    ensures Preimage(r) == r.prevHash.value + r.eventId + r.timestamp + r.event + r.agent + r.outcome
  {
  }

  /** What the seed is the hash of. */
  lemma SeedText()
    ensures |GENESIS| == 30 && GENESIS[..6] == "sha256" && GENESIS[7..] == "zerolease-audit-genesis"
  {
  }

  /** Feeds the columns to the hasher one by one; this is the hash that is stored and recomputed. */
  method ComputeEntryHash(h: Hash, prev: string, eventId: string, timestamp: string, event: string, agent: string,
                          outcome: string) returns (hash: string)
    ensures hash == h(prev + eventId + timestamp + event + agent + outcome)
    ensures Chained(h, Entry(eventId, timestamp, event, agent, outcome), prev)
         == Row(eventId, timestamp, event, agent, outcome, Some(prev), Some(hash))
  {
    Spelled(Row(eventId, timestamp, event, agent, outcome, Some(prev), None));
    var fed := prev;
    fed := fed + eventId;
    fed := fed + timestamp;
    fed := fed + event;
    fed := fed + agent;
    fed := fed + outcome;
    return h(fed);
  }

  /**
   * A row is in order exactly if, having both hashes, it hashes its own columns in order and links
   * to the row before it, or to the seed if that has no hashes or there is none.
   */
  lemma BrokenMeaning(h: Hash, rows: seq<Row>, i: nat)
    requires i < |rows|
    ensures !Broken(h, rows, i) <==>
      (rows[i].prevHash.Some? && rows[i].entryHash.Some? ==>
         && rows[i].entryHash.value
            == h(rows[i].prevHash.value + rows[i].eventId + rows[i].timestamp + rows[i].event + rows[i].agent
                 + rows[i].outcome)
         && (i > 0 && rows[i - 1].prevHash.Some? && rows[i - 1].entryHash.Some? ==>
               rows[i].prevHash.value == rows[i - 1].entryHash.value)
         && (i == 0 || rows[i - 1].prevHash.None? || rows[i - 1].entryHash.None? ==>
               rows[i].prevHash.value == h(GENESIS)))
  {
    if rows[i].prevHash.Some? {
      Spelled(rows[i]);
    }
  }
}
