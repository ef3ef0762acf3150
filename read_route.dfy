/** app/api/messages/read/route.ts: record that a user has read a message. */
module ReadRoute {
  import opened Wrappers
  import opened Store
  import opened Http

  /** The upsert on the unique pair (messageId, userId); `update: {}` leaves a present record as it is. */
  function Upsert(receipts: set<(string, string)>, messageId: string, userId: string): (r: set<(string, string)>)
    ensures (messageId, userId) in r
    ensures forall p :: p != (messageId, userId) ==> (p in r <==> p in receipts)
  {
    receipts + {(messageId, userId)}
  }

  /** Marking a message read a second time changes nothing. */
  lemma UpsertIsIdempotent(receipts: set<(string, string)>, messageId: string, userId: string)
    ensures Upsert(Upsert(receipts, messageId, userId), messageId, userId) == Upsert(receipts, messageId, userId)
    ensures (messageId, userId) in receipts ==> Upsert(receipts, messageId, userId) == receipts
  {
  }

  /**
   * `POST`: a field missing from the body makes the upsert throw, which is a
   * 500; otherwise the pair is stored and the reply is `success: true`.
   */
  method Post(db: Database, messageId: Option<string>, userId: Option<string>) returns (r: Response<bool>)
    requires db.Valid()
    modifies db`readReceipts
    ensures db.Valid()
    ensures messageId.None? || userId.None? ==> r == ServerError("Internal server error") && unchanged(db)
    ensures messageId.Some? && userId.Some? ==>
      r == Ok(true) && db.readReceipts == Upsert(old(db.readReceipts), messageId.value, userId.value)
  {
    if messageId.None? || userId.None? {
      return ServerError("Internal server error");
    }
    db.readReceipts := Upsert(db.readReceipts, messageId.value, userId.value);
    r := Ok(true);
  }
}
