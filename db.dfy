/**
 * The record store: put, get and delete against one table, with an optional
 * `expiry_date` attribute (epoch seconds) that the read path enforces itself.
 *
 * Each operation takes the reply of the table service to the request it sends,
 * and the read path takes the clock reading in milliseconds; it returns the
 * request together with how its promise settles.
 */
module Db {
  import opened Outcome
  import Json

  /** An item: attribute names to the values the document client hands back. */
  type Item = map<string, Json.Value>

  /** The key object the caller passes, sent to the service as it is. */
  type Key = Json.Value

  const ExpiryAttribute: string := "expiry_date"

  /** The error `get` rejects with when there is no live item. */
  const NotFound: Error := LibraryError("No matching record found")

  /** The parameters of a put: the item and the table. */
  datatype PutRequest = PutRequest(item: Item, tableName: string)

  /** The parameters of a get or a delete: the table and the key. */
  datatype KeyRequest = KeyRequest(tableName: string, key: Key)

  /** The part of a get response the library looks at: the item, if there is one. */
  datatype GetOutput = GetOutput(item: Option<Item>)

  /** `Math.floor(ms / 1000)`: the whole seconds of a millisecond clock reading. */
  function EpochSeconds(ms: int): (s: int)
    ensures s * 1000 <= ms < s * 1000 + 1000
  {
    ms / 1000
  }

  /** The item's expiry date, when the attribute is present and a number. */
  function ExpiryDate(item: Item): (e: Option<int>)
    ensures e.Some? <==> ExpiryAttribute in item && item[ExpiryAttribute].Int?
    ensures e.Some? ==> item[ExpiryAttribute] == Json.Int(e.value)
  {
    if ExpiryAttribute in item && item[ExpiryAttribute].Int? then Some(item[ExpiryAttribute].n) else None
  }

  /**
   * `item.expiry_date && item.expiry_date < now`: the expiry date is set, is not
   * zero (zero is falsy, so it means "never expires"), and lies strictly before now.
   */
  predicate Expired(item: Item, now: int)
  {
    match ExpiryDate(item)
    case None => false
    case Some(e) => e != 0 && e < now
  }

  /**
   * How a get settles, given the service's reply and the current epoch second:
   * a service error passes through; no item, or an expired one, is "not found";
   * otherwise the whole item, unchanged.
   */
  function ReadItem(reply: Reply<GetOutput>, now: int): (s: Settled<Item>)
    ensures reply.Failed? ==> s == Rejected(ServiceError(reply.message))
    ensures s.Resolved? <==> reply.Answered? && reply.data.item.Some? && !Expired(reply.data.item.value, now)
    ensures s.Resolved? ==> s.value == reply.data.item.value
    ensures reply.Answered? && s.Rejected? ==> s.error == NotFound
  {
    match reply
    case Failed(message) => Rejected(ServiceError(message))
    case Answered(output) =>
      match output.item
      case None => Rejected(NotFound)
      case Some(item) => if Expired(item, now) then Rejected(NotFound) else Resolved(item)
  }

  /** A record store bound to one table; nothing changes the table afterwards. */
  datatype DB = DB(tableName: string)
  {
    /** `save(data)`: puts `data` into the table; the reply passes through. */
    function Save(data: Item, reply: Reply<Json.Value>): (c: Call<PutRequest, Json.Value>)
      ensures c.request.item == data && c.request.tableName == tableName
      ensures c.settled.Resolved? <==> reply.Answered?
      ensures reply.Answered? ==> c.settled.value == reply.data
      ensures reply.Failed? ==> c.settled.error == ServiceError(reply.message)
    {
      Call(PutRequest(data, tableName), PassThrough(reply))
    }

    /** `get(key)`, read at clock reading `nowMs` (milliseconds). */
    function Get(key: Key, reply: Reply<GetOutput>, nowMs: int): (c: Call<KeyRequest, Item>)
      ensures c.request.tableName == tableName && c.request.key == key
      ensures c.settled == ReadItem(reply, EpochSeconds(nowMs))
    {
      Call(KeyRequest(tableName, key), ReadItem(reply, EpochSeconds(nowMs)))
    }

    /** `delete(key)`: deletes the item at `key`; the reply passes through. */
    function Delete(key: Key, reply: Reply<Json.Value>): (c: Call<KeyRequest, Json.Value>)
      ensures c.request.tableName == tableName && c.request.key == key
      ensures c.settled.Resolved? <==> reply.Answered?
      ensures reply.Answered? ==> c.settled.value == reply.data
      ensures reply.Failed? ==> c.settled.error == ServiceError(reply.message)
    {
      Call(KeyRequest(tableName, key), PassThrough(reply))
    }
  }

  /** `new DB(tableName, region)`; the region only configures the client. */
  function NewDB(tableName: string, region: string): (db: DB)
    ensures db.tableName == tableName
  {
    DB(tableName)
  }

  // ----- properties of the read path -----

  /**
   * An item with a non-zero expiry date `e` is returned exactly while the clock
   * reads less than the end of second `e`, that is `nowMs < (e + 1) * 1000`;
   * equality of the seconds still returns it.
   */
  lemma ExpiryBoundary(db: DB, key: Key, item: Item, e: int, nowMs: int)
    requires ExpiryDate(item) == Some(e) && e != 0
    ensures db.Get(key, Answered(GetOutput(Some(item))), nowMs).settled.Resolved?
            <==> EpochSeconds(nowMs) <= e
    ensures db.Get(key, Answered(GetOutput(Some(item))), nowMs).settled.Resolved?
            <==> nowMs < e * 1000 + 1000
  {
    var s := EpochSeconds(nowMs);
    if s <= e {
      assert nowMs < s * 1000 + 1000 <= e * 1000 + 1000;
    } else {
      assert e * 1000 + 1000 <= s * 1000 <= nowMs;
    }
  }

  /** An item with no numeric expiry date, or with expiry date 0, is returned whole at any time. */
  lemma NoExpiryIsForever(db: DB, key: Key, item: Item, nowMs: int)
    requires ExpiryDate(item).None? || ExpiryDate(item) == Some(0)
    ensures db.Get(key, Answered(GetOutput(Some(item))), nowMs).settled == Resolved(item)
  {
  }

  /** `EpochSeconds` never goes backwards as the clock advances. */
  lemma EpochSecondsMonotonic(earlier: int, later: int)
    requires earlier <= later
    ensures EpochSeconds(earlier) <= EpochSeconds(later)
  {
  }

  /** Once a stored item reads as expired, it reads as expired at every later time. */
  lemma ExpiryIsFinal(db: DB, key: Key, item: Item, nowMs: int, laterMs: int)
    requires nowMs <= laterMs
    requires db.Get(key, Answered(GetOutput(Some(item))), nowMs).settled.Rejected?
    ensures db.Get(key, Answered(GetOutput(Some(item))), laterMs).settled == Rejected(NotFound)
  {
    EpochSecondsMonotonic(nowMs, laterMs);
  }

  /**
   * The error cases are told apart: a rejection of `get` is "not found" exactly
   * when the service answered, and is the service's own error exactly when it failed.
   */
  lemma GetErrorsAreDistinct(db: DB, key: Key, reply: Reply<GetOutput>, nowMs: int)
    requires db.Get(key, reply, nowMs).settled.Rejected?
    ensures db.Get(key, reply, nowMs).settled.error == NotFound <==> reply.Answered?
    ensures db.Get(key, reply, nowMs).settled.error.ServiceError? <==> reply.Failed?
  {
  }

  // ----- the table service scenarios of the test suite, stated at any clock reading -----

  function LoanItem(expiry: Option<int>): Item
  {
    var item := map["loan_id" := Json.Str("a loan")];
    match expiry
    case None => item
    case Some(e) => item[ExpiryAttribute := Json.Int(e)]
  }

  /** Expired ten seconds ago: "No matching record found"; expiring in ten seconds: the whole item. */
  lemma LoanScenarios(nowMs: int)
    ensures var db := NewDB("LoanCacheTable", "eu-west-2");
            var key := Json.Obj([Json.Member("loan_id", Json.Str("a loan"))]);
            var now := EpochSeconds(nowMs);
            && db.Get(key, Answered(GetOutput(Some(LoanItem(None)))), nowMs).settled == Resolved(LoanItem(None))
            && (now - 10 != 0 ==>
                db.Get(key, Answered(GetOutput(Some(LoanItem(Some(now - 10))))), nowMs).settled == Rejected(NotFound))
            && db.Get(key, Answered(GetOutput(Some(LoanItem(Some(now + 10))))), nowMs).settled
               == Resolved(LoanItem(Some(now + 10)))
            && db.Get(key, Answered(GetOutput(None)), nowMs).settled == Rejected(NotFound)
            && db.Get(key, Failed("DynamoDB broke"), nowMs).settled == Rejected(ServiceError("DynamoDB broke"))
            && db.Get(key, Failed("DynamoDB broke"), nowMs).request == KeyRequest("LoanCacheTable", key)
  {
    var now := EpochSeconds(nowMs);
    assert ExpiryDate(LoanItem(Some(now - 10))) == Some(now - 10);
    assert ExpiryDate(LoanItem(Some(now + 10))) == Some(now + 10);
    assert ExpiryDate(LoanItem(None)).None?;
  }
}
