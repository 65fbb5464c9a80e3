/**
 * The message queue wrapper: a queue named by its name and owning account,
 * whose URL is unknown until a lookup succeeds, and a send that uses whatever
 * URL the object holds at that moment.
 */
module Queue {
  import opened Outcome
  import Json

  /** The parameters of a URL lookup. */
  datatype UrlRequest = UrlRequest(queueName: string, queueOwnerAWSAccountId: string)

  /** The part of a lookup response the library reads: `QueueUrl`. */
  datatype UrlOutput = UrlOutput(queueUrl: Option<string>)

  /** The parameters of a send; `queueUrl` is `None` while no lookup has succeeded. */
  datatype SendRequest = SendRequest(messageBody: string, queueUrl: Option<string>)

  /** The URL after one lookup that got `reply`: the returned one on success, unchanged on failure. */
  function UrlAfter(url: Option<string>, reply: Reply<UrlOutput>): (r: Option<string>)
    ensures reply.Failed? ==> r == url
    ensures reply.Answered? ==> r == reply.data.queueUrl
  {
    match reply
    case Failed(_) => url
    case Answered(output) => output.queueUrl
  }

  /** The URL after a series of lookups, in order. */
  function UrlAfterAll(url: Option<string>, replies: seq<Reply<UrlOutput>>): Option<string>
    decreases |replies|
  {
    if replies == [] then url else UrlAfterAll(UrlAfter(url, replies[0]), replies[1..])
  }

  /**
   * After a series of lookups the URL is the one the last successful lookup
   * returned; failed lookups in between or after leave no trace, and with no
   * success at all the URL is what it was before.
   */
  lemma {:induction false} LastSuccessWins(url: Option<string>, replies: seq<Reply<UrlOutput>>, i: nat)
    requires i < |replies| && replies[i].Answered?
    requires forall j :: i < j < |replies| ==> replies[j].Failed?
    ensures UrlAfterAll(url, replies) == replies[i].data.queueUrl
    decreases i
  {
    if i == 0 {
      FailuresKeepUrl(UrlAfter(url, replies[0]), replies[1..]);
    } else {
      LastSuccessWins(UrlAfter(url, replies[0]), replies[1..], i - 1);
    }
  }

  lemma {:induction false} FailuresKeepUrl(url: Option<string>, replies: seq<Reply<UrlOutput>>)
    requires forall j :: 0 <= j < |replies| ==> replies[j].Failed?
    ensures UrlAfterAll(url, replies) == url
    decreases |replies|
  {
    if replies != [] {
      FailuresKeepUrl(url, replies[1..]);
    }
  }

  /** A queue wrapper: `name` and `owner` are fixed at construction; `url` is set by lookups. */
  class Queue {
    const name: string
    const owner: string
    var url: Option<string>

    /** `new Queue(name, owner)`: no URL yet. */
    constructor (name: string, owner: string)
      ensures this.name == name && this.owner == owner && url == None
    {
      this.name := name;
      this.owner := owner;
      url := None;
    }

    /**
     * `getQueueUrl()`: asks for the URL of this queue; on success stores the
     * returned `QueueUrl` and resolves with no value; on failure rejects with
     * the service's error and leaves the URL as it was.
     */
    method GetQueueUrl(reply: Reply<UrlOutput>) returns (request: UrlRequest, settled: Settled<()>)
      modifies this`url
      ensures request == UrlRequest(name, owner)
      ensures url == UrlAfter(old(url), reply)
      ensures reply.Failed? ==> url == old(url) && settled == Rejected(ServiceError(reply.message))
      ensures reply.Answered? ==> url == reply.data.queueUrl && settled == Resolved(())
    {
      request := UrlRequest(name, owner);
      match reply {
        case Failed(message) =>
          settled := Rejected(ServiceError(message));
        case Answered(output) =>
          url := output.queueUrl;
          settled := Resolved(());
      }
    }

    /**
     * `sendMessage(message)`: sends the message to the URL held now, resolved
     * or not; the reply passes through and nothing about the queue changes.
     */
    method SendMessage(message: string, reply: Reply<Json.Value>) returns (request: SendRequest, settled: Settled<Json.Value>)
      ensures request.messageBody == message && request.queueUrl == url
      ensures settled.Resolved? <==> reply.Answered?
      ensures reply.Answered? ==> settled.value == reply.data
      ensures reply.Failed? ==> settled.error == ServiceError(reply.message)
    {
      request := SendRequest(message, url);
      settled := PassThrough(reply);
    }
  }

  /**
   * The lookup and send sequences of the test suite, followed on one queue
   * object: a send before any lookup goes out with no URL; a failed lookup
   * keeps it unset, a successful one sets it, a later failure keeps it; the
   * next send uses it. `sent` holds the requests of the two sends.
   */
  method Scenario() returns (sent: seq<SendRequest>)
    ensures sent == [SendRequest("this is a test message", None), SendRequest("this is a test message", Some("a url"))]
  {
    var q := new Queue("a queue", "me");
    var first, result := q.SendMessage("this is a test message", Answered(Json.Str("message sent")));
    assert result == Resolved(Json.Str("message sent"));

    var asked, looked := q.GetQueueUrl(Failed("SQS has failed"));
    assert asked == UrlRequest("a queue", "me");
    assert looked == Rejected(ServiceError("SQS has failed")) && q.url == None;

    asked, looked := q.GetQueueUrl(Answered(UrlOutput(Some("a url"))));
    assert looked == Resolved(()) && q.url == Some("a url");

    asked, looked := q.GetQueueUrl(Failed("SQS has failed"));
    assert q.url == Some("a url");

    var second;
    second, result := q.SendMessage("this is a test message", Failed("SQS sendMessage has failed"));
    assert result == Rejected(ServiceError("SQS sendMessage has failed"));
    assert q.name == "a queue" && q.owner == "me";
    sent := [first, second];
  }
}
