/**
 * The notification topic wrapper: a topic bound to one target ARN, whose
 * publish sends a string payload as it is and any other payload as its JSON text.
 */
module Topic {
  import opened Outcome
  import Json

  /** The parameters of a publish. */
  datatype SnsMessage = SnsMessage(message: string, targetArn: string)

  /** A topic bound to one target; nothing changes the ARN afterwards. */
  datatype Topic = Topic(arn: string)
  {
    /**
     * `generateSnsMessage(data)`: a string (`typeof data == "string"`) is the
     * message as it is; any other value is the message as its JSON text, which
     * reads back as the value. The target is always the topic's own ARN.
     */
    function GenerateSnsMessage(data: Json.Value): (m: SnsMessage)
      ensures m.targetArn == arn
      ensures data.Str? ==> m.message == data.s
      ensures !data.Str? ==> m.message == Json.Stringify(data)
    {
      SnsMessage(if data.Str? then data.s else Json.Stringify(data), arn)
    }

    /** `publish(data)`: sends exactly the generated message; the reply passes through. */
    function Publish(data: Json.Value, reply: Reply<Json.Value>): (c: Call<SnsMessage, Json.Value>)
      ensures c.request == GenerateSnsMessage(data)
      ensures c.settled.Resolved? <==> reply.Answered?
      ensures reply.Answered? ==> c.settled.value == reply.data
      ensures reply.Failed? ==> c.settled.error == ServiceError(reply.message)
    {
      Call(GenerateSnsMessage(data), PassThrough(reply))
    }
  }

  /** `new Topic(arn, region)`; the region only configures the client. */
  function NewTopic(arn: string, region: string): (t: Topic)
    ensures t.arn == arn
  {
    Topic(arn)
  }

  /** A message made from a non-string payload parses back to that payload. */
  lemma MessageReadsBack(t: Topic, data: Json.Value)
    requires !data.Str?
    ensures Json.Parse(t.GenerateSnsMessage(data).message) == Some(data)
    ensures t.GenerateSnsMessage(data).targetArn == t.arn
  {
    Json.ParseStringify(data);
  }

  /**
   * A message made from a non-string payload is compact: no tab or line break
   * anywhere, and no space unless one of the payload's own strings or keys has one.
   */
  lemma MessageIsCompact(t: Topic, data: Json.Value)
    requires !data.Str?
    ensures Json.Printable(t.GenerateSnsMessage(data).message)
    ensures Json.SpaceFree(data) ==> ' ' !in t.GenerateSnsMessage(data).message
  {
    Json.StringifyPrintable(data);
    if Json.SpaceFree(data) {
      Json.StringifyNoSpace(data);
    }
  }

  /**
   * Two payloads give the same message only if they are equal, or one is a
   * string whose text is the other's JSON text (the string "{}" and the empty
   * object both give `{}`).
   */
  lemma MessageCollisions(t: Topic, d: Json.Value, e: Json.Value)
    requires t.GenerateSnsMessage(d) == t.GenerateSnsMessage(e)
    ensures d == e || (d.Str? && !e.Str? && d.s == Json.Stringify(e))
                   || (e.Str? && !d.Str? && e.s == Json.Stringify(d))
  {
    if !d.Str? && !e.Str? {
      Json.StringifyInjective(d, e);
    }
  }

  /** The string payload of the test suite is sent as it is, to the topic's ARN. */
  lemma StringExample(arn: string, text: string)
    requires arn == "a topic" && text == "this is a test message"
    ensures NewTopic(arn, "eu-west-2").GenerateSnsMessage(Json.Str(text)) == SnsMessage("this is a test message", "a topic")
  {
  }

  /**
   * The object payload `{data: "some data"}` of the test suite is sent as its
   * compact JSON text, to whatever ARN the topic was built with.
   */
  lemma ObjectExample(arn: string, key: string, text: string)
    requires key == "data" && text == "some data"
    ensures NewTopic(arn, "eu-west-2").Publish(Json.Obj([Json.Member(key, Json.Str(text))]), Answered(Json.Bool(true))).request
            == SnsMessage("{\"data\":\"some data\"}", arn)
  {
    Json.FlatObject(key, text);
  }

  /** The array inside the nested payload of the test suite is written `[1,2,3,4,5]`. */
  lemma ArrayExample(a: Json.Value)
    requires a == Json.Arr([Json.Int(1), Json.Int(2), Json.Int(3), Json.Int(4), Json.Int(5)])
    ensures Json.Stringify(a) == "[1,2,3,4,5]"
  {
    assert Json.Items(a.items[4..]) == "5";
    assert Json.Items(a.items[3..]) == "4,5";
    assert Json.Items(a.items[2..]) == "3,4,5";
    assert Json.Items(a.items[1..]) == "2,3,4,5";
  }
}
