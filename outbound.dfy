/** The request records that sendSqsMessage and sendSnsMessage build before
    handing them to the AWS clients (lambda.js:118-133), and the summary text
    that processRecordset hands to the latter (lambda.js:97). */
module Outbound {
  import opened Wrappers
  import opened Records
  import opened Decimal

  /** The parameters of one queue send: DelaySeconds, MessageBody, QueueUrl. */
  datatype SqsParams = SqsParams(delaySeconds: nat, messageBody: string, queueUrl: string)

  /** The parameters of one topic publish: TopicArn, Message. */
  datatype SnsParams = SnsParams(topicArn: string, message: string)

  /** sendSqsMessage: the record is serialized by `stringify` (JSON.stringify,
      left uninterpreted) and sent without delay to the configured queue. */
  function QueueParams(record: Record, queueUrl: string, stringify: Record -> string): (p: SqsParams)
    ensures p.delaySeconds == 0 && p.queueUrl == queueUrl && p.messageBody == stringify(record)
  {
    SqsParams(0, stringify(record), queueUrl)
  }

  /** The queue requests of a whole batch, one per record. */
  function BatchParams(batch: seq<Record>, queueUrl: string, stringify: Record -> string): (ps: seq<SqsParams>)
    ensures |ps| == |batch|
    decreases |batch|
  {
    if batch == [] then []
    else
      BatchParams(batch[..|batch| - 1], queueUrl, stringify)
        + [QueueParams(batch[|batch| - 1], queueUrl, stringify)]
  }

  /** The i-th request of a batch carries the i-th record: requests keep the
      batch's index order. */
  lemma {:induction false} BatchParamsAt(batch: seq<Record>, queueUrl: string, stringify: Record -> string, i: nat)
    requires i < |batch|
    ensures BatchParams(batch, queueUrl, stringify)[i] == QueueParams(batch[i], queueUrl, stringify)
    decreases |batch|
  {
    if i < |batch| - 1 {
      BatchParamsAt(batch[..|batch| - 1], queueUrl, stringify, i);
    }
  }

  const SummaryPrefix: string := "Sent "
  const SummarySuffix: string := " Messages To Queue"

  /** The count a subscriber reads off a notification: the number after "Sent ". */
  function ReportedCount(message: string): Option<nat> {
    if |message| < |SummaryPrefix| || message[..|SummaryPrefix|] != SummaryPrefix then None
    else
      var digits := LeadingDigits(message[|SummaryPrefix|..]);
      if digits == [] then None else Some(ValueOf(digits))
  }

  /** The summary text: "Sent ", the batch size, " Messages To Queue". The size
      is recordset.length and not the number of sends that succeeded; that a
      subscriber reads it back is SummaryReportsBatchSize. */
  function SummaryText(size: nat): (s: string)
    ensures SummaryPrefix <= s
    ensures Show(size) <= s[|SummaryPrefix|..]
  {
    var text := SummaryPrefix + (Show(size) + SummarySuffix);
    assert text[|SummaryPrefix|..] == Show(size) + SummarySuffix;
    text
  }

  /** sendSnsMessage: the body is followed by ": " and the local time at which
      the publish is prepared (`timestamp`, a clock reading left uninterpreted). */
  function TopicParams(body: string, topicArn: string, timestamp: string): (p: SnsParams)
    ensures p.topicArn == topicArn
    ensures |p.message| == |body| + 2 + |timestamp|
    ensures p.message[..|body|] == body && p.message[|body| + 2..] == timestamp
    ensures p.message[|body|..|body| + 2] == ": "
  {
    SnsParams(topicArn, body + ": " + timestamp)
  }

  /** Whatever the timestamp, the published notification reports exactly the
      batch size it was built from. */
  lemma SummaryReportsBatchSize(size: nat, topicArn: string, timestamp: string)
    ensures ReportedCount(TopicParams(SummaryText(size), topicArn, timestamp).message) == Some(size)
  {
    var digits := Show(size);
    var rest := SummarySuffix + ": " + timestamp;
    var message := TopicParams(SummaryText(size), topicArn, timestamp).message;
    assert message == SummaryPrefix + (digits + rest);
    assert message[..|SummaryPrefix|] == SummaryPrefix;
    assert message[|SummaryPrefix|..] == digits + rest;
    assert rest[0] == ' ';
    LeadingDigitsOfNumber(digits, rest);
    ShowRoundTrip(size);
  }
}
