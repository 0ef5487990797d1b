/** Whole invocations driven through the Invocation class, one settlement
    order at a time, showing what its contracts add up to. */
module Scenarios {
  import opened Wrappers
  import opened Records
  import opened Outbound
  import opened Lambda

  /** Three records, the second send failing: three sends in index order,
      then one summary saying 3 (not 2), then success reported to the host. */
  method ThreeRecordBatch(config: Config, stringify: Record -> string, r0: Record, r1: Record, r2: Record,
                          data: string, timestamp: string)
    returns (sends: seq<SqsParams>, publishes: seq<SnsParams>, verdicts: seq<Verdict>)
    ensures sends == [QueueParams(r0, config.queueUrl, stringify),
                      QueueParams(r1, config.queueUrl, stringify),
                      QueueParams(r2, config.queueUrl, stringify)]
    ensures publishes == [SnsParams(config.topicArn, "Sent 3 Messages To Queue: " + timestamp)]
    ensures verdicts == [Succeeded(data)]
  {
    var inv := new Invocation(config, stringify);
    var rows := [r0, r1, r2];
    inv.QuerySettled(Success(rows));
    BatchOfThree(r0, r1, r2, config.queueUrl, stringify);
    inv.Report(false, timestamp);
    inv.Report(true, timestamp);
    var before := inv.effects;
    assert Publishes(before) == [] && Verdicts(before) == [];
    inv.Report(false, timestamp);
    var summary := TopicParams(SummaryText(3), config.topicArn, timestamp);
    assert inv.effects == before + [Publish(summary)];
    SummaryOfThree(config.topicArn, timestamp);
    ProjectionsOfAppend(before, [Publish(summary)]);
    var published := inv.effects;
    inv.Complete(Success(data));
    ProjectionsOfAppend(published, [Respond(Succeeded(data))]);
    sends := Sends(inv.effects);
    publishes := Publishes(inv.effects);
    verdicts := Verdicts(inv.effects);
  }

  /** The queue requests for a batch of three, spelt out. */
  lemma BatchOfThree(r0: Record, r1: Record, r2: Record, queueUrl: string, stringify: Record -> string)
    ensures BatchParams([r0, r1, r2], queueUrl, stringify)
         == [QueueParams(r0, queueUrl, stringify), QueueParams(r1, queueUrl, stringify),
             QueueParams(r2, queueUrl, stringify)]
  {
    var batch := [r0, r1, r2];
    BatchParamsAt(batch, queueUrl, stringify, 0);
    BatchParamsAt(batch, queueUrl, stringify, 1);
    BatchParamsAt(batch, queueUrl, stringify, 2);
  }

  /** The notification for a batch of three, spelt out. */
  lemma SummaryOfThree(topicArn: string, timestamp: string)
    ensures TopicParams(SummaryText(3), topicArn, timestamp)
         == SnsParams(topicArn, "Sent 3 Messages To Queue: " + timestamp)
  {
    assert Decimal.Show(3) == "3";
    assert SummaryText(3) == SummaryPrefix + ("3" + SummarySuffix);
    SummaryLiteral();
  }

  /** The summary text for three, as a literal. */
  lemma SummaryLiteral()
    ensures SummaryPrefix + ("3" + SummarySuffix) + ": " == "Sent 3 Messages To Queue: "
  {
  }

  /** The host is told of success, and then the connection's 'error' event
      makes the listener report failure as well: two verdicts. */
  method SuccessThenConnectionError(config: Config, stringify: Record -> string, record: Record,
                                    data: string, err: Error, timestamp: string)
    returns (verdicts: seq<Verdict>)
    ensures verdicts == [Succeeded(data), Failed(err)]
  {
    var inv := new Invocation(config, stringify);
    inv.QuerySettled(Success([record]));
    inv.Report(false, timestamp);
    inv.Complete(Success(data));
    var succeeded := inv.effects;
    inv.ConnectionError(err);
    ProjectionsOfAppend(succeeded, [Close, Respond(Failed(err))]);
    verdicts := Verdicts(inv.effects);
  }

  /** An empty recordset: the connection is closed, and then nothing else
      happens; no send, no summary, no verdict for the host. */
  method EmptyRecordset(config: Config, stringify: Record -> string) returns (effects: seq<Effect>)
    ensures effects == [Close]
  {
    var inv := new Invocation(config, stringify);
    inv.QuerySettled(Success([]));
    effects := inv.effects;
  }

  /** The connect fails: whatever the query would have returned, the
      connection is closed, the host is told of the connect error, and no
      send or publish follows. */
  method ConnectFailure(config: Config, stringify: Record -> string, err: Error,
                        query: Result<seq<Record>, Error>)
    returns (effects: seq<Effect>)
    ensures effects == [Close, Respond(Failed(err))]
  {
    var inv := new Invocation(config, stringify);
    inv.QuerySettled(ChainOutcome(Some(err), query));
    effects := inv.effects;
  }
}
