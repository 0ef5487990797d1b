/** One invocation of `exports.handler` (lambda.js:62-82) together with the
    closure of the processRecordset call it makes (lambda.js:84-115).

    The asynchronous callbacks become methods that the environment calls in
    whatever order the settlements arrive: `QuerySettled` (the promise chain
    after connect and query), `Report` (one queue send has settled), `Complete`
    (the publish has settled) and `ConnectionError` (the pool's 'error' event).
    The calls to sql.close, sqs.sendMessage, sns.publish and the host's
    context.succeed / context.fail are kept, in order, in an effect log; the
    connect, the query and the listener's installation are not logged. */
module Lambda {
  import opened Wrappers
  import opened Records
  import opened Outbound
  import opened Settlement

  /** What the code reports to the host through context.succeed / context.fail. */
  datatype Verdict = Succeeded(data: string) | Failed(error: Error)

  /** One call into the outside world: sql.close(), sqs.sendMessage,
      sns.publish, or context.succeed / context.fail. */
  datatype Effect =
    | Close
    | Send(request: SqsParams)
    | Publish(notification: SnsParams)
    | Respond(verdict: Verdict)

  /** The queue requests in an effect log, in order. */
  function Sends(effects: seq<Effect>): seq<SqsParams>
    decreases |effects|
  {
    if effects == [] then []
    else
      var last := effects[|effects| - 1];
      Sends(effects[..|effects| - 1]) + if last.Send? then [last.request] else []
  }

  /** The topic publishes in an effect log, in order. */
  function Publishes(effects: seq<Effect>): seq<SnsParams>
    decreases |effects|
  {
    if effects == [] then []
    else
      var last := effects[|effects| - 1];
      Publishes(effects[..|effects| - 1]) + if last.Publish? then [last.notification] else []
  }

  /** The verdicts reported to the host in an effect log, in order. */
  function Verdicts(effects: seq<Effect>): seq<Verdict>
    decreases |effects|
  {
    if effects == [] then []
    else
      var last := effects[|effects| - 1];
      Verdicts(effects[..|effects| - 1]) + if last.Respond? then [last.verdict] else []
  }

  /** The three projections distribute over concatenation of logs. */
  lemma {:induction false} ProjectionsOfAppend(before: seq<Effect>, after: seq<Effect>)
    ensures Sends(before + after) == Sends(before) + Sends(after)
    ensures Publishes(before + after) == Publishes(before) + Publishes(after)
    ensures Verdicts(before + after) == Verdicts(before) + Verdicts(after)
    decreases |after|
  {
    if after != [] {
      var all := before + after;
      var init := after[..|after| - 1];
      assert all[..|all| - 1] == before + init;
      assert all[|all| - 1] == after[|after| - 1];
      ProjectionsOfAppend(before, init);
    } else {
      assert before + after == before;
    }
  }

  /** Every notification in `published` goes to the topic and reports `size`. */
  ghost predicate AllSummaries(published: seq<SnsParams>, size: nat, topicArn: string) {
    forall p :: p in published ==> p.topicArn == topicArn && ReportedCount(p.message) == Some(size)
  }

  /** Publishing the summary of a batch adds one notification that reports the
      batch's size, and touches neither the sends nor the verdicts. */
  lemma PublishSummary(effects: seq<Effect>, size: nat, topicArn: string, timestamp: string)
    requires AllSummaries(Publishes(effects), size, topicArn)
    ensures var next := effects + [Publish(TopicParams(SummaryText(size), topicArn, timestamp))];
      && Sends(next) == Sends(effects) && Verdicts(next) == Verdicts(effects)
      && |Publishes(next)| == |Publishes(effects)| + 1
      && AllSummaries(Publishes(next), size, topicArn)
  {
    var notification := TopicParams(SummaryText(size), topicArn, timestamp);
    SummaryReportsBatchSize(size, topicArn, timestamp);
    ProjectionsOfAppend(effects, [Publish(notification)]);
  }

  /** `complete`: a failed publish is reported to the host as a failure with
      its error, a successful one as a success with its result; exactly one of
      the two. */
  function CompletionVerdict(outcome: Result<string, Error>): (v: Verdict)
    ensures v.Failed? <==> outcome.Failure?
    ensures v.Failed? ==> v.error == outcome.error
    ensures v.Succeeded? ==> v.data == outcome.value
  {
    match outcome
    case Failure(err) => Failed(err)
    case Success(data) => Succeeded(data)
  }

  /** The loop of processRecordset: `operation(recordset[i], report)` for each
      index in turn, the operation being sendSqsMessage. Each call only issues
      its request; none settles during the loop. */
  method IssueOperations(start: seq<Effect>, rows: seq<Record>, queueUrl: string, stringify: Record -> string)
    returns (log: seq<Effect>)
    ensures |log| == |start| + |rows| && log[..|start|] == start
    ensures forall k :: 0 <= k < |rows| ==>
      log[|start| + k] == Send(QueueParams(rows[k], queueUrl, stringify))
    ensures Sends(log) == Sends(start) + BatchParams(rows, queueUrl, stringify)
    ensures Publishes(log) == Publishes(start) && Verdicts(log) == Verdicts(start)
  {
    log := start;
    var i := 0;
    while i < |rows|
      invariant 0 <= i <= |rows|
      invariant |log| == |start| + i
      invariant log[..|start|] == start
      invariant forall k :: 0 <= k < i ==>
        log[|start| + k] == Send(QueueParams(rows[k], queueUrl, stringify))
      invariant Sends(log) == Sends(start) + BatchParams(rows[..i], queueUrl, stringify)
      invariant Publishes(log) == Publishes(start) && Verdicts(log) == Verdicts(start)
    {
      var request := QueueParams(rows[i], queueUrl, stringify);
      ProjectionsOfAppend(log, [Send(request)]);
      assert rows[..i + 1][..i] == rows[..i];
      log := log + [Send(request)];
      i := i + 1;
    }
    assert rows[..i] == rows;
  }

  /** What the promise chain hands to its then or catch branch: a failed
      connect skips the query and passes on its own error; otherwise the
      query's outcome goes through. */
  function ChainOutcome(connect: Option<Error>, query: Result<seq<Record>, Error>): (r: Result<seq<Record>, Error>)
    ensures r.Success? <==> connect.None? && query.Success?
    ensures r.Success? ==> r.value == query.value
    ensures r.Failure? ==> r.error == if connect.Some? then connect.value else query.error
  {
    match connect
    case Some(err) => Failure(err)
    case None => query
  }

  /** Where the handler's promise chain stands: waiting for connect and query,
      gone to its catch branch, or past processRecordset. */
  datatype Phase = Querying | Aborted | Dispatching

  class Invocation {
    const config: Config
    /** JSON.stringify, left uninterpreted. */
    const stringify: Record -> string

    var phase: Phase
    /** The recordset processRecordset was given; empty before it runs. */
    var recordset: seq<Record>
    /** processRecordset's closure variable. */
    var doneCount: nat
    /** The logged calls (close, send, publish, verdict), in order. */
    var effects: seq<Effect>

    /** The settlements `report` has seen, true for those carrying an error. */
    ghost var settlements: seq<bool>
    /** How many times `complete` has run. */
    ghost var completions: nat
    /** How many times the connection's 'error' listener has run. */
    ghost var connectionErrors: nat

    ghost predicate Valid()
      reads this
    {
      && (phase != Dispatching ==> recordset == [] && settlements == [] && completions == 0)
      && Sends(effects) == BatchParams(recordset, config.queueUrl, stringify)
      && doneCount == |settlements|
      && |Publishes(effects)| == Settle(|recordset|, settlements).notified
      && AllSummaries(Publishes(effects), |recordset|, config.topicArn)
      && completions <= |Publishes(effects)|
      && |Verdicts(effects)| == connectionErrors + completions + (if phase == Aborted then 1 else 0)
    }

    /** The handler is entered: connect and query are under way and the
        'error' listener is installed; nothing has been called yet. */
    constructor (config: Config, stringify: Record -> string)
      ensures Valid()
      ensures this.config == config && this.stringify == stringify
      ensures phase == Querying && recordset == [] && doneCount == 0 && effects == []
      ensures settlements == [] && completions == 0 && connectionErrors == 0
    {
      this.config := config;
      this.stringify := stringify;
      phase := Querying;
      recordset := [];
      doneCount := 0;
      effects := [];
      settlements := [];
      completions := 0;
      connectionErrors := 0;
    }

    /** The promise chain settles (`queried` is its ChainOutcome). A connect or
        query failure reaches the catch branch: close, then fail, and nothing
        is dispatched. Rows reach the then branch: close, then processRecordset. */
    method QuerySettled(queried: Result<seq<Record>, Error>)
      requires Valid() && phase == Querying
      modifies this
      ensures Valid()
      ensures queried.Failure? ==>
        && phase == Aborted && recordset == []
        && effects == old(effects) + [Close, Respond(Failed(queried.error))]
      ensures queried.Success? ==>
        && phase == Dispatching && recordset == queried.value
        && |effects| == |old(effects)| + 1 + |recordset|
        && effects[..|old(effects)|] == old(effects)
        && effects[|old(effects)|] == Close
        && (forall i :: 0 <= i < |recordset| ==>
              effects[|old(effects)| + 1 + i] == Send(QueueParams(recordset[i], config.queueUrl, stringify)))
      ensures doneCount == 0 && settlements == [] && completions == 0
      ensures connectionErrors == old(connectionErrors)
    {
      ProjectionsOfAppend(effects, [Close]);
      effects := effects + [Close];
      match queried
      case Failure(err) =>
        ProjectionsOfAppend(effects, [Respond(Failed(err))]);
        effects := effects + [Respond(Failed(err))];
        phase := Aborted;
      case Success(rows) =>
        ghost var closed := effects;
        ProcessRecordset(rows);
        assert effects[..|closed|] == closed;
        assert effects[|old(effects)|] == closed[|old(effects)|] == Close;
        assert effects[..|old(effects)|] == closed[..|old(effects)|];
    }

    /** processRecordset: reset the counter and issue one queue send per
        record, in index order. No send has settled yet. */
    method ProcessRecordset(rows: seq<Record>)
      requires Valid() && phase == Querying
      modifies this
      ensures Valid()
      ensures phase == Dispatching && recordset == rows && doneCount == 0
      ensures |effects| == |old(effects)| + |rows|
      ensures effects[..|old(effects)|] == old(effects)
      ensures forall i :: 0 <= i < |rows| ==>
        effects[|old(effects)| + i] == Send(QueueParams(rows[i], config.queueUrl, stringify))
      ensures settlements == [] && completions == 0 && connectionErrors == old(connectionErrors)
    {
      assert Sends(effects) == [] && Publishes(effects) == [];
      var log := IssueOperations(effects, rows, config.queueUrl, stringify);
      assert Sends(log) == BatchParams(rows, config.queueUrl, stringify);
      assert Publishes(log) == [];
      assert |Verdicts(log)| == connectionErrors && settlements == [] && completions == 0;
      effects := log;
      recordset := rows;
      doneCount := 0;
      phase := Dispatching;
    }

    /** `report`: one queue send has settled, with or without an error. The
        count goes up by one either way; when it equals the recordset's length
        the summary notification is published, stamped with the local time. */
    method Report(isError: bool, timestamp: string)
      requires Valid() && phase == Dispatching
      modifies this
      ensures Valid()
      ensures phase == Dispatching && recordset == old(recordset)
      ensures doneCount == old(doneCount) + 1
      ensures settlements == old(settlements) + [isError]
      ensures effects == old(effects) +
        if doneCount == |recordset|
        then [Publish(TopicParams(SummaryText(|recordset|), config.topicArn, timestamp))]
        else []
      ensures completions == old(completions) && connectionErrors == old(connectionErrors)
    {
      NotifiesAtBatchSize(|recordset|, settlements, isError);
      doneCount := doneCount + 1;
      settlements := settlements + [isError];
      if doneCount == |recordset| {
        var notification := TopicParams(SummaryText(|recordset|), config.topicArn, timestamp);
        PublishSummary(effects, |recordset|, config.topicArn, timestamp);
        effects := effects + [Publish(notification)];
      }
    }

    /** `complete`: the publish has settled; report its outcome to the host. */
    method Complete(outcome: Result<string, Error>)
      requires Valid() && phase == Dispatching && completions < |Publishes(effects)|
      modifies this
      ensures Valid()
      ensures effects == old(effects) + [Respond(CompletionVerdict(outcome))]
      ensures completions == old(completions) + 1
      ensures phase == old(phase) && recordset == old(recordset) && doneCount == old(doneCount)
      ensures settlements == old(settlements) && connectionErrors == old(connectionErrors)
    {
      var verdict;
      if outcome.Failure? {
        verdict := Failed(outcome.error);
      } else {
        verdict := Succeeded(outcome.value);
      }
      ProjectionsOfAppend(effects, [Respond(verdict)]);
      effects := effects + [Respond(verdict)];
      completions := completions + 1;
    }

    /** The 'error' listener on the database connection: close, then fail.
        It can run at any point, also after the host has been told of success. */
    method ConnectionError(err: Error)
      requires Valid()
      modifies this
      ensures Valid()
      ensures effects == old(effects) + [Close, Respond(Failed(err))]
      ensures connectionErrors == old(connectionErrors) + 1
      ensures phase == old(phase) && recordset == old(recordset) && doneCount == old(doneCount)
      ensures settlements == old(settlements) && completions == old(completions)
    {
      ProjectionsOfAppend(effects, [Close]);
      effects := effects + [Close];
      ProjectionsOfAppend(effects, [Respond(Failed(err))]);
      effects := effects + [Respond(Failed(err))];
      connectionErrors := connectionErrors + 1;
    }

    /** Once every record has settled, errors or not, exactly one summary has
        been published, and it reports the recordset's length. */
    lemma NotifiedOnceWhenAllSettled()
      requires Valid() && phase == Dispatching && |recordset| >= 1 && doneCount >= |recordset|
      ensures |Publishes(effects)| == 1
      ensures ReportedCount(Publishes(effects)[0].message) == Some(|recordset|)
    {
      SettleCounts(|recordset|, settlements);
    }

    /** Until every record has settled, nothing has been published. */
    lemma NothingPublishedBeforeAllSettled()
      requires Valid() && doneCount < |recordset|
      ensures Publishes(effects) == []
    {
      SettleCounts(|recordset|, settlements);
    }

    /** An empty recordset is dispatched without a single send, is never
        summarised, and never leads `complete` to report to the host: only the
        connection's 'error' listener can. */
    lemma EmptyRecordsetNeverNotifies()
      requires Valid() && phase == Dispatching && recordset == []
      ensures Sends(effects) == [] && Publishes(effects) == []
      ensures |Verdicts(effects)| == connectionErrors
    {
      SettleCounts(0, settlements);
    }

    /** A failed connect or query dispatches nothing and publishes nothing. */
    lemma AbortedDispatchesNothing()
      requires Valid() && phase == Aborted
      ensures Sends(effects) == [] && Publishes(effects) == []
      ensures |Verdicts(effects)| == connectionErrors + 1
    {
    }

    /** Without an 'error' event on the connection the host hears at most one
        verdict; each such event can add one more. */
    lemma AtMostOneVerdictPerInvocation()
      requires Valid()
      ensures |Verdicts(effects)| <= connectionErrors + 1
    {
      SettleCounts(|recordset|, settlements);
    }
  }
}
