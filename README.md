# Inventory relay: a Dafny model of the batch completion logic

The relay is a single AWS Lambda handler. It queries the inventory database, sends
every returned row to a queue as one message, and publishes one summary
notification to a topic once every send has settled. This project models the logic
the handler performs itself:

- the handler's branching on the database outcome: close, then either fail or dispatch;
- processRecordset's loop, which issues one queue send per record in index order;
- the `report` callback, which counts each settlement, error or not, and starts the
  summary when the count equals the recordset's length;
- the `complete` callback, which reports the publish outcome to the host;
- the connection's 'error' listener;
- the request records built for the queue and the topic, and the summary text.

Layout:

- `records.dfy`: the row, error and endpoint configuration values.
- `wrappers.dfy`: Option and Result.
- `decimal.dfy`: the decimal text of a natural number, as JavaScript writes it when a
  number is concatenated to a string, and the reading of digits back into a number.
- `outbound.dfy`: the parameters of a queue send and of a topic publish, the summary
  text, and a reader (`ReportedCount`) that recovers the batch size from a published
  message.
- `settlement.dfy`: `report`'s counter as a pure fold over the settlements seen so far
  (`Settle`), with its closed form.
- `lambda.dfy`: the class `Invocation`. It holds one handler call's state. The closure
  variables of processRecordset (`doneCount`, the recordset) are its fields. It also
  keeps an ordered log of four kinds of call: `Close` (sql.close), `Send`
  (sqs.sendMessage), `Publish` (sns.publish) and `Respond` (context.succeed /
  context.fail). `sql.connect`, the query and `sql.on` are not logged. The asynchronous callbacks become methods that the
  environment calls in whatever order settlements arrive. `Valid()` ties the log to
  the pure layer: the sends are the batch's requests, the number of publishes is
  `Settle(...).notified`, and every publish reports the batch size.
- `scenarios.dfy`: whole invocations driven through the class: three records with
  one failed send; an empty recordset; a connect failure; success followed by a
  connection error.

Two behaviours of the code are kept as written, although one might expect
otherwise:

- For an empty recordset one might expect the summary to fire once, reporting 0. In
  the code the loop issues nothing, so `report` never runs. Nothing is published and the
  host is never told anything. See `EmptyRecordsetNeverNotifies` and
  `Scenarios.EmptyRecordset`.
- The connection's 'error' listener can call `context.fail` after `context.succeed`
  has already run. The model keeps this: `Scenarios.SuccessThenConnectionError`
  ends with two verdicts. `AtMostOneVerdictPerInvocation` bounds the verdicts by one
  plus the number of such events.

## Model

| member | source | states |
|---|---|---|
| Outbound.SummaryText | lambda.js:97 | the summary text starts with "Sent " and continues with the batch size written in decimal; the size is recordset.length, not the number of successful sends |
| Decimal.Show | lambda.js:97 | the number in the summary is written in canonical decimal: at least one digit, all digits, no leading zero unless the number is 0 |
| Decimal.ShowRoundTrip | lambda.js:97 | reading the written digits back gives the number written, so the text determines the count |
| Outbound.QueueParams | lambda.js:118-123 | a queue request has DelaySeconds 0, targets the configured queue URL and carries the serialized record as its body |
| Outbound.BatchParams | lambda.js:112-114 | a batch yields exactly one queue request per record |
| Outbound.BatchParamsAt | lambda.js:112-123 | the i-th request of a batch carries the i-th record, so requests follow index order |
| Outbound.TopicParams | lambda.js:127-132 | a publish targets the configured topic; its message is exactly the body, then the two characters ": ", then the timestamp |
| Outbound.SummaryReportsBatchSize | lambda.js:96-98 | whatever the timestamp, the published summary reads back as exactly recordset.length, the batch size and not the success count |
| Settlement.Step | lambda.js:87-99 | one call of `report`: doneCount rises by exactly one whatever the error flag; the notification count rises by at most one, and rises exactly when the new doneCount equals the batch size (strict `===`) |
| Settlement.Settle | lambda.js:85-99 | the tally after a sequence of `report` calls starting from doneCount = 0: doneCount is the number of settlements, and no more notifications have started than settlements have happened |
| Settlement.SettleCounts | lambda.js:87-100 | after k settlements doneCount is k, errors included. The summary has started once if 1 <= N <= k and never otherwise: not before the last settlement, not again after it, never for N = 0 |
| Settlement.NotifiesAtBatchSize | lambda.js:96-99 | a settlement raises the notification count by one exactly when it brings doneCount to N, and otherwise by zero (strict equality) |
| Settlement.ErrorsAreAbsorbed | lambda.js:87-95 | which settlements carried an error makes no difference to the count or to the notification |
| Lambda.IssueOperations | lambda.js:112-114 | the loop issues one send per record, in index order, after what was already logged. It publishes nothing and reports nothing |
| Lambda.CompletionVerdict | lambda.js:102-110 | complete reports exactly one of fail (with the publish error) or succeed (with the publish result) |
| Lambda.ChainOutcome | lambda.js:63-67 | the chain succeeds only when both connect and query succeed; a connect failure passes on its own error and the query is never consulted |
| Lambda.PublishSummary | lambda.js:96-98 | publishing the summary adds one notification that reports the batch size, and no send or verdict |
| Lambda.Invocation.constructor | lambda.js:62-63 | entering the handler: querying, empty log, counter at zero |
| Lambda.Invocation.QuerySettled | lambda.js:63-75 | a connect or query error gives close then fail, and nothing is dispatched; rows give close, then one send per record in index order |
| Lambda.Invocation.ProcessRecordset | lambda.js:84-115 | doneCount starts at 0 and one send per record is appended in index order; no settlement has happened yet |
| Lambda.Invocation.Report | lambda.js:87-100 | doneCount rises by exactly one, error or not. The summary "Sent N Messages To Queue: <time>" is published exactly when doneCount equals N. The class invariant is kept |
| Lambda.Invocation.Complete | lambda.js:102-110 | appends exactly one verdict, the publish outcome mapped by CompletionVerdict |
| Lambda.Invocation.ConnectionError | lambda.js:77-81 | the listener closes and then fails, in any phase, even after success was reported |
| Lambda.Invocation.NotifiedOnceWhenAllSettled | lambda.js:87-100 | once all N >= 1 records have settled, exactly one summary has been published, and it reports N |
| Lambda.Invocation.NothingPublishedBeforeAllSettled | lambda.js:96-99 | while doneCount < N nothing has been published |
| Lambda.Invocation.EmptyRecordsetNeverNotifies | lambda.js:84-115 | an empty recordset issues no send and no publish, and `complete` never reports to the host |
| Lambda.Invocation.AbortedDispatchesNothing | lambda.js:71-75 | after the catch branch there are no sends and no publishes, and one verdict besides those of the 'error' listener |
| Lambda.Invocation.AtMostOneVerdictPerInvocation | lambda.js:62-110 | the host hears at most one verdict, plus one for each connection 'error' event |
| Scenarios.ThreeRecordBatch | lambda.js:84-133 | three records with the second send failing: three sends in order, one publish "Sent 3 Messages To Queue: <time>", one success |
| Scenarios.SuccessThenConnectionError | lambda.js:67-81 | success reported, then a connection error: the host receives succeed and then fail |
| Scenarios.EmptyRecordset | lambda.js:67-70 | an empty result closes the connection and nothing else happens |
| Scenarios.ConnectFailure | lambda.js:63-75 | a connect failure closes the connection and fails with the connect error; no send or publish |

## Left out

- The SQL query text (lambda.js:20-56) runs on the database server. Its result enters the model as an arbitrary sequence of records.
- `sql.connect`, the query, `sql.close`, `sqs.sendMessage` and `sns.publish` are foreign network calls. Their outcomes are inputs: `QuerySettled`'s argument, `Report`'s error flag, `Complete`'s argument and `ConnectionError`.
- The calls to `sql.close`, `sqs.sendMessage` and `sns.publish`, and the host's `context.succeed` / `context.fail`, are entries in the effect log. The calls to `sql.connect` (lambda.js:63), the query (lambda.js:66) and `sql.on` (lambda.js:77) are not logged; only the combined outcome of connect and query enters, as `QuerySettled`'s argument.
- `JSON.stringify` is the uninterpreted `stringify` parameter. `new Date().toLocaleString()` is the `timestamp` parameter of `Report`.
- Environment, region and client setup (lambda.js:1-18) is configuration only; the two endpoints are the `Config` value.
- `console.log` / `console.error` output is not modelled. The error flag of a settlement is kept only in the ghost `settlements` history.
- Promise scheduling and interleaving are abstracted into the order of method calls on one object. Any order of settlements is allowed.
- The 'error' listener is registered on the module-wide `sql` object on every invocation. Listeners from earlier invocations in a reused process would also fire. The model covers one invocation only.
- Exceptions thrown inside the then branch would also reach the catch branch and close the connection a second time (for example a result without a recordset). Such exceptions are not modelled.
- Decimal.Show: JavaScript switches to exponent notation for numbers of 1e21 and above. Array lengths never reach that, so only plain decimal is modelled.
- The global `params` and `message` variables are not modelled as globals. Each request is built and logged at once, and nothing else reads them.
