/** The values that flow through one invocation of the relay. */
module Records {
  import opened Wrappers

  /** One inventory row as the database query returns it (lambda.js:21-28). The
      on-hold quantity comes from a left join and is absent when no open order
      line names the model. */
  datatype Record = Record(
    stockItemNumber: string,
    scientificName: string,
    plant: string,
    variety: string,
    quantityOnHand: int,
    quantityOnHold: Option<int>,
    seedBank: string)

  /** An error object handed back by a foreign client (database, queue or topic). */
  datatype Error = Error(message: string)

  /** The two endpoints read from the environment at load time (lambda.js:7-8). */
  datatype Config = Config(queueUrl: string, topicArn: string)
}
