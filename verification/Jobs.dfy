/** Values shared by the modules: the payment job carried on the Kafka topics, and an optional value. */
module Jobs {

  datatype Option<+T> = None | Some(value: T)

  type Key = nat        // an idempotency key (a UUID in the program)
  type AccountId = nat  // an account UUID

  /** A message of the orders or the retry topic.  `wellFormed` is false when the payload does not decode
      or does not validate; the other fields then hold whatever was decoded.  Money is in cents and time
      in nanoseconds. */
  datatype Job = Job(key: Key, account: AccountId, amount: int, retryCount: nat, notBefore: int, wellFormed: bool)
}
