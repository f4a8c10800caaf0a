/** The JSON reply every handler sends: a status code, a success flag, a message and optional data. */
module Http {
  import opened Documents

  datatype Reply<+T> = Reply(status: nat, success: bool, message: string, data: Option<T>)
}
