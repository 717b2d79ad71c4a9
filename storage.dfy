/** The device's key-value cache, reduced to the two entries the core uses. */
module Storage {
  import opened Wrappers
  import opened Records

  class Store {
    /** Entry `userDataLogin`: the saved session, `None` when the key is absent. */
    var userDataLogin: Option<User>
    /** Entry `stockOutData`: the pending scans. Every read of this key treats an
        absent entry as the empty list, so removing it and storing `[]` coincide. */
    var stockOutData: seq<StockOutItem>

    constructor (session: Option<User>, pending: seq<StockOutItem>)
      ensures userDataLogin == session && stockOutData == pending
    {
      userDataLogin := session;
      stockOutData := pending;
    }
  }
}
