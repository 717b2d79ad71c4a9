/** The records shared by the screens (the interfaces of `src/types/index.ts`). */
module Records {
  import opened Wrappers

  /** A logged-in user. The optional `plant_code` and `token` fields are never
      filled in by the screens and are not modelled. */
  datatype User = User(userName: string, userId: string)

  /** One scanned kanban waiting to be submitted. `qty` is `None` where the
      decoder produced `NaN`. The optional `color` field is never set. */
  datatype StockOutItem = StockOutItem(
    imgData: string,
    timeScan: string,
    npk: string,
    partNumber: string,
    qty: Option<int>,
    processId: string)

  datatype Company = Company(companyCode: string, companyName: string)

  datatype Plant = Plant(plantCode: string, plantName: string, companyCode: string)

  /** The registration form. `email` is optional in the interface and starts as `''`. */
  datatype RegistrationData = RegistrationData(
    userId: string,
    password: string,
    name: string,
    company: string,
    plant: string,
    buCode: string,
    email: string)

  /** What a call into the REST layer hands back. The wrappers catch every transport
      error and report it as `success == false` with no data, so a reply is all a
      screen ever sees. `data` is `None` where the server sent nothing usable. */
  datatype Reply<T> = Reply(success: bool, data: Option<T>)
}
