/*******************************************************************************
 *  Record shapes of the tracker's two tables, `devices` and `tests`, and the
 *  in-memory store that stands in for the database session.
 *******************************************************************************/

module Records {
  import opened Rules

  datatype Option<+T> = None | Some(value: T)

  /** A non-negative currency amount; the entry widgets for rate and tax refuse
      anything below 0.0. */
  type Amount = r: real | 0.0 <= r witness 0.0

  /** One row of `devices`. Columns that may hold NULL and that some rule reads
      are `Option`s; the row's position in the store plays the part of the
      integer primary key. */
  datatype Device = Device(
    reportDate: Option<Day>,
    serialNumber: string,
    model: string,
    boxType: string,
    customerName: string,
    location: string,
    inHouse: bool,
    isScrap: bool,
    serviceCode: Option<string>,
    storageDaysCategory: Option<StorageCategory>,
    batchNumber: Option<string>,
    shipDate: Option<Day>)

  /** One row of `tests`. `serialNumber` refers to a device by value and
      `model` is a copy of that device's model taken when the test is
      submitted. */
  datatype Test = Test(
    serialNumber: string,
    model: string,
    testType: string,
    testDate: Day,
    testLocation: string,
    rate: Amount,
    tax: Amount,
    spareReplacement: string,
    notes: string,
    isCompleted: bool,
    batchNumber: Option<string>)

  /** The whole database: both tables, rows in insertion order. */
  datatype Store = Store(devices: seq<Device>, tests: seq<Test>)

  const EmptyStore: Store := Store([], [])

  /** Why an action was refused. Every refusal leaves the store as it was. */
  datatype Error =
    | MissingRequiredField   // serial number, model or customer name left blank
    | DuplicateReportDate    // another device already has this report date
    | DuplicateSerialNumber  // the unique constraint on serial_number fails at commit
    | UnknownDevice          // no device has this serial number
    | ScrappedDevice         // the device is marked as scrap
    | AlreadyBatched         // the device already carries a batch number
    | NoPendingTests         // the device has no test awaiting completion
    | NotBatched             // the device has no batch number yet
    | AlreadyShipped         // the device already has a ship date

  datatype Result<+T> = Ok(value: T) | Err(error: Error)
}
