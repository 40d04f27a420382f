/*******************************************************************************
 *  The four user actions of the tracker as transitions of the store:
 *  register a device, submit a test for it, complete its pending tests under
 *  a new batch number, and ship it. Each action either refuses with an
 *  `Error` (the store is then untouched) or returns the whole new store, so
 *  the batch transition is all-or-nothing by construction.
 *******************************************************************************/

module Lifecycle {
  import opened Rules
  import opened Records

  /* ---------------------------------------------------------------------
     Queries and transition guards
     --------------------------------------------------------------------- */

  /** Position of the first device with this serial number: what
      `filter_by(serial_number=...).first()` picks. */
  function FindDevice(devices: seq<Device>, serial: string): (r: Option<nat>)
    ensures r.Some? ==> r.value < |devices| && devices[r.value].serialNumber == serial
    ensures r.Some? ==> forall j :: 0 <= j < r.value ==> devices[j].serialNumber != serial
    ensures r.None? <==> forall j :: 0 <= j < |devices| ==> devices[j].serialNumber != serial
  {
    if |devices| == 0 then None
    else if devices[0].serialNumber == serial then Some(0)
    else match FindDevice(devices[1..], serial)
      case None => None
      case Some(k) => Some(k + 1)
  }

  predicate HasSerial(devices: seq<Device>, serial: string) {
    exists i :: 0 <= i < |devices| && devices[i].serialNumber == serial
  }

  predicate HasReportDate(devices: seq<Device>, day: Day) {
    exists i :: 0 <= i < |devices| && devices[i].reportDate == Some(day)
  }

  /** Devices offered for a new batch: no batch number yet and not scrap. */
  predicate Batchable(d: Device) {
    d.batchNumber.None? && !d.isScrap
  }

  /** Devices offered for shipping: batched, not yet shipped, not scrap. */
  predicate Shippable(d: Device) {
    d.batchNumber.Some? && d.shipDate.None? && !d.isScrap
  }

  /** A test of this device that has not been completed yet. */
  predicate IsPendingFor(t: Test, serial: string) {
    t.serialNumber == serial && !t.isCompleted
  }

  predicate HasPending(tests: seq<Test>, serial: string) {
    exists i :: 0 <= i < |tests| && IsPendingFor(tests[i], serial)
  }

  predicate FilledIn(serial: string, model: string, customer: string) {
    serial != [] && model != [] && customer != []
  }

  /* ---------------------------------------------------------------------
     Register a device
     --------------------------------------------------------------------- */

  /** Registers a device reported on `reportDate`, filing it under the storage
      category for `today`.

      The duplicate check compares REPORT DATES, not serial numbers: a fresh
      serial is refused when any device was reported on the same day, and a
      repeated serial with a new date passes that check. The repeated serial
      is then refused only because the `serial_number` column is declared
      unique, which the database enforces when the row is committed; that
      refusal is `DuplicateSerialNumber`, checked last. */
  function Register(s: Store, today: Day, reportDate: Day, serial: string, model: string,
                    boxType: string, customer: string, location: string, inHouse: bool): (r: Result<Store>)
    ensures !FilledIn(serial, model, customer) ==> r == Err(MissingRequiredField)
    ensures FilledIn(serial, model, customer) && HasReportDate(s.devices, reportDate)
            ==> r == Err(DuplicateReportDate)
    ensures r == Err(DuplicateSerialNumber)
            <==> FilledIn(serial, model, customer) && !HasReportDate(s.devices, reportDate)
                 && HasSerial(s.devices, serial)
    ensures r.Ok? <==> FilledIn(serial, model, customer) && !HasReportDate(s.devices, reportDate)
                       && !HasSerial(s.devices, serial)
    ensures r.Ok? ==> r.value.tests == s.tests
                      && |r.value.devices| == |s.devices| + 1
                      && r.value.devices[..|s.devices|] == s.devices
    ensures r.Ok? ==>
              var d := r.value.devices[|s.devices|];
              && d.reportDate == Some(reportDate)
              && d.serialNumber == serial && d.model == model && d.boxType == boxType
              && d.customerName == customer && d.location == location && d.inHouse == inHouse
              && !d.isScrap && d.serviceCode.None?
              && d.storageDaysCategory == Some(StorageCategoryOn(reportDate, today))
              && d.batchNumber.None? && d.shipDate.None?
  {
    if !FilledIn(serial, model, customer) then Err(MissingRequiredField)
    else if HasReportDate(s.devices, reportDate) then Err(DuplicateReportDate)
    else if FindDevice(s.devices, serial).Some? then Err(DuplicateSerialNumber)
    else
      var d := Device(Some(reportDate), serial, model, boxType, customer, location, inHouse,
                      false, None, Some(StorageCategoryOn(reportDate, today)), None, None);
      Ok(s.(devices := s.devices + [d]))
  }

  /** The report-date check refuses a device whose serial number nobody has
      used, merely because another device was reported on the same day. */
  lemma FreshSerialRefusedOnSameReportDate(today: Day, day: Day)
    ensures var s := Register(EmptyStore, today, day, "SN001", "M1", "Modem", "Acme", "Charlotte", true);
            && s.Ok?
            && Register(s.value, today, day, "SN002", "M1", "Modem", "Acme", "Charlotte", true)
               == Err(DuplicateReportDate)
  {
  }

  /** A repeated serial number with a new report date gets past the
      report-date check and is stopped only by the unique constraint. */
  lemma RepeatedSerialStoppedByUniqueConstraint(today: Day, day: Day)
    ensures var s := Register(EmptyStore, today, day, "SN001", "M1", "Modem", "Acme", "Charlotte", true);
            && s.Ok?
            && Register(s.value, today, day + 1, "SN001", "M2", "TV", "Beta", "Other", false)
               == Err(DuplicateSerialNumber)
  {
  }

  /* ---------------------------------------------------------------------
     Submit a test
     --------------------------------------------------------------------- */

  /** Records a new, not yet completed test for a device that is not scrap,
      copying the device's model onto the test. */
  function SubmitTest(s: Store, serial: string, testType: string, testDate: Day,
                      testLocation: string, rate: Amount, tax: Amount,
                      spareReplacement: string, notes: string): (r: Result<Store>)
    ensures !HasSerial(s.devices, serial) <==> r == Err(UnknownDevice)
    ensures var k := FindDevice(s.devices, serial);
            k.Some? ==> (s.devices[k.value].isScrap <==> r == Err(ScrappedDevice))
    ensures r.Ok? <==> HasSerial(s.devices, serial)
                       && !s.devices[FindDevice(s.devices, serial).value].isScrap
    ensures r.Ok? ==> r.value.devices == s.devices
                      && |r.value.tests| == |s.tests| + 1
                      && r.value.tests[..|s.tests|] == s.tests
    ensures r.Ok? ==>
              var t := r.value.tests[|s.tests|];
              var k := FindDevice(s.devices, serial);
              && k.Some? && !s.devices[k.value].isScrap
              && t.serialNumber == serial && t.model == s.devices[k.value].model
              && t.testType == testType && t.testDate == testDate
              && t.testLocation == testLocation && t.rate == rate && t.tax == tax
              && t.spareReplacement == spareReplacement && t.notes == notes
              && !t.isCompleted && t.batchNumber.None?
  {
    match FindDevice(s.devices, serial)
    case None => Err(UnknownDevice)
    case Some(k) =>
      var d := s.devices[k];
      if d.isScrap then Err(ScrappedDevice)
      else
        var t := Test(serial, d.model, testType, testDate, testLocation, rate, tax,
                      spareReplacement, notes, false, None);
        Ok(s.(tests := s.tests + [t]))
  }

  /* ---------------------------------------------------------------------
     Create a batch
     --------------------------------------------------------------------- */

  /** A test marked completed under batch number `b`. */
  function Complete(t: Test, b: string): Test {
    t.(isCompleted := true, batchNumber := Some(b))
  }

  /** Walks the test table once, completing every pending test of `serial`
      under `b` and leaving every other row as it was. */
  function CompletePending(tests: seq<Test>, serial: string, b: string): (r: seq<Test>)
    ensures |r| == |tests|
    ensures forall i :: 0 <= i < |tests| && IsPendingFor(tests[i], serial)
                        ==> r[i] == Complete(tests[i], b)
    ensures forall i :: 0 <= i < |tests| && !IsPendingFor(tests[i], serial)
                        ==> r[i] == tests[i]
    ensures !HasPending(r, serial)
  {
    if |tests| == 0 then []
    else
      var t := if IsPendingFor(tests[0], serial) then Complete(tests[0], b) else tests[0];
      [t] + CompletePending(tests[1..], serial, b)
  }

  /** Completes every pending test of one device and gives the device and
      those tests the same freshly generated batch number. Refused when the
      device is unknown, scrap or already batched, or has no pending test. */
  function CreateBatch(s: Store, serial: string, now: Timestamp): (r: Result<Store>)
    ensures !HasSerial(s.devices, serial) <==> r == Err(UnknownDevice)
    ensures var k := FindDevice(s.devices, serial);
            k.Some? ==>
              var d := s.devices[k.value];
              && (d.isScrap <==> r == Err(ScrappedDevice))
              && (!d.isScrap && d.batchNumber.Some? <==> r == Err(AlreadyBatched))
              && (Batchable(d) && !HasPending(s.tests, serial) <==> r == Err(NoPendingTests))
              && (r.Ok? <==> Batchable(d) && HasPending(s.tests, serial))
    ensures r.Ok? ==>
              var k := FindDevice(s.devices, serial);
              && k.Some?
              && var d := s.devices[k.value];
                 var b := GenerateBatchNumber(serial, d.customerName, now);
                 && |r.value.devices| == |s.devices|
                 && r.value.devices[k.value] == d.(batchNumber := Some(b))
                 && (forall j :: 0 <= j < |s.devices| && j != k.value
                                 ==> r.value.devices[j] == s.devices[j])
                 && |r.value.tests| == |s.tests|
                 && (forall i :: 0 <= i < |s.tests| && IsPendingFor(s.tests[i], serial)
                                 ==> r.value.tests[i] == Complete(s.tests[i], b))
                 && (forall i :: 0 <= i < |s.tests| && !IsPendingFor(s.tests[i], serial)
                                 ==> r.value.tests[i] == s.tests[i])
                 && !HasPending(r.value.tests, serial)
  {
    match FindDevice(s.devices, serial)
    case None => Err(UnknownDevice)
    case Some(k) =>
      var d := s.devices[k];
      if d.isScrap then Err(ScrappedDevice)
      else if d.batchNumber.Some? then Err(AlreadyBatched)
      else if !HasPending(s.tests, serial) then Err(NoPendingTests)
      else
        var b := GenerateBatchNumber(serial, d.customerName, now);
        Ok(Store(s.devices[k := d.(batchNumber := Some(b))], CompletePending(s.tests, serial, b)))
  }

  /* ---------------------------------------------------------------------
     Ship a device
     --------------------------------------------------------------------- */

  /** Records the ship date of a batched, unshipped device that is not scrap. */
  function Ship(s: Store, serial: string, shipDate: Day): (r: Result<Store>)
    ensures !HasSerial(s.devices, serial) <==> r == Err(UnknownDevice)
    ensures var k := FindDevice(s.devices, serial);
            k.Some? ==>
              var d := s.devices[k.value];
              && (d.isScrap <==> r == Err(ScrappedDevice))
              && (!d.isScrap && d.batchNumber.None? <==> r == Err(NotBatched))
              && (!d.isScrap && d.batchNumber.Some? && d.shipDate.Some? <==> r == Err(AlreadyShipped))
              && (r.Ok? <==> Shippable(d))
    ensures r.Ok? ==>
              var k := FindDevice(s.devices, serial);
              && k.Some?
              && r.value.tests == s.tests
              && |r.value.devices| == |s.devices|
              && r.value.devices[k.value] == s.devices[k.value].(shipDate := Some(shipDate))
              && (forall j :: 0 <= j < |s.devices| && j != k.value
                              ==> r.value.devices[j] == s.devices[j])
  {
    match FindDevice(s.devices, serial)
    case None => Err(UnknownDevice)
    case Some(k) =>
      var d := s.devices[k];
      if d.isScrap then Err(ScrappedDevice)
      else if d.batchNumber.None? then Err(NotBatched)
      else if d.shipDate.Some? then Err(AlreadyShipped)
      else Ok(s.(devices := s.devices[k := d.(shipDate := Some(shipDate))]))
  }

  /* ---------------------------------------------------------------------
     Repeating an action
     --------------------------------------------------------------------- */

  /** The device found for a serial number depends on the serial numbers
      alone, so updating other columns never changes which row is found. */
  lemma FindDeviceSameSerials(a: seq<Device>, b: seq<Device>, serial: string)
    requires |a| == |b|
    requires forall i :: 0 <= i < |a| ==> a[i].serialNumber == b[i].serialNumber
    ensures FindDevice(a, serial) == FindDevice(b, serial)
  {
  }

  /** A device is shipped at most once: shipping it again is refused. */
  lemma ShipTwiceRefused(s: Store, serial: string, first: Day, second: Day)
    requires Ship(s, serial, first).Ok?
    ensures Ship(Ship(s, serial, first).value, serial, second) == Err(AlreadyShipped)
  {
  }

  /** A device is batched at most once: a second batch is refused. */
  lemma CreateBatchTwiceRefused(s: Store, serial: string, now: Timestamp, later: Timestamp)
    requires CreateBatch(s, serial, now).Ok?
    ensures CreateBatch(CreateBatch(s, serial, now).value, serial, later) == Err(AlreadyBatched)
  {
  }
}
