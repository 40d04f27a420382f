/*******************************************************************************
 *  Consistency of the store, and proofs that every successful action keeps
 *  it: serial numbers stay unique, a test is completed exactly when it has a
 *  batch number, a shipped device always has a batch number, and batch
 *  numbers on tests and devices agree.
 *******************************************************************************/

module Invariants {
  import opened Rules
  import opened Records
  import opened Lifecycle

  /** No two devices share a serial number (the column's unique constraint). */
  predicate UniqueSerials(devices: seq<Device>) {
    forall i, j :: 0 <= i < j < |devices| ==> devices[i].serialNumber != devices[j].serialNumber
  }

  /** No two devices share a report date: a side effect of the registration
      check, which refuses a second device for a day already used. */
  predicate UniqueReportDates(devices: seq<Device>) {
    forall i, j :: 0 <= i < j < |devices| && devices[i].reportDate.Some?
                   ==> devices[i].reportDate != devices[j].reportDate
  }

  /** A device carries a ship date only once it carries a batch number. */
  predicate ShippedAreBatched(devices: seq<Device>) {
    forall i :: 0 <= i < |devices| && devices[i].shipDate.Some? ==> devices[i].batchNumber.Some?
  }

  /** A test is completed exactly when it carries a batch number. */
  predicate CompletedIffBatched(tests: seq<Test>) {
    forall i :: 0 <= i < |tests| ==> (tests[i].isCompleted <==> tests[i].batchNumber.Some?)
  }

  /** Every test refers to a registered device. */
  predicate TestsHaveDevice(s: Store) {
    forall i :: 0 <= i < |s.tests| ==> HasSerial(s.devices, s.tests[i].serialNumber)
  }

  /** A batched device has at least one test carrying its batch number. */
  predicate BatchedDevicesHaveTests(s: Store) {
    forall i :: 0 <= i < |s.devices| && s.devices[i].batchNumber.Some? ==>
      exists m :: 0 <= m < |s.tests| && s.tests[m].serialNumber == s.devices[i].serialNumber
                  && s.tests[m].batchNumber == s.devices[i].batchNumber
  }

  /** A completed test carries the batch number of its device. */
  predicate CompletedTestsMatchDevice(s: Store) {
    forall i :: 0 <= i < |s.tests| && s.tests[i].isCompleted ==>
      exists j :: 0 <= j < |s.devices| && s.devices[j].serialNumber == s.tests[i].serialNumber
                  && s.devices[j].batchNumber == s.tests[i].batchNumber
  }

  predicate Valid(s: Store) {
    && UniqueSerials(s.devices)
    && UniqueReportDates(s.devices)
    && ShippedAreBatched(s.devices)
    && CompletedIffBatched(s.tests)
    && TestsHaveDevice(s)
    && BatchedDevicesHaveTests(s)
    && CompletedTestsMatchDevice(s)
  }

  /** No device is marked as scrap. */
  predicate NoScrap(devices: seq<Device>) {
    forall i :: 0 <= i < |devices| ==> !devices[i].isScrap
  }

  /** The empty database is consistent. */
  lemma EmptyStoreValid()
    ensures Valid(EmptyStore) && NoScrap(EmptyStore.devices)
  {
  }

  /** With unique serial numbers the device found for a serial is the only
      one that has it. */
  lemma FindDeviceUnique(devices: seq<Device>, j: nat)
    requires UniqueSerials(devices)
    requires j < |devices|
    ensures FindDevice(devices, devices[j].serialNumber) == Some(j)
  {
  }

  /* ---------------------------------------------------------------------
     Register
     --------------------------------------------------------------------- */

  lemma RegisterPreservesValid(s: Store, today: Day, reportDate: Day, serial: string, model: string,
                               boxType: string, customer: string, location: string, inHouse: bool)
    requires Valid(s)
    requires Register(s, today, reportDate, serial, model, boxType, customer, location, inHouse).Ok?
    ensures Valid(Register(s, today, reportDate, serial, model, boxType, customer, location, inHouse).value)
  {
  }

  /* ---------------------------------------------------------------------
     Submit test
     --------------------------------------------------------------------- */

  lemma SubmitTestPreservesValid(s: Store, serial: string, testType: string, testDate: Day,
                                 testLocation: string, rate: Amount, tax: Amount,
                                 spareReplacement: string, notes: string)
    requires Valid(s)
    requires SubmitTest(s, serial, testType, testDate, testLocation, rate, tax, spareReplacement, notes).Ok?
    ensures Valid(SubmitTest(s, serial, testType, testDate, testLocation, rate, tax, spareReplacement, notes).value)
  {
  }

  /* ---------------------------------------------------------------------
     Create batch
     --------------------------------------------------------------------- */

  /** What a successful batch does, as a relation between the store before
      (`s`) and after (`s'`): device `k` gets batch number `b` and every
      pending test of its serial is completed under `b`. */
  predicate BatchStep(s: Store, s': Store, k: nat, serial: string, b: string) {
    && k < |s.devices|
    && s.devices[k].serialNumber == serial
    && Batchable(s.devices[k])
    && HasPending(s.tests, serial)
    && |s'.devices| == |s.devices|
    && s'.devices[k] == s.devices[k].(batchNumber := Some(b))
    && (forall j :: 0 <= j < |s.devices| && j != k ==> s'.devices[j] == s.devices[j])
    && |s'.tests| == |s.tests|
    && (forall i :: 0 <= i < |s.tests| && IsPendingFor(s.tests[i], serial)
                    ==> s'.tests[i] == Complete(s.tests[i], b))
    && (forall i :: 0 <= i < |s.tests| && !IsPendingFor(s.tests[i], serial)
                    ==> s'.tests[i] == s.tests[i])
  }

  lemma BatchStepKeepsDeviceKeys(s: Store, s': Store, k: nat, serial: string, b: string)
    requires BatchStep(s, s', k, serial, b)
    requires UniqueSerials(s.devices) && UniqueReportDates(s.devices) && ShippedAreBatched(s.devices)
    ensures UniqueSerials(s'.devices) && UniqueReportDates(s'.devices) && ShippedAreBatched(s'.devices)
  {
  }

  lemma BatchStepKeepsCompletion(s: Store, s': Store, k: nat, serial: string, b: string)
    requires BatchStep(s, s', k, serial, b)
    requires CompletedIffBatched(s.tests)
    ensures CompletedIffBatched(s'.tests)
  {
  }

  lemma BatchStepKeepsTestDevices(s: Store, s': Store, k: nat, serial: string, b: string)
    requires BatchStep(s, s', k, serial, b)
    requires TestsHaveDevice(s)
    ensures TestsHaveDevice(s')
  {
  }

  /** The newly batched device is matched by one of its formerly pending
      tests; any other batched device keeps its completed, untouched test. */
  lemma BatchStepKeepsBatchedTests(s: Store, s': Store, k: nat, serial: string, b: string)
    requires BatchStep(s, s', k, serial, b)
    requires CompletedIffBatched(s.tests) && BatchedDevicesHaveTests(s)
    ensures BatchedDevicesHaveTests(s')
  {
  }

  /** A test completed before the batch cannot belong to the batched device,
      which had no batch number to match; so every completed test still
      matches its device afterwards. */
  lemma BatchStepKeepsTestBatches(s: Store, s': Store, k: nat, serial: string, b: string)
    requires BatchStep(s, s', k, serial, b)
    requires CompletedIffBatched(s.tests) && CompletedTestsMatchDevice(s)
    ensures CompletedTestsMatchDevice(s')
  {
  }

  lemma CreateBatchPreservesValid(s: Store, serial: string, now: Timestamp)
    requires Valid(s)
    requires CreateBatch(s, serial, now).Ok?
    ensures Valid(CreateBatch(s, serial, now).value)
  {
    var s' := CreateBatch(s, serial, now).value;
    var k := FindDevice(s.devices, serial).value;
    var b := GenerateBatchNumber(serial, s.devices[k].customerName, now);
    assert BatchStep(s, s', k, serial, b);
    BatchStepKeepsDeviceKeys(s, s', k, serial, b);
    BatchStepKeepsCompletion(s, s', k, serial, b);
    BatchStepKeepsTestDevices(s, s', k, serial, b);
    BatchStepKeepsBatchedTests(s, s', k, serial, b);
    BatchStepKeepsTestBatches(s, s', k, serial, b);
  }

  /* ---------------------------------------------------------------------
     Ship
     --------------------------------------------------------------------- */

  lemma ShipPreservesValid(s: Store, serial: string, shipDate: Day)
    requires Valid(s)
    requires Ship(s, serial, shipDate).Ok?
    ensures Valid(Ship(s, serial, shipDate).value)
  {
  }
}
