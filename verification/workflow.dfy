/*******************************************************************************
 *  The user actions as commands, run one after another against the store.
 *  A refused command shows an error and leaves the store as it was; every
 *  store reachable from the empty one is consistent, and no row is ever
 *  deleted or has its identity changed.
 *******************************************************************************/

module Workflow {
  import opened Rules
  import opened Records
  import L = Lifecycle
  import I = Invariants

  datatype Command =
    | RegisterDevice(today: Day, reportDate: Day, serial: string, model: string,
                     boxType: string, customer: string, location: string, inHouse: bool)
    | SubmitTest(serial: string, testType: string, testDate: Day, testLocation: string,
                 rate: Amount, tax: Amount, spareReplacement: string, notes: string)
    | CreateBatch(serial: string, now: Timestamp)
    | ShipDevice(serial: string, shipDate: Day)

  function Execute(s: Store, c: Command): Result<Store> {
    match c
    case RegisterDevice(today, reportDate, serial, model, boxType, customer, location, inHouse) =>
      L.Register(s, today, reportDate, serial, model, boxType, customer, location, inHouse)
    case SubmitTest(serial, testType, testDate, testLocation, rate, tax, spare, notes) =>
      L.SubmitTest(s, serial, testType, testDate, testLocation, rate, tax, spare, notes)
    case CreateBatch(serial, now) => L.CreateBatch(s, serial, now)
    case ShipDevice(serial, shipDate) => L.Ship(s, serial, shipDate)
  }

  /** The store after one command: the new store, or the old one if refused. */
  function Apply(s: Store, c: Command): Store {
    match Execute(s, c)
    case Ok(s') => s'
    case Err(_) => s
  }

  function Run(s: Store, cmds: seq<Command>): Store
    decreases |cmds|
  {
    if |cmds| == 0 then s else Run(Apply(s, cmds[0]), cmds[1..])
  }

  /* ---------------------------------------------------------------------
     Rows are never deleted and their identity never changes
     --------------------------------------------------------------------- */

  /** `d'` is a later state of device row `d`: the columns fixed at
      registration are unchanged and a batch number or ship date, once
      set, stays. */
  predicate DeviceLater(d: Device, d': Device) {
    && d'.reportDate == d.reportDate && d'.serialNumber == d.serialNumber
    && d'.model == d.model && d'.boxType == d.boxType
    && d'.customerName == d.customerName && d'.location == d.location
    && d'.inHouse == d.inHouse && d'.isScrap == d.isScrap
    && d'.storageDaysCategory == d.storageDaysCategory
    && (d.batchNumber.Some? ==> d'.batchNumber == d.batchNumber)
    && (d.shipDate.Some? ==> d'.shipDate == d.shipDate)
  }

  /** `t'` is a later state of test row `t`: only completion and the batch
      number may change, and a completed test stays completed under the same
      batch number. */
  predicate TestLater(t: Test, t': Test) {
    && t' == t.(isCompleted := t'.isCompleted, batchNumber := t'.batchNumber)
    && (t.isCompleted ==> t'.isCompleted && t'.batchNumber == t.batchNumber)
  }

  /** Every row of `s` is still in `s'`, at the same position, in a later state. */
  predicate Extends(s: Store, s': Store) {
    && |s.devices| <= |s'.devices|
    && |s.tests| <= |s'.tests|
    && (forall i :: 0 <= i < |s.devices| ==> DeviceLater(s.devices[i], s'.devices[i]))
    && (forall i :: 0 <= i < |s.tests| ==> TestLater(s.tests[i], s'.tests[i]))
  }

  lemma ExtendsTransitive(s1: Store, s2: Store, s3: Store)
    requires Extends(s1, s2) && Extends(s2, s3)
    ensures Extends(s1, s3)
  {
  }

  lemma ApplyExtends(s: Store, c: Command)
    ensures Extends(s, Apply(s, c))
  {
  }

  /* ---------------------------------------------------------------------
     Consistency of every reachable store
     --------------------------------------------------------------------- */

  lemma ApplyPreservesValid(s: Store, c: Command)
    requires I.Valid(s)
    ensures I.Valid(Apply(s, c))
  {
    if Execute(s, c).Ok? {
      match c
      case RegisterDevice(today, reportDate, serial, model, boxType, customer, location, inHouse) =>
        I.RegisterPreservesValid(s, today, reportDate, serial, model, boxType, customer, location, inHouse);
      case SubmitTest(serial, testType, testDate, testLocation, rate, tax, spare, notes) =>
        I.SubmitTestPreservesValid(s, serial, testType, testDate, testLocation, rate, tax, spare, notes);
      case CreateBatch(serial, now) =>
        I.CreateBatchPreservesValid(s, serial, now);
      case ShipDevice(serial, shipDate) =>
        I.ShipPreservesValid(s, serial, shipDate);
    }
  }

  /** No command marks a device as scrap. */
  lemma ApplyKeepsNoScrap(s: Store, c: Command)
    requires I.NoScrap(s.devices)
    ensures I.NoScrap(Apply(s, c).devices)
  {
  }

  /** Running commands from a consistent store keeps it consistent, keeps
      every existing row (in a later state), and never introduces scrap. */
  lemma {:induction false} RunPreservesValid(s: Store, cmds: seq<Command>)
    requires I.Valid(s)
    ensures I.Valid(Run(s, cmds))
    ensures Extends(s, Run(s, cmds))
    ensures I.NoScrap(s.devices) ==> I.NoScrap(Run(s, cmds).devices)
    decreases |cmds|
  {
    if |cmds| > 0 {
      var s1 := Apply(s, cmds[0]);
      ApplyPreservesValid(s, cmds[0]);
      ApplyExtends(s, cmds[0]);
      if I.NoScrap(s.devices) {
        ApplyKeepsNoScrap(s, cmds[0]);
      }
      RunPreservesValid(s1, cmds[1..]);
      ExtendsTransitive(s, s1, Run(s1, cmds[1..]));
    }
  }

  /** Every store the application can reach from an empty database is
      consistent, and none of its devices is scrap: the scrap status of the
      report never arises from the application's own actions. */
  lemma ReachableStoresValid(cmds: seq<Command>)
    ensures I.Valid(Run(EmptyStore, cmds))
    ensures I.NoScrap(Run(EmptyStore, cmds).devices)
  {
    I.EmptyStoreValid();
    RunPreservesValid(EmptyStore, cmds);
  }

  /* ---------------------------------------------------------------------
     A worked session
     --------------------------------------------------------------------- */

  /** Register SN001 for Acme, submit two tests, try to ship too early,
      batch, ship, and try to ship again. */
  lemma BatchAndShipSession(now: Timestamp)
    ensures var s := Run(EmptyStore, [
                RegisterDevice(0, 0, "SN001", "M1", "Modem", "Acme", "Charlotte", true),
                SubmitTest("SN001", "SQT", 0, "Charlotte", 10.0, 1.0, "", ""),
                SubmitTest("SN001", "SPACK", 0, "Charlotte", 20.0, 2.0, "", "")]);
            var b := GenerateBatchNumber("SN001", "Acme", now);
            && L.Ship(s, "SN001", 5) == Err(NotBatched)
            && L.CreateBatch(s, "SN001", now).Ok?
            && var s' := L.CreateBatch(s, "SN001", now).value;
               && |s'.tests| == 2
               && s'.tests[0].isCompleted && s'.tests[1].isCompleted
               && s'.tests[0].batchNumber == Some(b)
               && s'.tests[1].batchNumber == Some(b)
               && s'.devices[0].batchNumber == Some(b)
               && L.Ship(s', "SN001", 5).Ok?
               && L.Ship(L.Ship(s', "SN001", 5).value, "SN001", 6) == Err(AlreadyShipped)
  {
  }
}
