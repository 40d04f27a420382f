/*******************************************************************************
 *  The per-device figures shown by the device statistics report: a status
 *  (scrap, shipped or in process) and the number of days in the system.
 *******************************************************************************/

module Reports {
  import opened Rules
  import opened Records
  import opened Lifecycle
  import opened Invariants

  datatype Status = Scrap | Shipped | InProcess

  /** The text shown in the report's status column. */
  function StatusLabel(st: Status): string {
    match st
    case Scrap => "Scrap"
    case Shipped => "Shipped"
    case InProcess => "In Process"
  }

  /** The three status labels are pairwise different, so grouping the report
      rows by label groups them by status. */
  lemma StatusLabelInjective(st1: Status, st2: Status)
    requires StatusLabel(st1) == StatusLabel(st2)
    ensures st1 == st2
  {
  }

  /** Scrap takes precedence over everything; otherwise a ship date means
      shipped, and anything else is still in process. */
  function StatusOf(d: Device): (st: Status)
    ensures st == Scrap <==> d.isScrap
    ensures st == Shipped <==> !d.isScrap && d.shipDate.Some?
    ensures st == InProcess <==> !d.isScrap && d.shipDate.None?
  {
    if d.isScrap then Scrap
    else if d.shipDate.Some? then Shipped
    else InProcess
  }

  /** Days since the report date, or 0 for a device without one. */
  function DaysInSystem(d: Device, today: Day): (n: int)
    ensures d.reportDate.Some? ==> d.reportDate.value + n == today
    ensures d.reportDate.None? ==> n == 0
  {
    match d.reportDate
    case Some(r) => today - r
    case None => 0
  }

  /** How many devices have status `st`: one bar of the status chart. */
  function CountStatus(devices: seq<Device>, st: Status): (n: nat)
    ensures n <= |devices|
  {
    if |devices| == 0 then 0
    else (if StatusOf(devices[0]) == st then 1 else 0) + CountStatus(devices[1..], st)
  }

  /** Appending a device adds one to the count of its own status and nothing
      to the others. */
  lemma {:induction false} CountStatusAppend(devices: seq<Device>, d: Device, st: Status)
    ensures CountStatus(devices + [d], st)
            == CountStatus(devices, st) + (if StatusOf(d) == st then 1 else 0)
    decreases |devices|
  {
    if |devices| > 0 {
      assert (devices + [d])[1..] == devices[1..] + [d];
      CountStatusAppend(devices[1..], d, st);
    }
  }

  /** The status chart accounts for every device exactly once. */
  lemma {:induction false} StatusCountsPartition(devices: seq<Device>)
    ensures CountStatus(devices, Scrap) + CountStatus(devices, Shipped)
            + CountStatus(devices, InProcess) == |devices|
  {
    if |devices| > 0 {
      StatusCountsPartition(devices[1..]);
    }
  }

  /** In a consistent store a device reported as shipped has a batch number. */
  lemma ShippedDeviceHasBatch(s: Store, i: nat)
    requires Valid(s)
    requires i < |s.devices|
    requires StatusOf(s.devices[i]) == Shipped
    ensures s.devices[i].batchNumber.Some?
  {
  }

  /** A newly registered device is in process, its days in system are counted
      from its report date, and the storage category stored for it is the
      category of those days on the day it was registered. */
  lemma RegisteredDeviceInProcess(s: Store, today: Day, reportDate: Day, serial: string, model: string,
                                  boxType: string, customer: string, location: string, inHouse: bool)
    requires Register(s, today, reportDate, serial, model, boxType, customer, location, inHouse).Ok?
    ensures var d := Register(s, today, reportDate, serial, model, boxType, customer, location, inHouse)
                     .value.devices[|s.devices|];
            && StatusOf(d) == InProcess
            && DaysInSystem(d, today) == today - reportDate
            && d.storageDaysCategory == Some(Category(DaysInSystem(d, today)))
  {
  }

  /** Shipping turns exactly the shipped device's status to Shipped. */
  lemma ShipMakesShipped(s: Store, serial: string, shipDate: Day)
    requires Ship(s, serial, shipDate).Ok?
    ensures var s' := Ship(s, serial, shipDate).value;
            var k := FindDevice(s.devices, serial).value;
            && StatusOf(s.devices[k]) == InProcess
            && StatusOf(s'.devices[k]) == Shipped
            && forall j :: 0 <= j < |s.devices| && j != k ==> StatusOf(s'.devices[j]) == StatusOf(s.devices[j])
  {
  }

  /** Batching changes no device's status. */
  lemma CreateBatchKeepsStatus(s: Store, serial: string, now: Timestamp)
    requires CreateBatch(s, serial, now).Ok?
    ensures var s' := CreateBatch(s, serial, now).value;
            forall j :: 0 <= j < |s.devices| ==> StatusOf(s'.devices[j]) == StatusOf(s.devices[j])
  {
  }
}
