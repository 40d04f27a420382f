# Device test-cycle tracker: lifecycle model

A Dafny model of the lifecycle engine of the xdatabyte device tracker. The
tracker registers physical devices by serial number and records test and
service events against them. It then completes all of a device's pending tests
under one generated batch number and finally ships the device. The
application is a Streamlit page backed by two SQLAlchemy tables, `devices` and
`tests`. Its rules sit inside the page's button handlers. This model pulls
them out into pure functions over an in-memory store.

- `rules.dfy` (module `Rules`): the storage-age category of a device
  (`calculate_storage_days_category`) and the batch-number format
  (`generate_batch_number`).
- `records.dfy` (module `Records`): the `Device` and `Test` rows, the store
  (both tables as sequences in insertion order) and the refusal reasons.
- `lifecycle.dfy` (module `Lifecycle`): the four user actions. These are
  register device, submit test, create batch and ship device. Each one is a
  function that returns either an `Error` or the whole new store. The
  eligibility filters that the page applies before offering a device are the
  guards. A refused action changes nothing, and a batch is all-or-nothing.
- `invariants.dfy` (module `Invariants`): the consistency of the store, with a
  proof that each action keeps it. The invariant says:
  - serial numbers are unique;
  - report dates are unique;
  - a test is completed exactly when it has a batch number;
  - a shipped device has a batch number;
  - every test belongs to a registered device;
  - a batched device has a test with its batch number;
  - a completed test carries its device's batch number.
- `reports.dfy` (module `Reports`): the device status shown in the statistics
  report, the days-in-system figure and the per-status device counts.
- `workflow.dfy` (module `Workflow`): actions as commands that run in
  sequence. It proves three things about every store reachable from an empty
  database: the store is consistent, no row is ever deleted or re-identified,
  and no device is ever scrap. It also contains a worked session: register,
  test twice, ship too early, batch, ship, ship again.

Dates are whole day numbers. "Today" and the batch timestamp are parameters,
not readings of a clock. The timestamp is a fourteen-digit string, which is
the shape of `strftime("%Y%m%d%H%M%S")`. Rate and tax are non-negative reals,
because the entry widgets refuse values below zero.

The registration duplicate check behaves differently from what its comment
says. The comment says it checks the serial number, but the query compares
report dates (`xdatabyte.py:137`). The model keeps that check as written.
`Lifecycle.FreshSerialRefusedOnSameReportDate` shows the effect: a second
device with a new serial number is refused when it was reported on the same
day as an existing device. The `serial_number` column is also declared unique
(`xdatabyte.py:25`), and the database enforces this when the row is
committed. The model treats that as a second refusal,
`DuplicateSerialNumber`, checked after the report-date check. As a result,
serial numbers stay unique, and so do report dates: the store never holds two
devices reported on the same day.

Nothing in the application ever sets `is_scrap`. So every guard that refuses
scrap devices, and the "Scrap" status, can only matter for rows written by
other means. `Workflow.ReachableStoresValid` proves that no reachable device is
scrap.

## Model

| member | source | states |
|---|---|---|
| `Rules.Category` | xdatabyte.py:64-74 | every day count, negative ones included, falls in exactly one bucket: below 30, 30 to 44, 45 to 90 inclusive, above 90 |
| `Rules.CategoryMonotone` | xdatabyte.py:67-74 | a longer stay never gives a younger bucket |
| `Rules.CategoryLabelInjective` | xdatabyte.py:68-74 | the four stored labels are pairwise distinct, so the stored text determines the bucket |
| `Rules.Upper` | xdatabyte.py:62 | the customer prefix is upper-cased character by character: same length, each lower-case ASCII letter mapped to its capital; non-ASCII characters are kept as they are, which differs from Python's `str.upper()` (see "Left out") |
| `Rules.GenerateBatchNumber` | xdatabyte.py:60-62 | the number starts with `BATCH-`, holds the timestamp at offsets 6..20, then a dash, then up to four characters of the serial, then a dash, then up to four characters of the customer in upper case; its length is 8 + 14 + min(4, serial length) + min(4, customer length) |
| `Rules.BatchNumbersDifferAcrossTimestamps` | xdatabyte.py:60-62 | batch numbers generated at different timestamps always differ, whatever the devices |
| `Rules.BatchNumberCollisionWithinSecond` | xdatabyte.py:60-62 | uniqueness is only soft: for any two serials with the same first four characters and any two customers whose first four characters agree after upper-casing, the batch numbers generated under one timestamp are equal |
| `Rules.BatchNumberCollisionAcrossDash` | xdatabyte.py:60-62 | equal prefixes are not needed for a collision: serial "AB" with customer "C-XY" and serial "AB-C" with customer "XY" get the same batch number under one timestamp, although their serial prefixes differ |
| `Rules.BatchNumberCollisionExample` | xdatabyte.py:60-62 | one such collision: "SN0012" for Acme and "SN0013" for ACME Corp get the same batch number in the same second |
| `Lifecycle.FindDevice` | xdatabyte.py:211 | the lookup by serial returns the first row with that serial, or nothing exactly when no row has it |
| `Lifecycle.Register` | xdatabyte.py:132-153 | a blank serial, model or customer is refused first; then a report date already in use is refused; then a serial already in use is refused; otherwise exactly one device is appended with the given fields, not scrap, no service code, no batch, no ship date, and the category of today minus the report date, while existing devices and all tests stay as they were |
| `Lifecycle.FreshSerialRefusedOnSameReportDate` | xdatabyte.py:136-139 | the duplicate check refuses a never-used serial number because another device shares its report date |
| `Lifecycle.RepeatedSerialStoppedByUniqueConstraint` | xdatabyte.py:25 | a reused serial with a new report date passes the report-date check and is refused only by the unique serial constraint |
| `Lifecycle.SubmitTest` | xdatabyte.py:202-243 | refused for an unknown or scrap device and accepted for every other known device; on acceptance appends exactly one uncompleted, unbatched test that carries the device's model and the given fields, and changes no device |
| `Lifecycle.CompletePending` | xdatabyte.py:325-328 | every pending test of the device becomes completed under the batch number, every other row is unchanged, the count is kept, and no pending test of the device remains |
| `Lifecycle.CreateBatch` | xdatabyte.py:296-330 | refused for an unknown, scrap or already batched device, and for one without pending tests; otherwise gives the device the generated batch number and completes exactly its pending tests under that number, leaving every other device and test unchanged |
| `Lifecycle.Ship` | xdatabyte.py:337-355 | refused for an unknown or scrap device, for one without a batch and for one already shipped; otherwise sets only that device's ship date |
| `Lifecycle.FindDeviceSameSerials` | xdatabyte.py:353 | the device found for a serial depends only on the serial numbers of the rows |
| `Lifecycle.ShipTwiceRefused` | xdatabyte.py:337-354 | shipping the same device a second time is refused as already shipped |
| `Lifecycle.CreateBatchTwiceRefused` | xdatabyte.py:296-323 | batching the same device a second time is refused as already batched |
| `Invariants.FindDeviceUnique` | xdatabyte.py:25 | with unique serials, the lookup finds the one device that has the serial |
| `Invariants.RegisterPreservesValid` | xdatabyte.py:142-153 | registration keeps the store consistent |
| `Invariants.SubmitTestPreservesValid` | xdatabyte.py:231-243 | submitting a test keeps the store consistent |
| `Invariants.CreateBatchPreservesValid` | xdatabyte.py:319-330 | batching keeps the store consistent; in particular "completed iff batched" holds for tests and agrees with the device's batch number |
| `Invariants.ShipPreservesValid` | xdatabyte.py:353-355 | shipping keeps the store consistent; in particular a shipped device has a batch number |
| `Reports.StatusOf` | xdatabyte.py:376 | the status is Scrap exactly for scrap devices, Shipped exactly for non-scrap devices with a ship date, and In Process otherwise |
| `Reports.StatusLabelInjective` | xdatabyte.py:376 | the three status texts are pairwise distinct, so the per-status grouping of the chart separates the statuses |
| `Reports.DaysInSystem` | xdatabyte.py:377 | the report date plus the days in system is today; a device without a report date counts 0 |
| `Reports.CountStatus` | xdatabyte.py:389-390 | the count of devices with one status (one bar of the status chart) never exceeds the number of devices |
| `Reports.CountStatusAppend` | xdatabyte.py:389-390 | adding a device raises the count of its own status by one and leaves the other counts unchanged, so each count is exactly the number of devices with that status |
| `Reports.StatusCountsPartition` | xdatabyte.py:389-390 | the three status counts add up to the number of devices |
| `Reports.ShippedDeviceHasBatch` | xdatabyte.py:376 | in a consistent store, a device reported as shipped has a batch number |
| `Reports.RegisteredDeviceInProcess` | xdatabyte.py:142-153 | a new device is In Process, its days in system run from its report date, and its stored category is the category of those days on the day of registration |
| `Reports.ShipMakesShipped` | xdatabyte.py:353-354 | shipping turns the shipped device from In Process to Shipped and changes no other device's status |
| `Reports.CreateBatchKeepsStatus` | xdatabyte.py:319-330 | batching changes no device's status |
| `Workflow.RunPreservesValid` | xdatabyte.py:132-355 | any sequence of actions from a consistent store keeps it consistent; existing rows are kept in place; the columns fixed at registration never change; a batch number, ship date or completion, once set, stays |
| `Workflow.ReachableStoresValid` | xdatabyte.py:30-31 | every store reachable from an empty database is consistent and contains no scrap device |
| `Workflow.BatchAndShipSession` | xdatabyte.py:296-356 | after registering SN001 and submitting two tests, shipping is refused as unbatched; batching completes both tests under the device's batch number; the first ship succeeds and a second is refused |

## Left out

- The Streamlit page: configuration, styles, forms, tables, tabs and charts. These only render data and collect input.
- The SQLAlchemy engine and session. The store is a pair of in-memory sequences, and a row's position stands for its integer primary key.
- The session's state after a failed commit. A duplicate serial raises an integrity error at commit and leaves the session needing a rollback. The model treats the failure as a clean refusal with the store unchanged.
- Clock readings (`datetime.now()`). "Today" and the batch timestamp are parameters.
- The financial summary: sums of `rate + tax` by test type, model and batch, the total revenue, the average rate and the total tax. The same goes for the average rate per test type and the grouped counts by model, customer, location and test type. These are floating-point or pandas aggregations used only for display. Of the groupings, only the status count is modelled.
- The "Active"/"Scrap" column of the registration table and the formatting of dates and amounts. These are display only.
- Choosing a device by splitting its display label on `" - "`. A serial that contains `" - "` would be cut short there. The model receives the serial itself.
- Widget and column length limits: 50 characters for serial and model, 100 for customer, and the `String(n)` widths. SQLite does not enforce the column widths, and no rule depends on them.
- Rules.Upper: upper-cases ASCII letters only and keeps every other character. Python's `str.upper()` also maps letters of other scripts ('é' becomes 'É') and can lengthen a string ('ß' becomes 'SS'), so the two differ on non-ASCII customer names.
- Rules.GenerateBatchNumber: upper-cases ASCII letters only. Python's `str.upper()` also maps other scripts, and can lengthen a string (for example 'ß' becomes 'SS'). The stated length holds for ASCII customer names.
- Floating-point rate and tax. These are modelled as exact non-negative reals, because no rule in the model computes with them.
- Concurrent sessions. Each browser session of the page runs in its own thread, and the report-date check is a query followed by an insert with no constraint behind it, so two registrations for the same day that run at the same time could both commit. The model runs actions one at a time (`Workflow.Run`), and its claims about reachable stores hold for that single-user use only.
