/*******************************************************************************
 *  Lifecycle rules of the device tracker: the storage-age bucket a device is
 *  filed under when it is registered, and the batch number stamped on a
 *  device and its tests when they are completed together.
 *******************************************************************************/

module Rules {

  /** A calendar date as a whole day number. The difference of two days is the
      `.days` of the corresponding date difference. */
  type Day = int

  /** The wall-clock instant a batch is created, rendered as `YYYYMMDDHHMMSS`:
      exactly fourteen decimal digits. */
  type Timestamp = s: string | IsTimestamp(s) witness "00000000000000"

  predicate IsTimestamp(s: string) {
    |s| == 14 && forall i :: 0 <= i < |s| ==> '0' <= s[i] <= '9'
  }

  function Min(a: int, b: int): int {
    if a <= b then a else b
  }

  /* ---------------------------------------------------------------------
     Storage-age categories
     --------------------------------------------------------------------- */

  datatype StorageCategory = LessThan30 | From30To45 | From45To90 | Over90

  /** The text stored in the `storage_days_category` column. */
  function CategoryLabel(c: StorageCategory): string {
    match c
    case LessThan30 => "Less than 30 days"
    case From30To45 => "30 to 45 days"
    case From45To90 => "45 to 90 days"
    case Over90 => "Over 90 days"
  }

  /** Position of a category in the age order. */
  function Rank(c: StorageCategory): nat {
    match c
    case LessThan30 => 0
    case From30To45 => 1
    case From45To90 => 2
    case Over90 => 3
  }

  /** The bucket for a device that has been in storage `delta` days. The
      branches follow `calculate_storage_days_category`, redundant lower
      bounds included; every integer, negative ones too, lands in exactly one bucket,
      and 45 and 90 both belong to the middle-upper bucket. */
  function Category(delta: int): (c: StorageCategory)
    ensures c == LessThan30 <==> delta < 30
    ensures c == From30To45 <==> 30 <= delta < 45
    ensures c == From45To90 <==> 45 <= delta <= 90
    ensures c == Over90 <==> 90 < delta
  {
    if delta < 30 then LessThan30
    else if 30 <= delta < 45 then From30To45
    else if 45 <= delta <= 90 then From45To90
    else Over90
  }

  /** The category of a device reported on `reportDate`, computed on `today`. */
  function StorageCategoryOn(reportDate: Day, today: Day): StorageCategory {
    Category(today - reportDate)
  }

  /** A device that has waited longer is never filed in a younger bucket. */
  lemma CategoryMonotone(a: int, b: int)
    requires a <= b
    ensures Rank(Category(a)) <= Rank(Category(b))
  {
  }

  /** The four stored labels are pairwise different, so the label read back
      from the database determines the bucket. */
  lemma CategoryLabelInjective(c1: StorageCategory, c2: StorageCategory)
    requires CategoryLabel(c1) == CategoryLabel(c2)
    ensures c1 == c2
  {
  }

  /* ---------------------------------------------------------------------
     Batch numbers
     --------------------------------------------------------------------- */

  /** ASCII upper-casing of one character. */
  function UpperChar(c: char): char {
    if 'a' <= c <= 'z' then (c as int - 32) as char else c
  }

  /** ASCII upper-casing of a string, character by character. */
  function Upper(s: string): (u: string)
    ensures |u| == |s|
    ensures forall i :: 0 <= i < |s| ==> u[i] == UpperChar(s[i])
  {
    if |s| == 0 then [] else [UpperChar(s[0])] + Upper(s[1..])
  }

  /** Python's `s[:n]` for `n >= 0`: at most the first `n` characters. */
  function Prefix(s: string, n: nat): (p: string)
    ensures |p| == Min(n, |s|)
    ensures p <= s
  {
    if |s| <= n then s else s[..n]
  }

  const BatchTag: string := "BATCH-"

  /** `BATCH-<timestamp>-<first 4 of serial>-<first 4 of customer, upper-cased>`.
      Given the length of the serial, the pieces can be read back at fixed
      offsets: the tag, the fourteen-digit timestamp at 6..20, a dash at 20,
      the serial prefix, a dash, and the upper-cased customer prefix to the
      end. Without that length the split is ambiguous, since the serial and
      the customer may themselves contain dashes. */
  function GenerateBatchNumber(serial: string, customer: string, now: Timestamp): (b: string)
    ensures |b| == 22 + Min(4, |serial|) + Min(4, |customer|)
    ensures b[..6] == BatchTag
    ensures b[6..20] == now
    ensures b[20] == '-'
    ensures b[21..21 + Min(4, |serial|)] <= serial
    ensures b[21 + Min(4, |serial|)] == '-'
    ensures b[22 + Min(4, |serial|)..] == Upper(Prefix(customer, 4))
  {
    var sp := Prefix(serial, 4);
    var cp := Upper(Prefix(customer, 4));
    var b := BatchTag + now + "-" + sp + "-" + cp;
    assert b == BatchTag + (now + ("-" + (sp + ("-" + cp))));
    assert b[21..21 + |sp|] == sp;
    b
  }

  /** The embedded timestamp makes batch numbers generated with different
      timestamps different, whatever the devices and customers involved. */
  lemma BatchNumbersDifferAcrossTimestamps(s1: string, c1: string, t1: Timestamp,
                                           s2: string, c2: string, t2: Timestamp)
    requires t1 != t2
    ensures GenerateBatchNumber(s1, c1, t1) != GenerateBatchNumber(s2, c2, t2)
  {
  }

  /** Uniqueness is only a soft guarantee: under one timestamp, two devices
      whose serials share their first four characters and whose customers
      share their first four letters up to case receive the same batch
      number. */
  lemma BatchNumberCollisionWithinSecond(s1: string, c1: string, s2: string, c2: string,
                                         now: Timestamp)
    requires Prefix(s1, 4) == Prefix(s2, 4)
    requires Upper(Prefix(c1, 4)) == Upper(Prefix(c2, 4))
    ensures GenerateBatchNumber(s1, c1, now) == GenerateBatchNumber(s2, c2, now)
  {
  }

  /** For example "SN0012" for Acme and "SN0013" for ACME Corp. */
  lemma BatchNumberCollisionExample(now: Timestamp)
    ensures GenerateBatchNumber("SN0012", "Acme", now)
         == GenerateBatchNumber("SN0013", "ACME Corp", now)
  {
    BatchNumberCollisionWithinSecond("SN0012", "Acme", "SN0013", "ACME Corp", now);
  }

  /** Collisions are not limited to matching prefixes: a dash can move from the
      customer part into the serial part, so a two-character serial with a
      dashed customer and a four-character serial collide. */
  lemma BatchNumberCollisionAcrossDash(now: Timestamp)
    ensures Prefix("AB", 4) != Prefix("AB-C", 4)
    ensures GenerateBatchNumber("AB", "C-XY", now) == GenerateBatchNumber("AB-C", "XY", now)
  {
  }
}
