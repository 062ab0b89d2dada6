/** Types, tables and table look-ups shared by the UE and eNB sides (common_types.h). */
module CommonTypes {
  const MAX_HARQ_PROCESSES: nat := 8
  const NOF_LCGS: nat := 4
  const CHANNEL_PROPAGATION_TTI: nat := 4
  const BSR_BUFFER_SIZE_LEVELS: nat := 64
  const MAX_REPORTABLE_BYTES: nat := 150000
  const IR_GAIN_X100: int := 200
  const DECODE_MARGIN_X100: int := 100

  type Rnti = nat
  type Byte = b: nat | b < 256

  datatype Option<+T> = None | Some(value: T)

  // ---- Messages on the four air-interface channels ----

  datatype UlGrant = UlGrant(rnti: Rnti, pid: nat, tbs: nat, nPrb: nat, prbStart: nat, mcs: nat, rv: int,
                             ndi: bool, ndiPresent: bool, isRar: bool, ttiTx: nat)

  datatype PduMsg = PduMsg(rnti: Rnti, grant: UlGrant, pdu: seq<Byte>)

  datatype PhichMsg = PhichMsg(rnti: Rnti, pid: nat, ack: bool)

  datatype SrMsg = SrMsg(rnti: Rnti, pendingBytes: seq<nat>)

  datatype HarqState = Inactive | WaitingFb | RetxPending

  // ---- Buffer status reports ----

  datatype BsrFormat = ShortBsr | TruncatedBsr | LongBsr

  datatype BsrReport = BsrReport(lcgId: nat, bufferSize: nat)

  datatype BsrCe = BsrCe(format: BsrFormat, reports: seq<BsrReport>)

  // The 64 buffer size levels, eight to a row: entry i is the upper bound in bytes of level i.
  const LEVELS_0: seq<nat> := [0, 10, 12, 14, 17, 19, 22, 26]
  const LEVELS_8: seq<nat> := [31, 36, 42, 49, 57, 67, 78, 91]
  const LEVELS_16: seq<nat> := [107, 125, 146, 171, 200, 234, 274, 321]
  const LEVELS_24: seq<nat> := [376, 440, 515, 603, 706, 826, 967, 1132]
  const LEVELS_32: seq<nat> := [1326, 1552, 1817, 2127, 2490, 2915, 3413, 3995]
  const LEVELS_40: seq<nat> := [4677, 5476, 6411, 7505, 8787, 10287, 12043, 14099]
  const LEVELS_48: seq<nat> := [16507, 19325, 22624, 26487, 31009, 36304, 42502, 49759]
  const LEVELS_56: seq<nat> := [58255, 68201, 79846, 93479, 109439, 128180, 150000, 150000]
  const BSR_TABLE: seq<nat> :=
      (LEVELS_0 + LEVELS_8 + LEVELS_16 + LEVELS_24) + (LEVELS_32 + LEVELS_40 + LEVELS_48 + LEVELS_56)

  function BsrIndexToBytes(index: nat): nat {
    if index >= BSR_BUFFER_SIZE_LEVELS then MAX_REPORTABLE_BYTES else BSR_TABLE[index]
  }

  /** First entry at or after `from` that is at least `bytes`; the last index when there is none. */
  function FirstCovering(table: seq<nat>, bytes: nat, from: nat): nat
    requires from <= |table|
    requires |table| > 0
    decreases |table| - from
  {
    if from == |table| then |table| - 1
    else if bytes <= table[from] then from
    else FirstCovering(table, bytes, from + 1)
  }

  function BytesToBsrIndex(bytes: nat): nat {
    if bytes == 0 then 0 else FirstCovering(BSR_TABLE, bytes, 1)
  }

  /** The search loop of the UE's quantiser. */
  method SearchBsrIndex(bytes: nat) returns (index: nat)
    ensures index == BytesToBsrIndex(bytes)
  {
    if bytes == 0 {
      return 0;
    }
    var i := 1;
    while i < BSR_BUFFER_SIZE_LEVELS
      invariant 1 <= i <= BSR_BUFFER_SIZE_LEVELS
      invariant FirstCovering(BSR_TABLE, bytes, 1) == FirstCovering(BSR_TABLE, bytes, i)
    {
      if bytes <= BsrIndexToBytes(i) {
        return i;
      }
      i := i + 1;
    }
    index := BSR_BUFFER_SIZE_LEVELS - 1;
  }

  predicate Ascending(s: seq<nat>) {
    forall i, j :: 0 <= i <= j < |s| ==> s[i] <= s[j]
  }

  lemma AscendingConcat(a: seq<nat>, b: seq<nat>)
    requires Ascending(a) && Ascending(b) && |a| > 0 && |b| > 0
    requires a[|a| - 1] <= b[0]
    ensures Ascending(a + b)
  {
  }

  predicate AscendingRow(s: seq<nat>) {
    |s| == 8 && s[0] <= s[1] <= s[2] <= s[3] <= s[4] <= s[5] <= s[6] <= s[7]
  }

  lemma AscendingRows(a: seq<nat>, b: seq<nat>, c: seq<nat>, d: seq<nat>)
    requires AscendingRow(a) && AscendingRow(b) && AscendingRow(c) && AscendingRow(d)
    requires a[7] <= b[0] && b[7] <= c[0] && c[7] <= d[0]
    ensures |a + b + c + d| == 32 && Ascending(a + b + c + d)
    ensures (a + b + c + d)[..8] == a && (a + b + c + d)[24..] == d
  {
    AscendingConcat(a, b);
    AscendingConcat(c, d);
    AscendingConcat(a + b, c + d);
    assert a + b + (c + d) == a + b + c + d;
  }

  lemma TableAscends()
    ensures |BSR_TABLE| == BSR_BUFFER_SIZE_LEVELS && Ascending(BSR_TABLE)
    ensures BSR_TABLE[0] == 0 && BSR_TABLE[1] == 10
    ensures BSR_TABLE[61] < BSR_TABLE[62] == BSR_TABLE[63] == MAX_REPORTABLE_BYTES
  {
    AscendingRows(LEVELS_0, LEVELS_8, LEVELS_16, LEVELS_24);
    AscendingRows(LEVELS_32, LEVELS_40, LEVELS_48, LEVELS_56);
    var low, high := LEVELS_0 + LEVELS_8 + LEVELS_16 + LEVELS_24, LEVELS_32 + LEVELS_40 + LEVELS_48 + LEVELS_56;
    assert low[31] == low[24..][7] && high[0] == high[..8][0];
    AscendingConcat(low, high);
    assert BSR_TABLE[..8] == LEVELS_0 && BSR_TABLE[56..] == LEVELS_56;
    assert BSR_TABLE[0] == LEVELS_0[0] && BSR_TABLE[1] == LEVELS_0[1];
    assert BSR_TABLE[61] == LEVELS_56[5] && BSR_TABLE[62] == LEVELS_56[6] && BSR_TABLE[63] == LEVELS_56[7];
  }

  lemma {:induction false} FirstCoveringIsLeast(table: seq<nat>, bytes: nat, from: nat)
    requires from < |table|
    ensures from <= FirstCovering(table, bytes, from) < |table|
    ensures forall j :: from <= j < FirstCovering(table, bytes, from) ==> table[j] < bytes
    ensures bytes <= table[FirstCovering(table, bytes, from)] || FirstCovering(table, bytes, from) == |table| - 1
    decreases |table| - from
  {
    if table[from] < bytes && from + 1 < |table| {
      FirstCoveringIsLeast(table, bytes, from + 1);
    }
  }

  /** The quantiser picks the least covering index when there is one, and the last index exactly when there is none. */
  lemma QuantiserIsLeastCovering(bytes: nat)
    ensures BytesToBsrIndex(bytes) < BSR_BUFFER_SIZE_LEVELS
    ensures forall j :: 0 <= j < BytesToBsrIndex(bytes) ==> BsrIndexToBytes(j) < bytes
    ensures bytes <= BsrIndexToBytes(BytesToBsrIndex(bytes)) <==> bytes <= MAX_REPORTABLE_BYTES
    ensures bytes > MAX_REPORTABLE_BYTES ==> BytesToBsrIndex(bytes) == BSR_BUFFER_SIZE_LEVELS - 1
    ensures BytesToBsrIndex(bytes) == 0 <==> bytes == 0
  {
    TableAscends();
    if bytes > 0 {
      FirstCoveringIsLeast(BSR_TABLE, bytes, 1);
      assert BSR_TABLE[62] == MAX_REPORTABLE_BYTES;
    }
  }

  /** What the eNB decodes covers every reportable demand, and is zero only for an empty buffer. */
  lemma DecodedCoversDemand(bytes: nat)
    ensures BsrIndexToBytes(BytesToBsrIndex(bytes)) >= Min(bytes, MAX_REPORTABLE_BYTES)
    ensures BsrIndexToBytes(BytesToBsrIndex(bytes)) == 0 <==> bytes == 0
  {
    QuantiserIsLeastCovering(bytes);
    TableAscends();
    if bytes > 0 {
      assert BSR_TABLE[1] <= BSR_TABLE[BytesToBsrIndex(bytes)];
    }
  }

  /** Requantising a decoded value is idempotent in bytes, although index 63 comes back as 62. */
  lemma RequantisingKeepsBytes(index: nat)
    ensures BsrIndexToBytes(BytesToBsrIndex(BsrIndexToBytes(index))) == BsrIndexToBytes(index)
    ensures BytesToBsrIndex(BsrIndexToBytes(63)) == 62
  {
    TableAscends();
    var b := BsrIndexToBytes(index);
    var i := Min(index, 63);
    assert b == BSR_TABLE[i];
    QuantiserIsLeastCovering(b);
    var q := BytesToBsrIndex(b);
    assert q <= i && BSR_TABLE[q] <= BSR_TABLE[i];
    QuantiserIsLeastCovering(MAX_REPORTABLE_BYTES);
    var last := BytesToBsrIndex(MAX_REPORTABLE_BYTES);
    assert BSR_TABLE[61] < BsrIndexToBytes(62) == BsrIndexToBytes(63) <= BSR_TABLE[last];
  }

  function Min(a: int, b: int): int {
    if a < b then a else b
  }

  function Max(a: int, b: int): int {
    if a < b then b else a
  }

  // ---- Redundancy versions ----

  const RV_TABLE: seq<nat> := [0, 2, 3, 1]
  const IRV_TABLE: seq<nat> := [0, 3, 1, 2]

  function RvOfIrv(irv: nat): nat {
    RV_TABLE[irv % 4]
  }

  function IrvOfRv(rv: nat): nat {
    IRV_TABLE[rv % 4]
  }

  // ---- MCS thresholds (x100 dB), MCS 0..28 ----

  const SNR_MCS_THRESHOLD: seq<int> := [
    -1000, -600, -400, -200, -100, 0, 100, 200, 300, 400,
    500, 600, 700, 800, 900, 1000, 1100, 1200, 1300, 1400,
    1500, 1600, 1700, 1800, 1840, 1880, 1920, 1960, 2000]
}
