/** The records the makers read from the framework: the reconstructed event
    (`StMuEvent`) with its primary tracks (`StMuTrack`), and the truth event
    (`StMiniMcEvent`) with its Monte Carlo tracks (`StTinyMcTrack`) and matched
    pairs (`StMiniMcPair`). Only the accessors the makers call are kept. */
module Inputs {

  /** C++ `UInt_t`. */
  type uint32 = x: int | 0 <= x < 0x1_0000_0000

  const UINT32_MODULUS: int := 0x1_0000_0000

  /** The value an `int` takes when converted to `UInt_t` (reduction mod 2^32). */
  function ToUInt32(x: int): (r: uint32)
    ensures (r - x) % UINT32_MODULUS == 0
    ensures 0 <= x < UINT32_MODULUS ==> r == x
  {
    x % UINT32_MODULUS
  }

  const INT32_LIMIT: int := 0x8000_0000

  /** C++ conversion of an `unsigned` to `int` (two's complement wrap-around). */
  function ToInt32(x: uint32): (r: int)
    ensures -INT32_LIMIT <= r < INT32_LIMIT
    ensures ToUInt32(r) == x
  {
    if x < INT32_LIMIT then x else x - UINT32_MODULUS
  }

  /** `TMath::Pi()` as a double. */
  const Pi: real := 3.141592653589793

  datatype Option<T> = None | Some(value: T)

  /** The framework's return codes `kStOK`, `kStErr` and `kStFatal`. */
  datatype Status = StOk | StErr | StFatal

  /** The join key of the two event streams. */
  datatype EventId = EventId(eventId: int, runId: int)

  /** `StMuEvent`: identity, primary vertex (x, y, z and its transverse radius,
      which the source takes as sqrt(x^2 + y^2)), multiplicities, the ZDC
      coincidence rate and the trigger ids the event carries. */
  datatype MuEvent = MuEvent(
    eventId: int, runId: int,
    vx: real, vy: real, vz: real, vr: real,
    refMult: nat, grefMult: nat,
    zdcRate: real,
    triggerIds: set<uint32>)

  function MuIdentity(e: MuEvent): EventId
  {
    EventId(e.eventId, e.runId)
  }

  /** `StMuTrack`: `flag`, `nHitsFit`, `nHitsPoss(kTpcId)`, `nHitsPoss()`,
      kinematics, |dcaGlobal| and its transverse part, and `nSigmaPion`. */
  datatype MuTrack = MuTrack(
    flag: int, nHitsFit: nat, nHitsPossTpc: nat, nHitsPoss: nat,
    pt: real, eta: real, phi: real,
    dca: real, dcaXY: real,
    nSigmaPion: real)

  /** `StTinyMcTrack`: a truth particle. */
  datatype McTrack = McTrack(geantId: int, parentGeantId: int, pt: real, eta: real, phi: real)

  /** `StMiniMcPair`: a truth particle matched to a reconstructed track. */
  datatype McPair = McPair(
    geantId: int, parentGeantId: int,
    pt: real, eta: real, phi: real,
    dcaGl: real, dcaXYGl: real,
    fitPts: nat, nPossiblePts: nat)

  /** `StMiniMcEvent`: one entry of the truth chain. */
  datatype MiniMcEvent = MiniMcEvent(
    eventId: int, runId: int,
    vertexZ: real,
    mcMult: nat, nMcNch: nat,
    mcTracks: seq<McTrack>,
    pairs: seq<McPair>)

  function TruthIdentity(e: MiniMcEvent): EventId
  {
    EventId(e.eventId, e.runId)
  }

  /** The geant-id filter and the primary-particle test applied by both
      makers to truth tracks and matched pairs: an empty filter set lets every id through. */
  predicate GeantSelected(ids: set<int>, geantId: int, parentGeantId: int)
  {
    (|ids| == 0 || geantId in ids) && parentGeantId == 0
  }

  /** `count_mc`, computed alike by both makers: the truth tracks the geant-id
      filter and the primary test select. */
  function CountMc(ids: set<int>, ts: seq<McTrack>): (r: nat)
    decreases |ts|
    ensures r <= |ts|
  {
    if |ts| == 0 then 0
    else
      var t := ts[|ts| - 1];
      CountMc(ids, ts[..|ts| - 1]) + (if GeantSelected(ids, t.geantId, t.parentGeantId) then 1 else 0)
  }

  /** Regrouping of concatenations, for the logs the makers append to. */
  lemma SeqAssoc<T>(a: seq<T>, b: seq<T>, d: seq<T>)
    ensures a + (b + d) == (a + b) + d
  {
  }

  lemma SeqAssocFive<T>(o: seq<T>, a: seq<T>, b: seq<T>, c: seq<T>, d: seq<T>, e: seq<T>)
    ensures o + a + b + c + d + e == o + (a + b + c + d + e)
  {
  }

  function Abs(x: real): real
  {
    if x < 0.0 then -x else x
  }
}
