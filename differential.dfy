/** `StEfficiencyAssessor` of the older differential maker: per event it aligns the
    truth chain, finds the luminosity, centrality and vertex-z bins, drops the
    event when one is missing, records the event's ids, and fills a
    lumi x cent x vz x pt grid of histograms (nine families, one per cell each)
    from the matched pairs and the primary tracks. Every `Fill` call is recorded,
    in order, in an append-only log; ROOT's own binning is not modelled. */
module Differential {
  import opened Inputs
  import Axis
  import opened Alignment

  /** The nine grid families, each holding one histogram per grid cell. */
  datatype Family =
    | MatchedDca | MatchedNhit | MatchedNhitPos
    | DataDca | DataNhit | DataNhitPos
    | DataPionDca | DataPionNhit | DataPionNhitPos

  /** A grid index `[lumi][cent][vz][pt]`. */
  datatype Cell = Cell(lumi: int, cent: int, vz: int, pt: int)

  /** The extent of the grid along each index. */
  datatype Shape = Shape(nLumi: nat, nCent: nat, nVz: nat, nPt: nat)

  /** The histograms outside the grid. */
  datatype Hist =
    | NPrimaries | RefMultHist | NMc | NMcPrim | NMcRefMult | NMcNoParent | NMatched
    | EtaMatch | PhiMatch | EtaPrim | PhiPrim | EtaPrimPion | PhiPrimPion
    | WeightedDcaMatch | WeightedDcaData | WeightedDcaDataPion

  /** One `Fill` call: a one- or two-dimensional histogram, a weighted
      three-dimensional one, or the histogram of a grid family at a cell. */
  datatype Fill =
    | Fill1(hist: Hist, x: real)
    | Fill2(hist: Hist, x: real, y: real)
    | Weighted(hist: Hist, x: real, y: real, z: real, w: real)
    | CellFill(family: Family, cell: Cell, x: real, y: real, z: real)

  /** The axes `SetDefaultAxes` installs. */
  const DefaultLumiAxis := Axis.AxisDef(3, 0.0, 100000.0)
  const DefaultCentAxis := Axis.AxisDef(16, 0.0, 1.0)
  const DefaultVzAxis := Axis.AxisDef(5, -30.0, 30.0)
  const DefaultPtAxis := Axis.AxisDef(10, 0.0, 5.0)
  const DefaultEtaAxis := Axis.AxisDef(5, -1.0, 1.0)
  const DefaultPhiAxis := Axis.AxisDef(6, -Pi, Pi)

  /** The shape `InitOutput` gives every family: lumi x cent x vz x pt bins. */
  function AxesShape(lumi: Axis.AxisDef, cent: Axis.AxisDef, vz: Axis.AxisDef, pt: Axis.AxisDef): Shape
  {
    Shape(lumi.nBins, cent.nBins, vz.nBins, pt.nBins)
  }

  predicate InShape(s: Shape, x: Cell)
  {
    0 <= x.lumi < s.nLumi && 0 <= x.cent < s.nCent && 0 <= x.vz < s.nVz && 0 <= x.pt < s.nPt
  }

  /** The cells of one pt row `[l][c][v][*]`. */
  predicate InRow(s: Shape, x: Cell, l: int, c: int, v: int)
  {
    InShape(s, x) && x.lumi == l && x.cent == c && x.vz == v
  }

  /** The track cuts and the pt axis the track loops consult. */
  datatype Selection = Selection(ids: set<int>, minFit: int, maxDCA: real, pt: Axis.AxisDef)

  /** The event's luminosity, centrality and vertex-z bins. */
  datatype EventBins = EventBins(zdc: int, cent: int, vz: int)

  /** The luminosity bin of the ZDC rate; the centrality the `centrality16`
      definition reports for (run id, refMult, ZDC rate, truth vertex z); the
      vertex-z bin of the truth vertex. */
  function EventBinsOf(lumi: Axis.AxisDef, vz: Axis.AxisDef, centrality16: (int, nat, real, real) -> int,
                       e: MuEvent, truth: MiniMcEvent): EventBins
  {
    EventBins(Axis.Bin(lumi, e.zdcRate), centrality16(e.runId, e.refMult, e.zdcRate, truth.vertexZ),
              Axis.Bin(vz, truth.vertexZ))
  }

  /** The event test of the source as written: only a missing bin (-1) drops the event. */
  predicate KeptAsWritten(b: EventBins)
  {
    !(b.zdc < 0 || b.cent < 0 || b.vz < 0)
  }

  /** The corrected event test: the centrality must also be a bin of the
      centrality axis, since it indexes the grid directly. */
  predicate Kept(b: EventBins, centBins: nat)
  {
    KeptAsWritten(b) && b.cent < centBins
  }

  /** The grid cell of a track of transverse momentum pt. */
  function TrackCell(b: EventBins, sel: Selection, pt: real): Cell
  {
    Cell(b.zdc, b.cent, b.vz, Axis.Bin(sel.pt, pt))
  }

  /** A matched pair reaches the grid: it passes the geant-id filter, is
      primary, passes the DCA and fit-point cut and the eta cut, and has a pt bin. */
  predicate PairReachesGrid(sel: Selection, p: McPair)
  {
    GeantSelected(sel.ids, p.geantId, p.parentGeantId) &&
    !(p.dcaGl > sel.maxDCA || p.fitPts < sel.minFit) &&
    !(Abs(p.eta) > 1.0) &&
    Axis.Bin(sel.pt, p.pt) >= 0
  }

  /** The fills of one matched pair that reaches the grid. The weight is the
      absolute inverse Jacobian of (|DCA|, transverse DCA), supplied by `jacobian`. */
  function PairBlock(b: EventBins, jacobian: (real, real) -> real, p: McPair, cell: Cell): seq<Fill>
  {
    [Fill2(EtaMatch, p.eta, p.pt),
     Fill2(PhiMatch, p.phi, p.pt),
     Weighted(WeightedDcaMatch, b.cent as real, p.pt, p.dcaGl, jacobian(p.dcaGl, p.dcaXYGl)),
     CellFill(MatchedDca, cell, p.phi, p.eta, p.dcaGl),
     CellFill(MatchedNhit, cell, p.phi, p.eta, p.fitPts as real),
     CellFill(MatchedNhitPos, cell, p.phi, p.eta, p.nPossiblePts as real)]
  }

  /** The fills of one matched pair. */
  function PairFills(sel: Selection, b: EventBins, jacobian: (real, real) -> real, p: McPair): seq<Fill>
  {
    if !PairReachesGrid(sel, p) then [] else PairBlock(b, jacobian, p, TrackCell(b, sel, p.pt))
  }

  /** The fills of the matched-pair loop. */
  function PairsFills(sel: Selection, b: EventBins, jacobian: (real, real) -> real, ps: seq<McPair>): seq<Fill>
    decreases |ps|
  {
    if |ps| == 0 then []
    else PairsFills(sel, b, jacobian, ps[..|ps| - 1]) + PairFills(sel, b, jacobian, ps[|ps| - 1])
  }

  /** `count_pair`: the matched pairs that reach the grid. */
  function CountPairs(sel: Selection, ps: seq<McPair>): (r: nat)
    decreases |ps|
    ensures r <= |ps|
  {
    if |ps| == 0 then 0
    else CountPairs(sel, ps[..|ps| - 1]) + (if PairReachesGrid(sel, ps[|ps| - 1]) then 1 else 0)
  }

  /** A primary track reaches the grid: non-negative flag, DCA within the
      cut, enough fit points, |eta| <= 1, and a pt bin. */
  predicate TrackReachesGrid(sel: Selection, t: MuTrack)
  {
    !(t.flag < 0 || t.dca > sel.maxDCA || t.nHitsFit < sel.minFit) &&
    !(Abs(t.eta) > 1.0) &&
    Axis.Bin(sel.pt, t.pt) >= 0
  }

  /** The pion test `|nSigmaPion| < 2`. */
  predicate IsPion(t: MuTrack)
  {
    Abs(t.nSigmaPion) < 2.0
  }

  /** The fills every primary track that reaches the grid makes. */
  function TrackBlock(b: EventBins, jacobian: (real, real) -> real, t: MuTrack, cell: Cell): seq<Fill>
  {
    [Fill2(EtaPrim, t.eta, t.pt),
     Fill2(PhiPrim, t.phi, t.pt),
     CellFill(DataDca, cell, t.phi, t.eta, t.dca),
     CellFill(DataNhit, cell, t.phi, t.eta, t.nHitsFit as real),
     CellFill(DataNhitPos, cell, t.phi, t.eta, t.nHitsPoss as real),
     Weighted(WeightedDcaData, b.cent as real, t.pt, t.dca, jacobian(t.dca, t.dcaXY))]
  }

  /** The further fills of a pion. */
  function PionBlock(b: EventBins, jacobian: (real, real) -> real, t: MuTrack, cell: Cell): seq<Fill>
  {
    [Fill2(EtaPrimPion, t.eta, t.pt),
     Fill2(PhiPrimPion, t.phi, t.pt),
     Weighted(WeightedDcaDataPion, b.cent as real, t.pt, t.dca, jacobian(t.dca, t.dcaXY)),
     CellFill(DataPionDca, cell, t.phi, t.eta, t.dca),
     CellFill(DataPionNhit, cell, t.phi, t.eta, t.nHitsFit as real),
     CellFill(DataPionNhitPos, cell, t.phi, t.eta, t.nHitsPoss as real)]
  }

  /** The fills of one primary track. */
  function TrackFills(sel: Selection, b: EventBins, jacobian: (real, real) -> real, t: MuTrack): seq<Fill>
  {
    if !TrackReachesGrid(sel, t) then []
    else
      var cell := TrackCell(b, sel, t.pt);
      TrackBlock(b, jacobian, t, cell) + (if IsPion(t) then PionBlock(b, jacobian, t, cell) else [])
  }

  /** The fills of the primary-track loop. */
  function TracksFills(sel: Selection, b: EventBins, jacobian: (real, real) -> real, ts: seq<MuTrack>): seq<Fill>
    decreases |ts|
  {
    if |ts| == 0 then []
    else TracksFills(sel, b, jacobian, ts[..|ts| - 1]) + TrackFills(sel, b, jacobian, ts[|ts| - 1])
  }

  /** The event-level fills made after the track loops. */
  function SummaryFills(e: MuEvent, truth: MiniMcEvent, tracks: seq<MuTrack>, countMc: nat): seq<Fill>
  {
    [Fill1(NPrimaries, |tracks| as real),
     Fill1(RefMultHist, e.refMult as real),
     Fill1(NMc, |truth.mcTracks| as real),
     Fill1(NMcPrim, truth.mcMult as real),
     Fill1(NMcRefMult, truth.nMcNch as real),
     Fill1(NMcNoParent, countMc as real),
     Fill1(NMatched, |truth.pairs| as real)]
  }

  /** Every fill of a kept event. */
  function EventFills(sel: Selection, b: EventBins, jacobian: (real, real) -> real,
                      e: MuEvent, truth: MiniMcEvent, tracks: seq<MuTrack>): seq<Fill>
  {
    PairsFills(sel, b, jacobian, truth.pairs) + TracksFills(sel, b, jacobian, tracks) +
    SummaryFills(e, truth, tracks, CountMc(sel.ids, truth.mcTracks))
  }

  /** What `Make` returns, whether it records the event's ids, and its fills. */
  datatype Outcome = Outcome(status: Status, kept: bool, fills: seq<Fill>)

  /** `Make` once the truth search has spoken and the bins are known. */
  function MakeOutcome(found: bool, sel: Selection, b: EventBins, centBins: nat, jacobian: (real, real) -> real,
                       e: MuEvent, truth: MiniMcEvent, tracks: seq<MuTrack>): Outcome
  {
    if !found then Outcome(StErr, false, [])
    else if !Kept(b, centBins) then Outcome(StOk, false, [])
    else Outcome(StOk, true, EventFills(sel, b, jacobian, e, truth, tracks))
  }

  /** `Make` fails only when the truth search fails; an event is kept (its ids
      recorded) exactly when the search succeeds and the corrected test keeps it;
      a dropped event fills nothing, and a kept one fills at least the seven
      event-level histograms. */
  lemma MakeGates(found: bool, sel: Selection, b: EventBins, centBins: nat, jacobian: (real, real) -> real,
                  e: MuEvent, truth: MiniMcEvent, tracks: seq<MuTrack>)
    ensures var o := MakeOutcome(found, sel, b, centBins, jacobian, e, truth, tracks);
      (o.status == StErr <==> !found) && (o.status == StOk <==> found) &&
      (o.kept <==> found && Kept(b, centBins)) &&
      (!o.kept ==> o.fills == []) &&
      (o.kept ==> |o.fills| >= 7 &&
                  o.fills[|o.fills| - 2] == Fill1(NMcNoParent, CountMc(sel.ids, truth.mcTracks) as real))
  {
  }

  /** Every grid fill in fs lands in a cell of shape s. */
  predicate CellsInShape(fs: seq<Fill>, s: Shape)
  {
    forall i :: 0 <= i < |fs| && fs[i].CellFill? ==> InShape(s, fs[i].cell)
  }

  /** Every grid fill in fs lands in an allocated cell. */
  predicate CellsAllocated(fs: seq<Fill>, cells: set<Cell>)
  {
    forall i :: 0 <= i < |fs| && fs[i].CellFill? ==> fs[i].cell in cells
  }

  lemma CellsInShapeAppend(a: seq<Fill>, d: seq<Fill>, s: Shape)
    requires CellsInShape(a, s) && CellsInShape(d, s)
    ensures CellsInShape(a + d, s)
  {
    forall i | 0 <= i < |a + d| && (a + d)[i].CellFill?
      ensures InShape(s, (a + d)[i].cell)
    {
      if i >= |a| {
        assert (a + d)[i] == d[i - |a|];
      }
    }
  }

  lemma PairsFillsSnoc(sel: Selection, b: EventBins, jacobian: (real, real) -> real, ps: seq<McPair>, i: nat)
    requires i < |ps|
    ensures PairsFills(sel, b, jacobian, ps[..i + 1]) ==
      PairsFills(sel, b, jacobian, ps[..i]) + PairFills(sel, b, jacobian, ps[i])
    ensures CountPairs(sel, ps[..i + 1]) == CountPairs(sel, ps[..i]) + (if PairReachesGrid(sel, ps[i]) then 1 else 0)
  {
    assert ps[..i + 1][..i] == ps[..i];
  }

  lemma TracksFillsSnoc(sel: Selection, b: EventBins, jacobian: (real, real) -> real, ts: seq<MuTrack>, i: nat)
    requires i < |ts|
    ensures TracksFills(sel, b, jacobian, ts[..i + 1]) ==
      TracksFills(sel, b, jacobian, ts[..i]) + TrackFills(sel, b, jacobian, ts[i])
  {
    assert ts[..i + 1][..i] == ts[..i];
  }

  lemma CountMcSnoc(ids: set<int>, ts: seq<McTrack>, i: nat)
    requires i < |ts|
    ensures CountMc(ids, ts[..i + 1]) ==
      CountMc(ids, ts[..i]) + (if GeantSelected(ids, ts[i].geantId, ts[i].parentGeantId) then 1 else 0)
  {
    assert ts[..i + 1][..i] == ts[..i];
  }

  /** A matched pair fills something iff it reaches the grid; it then makes six
      fills, three of them in the matched families at the cell of its pt bin. */
  lemma PairStages(sel: Selection, b: EventBins, jacobian: (real, real) -> real, p: McPair)
    ensures |PairFills(sel, b, jacobian, p)| == (if PairReachesGrid(sel, p) then 6 else 0)
    ensures PairReachesGrid(sel, p) ==>
      var fs := PairFills(sel, b, jacobian, p);
      fs[3] == CellFill(MatchedDca, TrackCell(b, sel, p.pt), p.phi, p.eta, p.dcaGl) &&
      fs[4].CellFill? && fs[4].family == MatchedNhit && fs[4].cell == TrackCell(b, sel, p.pt) &&
      fs[5].CellFill? && fs[5].family == MatchedNhitPos && fs[5].cell == TrackCell(b, sel, p.pt)
    ensures forall i :: 0 <= i < |PairFills(sel, b, jacobian, p)| && PairFills(sel, b, jacobian, p)[i].CellFill? ==>
      PairFills(sel, b, jacobian, p)[i].cell == TrackCell(b, sel, p.pt)
  {
  }

  /** A primary track fills something iff it reaches the grid: six fills, and
      six more in the pion families exactly when it is a pion. */
  lemma TrackStages(sel: Selection, b: EventBins, jacobian: (real, real) -> real, t: MuTrack)
    ensures |TrackFills(sel, b, jacobian, t)| ==
      (if !TrackReachesGrid(sel, t) then 0 else if IsPion(t) then 12 else 6)
    ensures (exists i :: 0 <= i < |TrackFills(sel, b, jacobian, t)| &&
               TrackFills(sel, b, jacobian, t)[i] == CellFill(DataPionDca, TrackCell(b, sel, t.pt), t.phi, t.eta, t.dca))
            <==> TrackReachesGrid(sel, t) && IsPion(t)
    ensures forall i :: 0 <= i < |TrackFills(sel, b, jacobian, t)| && TrackFills(sel, b, jacobian, t)[i].CellFill? ==>
      TrackFills(sel, b, jacobian, t)[i].cell == TrackCell(b, sel, t.pt)
  {
    var fs := TrackFills(sel, b, jacobian, t);
    var cell := TrackCell(b, sel, t.pt);
    if TrackReachesGrid(sel, t) && IsPion(t) {
      assert fs[9] == CellFill(DataPionDca, cell, t.phi, t.eta, t.dca);
    }
  }

  /** `count_pair` counts the pairs that reach the grid, and the pair loop makes
      six fills for each of them and none for any other pair. */
  lemma {:induction false} PairsFillsLength(sel: Selection, b: EventBins, jacobian: (real, real) -> real, ps: seq<McPair>)
    decreases |ps|
    ensures |PairsFills(sel, b, jacobian, ps)| == 6 * CountPairs(sel, ps)
  {
    if |ps| > 0 {
      PairsFillsLength(sel, b, jacobian, ps[..|ps| - 1]);
      PairStages(sel, b, jacobian, ps[|ps| - 1]);
    }
  }

  /** A grid fill of the pair loop lands in a cell of the grid whenever the
      event bins index it and the grid's pt extent is that of the pt axis. */
  lemma {:induction false} PairsCellsInShape(sel: Selection, b: EventBins, jacobian: (real, real) -> real,
                                             ps: seq<McPair>, s: Shape)
    requires Kept(b, s.nCent) && b.zdc < s.nLumi && b.vz < s.nVz && sel.pt.nBins == s.nPt
    decreases |ps|
    ensures CellsInShape(PairsFills(sel, b, jacobian, ps), s)
  {
    if |ps| > 0 {
      var p := ps[|ps| - 1];
      PairsCellsInShape(sel, b, jacobian, ps[..|ps| - 1], s);
      PairStages(sel, b, jacobian, p);
      CellsInShapeAppend(PairsFills(sel, b, jacobian, ps[..|ps| - 1]), PairFills(sel, b, jacobian, p), s);
    }
  }

  /** The same for the primary-track loop. */
  lemma {:induction false} TracksCellsInShape(sel: Selection, b: EventBins, jacobian: (real, real) -> real,
                                              ts: seq<MuTrack>, s: Shape)
    requires Kept(b, s.nCent) && b.zdc < s.nLumi && b.vz < s.nVz && sel.pt.nBins == s.nPt
    decreases |ts|
    ensures CellsInShape(TracksFills(sel, b, jacobian, ts), s)
  {
    if |ts| > 0 {
      var t := ts[|ts| - 1];
      TracksCellsInShape(sel, b, jacobian, ts[..|ts| - 1], s);
      TrackStages(sel, b, jacobian, t);
      CellsInShapeAppend(TracksFills(sel, b, jacobian, ts[..|ts| - 1]), TrackFills(sel, b, jacobian, t), s);
    }
  }

  /** Grid bounds: for a kept event whose luminosity and vertex-z bins come from
      the axes the grid was shaped by, every grid fill indexes an existing cell. */
  lemma EventCellsInShape(sel: Selection, lumi: Axis.AxisDef, cent: Axis.AxisDef, vz: Axis.AxisDef,
                          centrality16: (int, nat, real, real) -> int, jacobian: (real, real) -> real,
                          e: MuEvent, truth: MiniMcEvent, tracks: seq<MuTrack>)
    requires Kept(EventBinsOf(lumi, vz, centrality16, e, truth), cent.nBins)
    ensures CellsInShape(EventFills(sel, EventBinsOf(lumi, vz, centrality16, e, truth), jacobian, e, truth, tracks),
                         AxesShape(lumi, cent, vz, sel.pt))
  {
    var b := EventBinsOf(lumi, vz, centrality16, e, truth);
    var s := AxesShape(lumi, cent, vz, sel.pt);
    PairsCellsInShape(sel, b, jacobian, truth.pairs, s);
    TracksCellsInShape(sel, b, jacobian, tracks, s);
    var summary := SummaryFills(e, truth, tracks, CountMc(sel.ids, truth.mcTracks));
    assert CellsInShape(summary, s);
    CellsInShapeAppend(PairsFills(sel, b, jacobian, truth.pairs), TracksFills(sel, b, jacobian, tracks), s);
    CellsInShapeAppend(PairsFills(sel, b, jacobian, truth.pairs) + TracksFills(sel, b, jacobian, tracks), summary, s);
  }

  /** The guard as written lets an event through whose centrality is beyond the
      centrality axis: after `SetCentralityAxis(9, 0, 9)` a `centrality16` value
      of 12 is kept, and its first matched pair fills cell [0][12][0][1] of a
      grid with 9 centrality rows. */
  lemma AsWrittenGuardOverrunsGrid()
    ensures var b := EventBins(0, 12, 0);
      var sel := Selection({}, 10, 3.0, DefaultPtAxis);
      var p := McPair(211, 0, 1.0, 0.0, 0.0, 1.0, 0.5, 20, 30);
      var s := AxesShape(DefaultLumiAxis, Axis.AxisDef(9, 0.0, 9.0), DefaultVzAxis, DefaultPtAxis);
      KeptAsWritten(b) && !Kept(b, s.nCent) &&
      PairFills(sel, b, (d: real, dxy: real) => 1.0, p)[3].CellFill? &&
      PairFills(sel, b, (d: real, dxy: real) => 1.0, p)[3].cell == Cell(0, 12, 0, 1) &&
      !InShape(s, Cell(0, 12, 0, 1))
  {
    var a := DefaultPtAxis;
    assert Axis.Width(a) == 0.5;
    assert Axis.InBin(a, 1.0, 1);
    Axis.BinCovers(a, 1.0);
  }

  /** `MinFitPoints()` reads back the `int` member as `unsigned`. */
  function MinFitAsUnsigned(minFit: int): uint32
  {
    ToUInt32(minFit)
  }

  /** The older maker: axes, track cuts, the geant-id filter, the truth-chain
      aligner, the allocated grid cells, the ids of the kept events, and the
      log of fills. */
  class DifferentialAssessor {
    const aligner: EventAligner
    var lumiAxis: Axis.AxisDef
    var centAxis: Axis.AxisDef
    var vzAxis: Axis.AxisDef
    var ptAxis: Axis.AxisDef
    var etaAxis: Axis.AxisDef
    var phiAxis: Axis.AxisDef
    var minFit: int
    var maxDCA: real
    var geantIds: set<int>
    var shape: Shape
    var cells: set<Cell>
    var runIds: seq<int>
    var eventIds: seq<int>
    var fills: seq<Fill>

    /** The ids of kept events come in pairs, and no grid fill ever lands
        outside the allocated cells. */
    ghost predicate Valid()
      reads this, aligner
    {
      aligner.Valid() && |runIds| == |eventIds| && CellsAllocated(fills, cells)
    }

    /** `InitOutput` has allocated exactly the cells of the current axes' shape. */
    ghost predicate Initialized()
      reads this
    {
      shape == AxesShape(lumiAxis, centAxis, vzAxis, ptAxis) &&
      forall x :: x in cells <==> InShape(shape, x)
    }

    /** Loads the truth chain (entry 0, cursor 0), installs the default axes and
        the default track cuts (10 fit points, DCA 3 cm); the grid is empty. */
    constructor (chain: seq<MiniMcEvent>)
      requires |chain| > 0
      ensures Valid()
      ensures fresh(aligner)
      ensures aligner.chain == chain && aligner.current == 0 && aligner.loaded == chain[0]
      ensures lumiAxis == DefaultLumiAxis && centAxis == DefaultCentAxis && vzAxis == DefaultVzAxis
      ensures ptAxis == DefaultPtAxis && etaAxis == DefaultEtaAxis && phiAxis == DefaultPhiAxis
      ensures minFit == 10 && maxDCA == 3.0 && geantIds == {}
      ensures shape == Shape(0, 0, 0, 0) && cells == {}
      ensures runIds == [] && eventIds == [] && fills == []
    {
      aligner := new EventAligner(chain);
      lumiAxis := DefaultLumiAxis;
      centAxis := DefaultCentAxis;
      vzAxis := DefaultVzAxis;
      ptAxis := DefaultPtAxis;
      etaAxis := DefaultEtaAxis;
      phiAxis := DefaultPhiAxis;
      minFit := 10;
      maxDCA := 3.0;
      geantIds := {};
      shape := Shape(0, 0, 0, 0);
      cells := {};
      runIds := [];
      eventIds := [];
      fills := [];
    }

    /** `SetDefaultAxes`. */
    method SetDefaultAxes()
      modifies this`lumiAxis, this`centAxis, this`vzAxis, this`ptAxis, this`etaAxis, this`phiAxis
      ensures lumiAxis == DefaultLumiAxis && centAxis == DefaultCentAxis && vzAxis == DefaultVzAxis
      ensures ptAxis == DefaultPtAxis && etaAxis == DefaultEtaAxis && phiAxis == DefaultPhiAxis
      ensures CheckAxes()
    {
      lumiAxis := DefaultLumiAxis;
      centAxis := DefaultCentAxis;
      vzAxis := DefaultVzAxis;
      ptAxis := DefaultPtAxis;
      etaAxis := DefaultEtaAxis;
      phiAxis := DefaultPhiAxis;
      Axis.ValidIff(DefaultLumiAxis);
      Axis.ValidIff(DefaultCentAxis);
      Axis.ValidIff(DefaultPtAxis);
      Axis.ValidIff(DefaultEtaAxis);
      Axis.ValidIff(DefaultPhiAxis);
    }

    method SetLuminosityAxis(n: uint32, low: real, high: real)
      modifies this`lumiAxis
      ensures lumiAxis == Axis.AxisDef(n, low, high)
    {
      lumiAxis := Axis.AxisDef(n, low, high);
    }

    method SetCentralityAxis(n: uint32, low: real, high: real)
      modifies this`centAxis
      ensures centAxis == Axis.AxisDef(n, low, high)
    {
      centAxis := Axis.AxisDef(n, low, high);
    }

    method SetVzAxis(n: uint32, low: real, high: real)
      modifies this`vzAxis
      ensures vzAxis == Axis.AxisDef(n, low, high)
    {
      vzAxis := Axis.AxisDef(n, low, high);
    }

    method SetPtAxis(n: uint32, low: real, high: real)
      modifies this`ptAxis
      ensures ptAxis == Axis.AxisDef(n, low, high)
    {
      ptAxis := Axis.AxisDef(n, low, high);
    }

    method SetEtaAxis(n: uint32, low: real, high: real)
      modifies this`etaAxis
      ensures etaAxis == Axis.AxisDef(n, low, high)
    {
      etaAxis := Axis.AxisDef(n, low, high);
    }

    method SetPhiAxis(n: uint32, low: real, high: real)
      modifies this`phiAxis
      ensures phiAxis == Axis.AxisDef(n, low, high)
    {
      phiAxis := Axis.AxisDef(n, low, high);
    }

    /** `CheckAxes`. */
    predicate CheckAxes()
      reads this
    {
      Axis.AxesValid(lumiAxis, centAxis, vzAxis, ptAxis, etaAxis, phiAxis)
    }

    method SetDCAMax(dca: real)
      modifies this`maxDCA
      ensures maxDCA == dca && DCAMax() == dca
    {
      maxDCA := dca;
    }

    function DCAMax(): real
      reads this
    {
      maxDCA
    }

    /** `minFit_` is an `int`, so an `unsigned` argument is converted, and
        `MinFitPoints()` converts it back: the value round-trips. */
    method SetMinFitPoints(fit: uint32)
      modifies this`minFit
      ensures minFit == ToInt32(fit)
      ensures MinFitPoints() == fit
    {
      minFit := ToInt32(fit);
    }

    function MinFitPoints(): uint32
      reads this
    {
      MinFitAsUnsigned(minFit)
    }

    /** `AddGeantId`: set insertion, so adding an id twice is adding it once. */
    method AddGeantId(id: int)
      modifies this`geantIds
      ensures geantIds == old(geantIds) + {id}
      ensures id in old(geantIds) ==> geantIds == old(geantIds)
    {
      geantIds := geantIds + {id};
    }

    function GeantIds(): set<int>
      reads this
    {
      geantIds
    }

    /** The track cuts and pt axis the loops read. */
    function Cuts(): Selection
      reads this
    {
      Selection(geantIds, minFit, maxDCA, ptAxis)
    }

    /** `Init`: the MuDst maker lookup of `InitInput` (its outcome is a
        parameter), then `InitOutput`; any failure is fatal. */
    method Init(makerFound: bool) returns (status: Status)
      requires Valid()
      modifies this`shape, this`cells, this`fills
      ensures Valid()
      ensures status == StOk <==> makerFound && CheckAxes()
      ensures status == StOk || status == StFatal
      ensures status == StOk ==> Initialized() && fills == []
      ensures status != StOk ==> shape == old(shape) && cells == old(cells) && fills == old(fills)
    {
      if !makerFound {
        return StFatal;
      }
      status := InitOutput();
      if status != StOk {
        return StFatal;
      }
    }

    /** `InitOutput`: fatal, with nothing allocated, when the axes are not valid;
        otherwise every histogram is booked afresh (so the log of fills starts
        empty) and the four nested loops allocate every cell of the
        lumi x cent x vz x pt grid. */
    method InitOutput() returns (status: Status)
      requires Valid()
      modifies this`shape, this`cells, this`fills
      ensures Valid()
      ensures status == StOk <==> CheckAxes()
      ensures status == StOk || status == StFatal
      ensures status == StOk ==> Initialized() && fills == []
      ensures status != StOk ==> shape == old(shape) && cells == old(cells) && fills == old(fills)
    {
      if !CheckAxes() {
        return StFatal;
      }
      fills := [];
      shape := AxesShape(lumiAxis, centAxis, vzAxis, ptAxis);
      cells := {};
      var l := 0;
      while l < shape.nLumi
        invariant 0 <= l <= shape.nLumi
        invariant shape == AxesShape(lumiAxis, centAxis, vzAxis, ptAxis) && fills == []
        invariant forall x :: x in cells <==> InShape(shape, x) && x.lumi < l
      {
        AllocateLumi(l);
        l := l + 1;
      }
      return StOk;
    }

    /** The centrality loop for one luminosity bin. */
    method AllocateLumi(l: nat)
      requires l < shape.nLumi
      modifies this`cells
      ensures forall x :: x in cells <==> x in old(cells) || (InShape(shape, x) && x.lumi == l)
    {
      var c := 0;
      while c < shape.nCent
        invariant 0 <= c <= shape.nCent
        invariant forall x :: x in cells <==> x in old(cells) || (InShape(shape, x) && x.lumi == l && x.cent < c)
      {
        AllocateCent(l, c);
        c := c + 1;
      }
    }

    /** The vertex-z loop for one (lumi, cent) pair. */
    method AllocateCent(l: nat, c: nat)
      requires l < shape.nLumi && c < shape.nCent
      modifies this`cells
      ensures forall x :: x in cells <==> x in old(cells) || (InShape(shape, x) && x.lumi == l && x.cent == c)
    {
      var v := 0;
      while v < shape.nVz
        invariant 0 <= v <= shape.nVz
        invariant forall x :: x in cells <==> x in old(cells) || (InShape(shape, x) && x.lumi == l && x.cent == c && x.vz < v)
      {
        AllocateRow(l, c, v);
        v := v + 1;
      }
    }

    /** The pt loop for one (lumi, cent, vz) triple: the nine histograms of
        each cell are created together. */
    method AllocateRow(l: nat, c: nat, v: nat)
      requires l < shape.nLumi && c < shape.nCent && v < shape.nVz
      modifies this`cells
      ensures forall x :: x in cells <==> x in old(cells) || InRow(shape, x, l, c, v)
    {
      var p := 0;
      while p < shape.nPt
        invariant 0 <= p <= shape.nPt
        invariant forall x :: x in cells <==> x in old(cells) || (InRow(shape, x, l, c, v) && x.pt < p)
      {
        cells := cells + {Cell(l, c, v, p)};
        p := p + 1;
      }
    }

    /** `Make`, with the centrality definition's `centrality16` and the inverse
        Jacobian weight as parameters. The event test is the corrected one: the
        centrality must also be a row of the grid. */
    method Make(e: MuEvent, tracks: seq<MuTrack>, centrality16: (int, nat, real, real) -> int,
                jacobian: (real, real) -> real) returns (status: Status)
      requires Valid() && Initialized()
      modifies this`runIds, this`eventIds, this`fills, aligner
      ensures Valid() && Initialized()
      ensures var r := Align(aligner.chain, old(aligner.current), old(aligner.loaded), MuIdentity(e));
        aligner.current == r.cursor && (r.found ==> TruthIdentity(aligner.loaded) == MuIdentity(e))
      ensures var o := MakeOutcome(
          Align(aligner.chain, old(aligner.current), old(aligner.loaded), MuIdentity(e)).found,
          Cuts(), EventBinsOf(lumiAxis, vzAxis, centrality16, e, aligner.loaded), centAxis.nBins,
          jacobian, e, aligner.loaded, tracks);
        status == o.status && fills == old(fills) + o.fills &&
        runIds == old(runIds) + (if o.kept then [e.runId] else []) &&
        eventIds == old(eventIds) + (if o.kept then [e.eventId] else [])
    {
      var found := aligner.LoadEvent(MuIdentity(e));
      if !found {
        return StErr;
      }
      var truth := aligner.loaded;
      var zdcBin := Axis.FindBin(lumiAxis, e.zdcRate);
      var centBin := centrality16(e.runId, e.refMult, e.zdcRate, truth.vertexZ);
      var vzBin := Axis.FindBin(vzAxis, truth.vertexZ);
      if zdcBin < 0 || centBin < 0 || vzBin < 0 || centBin >= centAxis.nBins {
        return StOk;
      }
      KeepEvent(EventBins(zdcBin, centBin, vzBin), e, truth, tracks, centrality16, jacobian);
      return StOk;
    }

    /** A kept event: its ids are recorded and its fills logged; the grid
        fills land in allocated cells. */
    method KeepEvent(b: EventBins, e: MuEvent, truth: MiniMcEvent, tracks: seq<MuTrack>,
                     centrality16: (int, nat, real, real) -> int, jacobian: (real, real) -> real)
      requires Valid() && Initialized()
      requires b == EventBinsOf(lumiAxis, vzAxis, centrality16, e, truth) && Kept(b, centAxis.nBins)
      modifies this`runIds, this`eventIds, this`fills
      ensures Valid() && Initialized()
      ensures runIds == old(runIds) + [e.runId] && eventIds == old(eventIds) + [e.eventId]
      ensures fills == old(fills) + EventFills(Cuts(), b, jacobian, e, truth, tracks)
    {
      runIds := runIds + [e.runId];
      eventIds := eventIds + [e.eventId];
      ProcessEvent(b, e, truth, tracks, jacobian);
      EventCellsInShape(Cuts(), lumiAxis, centAxis, vzAxis, centrality16, jacobian, e, truth, tracks);
      CellsAllocatedAppend(old(fills), EventFills(Cuts(), b, jacobian, e, truth, tracks));
    }

    /** Grid fills in the shape of an initialized grid are in allocated cells. */
    lemma CellsAllocatedAppend(a: seq<Fill>, d: seq<Fill>)
      requires Initialized() && CellsAllocated(a, cells) && CellsInShape(d, shape)
      ensures CellsAllocated(a + d, cells)
    {
      forall i | 0 <= i < |a + d| && (a + d)[i].CellFill?
        ensures (a + d)[i].cell in cells
      {
        if i >= |a| {
          assert (a + d)[i] == d[i - |a|];
        }
      }
    }

    /** The three loops and the event-level fills of a kept event. */
    method ProcessEvent(b: EventBins, e: MuEvent, truth: MiniMcEvent, tracks: seq<MuTrack>,
                        jacobian: (real, real) -> real)
      modifies this`fills
      ensures fills == old(fills) + EventFills(Cuts(), b, jacobian, e, truth, tracks)
    {
      var countMc := CountTruth(truth.mcTracks);
      var countPair := FillPairs(b, truth.pairs, jacobian);
      FillTracks(b, tracks, jacobian);
      fills := fills + SummaryFills(e, truth, tracks, countMc);
      SeqAssoc(old(fills), PairsFills(Cuts(), b, jacobian, truth.pairs) + TracksFills(Cuts(), b, jacobian, tracks),
               SummaryFills(e, truth, tracks, countMc));
      SeqAssoc(old(fills), PairsFills(Cuts(), b, jacobian, truth.pairs), TracksFills(Cuts(), b, jacobian, tracks));
    }

    /** The truth-track loop: it only counts. */
    method CountTruth(ts: seq<McTrack>) returns (count: nat)
      ensures count == CountMc(geantIds, ts)
    {
      count := 0;
      var i := 0;
      while i < |ts|
        invariant 0 <= i <= |ts|
        invariant count == CountMc(geantIds, ts[..i])
      {
        CountMcSnoc(geantIds, ts, i);
        var t := ts[i];
        if (|geantIds| == 0 || t.geantId in geantIds) && t.parentGeantId == 0 {
          count := count + 1;
        }
        i := i + 1;
      }
      assert ts[..|ts|] == ts;
    }

    /** The matched-pair loop. */
    method FillPairs(b: EventBins, ps: seq<McPair>, jacobian: (real, real) -> real) returns (count: nat)
      modifies this`fills
      ensures fills == old(fills) + PairsFills(Cuts(), b, jacobian, ps)
      ensures count == CountPairs(Cuts(), ps)
    {
      ghost var sel := Cuts();
      count := 0;
      var i := 0;
      while i < |ps|
        invariant 0 <= i <= |ps|
        invariant sel == Cuts()
        invariant fills == old(fills) + PairsFills(sel, b, jacobian, ps[..i])
        invariant count == CountPairs(sel, ps[..i])
      {
        PairsFillsSnoc(sel, b, jacobian, ps, i);
        var counted := FillPair(b, ps[i], jacobian);
        if counted {
          count := count + 1;
        }
        SeqAssoc(old(fills), PairsFills(sel, b, jacobian, ps[..i]), PairFills(sel, b, jacobian, ps[i]));
        i := i + 1;
      }
      assert ps[..|ps|] == ps;
    }

    /** One pass of the matched-pair loop body. */
    method FillPair(b: EventBins, p: McPair, jacobian: (real, real) -> real) returns (counted: bool)
      modifies this`fills
      ensures fills == old(fills) + PairFills(Cuts(), b, jacobian, p)
      ensures counted == PairReachesGrid(Cuts(), p)
    {
      if |geantIds| > 0 && p.geantId !in geantIds {
        return false;
      }
      if p.parentGeantId != 0 {
        return false;
      }
      if p.dcaGl > maxDCA || p.fitPts < minFit {
        return false;
      }
      if Abs(p.eta) > 1.0 {
        return false;
      }
      var ptBin := Axis.FindBin(ptAxis, p.pt);
      if ptBin < 0 {
        return false;
      }
      fills := fills + PairBlock(b, jacobian, p, Cell(b.zdc, b.cent, b.vz, ptBin));
      return true;
    }

    /** The primary-track loop. */
    method FillTracks(b: EventBins, ts: seq<MuTrack>, jacobian: (real, real) -> real)
      modifies this`fills
      ensures fills == old(fills) + TracksFills(Cuts(), b, jacobian, ts)
    {
      ghost var sel := Cuts();
      var i := 0;
      while i < |ts|
        invariant 0 <= i <= |ts|
        invariant sel == Cuts()
        invariant fills == old(fills) + TracksFills(sel, b, jacobian, ts[..i])
      {
        TracksFillsSnoc(sel, b, jacobian, ts, i);
        FillTrack(b, ts[i], jacobian);
        SeqAssoc(old(fills), TracksFills(sel, b, jacobian, ts[..i]), TrackFills(sel, b, jacobian, ts[i]));
        i := i + 1;
      }
      assert ts[..|ts|] == ts;
    }

    /** One pass of the primary-track loop body. */
    method FillTrack(b: EventBins, t: MuTrack, jacobian: (real, real) -> real)
      modifies this`fills
      ensures fills == old(fills) + TrackFills(Cuts(), b, jacobian, t)
    {
      if t.flag < 0 || t.dca > maxDCA || t.nHitsFit < minFit {
        return;
      }
      if Abs(t.eta) > 1.0 {
        return;
      }
      var ptBin := Axis.FindBin(ptAxis, t.pt);
      if ptBin < 0 {
        return;
      }
      var cell := Cell(b.zdc, b.cent, b.vz, ptBin);
      fills := fills + TrackBlock(b, jacobian, t, cell);
      if Abs(t.nSigmaPion) < 2.0 {
        fills := fills + PionBlock(b, jacobian, t, cell);
      }
    }
  }
}
