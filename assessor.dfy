/** `StEfficiencyAssessor`, the current maker: per event it aligns the truth chain
    with the reconstructed event, applies the event cuts and the centrality and
    vertex gates, and then fills its histograms from three track loops (truth
    tracks, matched pairs, reconstructed primary tracks). Each histogram `Fill`
    call is recorded, in order, in an append-only log; ROOT's own binning of the
    filled values is not modelled. */
module Assessor {
  import opened Inputs
  import Axis
  import opened Alignment
  import opened EventSelection
  import opened Histograms

  /** The centrality definition `InitInput` created: none, the P18ih
      `CentralityDef`, or the P16id `StRefMultCorr`. */
  datatype Provider = NoProvider | P18ih | P16id

  /** The track-cut settings `minFit_`, `minFitFrac_` and `maxDCA_`. */
  datatype TrackCuts = TrackCuts(minFit: int, minFitFrac: real, maxDCA: real)

  /** The axes `SetDefaultAxes` installs. */
  const DefaultLumiAxis := Axis.AxisDef(3, 0.0, 100000.0)
  const DefaultCentAxis := Axis.AxisDef(9, -0.5, 8.5)
  const DefaultVzAxis := Axis.AxisDef(5, -30.0, 30.0)
  const DefaultPtAxis := Axis.AxisDef(20, 0.0, 5.0)
  const DefaultEtaAxis := Axis.AxisDef(5, -1.0, 1.0)
  const DefaultPhiAxis := Axis.AxisDef(6, -Pi, Pi)

  /** The default axes pass `CheckAxes`. */
  lemma DefaultAxesValid()
    ensures Axis.AxesValid(DefaultLumiAxis, DefaultCentAxis, DefaultVzAxis,
                      DefaultPtAxis, DefaultEtaAxis, DefaultPhiAxis)
  {
    Axis.ValidIff(DefaultLumiAxis);
    Axis.ValidIff(DefaultCentAxis);
    Axis.ValidIff(DefaultPtAxis);
    Axis.ValidIff(DefaultEtaAxis);
    Axis.ValidIff(DefaultPhiAxis);
  }

  /** `TString::Contains`: sub occurs in s. */
  predicate Contains(s: string, sub: string)
  {
    exists i :: 0 <= i <= |s| && OccursAt(s, sub, i)
  }

  predicate OccursAt(s: string, sub: string, i: int)
  {
    0 <= i && i + |sub| <= |s| && s[i..i + |sub|] == sub
  }

  /** The library tags `InitInput` looks for in the MuDst file name. */
  predicate IsP18ihLibrary(file: string)
  {
    Contains(file, "SL17d") || Contains(file, "SL18f") || Contains(file, "SL18h")
  }

  predicate IsP16idLibrary(file: string)
  {
    Contains(file, "SL16d")
  }

  /** The fills of one selected truth track. */
  function McTrackFills(c: real, t: McTrack): seq<Fill>
  {
    [Fill2(McTracks, c, t.pt), Fill3(McEta, c, t.pt, t.eta), Fill3(McPhi, c, t.pt, t.phi)]
  }

  /** The fills of the truth-track loop. */
  function McFills(ids: set<int>, c: real, ts: seq<McTrack>): seq<Fill>
    decreases |ts|
  {
    if |ts| == 0 then []
    else
      var t := ts[|ts| - 1];
      McFills(ids, c, ts[..|ts| - 1]) +
      (if GeantSelected(ids, t.geantId, t.parentGeantId) then McTrackFills(c, t) else [])
  }

  /** The fit fraction of a matched pair, with +1 on both sides. */
  function PairFitFrac(p: McPair): real
  {
    ((p.fitPts + 1) as real) / ((p.nPossiblePts + 1) as real)
  }

  /** The fills every selected pair makes before any track cut. */
  function PairPreFills(c: real, p: McPair): seq<Fill>
  {
    [Fill3(RecoNhit, c, p.pt, (p.fitPts + 1) as real),
     Fill3(RecoDca, c, p.pt, p.dcaGl),
     Fill3(RecoEta, c, p.pt, p.eta),
     Fill3(RecoPhi, c, p.pt, p.phi),
     Fill3(RecoNhitPoss, c, p.pt, (p.nPossiblePts + 1) as real),
     Fill3(RecoFitFrac, c, p.pt, PairFitFrac(p))]
  }

  /** The DCA fill made after the eta and fit-fraction cuts. */
  function PairScaleFill(c: real, p: McPair): Fill
  {
    Fill3(RecoDcaScale, c, p.pt, p.dcaGl)
  }

  /** The fills of a pair that survives every cut. */
  function PairPostFills(c: real, p: McPair): seq<Fill>
  {
    [Fill2(RecoTracks, c, p.pt),
     Fill3(RecoCutNhit, c, p.pt, (p.fitPts + 1) as real),
     Fill3(RecoCutDca, c, p.pt, p.dcaGl),
     Fill3(RecoCutEta, c, p.pt, p.eta),
     Fill3(RecoCutPhi, c, p.pt, p.phi),
     Fill3(RecoCutNhitPoss, c, p.pt, (p.nPossiblePts + 1) as real),
     Fill3(RecoCutFitFrac, c, p.pt, PairFitFrac(p)),
     Fill3(DcaRecoCutExt, c, p.pt, p.dcaGl)]
  }

  /** A pair passes the eta and fit-fraction cuts. */
  predicate PairReachesScale(cuts: TrackCuts, p: McPair)
  {
    !(Abs(p.eta) > 1.0) && !(PairFitFrac(p) < cuts.minFitFrac)
  }

  /** A pair passes the DCA and fit-point cut. */
  predicate PairPassesDcaFit(cuts: TrackCuts, p: McPair)
  {
    !(p.dcaGl > cuts.maxDCA || p.fitPts < cuts.minFit)
  }

  /** A pair is counted in `count_pair`. */
  predicate PairCounted(ids: set<int>, cuts: TrackCuts, p: McPair)
  {
    GeantSelected(ids, p.geantId, p.parentGeantId) && PairReachesScale(cuts, p) && PairPassesDcaFit(cuts, p)
  }

  /** The fills of one matched pair, in the order of the loop body: the
      pre-cut fills for a selected pair, then what the cuts let through. */
  function PairFills(ids: set<int>, cuts: TrackCuts, c: real, p: McPair): seq<Fill>
  {
    if !GeantSelected(ids, p.geantId, p.parentGeantId) then []
    else PairPreFills(c, p) + PairFillsAfterPre(cuts, c, p)
  }

  /** After the pre-cut fills: the eta and fit-fraction cuts, then the scale fill. */
  function PairFillsAfterPre(cuts: TrackCuts, c: real, p: McPair): seq<Fill>
  {
    if Abs(p.eta) > 1.0 then []
    else if PairFitFrac(p) < cuts.minFitFrac then []
    else [PairScaleFill(c, p)] + PairFillsAfterScale(cuts, c, p)
  }

  /** After the scale fill: the DCA and fit-point cut, then the post-cut fills. */
  function PairFillsAfterScale(cuts: TrackCuts, c: real, p: McPair): seq<Fill>
  {
    if p.dcaGl > cuts.maxDCA || p.fitPts < cuts.minFit then []
    else PairPostFills(c, p)
  }

  /** The fills of the matched-pair loop. */
  function PairsFills(ids: set<int>, cuts: TrackCuts, c: real, ps: seq<McPair>): seq<Fill>
    decreases |ps|
  {
    if |ps| == 0 then []
    else PairsFills(ids, cuts, c, ps[..|ps| - 1]) + PairFills(ids, cuts, c, ps[|ps| - 1])
  }

  lemma PairsFillsSnoc(ids: set<int>, cuts: TrackCuts, c: real, ps: seq<McPair>, i: nat)
    requires i < |ps|
    ensures PairsFills(ids, cuts, c, ps[..i + 1]) == PairsFills(ids, cuts, c, ps[..i]) + PairFills(ids, cuts, c, ps[i])
    ensures CountPairs(ids, cuts, ps[..i + 1]) == CountPairs(ids, cuts, ps[..i]) + (if PairCounted(ids, cuts, ps[i]) then 1 else 0)
  {
    assert ps[..i + 1][..i] == ps[..i];
  }

  /** `count_pair`. */
  function CountPairs(ids: set<int>, cuts: TrackCuts, ps: seq<McPair>): (r: nat)
    decreases |ps|
    ensures r <= |ps|
  {
    if |ps| == 0 then 0
    else CountPairs(ids, cuts, ps[..|ps| - 1]) + (if PairCounted(ids, cuts, ps[|ps| - 1]) then 1 else 0)
  }

  /** The fit fraction of a reconstructed track: no +1 in the numerator. */
  function TrackFitFrac(t: MuTrack): real
  {
    (t.nHitsFit as real) / ((t.nHitsPossTpc + 1) as real)
  }

  /** A primary track passes the flag, fit-point, fit-fraction and eta cuts. */
  predicate DataReachesScale(cuts: TrackCuts, t: MuTrack)
  {
    t.flag >= 0 && t.nHitsFit >= cuts.minFit && TrackFitFrac(t) >= cuts.minFitFrac && Abs(t.eta) <= 1.0
  }

  /** A primary track passes every cut. */
  predicate DataAccepted(cuts: TrackCuts, t: MuTrack)
  {
    DataReachesScale(cuts, t) && t.dca <= cuts.maxDCA
  }

  function DataScaleFill(c: real, t: MuTrack): Fill
  {
    Fill3(DataDcaScale, c, t.pt, t.dca)
  }

  function DataPostFills(c: real, t: MuTrack): seq<Fill>
  {
    [Fill3(DataNhit, c, t.pt, t.nHitsFit as real),
     Fill3(DataDca, c, t.pt, t.dca),
     Fill3(DataEta, c, t.pt, t.eta),
     Fill3(DataPhi, c, t.pt, t.phi),
     Fill3(DataNhitPoss, c, t.pt, (t.nHitsPossTpc + 1) as real),
     Fill3(DataFitFrac, c, t.pt, TrackFitFrac(t)),
     Fill3(DcaDataCutExt, c, t.pt, t.dca)]
  }

  /** The fills of one primary track in the order of the loop body: nothing for a
      track the flag, fit-point, fit-fraction or eta cut rejects, else the scale
      fill and then what the DCA cut lets through. */
  function DataTrackFills(cuts: TrackCuts, c: real, t: MuTrack): seq<Fill>
  {
    if !DataReachesScale(cuts, t) then []
    else [DataScaleFill(c, t)] + DataFillsAfterScale(cuts, c, t)
  }

  /** After the scale fill: the DCA cut, then the post-cut fills. */
  function DataFillsAfterScale(cuts: TrackCuts, c: real, t: MuTrack): seq<Fill>
  {
    if t.dca > cuts.maxDCA then [] else DataPostFills(c, t)
  }

  /** The fills of the primary-track loop. */
  function DataFills(cuts: TrackCuts, c: real, ts: seq<MuTrack>): seq<Fill>
    decreases |ts|
  {
    if |ts| == 0 then []
    else DataFills(cuts, c, ts[..|ts| - 1]) + DataTrackFills(cuts, c, ts[|ts| - 1])
  }

  lemma DataFillsSnoc(cuts: TrackCuts, c: real, ts: seq<MuTrack>, i: nat)
    requires i < |ts|
    ensures DataFills(cuts, c, ts[..i + 1]) == DataFills(cuts, c, ts[..i]) + DataTrackFills(cuts, c, ts[i])
  {
    assert ts[..i + 1][..i] == ts[..i];
  }

  /** The event-level fills. */
  function EventHeadFills(c: real, e: MuEvent): seq<Fill>
  {
    [Fill1(VzHist, e.vz), Fill1(RefMultHist, e.refMult as real),
     Fill1(GRefMultHist, e.grefMult as real), Fill1(CentralityHist, c)]
  }

  /** Every fill of an event that passed all event-level gates. */
  function EventFills(ids: set<int>, cuts: TrackCuts, cent: int, e: MuEvent,
                      truth: MiniMcEvent, tracks: seq<MuTrack>): seq<Fill>
  {
    var c := cent as real;
    EventHeadFills(c, e) + McFills(ids, c, truth.mcTracks) + PairsFills(ids, cuts, c, truth.pairs) +
    [Fill3(McRecoTracks, c, CountMc(ids, truth.mcTracks) as real, CountPairs(ids, cuts, truth.pairs) as real)] +
    DataFills(cuts, c, tracks)
  }

  /** The centrality the provider reports. The P18ih definition is given the run
      id, refMult, the ZDC coincidence rate and the TRUTH event's vertex z; the
      P16id `StRefMultCorr` is given the run id, gRefMult, the reconstructed
      vertex z and the ZDC rate. The providers themselves are parameters. */
  function ProviderCentrality(p: Provider, e: MuEvent, truth: MiniMcEvent,
                              centrality9: (int, nat, real, real) -> int,
                              centralityBin9: (int, nat, real, real) -> int): Option<int>
  {
    match p
    case NoProvider => None
    case P18ih => Some(centrality9(e.runId, e.refMult, e.zdcRate, truth.vertexZ))
    case P16id => Some(centralityBin9(e.runId, e.grefMult, e.vz, e.zdcRate))
  }

  /** The centrality and vertex gates. */
  predicate EventInAcceptance(cent: int, e: MuEvent)
  {
    !(cent < 0 || cent > 8) && !(Abs(e.vz) > 30.0)
  }

  /** The return code of `Make` and the fills it makes. */
  datatype Outcome = Outcome(status: Status, fills: seq<Fill>)

  /** `Make` once the truth search, the event cuts and the provider have spoken. */
  function MakeOutcome(found: bool, accepted: bool, cent: Option<int>, ids: set<int>, cuts: TrackCuts,
                       e: MuEvent, truth: MiniMcEvent, tracks: seq<MuTrack>): Outcome
  {
    if !found then Outcome(StErr, [])
    else if !accepted then Outcome(StOk, [])
    else if cent.None? then Outcome(StFatal, [])
    else if !EventInAcceptance(cent.value, e) then Outcome(StOk, [])
    else Outcome(StOk, EventFills(ids, cuts, cent.value, e, truth, tracks))
  }

  /** Only an event that was found, accepted, given a centrality and inside the
      centrality and vertex gates fills anything; the status is an error exactly
      when the truth event is missing, and fatal exactly when no provider exists. */
  lemma MakeGates(found: bool, accepted: bool, cent: Option<int>, ids: set<int>, cuts: TrackCuts,
                  e: MuEvent, truth: MiniMcEvent, tracks: seq<MuTrack>)
    ensures var o := MakeOutcome(found, accepted, cent, ids, cuts, e, truth, tracks);
      (|o.fills| > 0 <==> found && accepted && cent.Some? && EventInAcceptance(cent.value, e)) &&
      (o.status == StErr <==> !found) &&
      (o.status == StFatal <==> found && accepted && cent.None?)
  {
  }

  /** The fills of one truth track: one `mc_tracks_` fill iff it is selected, and never the summary. */
  lemma McTrackCounts(ids: set<int>, c: real, t: McTrack)
    ensures var tail := if GeantSelected(ids, t.geantId, t.parentGeantId) then McTrackFills(c, t) else [];
      Count(tail, McTracks) == (if GeantSelected(ids, t.geantId, t.parentGeantId) then 1 else 0) &&
      Count(tail, McRecoTracks) == 0
  {
    var tail := if GeantSelected(ids, t.geantId, t.parentGeantId) then McTrackFills(c, t) else [];
    if GeantSelected(ids, t.geantId, t.parentGeantId) {
      CountFirst(tail, McTracks);
    } else {
      CountNone(tail, McTracks);
    }
    CountNone(tail, McRecoTracks);
  }

  lemma {:induction false} McFillsCount(ids: set<int>, c: real, ts: seq<McTrack>)
    decreases |ts|
    ensures Count(McFills(ids, c, ts), McTracks) == CountMc(ids, ts)
    ensures Count(McFills(ids, c, ts), McRecoTracks) == 0
  {
    if |ts| == 0 {
      CountNone([], McTracks);
      CountNone([], McRecoTracks);
    } else {
      var t := ts[|ts| - 1];
      var front := McFills(ids, c, ts[..|ts| - 1]);
      var tail := if GeantSelected(ids, t.geantId, t.parentGeantId) then McTrackFills(c, t) else [];
      McFillsCount(ids, c, ts[..|ts| - 1]);
      McTrackCounts(ids, c, t);
      assert McFills(ids, c, ts) == front + tail;
      CountAppend(front, tail, McTracks);
      CountAppend(front, tail, McRecoTracks);
    }
  }

  lemma PairBlockHists(c: real, p: McPair)
    ensures Hists(PairPreFills(c, p)) == PairPreHists
    ensures Hists([PairScaleFill(c, p)]) == [RecoDcaScale]
    ensures Hists(PairPostFills(c, p)) == PairPostHists
  {
  }

  lemma PairAfterScaleCounts(cuts: TrackCuts, c: real, p: McPair)
    ensures Count(PairFillsAfterScale(cuts, c, p), RecoTracks) == (if PairPassesDcaFit(cuts, p) then 1 else 0)
    ensures Count(PairFillsAfterScale(cuts, c, p), RecoNhit) == 0
    ensures Count(PairFillsAfterScale(cuts, c, p), RecoDcaScale) == 0
    ensures Count(PairFillsAfterScale(cuts, c, p), McRecoTracks) == 0
  {
    PairBlockHists(c, p);
    PairPostHistsCounts();
    assert Hists([]) == [];
  }

  lemma PairAfterPreCounts(cuts: TrackCuts, c: real, p: McPair)
    ensures Count(PairFillsAfterPre(cuts, c, p), RecoDcaScale) == (if PairReachesScale(cuts, p) then 1 else 0)
    ensures Count(PairFillsAfterPre(cuts, c, p), RecoTracks) ==
      (if PairReachesScale(cuts, p) && PairPassesDcaFit(cuts, p) then 1 else 0)
    ensures Count(PairFillsAfterPre(cuts, c, p), RecoNhit) == 0
    ensures Count(PairFillsAfterPre(cuts, c, p), McRecoTracks) == 0
  {
    if PairReachesScale(cuts, p) {
      var head := [PairScaleFill(c, p)];
      var tail := PairFillsAfterScale(cuts, c, p);
      PairAfterScaleCounts(cuts, c, p);
      PairBlockHists(c, p);
      CountAppend(head, tail, RecoDcaScale);
      CountAppend(head, tail, RecoTracks);
      CountAppend(head, tail, RecoNhit);
      CountAppend(head, tail, McRecoTracks);
    } else {
      assert Hists([]) == [];
    }
  }

  /** Per pair: the pre-cut fills happen iff the pair is selected, the scale
      fill iff it also passes the eta and fit-fraction cuts, and the post-cut
      fills iff it is counted; `mc_reco_tracks_` is never filled. */
  lemma PairStages(ids: set<int>, cuts: TrackCuts, c: real, p: McPair)
    ensures Count(PairFills(ids, cuts, c, p), RecoNhit) ==
      (if GeantSelected(ids, p.geantId, p.parentGeantId) then 1 else 0)
    ensures Count(PairFills(ids, cuts, c, p), RecoDcaScale) ==
      (if GeantSelected(ids, p.geantId, p.parentGeantId) && PairReachesScale(cuts, p) then 1 else 0)
    ensures Count(PairFills(ids, cuts, c, p), RecoTracks) == (if PairCounted(ids, cuts, p) then 1 else 0)
    ensures Count(PairFills(ids, cuts, c, p), McRecoTracks) == 0
  {
    if GeantSelected(ids, p.geantId, p.parentGeantId) {
      var pre := PairPreFills(c, p);
      var rest := PairFillsAfterPre(cuts, c, p);
      PairAfterPreCounts(cuts, c, p);
      PairBlockHists(c, p);
      CountAppend(pre, rest, RecoNhit);
      CountAppend(pre, rest, RecoDcaScale);
      CountAppend(pre, rest, RecoTracks);
      CountAppend(pre, rest, McRecoTracks);
    } else {
      assert Hists([]) == [];
    }
  }

  /** Within one counted pair the pre-cut fills come first, then the scale fill,
      then the post-cut fills. */
  lemma PairOrder(ids: set<int>, cuts: TrackCuts, c: real, p: McPair)
    requires PairCounted(ids, cuts, p)
    ensures |PairFills(ids, cuts, c, p)| == 15
    ensures PairFills(ids, cuts, c, p)[..6] == PairPreFills(c, p)
    ensures PairFills(ids, cuts, c, p)[6] == PairScaleFill(c, p)
    ensures PairFills(ids, cuts, c, p)[7..] == PairPostFills(c, p)
  {
  }

  /** The pair loop fills `reco_tracks_` once per pair it counts, and never
      fills `mc_reco_tracks_`. */
  lemma {:induction false} PairsFillsCount(ids: set<int>, cuts: TrackCuts, c: real, ps: seq<McPair>)
    decreases |ps|
    ensures Count(PairsFills(ids, cuts, c, ps), RecoTracks) == CountPairs(ids, cuts, ps)
    ensures Count(PairsFills(ids, cuts, c, ps), McRecoTracks) == 0
  {
    if |ps| == 0 {
      assert Hists([]) == [];
    } else {
      PairsFillsCount(ids, cuts, c, ps[..|ps| - 1]);
      PairStages(ids, cuts, c, ps[|ps| - 1]);
      CountAppend(PairsFills(ids, cuts, c, ps[..|ps| - 1]), PairFills(ids, cuts, c, ps[|ps| - 1]), RecoTracks);
      CountAppend(PairsFills(ids, cuts, c, ps[..|ps| - 1]), PairFills(ids, cuts, c, ps[|ps| - 1]), McRecoTracks);
    }
  }

  /** The data scale block and post-cut block fill the histograms the source names (StEfficiencyAssessor.cxx:216-227), in that order. */
  lemma DataBlockHists(c: real, t: MuTrack)
    ensures Hists([DataScaleFill(c, t)]) == [DataDcaScale]
    ensures Hists(DataPostFills(c, t)) == DataPostHists
  {
  }

  /** Per track: the scale fill happens iff the track passes the flag, fit-point,
      fit-fraction and eta cuts, the post-cut fills iff it also passes the DCA cut;
      the scale fill comes first, and `mc_reco_tracks_` is never filled. */
  lemma DataStages(cuts: TrackCuts, c: real, t: MuTrack)
    ensures Count(DataTrackFills(cuts, c, t), DataDcaScale) == (if DataReachesScale(cuts, t) then 1 else 0)
    ensures Count(DataTrackFills(cuts, c, t), DataNhit) == (if DataAccepted(cuts, t) then 1 else 0)
    ensures Count(DataTrackFills(cuts, c, t), McRecoTracks) == 0
    ensures |DataTrackFills(cuts, c, t)| > 0 ==> DataTrackFills(cuts, c, t)[0] == DataScaleFill(c, t)
  {
    DataBlockHists(c, t);
    DataPostHistsCounts();
    assert Hists([]) == [];
    if DataReachesScale(cuts, t) {
      var head := [DataScaleFill(c, t)];
      var tail := DataFillsAfterScale(cuts, c, t);
      CountAppend(head, tail, DataDcaScale);
      CountAppend(head, tail, DataNhit);
      CountAppend(head, tail, McRecoTracks);
    }
  }

  lemma {:induction false} DataFillsNoSummary(cuts: TrackCuts, c: real, ts: seq<MuTrack>)
    decreases |ts|
    ensures Count(DataFills(cuts, c, ts), McRecoTracks) == 0
  {
    if |ts| == 0 {
      CountNone([], McRecoTracks);
    } else {
      DataFillsNoSummary(cuts, c, ts[..|ts| - 1]);
      DataStages(cuts, c, ts[|ts| - 1]);
      CountAppend(DataFills(cuts, c, ts[..|ts| - 1]), DataTrackFills(cuts, c, ts[|ts| - 1]), McRecoTracks);
    }
  }

  /** Proof step of `SummaryFilledOnce`: the event-level head fills leave the summary histogram alone. */
  lemma EventHeadHists(c: real, e: MuEvent)
    ensures Count(EventHeadFills(c, e), McRecoTracks) == 0
  {
    assert Hists(EventHeadFills(c, e)) == [VzHist, RefMultHist, GRefMultHist, CentralityHist];
  }

  /** `mc_reco_tracks_` is filled exactly once per processed event, with the
      centrality, the number of `mc_tracks_` fills and the number of
      `reco_tracks_` fills of that event. */
  lemma SummaryFilledOnce(ids: set<int>, cuts: TrackCuts, cent: int, e: MuEvent,
                          truth: MiniMcEvent, tracks: seq<MuTrack>)
    ensures var fs := EventFills(ids, cuts, cent, e, truth, tracks);
      Count(fs, McRecoTracks) == 1 &&
      Fill3(McRecoTracks, cent as real,
            Count(McFills(ids, cent as real, truth.mcTracks), McTracks) as real,
            Count(PairsFills(ids, cuts, cent as real, truth.pairs), RecoTracks) as real) in fs
  {
    var c := cent as real;
    var head := EventHeadFills(c, e);
    var mc := McFills(ids, c, truth.mcTracks);
    var pairs := PairsFills(ids, cuts, c, truth.pairs);
    var summary := [Fill3(McRecoTracks, c, CountMc(ids, truth.mcTracks) as real,
                          CountPairs(ids, cuts, truth.pairs) as real)];
    var data := DataFills(cuts, c, tracks);
    McFillsCount(ids, c, truth.mcTracks);
    PairsFillsCount(ids, cuts, c, truth.pairs);
    DataFillsNoSummary(cuts, c, tracks);
    EventHeadHists(c, e);
    assert Hists(summary) == [McRecoTracks];
    CountFive(head, mc, pairs, summary, data, McRecoTracks);
    InFourth(head, mc, pairs, summary[0], data);
  }

  /** The maker: axes, track cuts, the geant-id filter, the centrality provider,
      the truth-chain aligner, the event-cut evaluator, and the log of fills. */
  class EfficiencyAssessor {
    const aligner: EventAligner
    const cuts: EventCuts
    var provider: Provider
    var lumiAxis: Axis.AxisDef
    var centAxis: Axis.AxisDef
    var vzAxis: Axis.AxisDef
    var ptAxis: Axis.AxisDef
    var etaAxis: Axis.AxisDef
    var phiAxis: Axis.AxisDef
    var minFit: int
    var minFitFrac: real
    var maxDCA: real
    var geantIds: set<int>
    var fills: seq<Fill>

    ghost predicate Valid()
      reads this, aligner, cuts
    {
      aligner.Valid() && cuts.Valid()
    }

    /** Loads the truth chain (entry 0 is read and the cursor is 0), installs the
        default axes and the default track cuts (20 fit points, fit fraction
        0.52, DCA 3 cm). The event-cut evaluator is supplied by the caller. */
    constructor (chain: seq<MiniMcEvent>, eventCuts: EventCuts)
      requires |chain| > 0
      requires eventCuts.Valid()
      ensures Valid()
      ensures fresh(aligner)
      ensures aligner.chain == chain && aligner.current == 0 && aligner.loaded == chain[0]
      ensures cuts == eventCuts
      ensures provider == NoProvider
      ensures lumiAxis == DefaultLumiAxis && centAxis == DefaultCentAxis && vzAxis == DefaultVzAxis
      ensures ptAxis == DefaultPtAxis && etaAxis == DefaultEtaAxis && phiAxis == DefaultPhiAxis
      ensures minFit == 20 && minFitFrac == 0.52 && maxDCA == 3.0
      ensures geantIds == {} && fills == []
    {
      aligner := new EventAligner(chain);
      cuts := eventCuts;
      provider := NoProvider;
      lumiAxis := DefaultLumiAxis;
      centAxis := DefaultCentAxis;
      vzAxis := DefaultVzAxis;
      ptAxis := DefaultPtAxis;
      etaAxis := DefaultEtaAxis;
      phiAxis := DefaultPhiAxis;
      minFit := 20;
      minFitFrac := 0.52;
      maxDCA := 3.0;
      geantIds := {};
      fills := [];
    }

    /** `SetDefaultAxes`. */
    method SetDefaultAxes()
      modifies this`lumiAxis, this`centAxis, this`vzAxis, this`ptAxis, this`etaAxis, this`phiAxis
      ensures lumiAxis == DefaultLumiAxis && centAxis == DefaultCentAxis && vzAxis == DefaultVzAxis
      ensures ptAxis == DefaultPtAxis && etaAxis == DefaultEtaAxis && phiAxis == DefaultPhiAxis
      ensures CheckAxes()
    {
      lumiAxis := DefaultLumiAxis;
      centAxis := DefaultCentAxis;
      vzAxis := DefaultVzAxis;
      ptAxis := DefaultPtAxis;
      etaAxis := DefaultEtaAxis;
      phiAxis := DefaultPhiAxis;
      DefaultAxesValid();
    }

    method SetLuminosityAxis(n: uint32, low: real, high: real)
      modifies this`lumiAxis
      ensures lumiAxis == Axis.AxisDef(n, low, high)
    {
      lumiAxis := Axis.AxisDef(n, low, high);
    }

    method SetCentralityAxis(n: uint32, low: real, high: real)
      modifies this`centAxis
      ensures centAxis == Axis.AxisDef(n, low, high)
    {
      centAxis := Axis.AxisDef(n, low, high);
    }

    method SetVzAxis(n: uint32, low: real, high: real)
      modifies this`vzAxis
      ensures vzAxis == Axis.AxisDef(n, low, high)
    {
      vzAxis := Axis.AxisDef(n, low, high);
    }

    method SetPtAxis(n: uint32, low: real, high: real)
      modifies this`ptAxis
      ensures ptAxis == Axis.AxisDef(n, low, high)
    {
      ptAxis := Axis.AxisDef(n, low, high);
    }

    method SetEtaAxis(n: uint32, low: real, high: real)
      modifies this`etaAxis
      ensures etaAxis == Axis.AxisDef(n, low, high)
    {
      etaAxis := Axis.AxisDef(n, low, high);
    }

    method SetPhiAxis(n: uint32, low: real, high: real)
      modifies this`phiAxis
      ensures phiAxis == Axis.AxisDef(n, low, high)
    {
      phiAxis := Axis.AxisDef(n, low, high);
    }

    /** `CheckAxes`. */
    predicate CheckAxes()
      reads this
    {
      Axis.AxesValid(lumiAxis, centAxis, vzAxis, ptAxis, etaAxis, phiAxis)
    }

    /** `SetDCAMax`. */
    method SetDCAMax(dca: real)
      modifies this`maxDCA
      ensures DCAMax() == dca
    {
      maxDCA := dca;
    }

    function DCAMax(): real
      reads this
    {
      maxDCA
    }

    /** `SetMinFitPoints`: the `unsigned` argument is stored in an `int`. */
    method SetMinFitPoints(fit: uint32)
      modifies this`minFit
      ensures minFit == ToInt32(fit)
      ensures MinFitPoints() == fit
    {
      minFit := ToInt32(fit);
    }

    /** `MinFitPoints`: the stored `int` read back as `unsigned`. */
    function MinFitPoints(): uint32
      reads this
    {
      ToUInt32(minFit)
    }

    method SetMinFitFrac(frac: real)
      modifies this`minFitFrac
      ensures MinFitFrac() == frac
    {
      minFitFrac := frac;
    }

    function MinFitFrac(): real
      reads this
    {
      minFitFrac
    }

    /** `AddGeantId`: the filter set only grows, by exactly the id. */
    method AddGeantId(id: int)
      modifies this`geantIds
      ensures geantIds == old(geantIds) + {id}
      ensures old(geantIds) <= geantIds && id in geantIds
    {
      geantIds := geantIds + {id};
    }

    function GeantIds(): set<int>
      reads this
    {
      geantIds
    }

    function Cuts(): TrackCuts
      reads this
    {
      TrackCuts(minFit, minFitFrac, maxDCA)
    }

    /** `InitInput`, given the MuDst file name (None when there is no MuDst
        maker): the library tag in the name chooses the centrality provider. */
    method InitInput(file: Option<string>) returns (status: Status)
      modifies this`provider
      ensures file.None? ==> status == StFatal && provider == old(provider)
      ensures file.Some? && IsP18ihLibrary(file.value) ==> status == StOk && provider == P18ih
      ensures file.Some? && !IsP18ihLibrary(file.value) && IsP16idLibrary(file.value) ==>
        status == StOk && provider == P16id
      ensures file.Some? && !IsP18ihLibrary(file.value) && !IsP16idLibrary(file.value) ==>
        status == StFatal && provider == old(provider)
      ensures status == StOk <==>
        (provider != NoProvider && file.Some? && (IsP18ihLibrary(file.value) || IsP16idLibrary(file.value)))
    {
      if file.None? {
        return StFatal;
      }
      if IsP18ihLibrary(file.value) {
        provider := P18ih;
      } else if IsP16idLibrary(file.value) {
        provider := P16id;
      } else {
        return StFatal;
      }
      return StOk;
    }

    /** `InitOutput`: fatal when the axes are not valid; otherwise every histogram
        is booked afresh, so the log of fills starts empty (binning and titles
        are not modelled). */
    method InitOutput() returns (status: Status)
      modifies this`fills
      ensures status == StOk <==> Axis.AxesValid(lumiAxis, centAxis, vzAxis, ptAxis, etaAxis, phiAxis)
      ensures status == StOk || status == StFatal
      ensures fills == if status == StOk then [] else old(fills)
    {
      if !CheckAxes() {
        return StFatal;
      }
      fills := [];
      return StOk;
    }

    /** `Init`: `InitInput`, then `InitOutput`; any failure is fatal. */
    method Init(file: Option<string>) returns (status: Status)
      modifies this`provider, this`fills
      ensures status == StOk <==>
        (file.Some? && (IsP18ihLibrary(file.value) || IsP16idLibrary(file.value)) &&
         Axis.AxesValid(lumiAxis, centAxis, vzAxis, ptAxis, etaAxis, phiAxis))
      ensures status == StOk || status == StFatal
      ensures fills == if status == StOk then [] else old(fills)
    {
      var input := InitInput(file);
      if input != StOk {
        return StFatal;
      }
      var output := InitOutput();
      if output != StOk {
        return StFatal;
      }
      return StOk;
    }

    /** The truth-track loop of `Make`. */
    method FillMc(c: real, ts: seq<McTrack>) returns (count: nat)
      modifies this`fills
      ensures fills == old(fills) + McFills(geantIds, c, ts)
      ensures count == CountMc(geantIds, ts)
    {
      count := 0;
      var i := 0;
      while i < |ts|
        invariant 0 <= i <= |ts|
        invariant fills == old(fills) + McFills(geantIds, c, ts[..i])
        invariant count == CountMc(geantIds, ts[..i])
      {
        var t := ts[i];
        assert ts[..i + 1][..i] == ts[..i];
        if (|geantIds| == 0 || t.geantId in geantIds) && t.parentGeantId == 0 {
          count := count + 1;
          fills := fills + [Fill2(McTracks, c, t.pt)];
          fills := fills + [Fill3(McEta, c, t.pt, t.eta)];
          fills := fills + [Fill3(McPhi, c, t.pt, t.phi)];
        }
        i := i + 1;
      }
      assert ts[..|ts|] == ts;
    }

    /** The matched-pair loop of `Make`. */
    method FillPairs(c: real, ps: seq<McPair>) returns (count: nat)
      modifies this`fills
      ensures fills == old(fills) + PairsFills(geantIds, Cuts(), c, ps)
      ensures count == CountPairs(geantIds, Cuts(), ps)
    {
      ghost var ids := geantIds;
      ghost var cuts := Cuts();
      count := 0;
      var i := 0;
      while i < |ps|
        invariant 0 <= i <= |ps|
        invariant ids == geantIds && cuts == Cuts()
        invariant fills == old(fills) + PairsFills(ids, cuts, c, ps[..i])
        invariant count == CountPairs(ids, cuts, ps[..i])
      {
        PairsFillsSnoc(ids, cuts, c, ps, i);
        var counted := FillPair(c, ps[i]);
        if counted {
          count := count + 1;
        }
        SeqAssoc(old(fills), PairsFills(ids, cuts, c, ps[..i]), PairFills(ids, cuts, c, ps[i]));
        i := i + 1;
      }
      assert ps[..|ps|] == ps;
    }

    /** One pass of the matched-pair loop body. */
    method FillPair(c: real, p: McPair) returns (counted: bool)
      modifies this`fills
      ensures fills == old(fills) + PairFills(geantIds, Cuts(), c, p)
      ensures counted == PairCounted(geantIds, Cuts(), p)
    {
      if |geantIds| > 0 && p.geantId !in geantIds {
        return false;
      }
      if p.parentGeantId != 0 {
        return false;
      }
      fills := fills + PairPreFills(c, p);
      if Abs(p.eta) > 1.0 {
        return false;
      }
      if ((p.fitPts + 1) as real) / ((p.nPossiblePts + 1) as real) < minFitFrac {
        return false;
      }
      fills := fills + [PairScaleFill(c, p)];
      if p.dcaGl > maxDCA || p.fitPts < minFit {
        return false;
      }
      fills := fills + PairPostFills(c, p);
      return true;
    }

    /** The primary-track loop of `Make`. */
    method FillData(c: real, ts: seq<MuTrack>)
      modifies this`fills
      ensures fills == old(fills) + DataFills(Cuts(), c, ts)
    {
      ghost var cuts := Cuts();
      var i := 0;
      while i < |ts|
        invariant 0 <= i <= |ts|
        invariant cuts == Cuts()
        invariant fills == old(fills) + DataFills(cuts, c, ts[..i])
      {
        DataFillsSnoc(cuts, c, ts, i);
        FillDataTrack(c, ts[i]);
        SeqAssoc(old(fills), DataFills(cuts, c, ts[..i]), DataTrackFills(cuts, c, ts[i]));
        i := i + 1;
      }
      assert ts[..|ts|] == ts;
    }

    /** One pass of the primary-track loop body. */
    method FillDataTrack(c: real, t: MuTrack)
      modifies this`fills
      ensures fills == old(fills) + DataTrackFills(Cuts(), c, t)
    {
      if t.flag < 0 {
        return;
      }
      if t.nHitsFit < minFit {
        return;
      }
      if (t.nHitsFit as real) / ((t.nHitsPossTpc + 1) as real) < minFitFrac {
        return;
      }
      if Abs(t.eta) > 1.0 {
        return;
      }
      fills := fills + [DataScaleFill(c, t)];
      if t.dca > maxDCA {
        return;
      }
      fills := fills + DataPostFills(c, t);
    }

    /** The fills `Make` makes once an event has passed every gate. */
    method ProcessEvent(centrality: int, e: MuEvent, truth: MiniMcEvent, tracks: seq<MuTrack>)
      modifies this`fills
      ensures fills == old(fills) + EventFills(geantIds, Cuts(), centrality, e, truth, tracks)
    {
      var c := centrality as real;
      fills := fills + EventHeadFills(c, e);
      var countMc := FillMc(c, truth.mcTracks);
      var countPair := FillPairs(c, truth.pairs);
      fills := fills + [Fill3(McRecoTracks, c, countMc as real, countPair as real)];
      FillData(c, tracks);
      SeqAssocFive(old(fills), EventHeadFills(c, e), McFills(geantIds, c, truth.mcTracks),
                   PairsFills(geantIds, Cuts(), c, truth.pairs),
                   [Fill3(McRecoTracks, c, countMc as real, countPair as real)], DataFills(Cuts(), c, tracks));
    }

    /** `Make` for the reconstructed event e and its primary tracks; the two
        centrality providers are parameters. */
    method Make(e: MuEvent, tracks: seq<MuTrack>,
                centrality9: (int, nat, real, real) -> int,
                centralityBin9: (int, nat, real, real) -> int) returns (status: Status)
      requires Valid()
      modifies this`fills, aligner, cuts`stats
      ensures Valid()
      ensures var r := Align(aligner.chain, old(aligner.current), old(aligner.loaded), MuIdentity(e));
        aligner.current == r.cursor &&
        (r.found ==> TruthIdentity(aligner.loaded) == MuIdentity(e)) &&
        cuts.stats == (if r.found then StatsAfter(cuts.config, cuts.triggers, cuts.runs, old(cuts.stats), e)
                       else old(cuts.stats)) &&
        var o := MakeOutcome(r.found, Accepts(cuts.config, cuts.triggers, cuts.runs, e),
                             ProviderCentrality(provider, e, aligner.loaded, centrality9, centralityBin9),
                             geantIds, Cuts(), e, aligner.loaded, tracks);
        status == o.status && fills == old(fills) + o.fills
    {
      var found := aligner.LoadEvent(MuIdentity(e));
      if !found {
        return StErr;
      }
      var accepted := cuts.AcceptEvent(e);
      if !accepted {
        return StOk;
      }
      var truth := aligner.loaded;
      var centrality := 0;
      if provider == P18ih {
        centrality := centrality9(e.runId, e.refMult, e.zdcRate, truth.vertexZ);
      } else if provider == P16id {
        centrality := centralityBin9(e.runId, e.grefMult, e.vz, e.zdcRate);
      } else {
        return StFatal;
      }
      if centrality < 0 || centrality > 8 {
        return StOk;
      }
      if Abs(e.vz) > 30.0 {
        return StOk;
      }
      ProcessEvent(centrality, e, truth, tracks);
      return StOk;
    }
  }
}
