/** The histograms of the current maker and the log of `Fill` calls made on them:
    which histogram, and the coordinates passed. */
module Histograms {
  /** The histograms `Make` fills. */
  datatype Hist =
    | VzHist | RefMultHist | GRefMultHist | CentralityHist
    | McTracks | McEta | McPhi
    | RecoNhit | RecoDca | RecoEta | RecoPhi | RecoNhitPoss | RecoFitFrac
    | RecoDcaScale
    | RecoTracks | RecoCutNhit | RecoCutDca | RecoCutEta | RecoCutPhi
    | RecoCutNhitPoss | RecoCutFitFrac | DcaRecoCutExt
    | McRecoTracks
    | DataDcaScale
    | DataNhit | DataDca | DataEta | DataPhi | DataNhitPoss | DataFitFrac | DcaDataCutExt

  /** One `Fill` call: the histogram and the coordinates passed to it, one, two or
      three of them for a one-, two- or three-dimensional histogram. */
  datatype Fill =
    | Fill1(hist: Hist, x: real)
    | Fill2(hist: Hist, x: real, y: real)
    | Fill3(hist: Hist, x: real, y: real, z: real)

  /** The histograms of a sequence of fills, in order. */
  function Hists(fs: seq<Fill>): seq<Hist>
  {
    seq(|fs|, i requires 0 <= i < |fs| => fs[i].hist)
  }

  /** The number of fills of histogram h. */
  function Count(fs: seq<Fill>, h: Hist): nat
  {
    multiset(Hists(fs))[h]
  }

  lemma CountAppend(a: seq<Fill>, b: seq<Fill>, h: Hist)
    ensures Count(a + b, h) == Count(a, h) + Count(b, h)
  {
    assert Hists(a + b) == Hists(a) + Hists(b);
  }

  /** No fill of h, no count. */
  lemma CountNone(fs: seq<Fill>, h: Hist)
    requires forall i :: 0 <= i < |fs| ==> fs[i].hist != h
    ensures Count(fs, h) == 0
  {
    assert h !in Hists(fs);
  }

  /** A block whose first fill, and only that one, is of h. */
  lemma CountFirst(fs: seq<Fill>, h: Hist)
    requires |fs| > 0 && fs[0].hist == h
    requires forall i :: 1 <= i < |fs| ==> fs[i].hist != h
    ensures Count(fs, h) == 1
  {
    assert fs == [fs[0]] + fs[1..];
    assert Hists([fs[0]]) == [h];
    CountAppend([fs[0]], fs[1..], h);
    CountNone(fs[1..], h);
  }

  /** The histograms filled by one matched pair before any track cut, and by a
      pair that survives every cut. */
  const PairPreHists := [RecoNhit, RecoDca, RecoEta, RecoPhi, RecoNhitPoss, RecoFitFrac]
  const PairPostHists := [RecoTracks, RecoCutNhit, RecoCutDca, RecoCutEta, RecoCutPhi,
                          RecoCutNhitPoss, RecoCutFitFrac, DcaRecoCutExt]

  /** Proof step about the tag list: the post-cut block names `reco_tracks_`
      once and none of the pre-cut, scale or summary histograms. */
  lemma PairPostHistsCounts()
    ensures RecoNhit !in PairPostHists && RecoDcaScale !in PairPostHists && McRecoTracks !in PairPostHists
    ensures multiset(PairPostHists)[RecoTracks] == 1
  {
  }

  const DataPostHists := [DataNhit, DataDca, DataEta, DataPhi, DataNhitPoss, DataFitFrac, DcaDataCutExt]

  /** Proof step about the tag list: the data post-cut block names `data_nhit_`
      once and neither the scale nor the summary histogram. */
  lemma DataPostHistsCounts()
    ensures DataDcaScale !in DataPostHists && McRecoTracks !in DataPostHists
    ensures multiset(DataPostHists)[DataNhit] == 1
  {
  }

  /** Counting over five consecutive blocks of fills. */
  lemma CountFive(a: seq<Fill>, b: seq<Fill>, c: seq<Fill>, d: seq<Fill>, e: seq<Fill>, h: Hist)
    ensures Count(a + b + c + d + e, h) == Count(a, h) + Count(b, h) + Count(c, h) + Count(d, h) + Count(e, h)
  {
    CountAppend(a, b, h);
    CountAppend(a + b, c, h);
    CountAppend(a + b + c, d, h);
    CountAppend(a + b + c + d, e, h);
  }

  lemma InFourth(a: seq<Fill>, b: seq<Fill>, c: seq<Fill>, x: Fill, e: seq<Fill>)
    ensures x in a + b + c + [x] + e
  {
    assert (a + b + c + [x] + e)[|a| + |b| + |c|] == x;
  }
}
