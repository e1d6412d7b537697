/**
 * Normalisation statistics of the CUSTOM dataset: per-channel mean, standard
 * deviation and colour-PCA eigenvalues, padded to the number of input
 * channels, and the 3x3 eigenvector matrix grown to 4x4 for an alpha channel.
 * The constants are opaque reals here (their float32 rounding is not modelled).
 */
module NormStats {

  const MeanBase: seq<real> := [0.40789654, 0.44719302, 0.47026115]
  const StdBase: seq<real> := [0.28863828, 0.27408164, 0.27809835]
  const EigValBase: seq<real> := [0.2141788, 0.01817699, 0.00341571]
  const EigVecBase: seq<seq<real>> := [
    [-0.58752847, -0.69563484, 0.41340352],
    [-0.5832747, 0.00994535, -0.81221408],
    [-0.56089297, 0.71832671, 0.41158938]
  ]

  // The literals the padding loop appends to each vector.
  const MeanFill: real := 0.40789654
  const StdFill: real := 0.28863828
  const EigValFill: real := 0.2141788

  // The literal column and row appended to the eigenvector matrix for the alpha channel.
  const AlphaColumn: seq<real> := [-0.56089297, 0.71832671, 0.41158938]
  const AlphaRow: seq<real> := [-0.56089297, 0.71832671, 0.41158938, 0.41158938]

  /** Channels of one frame: the three colour channels, plus one exactly when there is an alpha channel. */
  function ChannelsPerFrame(fourChannels: bool): (c: nat)
    ensures 3 <= c <= 4
    ensures c == 4 <==> fourChannels
  {
    if fourChannels then 4 else 3
  }

  /**
   * How many entries the padding loop appends: `range(multi_frame * c - 3)`,
   * which is empty when the count is not positive.
   */
  function PadCount(multiFrame: int, fourChannels: bool): (n: nat)
    ensures multiFrame >= 1 ==> 3 + n == multiFrame * ChannelsPerFrame(fourChannels)
    ensures multiFrame < 1 ==> n == 0
  {
    var c := ChannelsPerFrame(fourChannels);
    assert multiFrame >= 1 ==> multiFrame * c >= c;
    assert multiFrame < 1 ==> multiFrame * c <= 0;
    if multiFrame * c - 3 > 0 then multiFrame * c - 3 else 0
  }

  /**
   * `v` is a statistics vector padded for `multiFrame` frames: it starts with
   * the three single-frame constants `base`, and every further entry repeats
   * its first entry.
   */
  ghost predicate Padded(v: seq<real>, base: seq<real>, multiFrame: int, fourChannels: bool)
    requires |base| == 3
  {
    && |v| == 3 + PadCount(multiFrame, fourChannels)
    && v[..3] == base
    && forall i :: 3 <= i < |v| ==> v[i] == v[0]
  }

  /** The padding loop of the dataset constructor. */
  method PadStatistics(multiFrame: int, fourChannels: bool) returns (mean: seq<real>, std: seq<real>, eigVal: seq<real>)
    ensures Padded(mean, MeanBase, multiFrame, fourChannels)
    ensures Padded(std, StdBase, multiFrame, fourChannels)
    ensures Padded(eigVal, EigValBase, multiFrame, fourChannels)
  {
    mean, std, eigVal := MeanBase, StdBase, EigValBase;
    var count := multiFrame * ChannelsPerFrame(fourChannels) - 3;
    var k := 0;
    while k < count
      invariant 0 <= k <= PadCount(multiFrame, fourChannels)
      invariant |mean| == |std| == |eigVal| == 3 + k
      invariant mean[..3] == MeanBase && std[..3] == StdBase && eigVal[..3] == EigValBase
      invariant forall i :: 3 <= i < |mean| ==> mean[i] == MeanFill
      invariant forall i :: 3 <= i < |std| ==> std[i] == StdFill
      invariant forall i :: 3 <= i < |eigVal| ==> eigVal[i] == EigValFill
    {
      mean := mean + [MeanFill];
      std := std + [StdFill];
      eigVal := eigVal + [EigValFill];
      k := k + 1;
    }
  }

  /** For one or more frames the padded vectors have one entry per input channel. */
  lemma PaddedLength(v: seq<real>, base: seq<real>, multiFrame: int, fourChannels: bool)
    requires |base| == 3 && Padded(v, base, multiFrame, fourChannels)
    requires multiFrame >= 1
    ensures |v| == multiFrame * ChannelsPerFrame(fourChannels)
    ensures forall i :: 3 <= i < |v| ==> v[i] == base[0]
  {
    assert v[0] == v[..3][0];
  }

  /** `numpy.append(m, col, axis=1)`: one more entry at the end of every row. */
  function AppendColumn(m: seq<seq<real>>, col: seq<real>): (r: seq<seq<real>>)
    requires |col| == |m|
    ensures |r| == |m|
    ensures forall i :: 0 <= i < |m| ==> |r[i]| == |m[i]| + 1 && r[i][..|m[i]|] == m[i] && r[i][|m[i]|] == col[i]
  {
    seq(|m|, i requires 0 <= i < |m| => m[i] + [col[i]])
  }

  /** `numpy.append(m, [row], axis=0)`: one more row at the bottom. */
  function AppendRow(m: seq<seq<real>>, row: seq<real>): (r: seq<seq<real>>)
    ensures |r| == |m| + 1 && r[..|m|] == m && r[|m|] == row
  {
    m + [row]
  }

  /**
   * `e` is the eigenvector matrix extended for an alpha channel: 4x4, the
   * original 3x3 block in the top left, a new last column and a new last row
   * that both repeat the original third row, and the corner repeating its last entry.
   */
  ghost predicate AlphaExtended(e: seq<seq<real>>) {
    && |e| == 4
    && (forall i :: 0 <= i < 4 ==> |e[i]| == 4)
    && (forall i, j :: 0 <= i < 3 && 0 <= j < 3 ==> e[i][j] == EigVecBase[i][j])
    && (forall i :: 0 <= i < 3 ==> e[i][3] == EigVecBase[2][i])
    && (forall j :: 0 <= j < 3 ==> e[3][j] == EigVecBase[2][j])
    && e[3][3] == EigVecBase[2][2]
  }

  /** The two appends of the constructor produce exactly that extension. */
  lemma AlphaEigVec()
    ensures AlphaExtended(AppendRow(AppendColumn(EigVecBase, AlphaColumn), AlphaRow))
  {
  }
}
