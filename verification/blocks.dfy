/** The two residual block types of model.py, reduced to the channel and
    stride bookkeeping their constructors do. A block is described by a
    `BlockSpec` (the constructor arguments); `MainPath` derives the
    convolutions the constructor creates, and `ResidualJoins` says when the
    `torch.add` at the end of `forward` adds two tensors of the same width and
    overall stride (spatial sizes are not modelled). */
module Blocks {
  import opened Wrappers

  datatype BlockKind = Basic | Bottleneck

  /** The class attribute `expansion`: block output width over base width. */
  function Expansion(kind: BlockKind): (e: nat)
    ensures e > 0
  {
    match kind
    case Basic => 1
    case Bottleneck => 4
  }

  /** Weighted (convolution) layers on a block's main path. */
  function ConvsPerBlock(kind: BlockKind): nat {
    match kind
    case Basic => 2
    case Bottleneck => 3
  }

  /** The hyper-parameters of an `nn.Conv2d` (bias is always off here). */
  datatype Conv = Conv(inChannels: nat, outChannels: nat, kernel: nat, stride: int, padding: nat, groups: nat)

  /** The constructor arguments of `_BasicBlock` / `_Bottleneck`. `channels`
      is the `out_channels` argument, the base width before expansion. */
  datatype BlockSpec = BlockSpec(
    kind: BlockKind,
    inChannels: nat,
    channels: nat,
    stride: int,
    downsample: Option<Conv>,
    groups: nat,
    baseChannels: nat)

  /** `int(out_channels * (base_channels / 64.0))`: the floor of the exact
      quotient, characterised without division. */
  function WidthPerGroup(outChannels: nat, baseChannels: nat): (q: nat)
    ensures q * 64 <= outChannels * baseChannels < q * 64 + 64
  {
    outChannels * baseChannels / 64
  }

  /** The bottleneck's inner width `channels`. */
  function InnerWidth(outChannels: nat, baseChannels: nat, groups: nat): nat {
    WidthPerGroup(outChannels, baseChannels) * groups
  }

  /** Under the default `base_channels = 64` the inner width is
      `out_channels * groups`; with also `groups = 1` it is `out_channels`. */
  lemma InnerWidthAtDefaultBase(outChannels: nat, groups: nat)
    ensures InnerWidth(outChannels, 64, groups) == outChannels * groups
    ensures InnerWidth(outChannels, 64, 1) == outChannels
  {
    var q := WidthPerGroup(outChannels, 64);
    assert q == outChannels;
  }

  /** Consecutive convolutions agree on the width between them. */
  predicate ConvChain(convs: seq<Conv>) {
    forall i :: 0 < i < |convs| ==> convs[i].inChannels == convs[i - 1].outChannels
  }

  /** The overall stride of a sequence of convolutions. */
  function StrideProduct(convs: seq<Conv>): int {
    if |convs| == 0 then 1 else convs[0].stride * StrideProduct(convs[1..])
  }

  /** The convolutions each block constructor creates, in forward order. */
  function MainPath(b: BlockSpec): (convs: seq<Conv>)
    ensures |convs| == ConvsPerBlock(b.kind)
    ensures convs[0].inChannels == b.inChannels
    ensures ConvChain(convs)
    ensures convs[|convs| - 1].outChannels == b.channels * Expansion(b.kind)
    ensures StrideProduct(convs) == b.stride
    ensures b.kind == Basic ==> convs[0].outChannels == b.channels && convs[0].groups == 1 && convs[1].groups == 1
    ensures b.kind == Bottleneck ==>
      && convs[0].outChannels == InnerWidth(b.channels, b.baseChannels, b.groups)
      && convs[1].groups == b.groups
      && convs[0].groups == 1 && convs[2].groups == 1
  {
    match b.kind
    case Basic =>
      var convs :=
        [ Conv(b.inChannels, b.channels, 3, b.stride, 1, 1),
          Conv(b.channels, b.channels, 3, 1, 1, 1) ];
      assert StrideProduct(convs[1..]) == 1 by {
        assert convs[1..][1..] == [];
      }
      convs
    case Bottleneck =>
      var w := InnerWidth(b.channels, b.baseChannels, b.groups);
      var convs :=
        [ Conv(b.inChannels, w, 1, 1, 0, 1),
          Conv(w, w, 3, b.stride, 1, b.groups),
          Conv(w, b.channels * Expansion(Bottleneck), 1, 1, 0, 1) ];
      assert StrideProduct(convs[1..]) == b.stride by {
        assert convs[1..][1..][1..] == [];
        assert StrideProduct(convs[1..][1..]) == 1;
      }
      convs
  }

  /** Width of the tensor the main path hands to `torch.add`. */
  function OutputWidth(b: BlockSpec): nat {
    var convs := MainPath(b);
    convs[|convs| - 1].outChannels
  }

  /** Width of the identity tensor at `torch.add`: the block input, or the
      output of the downsample projection when there is one. */
  function IdentityWidth(b: BlockSpec): nat {
    match b.downsample
    case None => b.inChannels
    case Some(d) => d.outChannels
  }

  function IdentityStride(b: BlockSpec): int {
    match b.downsample
    case None => 1
    case Some(d) => d.stride
  }

  /** The two operands of the residual `torch.add` agree: same channel count,
      same overall stride, and any projection reads the block's own input. */
  predicate ResidualJoins(b: BlockSpec) {
    && IdentityWidth(b) == OutputWidth(b)
    && IdentityStride(b) == StrideProduct(MainPath(b))
    && (b.downsample.Some? ==> b.downsample.value.inChannels == b.inChannels)
  }

  /** Without a projection the residual join is sound exactly when the block
      keeps its width and its resolution: the test `_make_layer` uses to
      decide whether to build one. */
  lemma IdentityShortcutJoins(b: BlockSpec)
    requires b.downsample.None?
    ensures ResidualJoins(b) <==> b.stride == 1 && b.inChannels == b.channels * Expansion(b.kind)
  {
  }

  /** The projection `_make_layer` builds (1x1 convolution to the expanded
      width with the block stride) always makes the residual join sound. */
  lemma ProjectionShortcutJoins(b: BlockSpec)
    requires b.downsample == Some(Conv(b.inChannels, b.channels * Expansion(b.kind), 1, b.stride, 0, 1))
    ensures ResidualJoins(b)
  {
  }
}
