/** The architecture plan `ResNet.__init__` and `ResNet._make_layer` build,
    with the tensors stripped out: `self.in_channels` is threaded through as
    explicit state and each stage becomes a sequence of block specifications.
    The main facts proved are that every residual join is sound, that the
    blocks of the whole network form one chain of matching widths from the
    stem to the classifier, and how many weighted layers the network has. */
module ResNet {
  import opened Wrappers
  import opened Blocks

  /** What `ResNet.__init__` fixes for every block it builds: the block class
      and the `groups` / `channels_per_group` arguments. */
  datatype Arch = Arch(kind: BlockKind, groups: nat, baseChannels: nat)

  /** The blocks of one stage and the value of `self.in_channels` after it. */
  datatype Layer = Layer(blocks: seq<BlockSpec>, inChannels: nat)

  /** All stages and the value of `self.in_channels` after the last one. */
  datatype Stages = Stages(layers: seq<seq<BlockSpec>>, inChannels: nat)

  /** An `nn.Linear` layer's widths. */
  datatype Linear = Linear(inFeatures: nat, outFeatures: nat)

  /** The network: stem convolution, four stages, classifier. */
  datatype Net = Net(stem: Conv, stages: seq<seq<BlockSpec>>, fc: Linear)

  /** Initial value of `self.in_channels`, the stem's output width. */
  const StemWidth: nat := 64

  /** Base widths and strides of `layer1` .. `layer4`. */
  const StageWidths: seq<nat> := [64, 128, 256, 512]
  const StageStrides: seq<int> := [1, 2, 2, 2]

  // ---------------------------------------------------------------------
  // Chains of blocks

  /** Each block reads the width its predecessor produced, the first one
      reads `w`. */
  predicate Chained(blocks: seq<BlockSpec>, w: nat) {
    && (|blocks| > 0 ==> blocks[0].inChannels == w)
    && forall i :: 0 < i < |blocks| ==> blocks[i].inChannels == OutputWidth(blocks[i - 1])
  }

  /** The width a chain of blocks hands on, `w` if it is empty. */
  function ChainEnd(blocks: seq<BlockSpec>, w: nat): nat {
    if |blocks| == 0 then w else OutputWidth(blocks[|blocks| - 1])
  }

  predicate AllJoin(blocks: seq<BlockSpec>) {
    forall i :: 0 <= i < |blocks| ==> ResidualJoins(blocks[i])
  }

  predicate AllOfKind(blocks: seq<BlockSpec>, kind: BlockKind) {
    forall i :: 0 <= i < |blocks| ==> blocks[i].kind == kind
  }

  /** Two chains compose when the second starts where the first ends. */
  lemma ChainedAppend(a: seq<BlockSpec>, b: seq<BlockSpec>, w: nat)
    requires Chained(a, w) && Chained(b, ChainEnd(a, w))
    ensures Chained(a + b, w)
    ensures ChainEnd(a + b, w) == ChainEnd(b, ChainEnd(a, w))
  {
    var ab := a + b;
    forall i | 0 < i < |ab|
      ensures ab[i].inChannels == OutputWidth(ab[i - 1])
    {
      if i > |a| {
        assert ab[i] == b[i - |a|] && ab[i - 1] == b[i - 1 - |a|];
      } else if i == |a| {
        assert ab[i] == b[0] && ab[i - 1] == a[|a| - 1];
      }
    }
  }

  /** All the blocks of a list of stages, in forward order. */
  function Flatten(layers: seq<seq<BlockSpec>>): seq<BlockSpec> {
    if |layers| == 0 then [] else layers[0] + Flatten(layers[1..])
  }

  // ---------------------------------------------------------------------
  // `_make_layer`

  /** `range(1, repeat_times)` runs `repeat_times - 1` times, never fewer
      than zero, after the one block that is always built. */
  function BlockCount(repeatTimes: int): (n: nat)
    ensures n >= 1 && n >= repeatTimes
    ensures n == repeatTimes || (n == 1 && repeatTimes < 1)
  {
    if repeatTimes < 1 then 1 else repeatTimes
  }

  /** The `downsample` projection of a stage's first block: there is one
      exactly when the identity shortcut would not join, and with it the
      residual join holds. */
  function Downsample(arch: Arch, inChannels: nat, channels: nat, stride: int): (d: Option<Conv>)
    ensures d.None? <==>
      ResidualJoins(BlockSpec(arch.kind, inChannels, channels, stride, None, arch.groups, arch.baseChannels))
    ensures ResidualJoins(BlockSpec(arch.kind, inChannels, channels, stride, d, arch.groups, arch.baseChannels))
    ensures d.Some? ==> d.value == Conv(inChannels, channels * Expansion(arch.kind), 1, stride, 0, 1)
  {
    var projection := Conv(inChannels, channels * Expansion(arch.kind), 1, stride, 0, 1);
    IdentityShortcutJoins(BlockSpec(arch.kind, inChannels, channels, stride, None, arch.groups, arch.baseChannels));
    ProjectionShortcutJoins(BlockSpec(arch.kind, inChannels, channels, stride, Some(projection), arch.groups, arch.baseChannels));
    if stride != 1 || inChannels != channels * Expansion(arch.kind) then
      Some(projection)
    else
      None
  }

  function FirstBlock(arch: Arch, inChannels: nat, channels: nat, stride: int): BlockSpec {
    BlockSpec(arch.kind, inChannels, channels, stride, Downsample(arch, inChannels, channels, stride),
              arch.groups, arch.baseChannels)
  }

  /** Every block after the first reads the expanded width, with stride 1
      and no projection. */
  function LaterBlock(arch: Arch, channels: nat): BlockSpec {
    BlockSpec(arch.kind, channels * Expansion(arch.kind), channels, 1, None, arch.groups, arch.baseChannels)
  }

  /** `_make_layer(repeat_times, block, channels, stride)` started with
      `self.in_channels == inChannels`. */
  function MakeLayer(arch: Arch, inChannels: nat, repeatTimes: int, channels: nat, stride: int): (r: Layer)
    ensures |r.blocks| == BlockCount(repeatTimes)
    ensures r.inChannels == channels * Expansion(arch.kind)
    ensures r.blocks[0].inChannels == inChannels && r.blocks[0].stride == stride
    ensures r.blocks[0].downsample.Some? <==> stride != 1 || inChannels != r.inChannels
    ensures forall i :: 1 <= i < |r.blocks| ==>
      r.blocks[i].inChannels == r.inChannels && r.blocks[i].stride == 1 && r.blocks[i].downsample.None?
    ensures forall i :: 0 <= i < |r.blocks| ==>
      && r.blocks[i].kind == arch.kind && r.blocks[i].channels == channels
      && r.blocks[i].groups == arch.groups && r.blocks[i].baseChannels == arch.baseChannels
    ensures AllJoin(r.blocks)
    ensures Chained(r.blocks, inChannels) && ChainEnd(r.blocks, inChannels) == r.inChannels
  {
    var width := channels * Expansion(arch.kind);
    var first := FirstBlock(arch, inChannels, channels, stride);
    var later := LaterBlock(arch, channels);
    var blocks := [first] + seq(BlockCount(repeatTimes) - 1, _ => later);
    assert ResidualJoins(first) by {
      if first.downsample.Some? {
        ProjectionShortcutJoins(first);
      } else {
        IdentityShortcutJoins(first);
      }
    }
    assert ResidualJoins(later) by {
      IdentityShortcutJoins(later);
    }
    assert forall i :: 1 <= i < |blocks| ==> blocks[i] == later;
    Layer(blocks, width)
  }

  /** `_make_layer` as written: one first block, then a `for` loop that
      appends the later blocks while `self.in_channels` holds the expanded
      width. It builds exactly the stage `MakeLayer` describes. */
  method MakeLayerLoop(arch: Arch, inChannels: nat, repeatTimes: int, channels: nat, stride: int)
    returns (layer: Layer)
    ensures layer == MakeLayer(arch, inChannels, repeatTimes, channels, stride)
  {
    var downsample: Option<Conv> := None;
    if stride != 1 || inChannels != channels * Expansion(arch.kind) {
      downsample := Some(Conv(inChannels, channels * Expansion(arch.kind), 1, stride, 0, 1));
    }
    var layers := [BlockSpec(arch.kind, inChannels, channels, stride, downsample, arch.groups, arch.baseChannels)];
    var current := channels * Expansion(arch.kind);
    ghost var spec := MakeLayer(arch, inChannels, repeatTimes, channels, stride);
    var i := 1;
    while i < repeatTimes
      invariant 1 <= i <= |spec.blocks|
      invariant current == spec.inChannels
      invariant layers == spec.blocks[..i]
    {
      layers := layers + [BlockSpec(arch.kind, current, channels, 1, None, arch.groups, arch.baseChannels)];
      i := i + 1;
    }
    assert layers == spec.blocks;
    layer := Layer(layers, current);
  }

  // ---------------------------------------------------------------------
  // `ResNet.__init__`

  function SumCounts(counts: seq<int>): nat {
    if |counts| == 0 then 0 else BlockCount(counts[0]) + SumCounts(counts[1..])
  }

  /** The value of `self.in_channels` when stage `i` starts: the initial
      width for the first stage, the previous stage's expanded width after. */
  function StageInput(arch: Arch, inChannels: nat, widths: seq<nat>, i: nat): nat
    requires i < |widths|
  {
    if i == 0 then inChannels else widths[i - 1] * Expansion(arch.kind)
  }

  /** Successive `_make_layer` calls, each starting from the width the
      previous one left in `self.in_channels`. */
  function MakeStages(arch: Arch, inChannels: nat, counts: seq<int>, widths: seq<nat>, strides: seq<int>)
    : (r: Stages)
    requires |counts| == |widths| == |strides|
    ensures |r.layers| == |counts|
    ensures |counts| > 0 ==> r.inChannels == widths[|counts| - 1] * Expansion(arch.kind)
    ensures forall i :: 0 <= i < |counts| ==>
      |r.layers[i]| == BlockCount(counts[i])
      && r.layers[i][0].channels == widths[i] && r.layers[i][0].stride == strides[i]
    decreases |counts|
  {
    if |counts| == 0 then
      Stages([], inChannels)
    else
      var l := MakeLayer(arch, inChannels, counts[0], widths[0], strides[0]);
      var rest := MakeStages(arch, l.inChannels, counts[1..], widths[1..], strides[1..]);
      Stages([l.blocks] + rest.layers, rest.inChannels)
  }

  /** Stage `i` is exactly what `_make_layer(counts[i], block, widths[i],
      strides[i])` builds from the width the previous stage left. */
  lemma {:induction false} StageIsLayer(arch: Arch, inChannels: nat, counts: seq<int>, widths: seq<nat>, strides: seq<int>, i: nat)
    requires |counts| == |widths| == |strides| && i < |counts|
    ensures MakeStages(arch, inChannels, counts, widths, strides).layers[i]
         == MakeLayer(arch, StageInput(arch, inChannels, widths, i), counts[i], widths[i], strides[i]).blocks
    decreases i
  {
    if i > 0 {
      var l := MakeLayer(arch, inChannels, counts[0], widths[0], strides[0]);
      StageIsLayer(arch, l.inChannels, counts[1..], widths[1..], strides[1..], i - 1);
      var rest := MakeStages(arch, l.inChannels, counts[1..], widths[1..], strides[1..]);
      assert MakeStages(arch, inChannels, counts, widths, strides).layers == [l.blocks] + rest.layers;
    }
  }

  lemma FlattenCons(x: seq<BlockSpec>, rest: seq<seq<BlockSpec>>)
    ensures Flatten([x] + rest) == x + Flatten(rest)
  {
    assert ([x] + rest)[1..] == rest;
  }

  lemma AllAppend(a: seq<BlockSpec>, b: seq<BlockSpec>, kind: BlockKind)
    requires AllJoin(a) && AllJoin(b) && AllOfKind(a, kind) && AllOfKind(b, kind)
    ensures AllJoin(a + b) && AllOfKind(a + b, kind)
  {
    forall i | |a| <= i < |a + b|
      ensures (a + b)[i] == b[i - |a|]
    {
    }
  }

  /** The stages `MakeStages` builds form one chain of sound residual blocks
      from `inChannels` to the final `self.in_channels`, with
      `sum(max(1, counts[i]))` blocks in all. */
  lemma {:induction false} StagesSound(arch: Arch, inChannels: nat, counts: seq<int>, widths: seq<nat>, strides: seq<int>)
    requires |counts| == |widths| == |strides|
    ensures var r := MakeStages(arch, inChannels, counts, widths, strides);
      && |Flatten(r.layers)| == SumCounts(counts)
      && AllJoin(Flatten(r.layers)) && AllOfKind(Flatten(r.layers), arch.kind)
      && Chained(Flatten(r.layers), inChannels)
      && ChainEnd(Flatten(r.layers), inChannels) == r.inChannels
    decreases |counts|
  {
    if |counts| > 0 {
      var l := MakeLayer(arch, inChannels, counts[0], widths[0], strides[0]);
      var rest := MakeStages(arch, l.inChannels, counts[1..], widths[1..], strides[1..]);
      StagesSound(arch, l.inChannels, counts[1..], widths[1..], strides[1..]);
      FlattenCons(l.blocks, rest.layers);
      ChainedAppend(l.blocks, Flatten(rest.layers), inChannels);
      AllAppend(l.blocks, Flatten(rest.layers), arch.kind);
    }
  }

  /** The four stages `ResNet.__init__` builds, each the `_make_layer` call
      for its count, width and stride. */
  lemma FourStages(arch: Arch, counts: seq<int>)
    requires |counts| == 4
    ensures forall i :: 0 <= i < 4 ==>
      MakeStages(arch, StemWidth, counts, StageWidths, StageStrides).layers[i]
      == MakeLayer(arch, StageInput(arch, StemWidth, StageWidths, i), counts[i], StageWidths[i], StageStrides[i]).blocks
  {
    forall i | 0 <= i < 4
      ensures MakeStages(arch, StemWidth, counts, StageWidths, StageStrides).layers[i]
           == MakeLayer(arch, StageInput(arch, StemWidth, StageWidths, i), counts[i], StageWidths[i], StageStrides[i]).blocks
    {
      StageIsLayer(arch, StemWidth, counts, StageWidths, StageStrides, i);
    }
  }

  /** `nn.Conv2d` accepts only positive `groups`. Only the bottleneck hands
      `groups` to a convolution; the basic block stores it and ignores it. */
  predicate GroupsAccepted(arch: Arch) {
    arch.kind == Basic || arch.groups > 0
  }

  /** `ResNet(arch_cfg, block, groups, channels_per_group, num_classes)`.
      Only the first four entries of `arch_cfg` are read, in order, each just
      before its stage is built. An empty list raises `IndexError` at once;
      otherwise the first bottleneck built with `groups = 0` raises
      `ValueError` before a short list is noticed. */
  function Build(cfg: seq<int>, arch: Arch, numClasses: nat): (r: Result<Net, Exception>)
    ensures r.Failure? <==> |cfg| < 4 || !GroupsAccepted(arch)
    ensures r.Failure? ==> (r.error == ValueError <==> |cfg| > 0 && !GroupsAccepted(arch))
    ensures r.Success? ==> var net := r.value;
      && net.stem == Conv(3, StemWidth, 7, 2, 3, 1)
      && |net.stages| == 4
      && (forall i :: 0 <= i < 4 ==>
            |net.stages[i]| == BlockCount(cfg[i])
            && net.stages[i][0].channels == StageWidths[i]
            && net.stages[i][0].stride == StageStrides[i])
      && net.fc == Linear(512 * Expansion(arch.kind), numClasses)
    ensures r.Success? ==> forall i :: 0 <= i < 4 ==>
      r.value.stages[i] == MakeLayer(arch, StageInput(arch, StemWidth, StageWidths, i), cfg[i], StageWidths[i], StageStrides[i]).blocks
  {
    if |cfg| == 0 then
      Failure(IndexError)
    else if !GroupsAccepted(arch) then
      Failure(ValueError)
    else if |cfg| < 4 then
      Failure(IndexError)
    else
      var counts := cfg[..4];
      var s := MakeStages(arch, StemWidth, counts, StageWidths, StageStrides);
      FourStages(arch, counts);
      assert forall i :: 0 <= i < 4 ==> counts[i] == cfg[i];
      Success(Net(Conv(3, StemWidth, 7, 2, 3, 1), s.layers, Linear(512 * Expansion(arch.kind), numClasses)))
  }

  /** The facts `forward` relies on without checking them: every residual
      `torch.add` gets operands of equal width and stride, each block reads what the
      previous one (or the stem) produced, and the last block produces
      exactly the classifier's input width. */
  predicate WellFormed(net: Net) {
    var blocks := Flatten(net.stages);
    && AllJoin(blocks)
    && Chained(blocks, net.stem.outChannels)
    && ChainEnd(blocks, net.stem.outChannels) == net.fc.inFeatures
  }

  lemma BuildWellFormed(cfg: seq<int>, arch: Arch, numClasses: nat)
    requires |cfg| >= 4 && GroupsAccepted(arch)
    ensures Build(cfg, arch, numClasses).Success?
    ensures WellFormed(Build(cfg, arch, numClasses).value)
  {
    var s := MakeStages(arch, StemWidth, cfg[..4], StageWidths, StageStrides);
    StagesSound(arch, StemWidth, cfg[..4], StageWidths, StageStrides);
    assert s.inChannels == 512 * Expansion(arch.kind);
  }

  // ---------------------------------------------------------------------
  // Depth

  /** Number of convolutions on the main paths of `blocks`. */
  function ConvCount(blocks: seq<BlockSpec>): nat {
    if |blocks| == 0 then 0 else |MainPath(blocks[0])| + ConvCount(blocks[1..])
  }

  /** Weighted layers counted by the model's name: stem convolution, the
      main-path convolutions of every block, and the classifier (downsample
      projections are not counted). */
  function Depth(net: Net): nat {
    1 + ConvCount(Flatten(net.stages)) + 1
  }

  lemma {:induction false} ConvCountUniform(blocks: seq<BlockSpec>, kind: BlockKind)
    requires AllOfKind(blocks, kind)
    ensures ConvCount(blocks) == |blocks| * ConvsPerBlock(kind)
    decreases |blocks|
  {
    if |blocks| > 0 {
      ConvCountUniform(blocks[1..], kind);
    }
  }

  /** A network built from `cfg` has `ConvsPerBlock * sum(max(1, cfg[i])) + 2`
      weighted layers. */
  lemma BuildDepth(cfg: seq<int>, arch: Arch, numClasses: nat)
    requires |cfg| >= 4 && GroupsAccepted(arch)
    ensures Build(cfg, arch, numClasses).Success?
    ensures Depth(Build(cfg, arch, numClasses).value)
         == ConvsPerBlock(arch.kind) * SumCounts(cfg[..4]) + 2
  {
    var s := MakeStages(arch, StemWidth, cfg[..4], StageWidths, StageStrides);
    StagesSound(arch, StemWidth, cfg[..4], StageWidths, StageStrides);
    ConvCountUniform(Flatten(s.layers), arch.kind);
  }
}
