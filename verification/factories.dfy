/** The factory functions `resnet18` .. `resnet152`: each fixes a stage-count
    list and a block class and passes its keyword arguments (`groups`,
    `channels_per_group`, `num_classes`) on to `ResNet`. */
module Factories {
  import opened Wrappers
  import opened Blocks
  import opened ResNet
  import Decimal

  datatype Variant = ResNet18 | ResNet34 | ResNet50 | ResNet101 | ResNet152

  /** The `arch_cfg` list each factory passes. */
  function StageCounts(v: Variant): seq<int> {
    match v
    case ResNet18 => [2, 2, 2, 2]
    case ResNet34 => [3, 4, 6, 3]
    case ResNet50 => [3, 4, 6, 3]
    case ResNet101 => [3, 4, 23, 3]
    case ResNet152 => [3, 8, 36, 3]
  }

  /** The block class each factory passes. */
  function BlockOf(v: Variant): BlockKind {
    match v
    case ResNet18 => Basic
    case ResNet34 => Basic
    case _ => Bottleneck
  }

  /** The factory's Python name. */
  function FactoryName(v: Variant): string {
    match v
    case ResNet18 => "resnet18"
    case ResNet34 => "resnet34"
    case ResNet50 => "resnet50"
    case ResNet101 => "resnet101"
    case ResNet152 => "resnet152"
  }

  /** Calling the factory with the given keyword arguments. The bottleneck
      factories pass `groups` to a grouped convolution, which rejects zero;
      otherwise the network is well formed and its weighted-layer count is
      the number in its name. */
  function Factory(v: Variant, groups: nat, channelsPerGroup: nat, numClasses: nat): (r: Result<Net, Exception>)
    ensures r.Failure? <==> BlockOf(v) == Bottleneck && groups == 0
    ensures r.Failure? ==> r.error == ValueError
    ensures r.Success? ==> FactoryName(v) == "resnet" + Decimal.NatToString(Depth(r.value))
    ensures r.Success? ==> WellFormed(r.value)
    ensures r.Success? ==> r.value.fc.outFeatures == numClasses
  {
    var cfg := StageCounts(v);
    var arch := Arch(BlockOf(v), groups, channelsPerGroup);
    if !GroupsAccepted(arch) then Build(cfg, arch, numClasses)
    else
      FactoryWellFormed(v, arch, numClasses);
      FactoryDepthNamed(v, arch, numClasses);
      Build(cfg, arch, numClasses)
  }

  /** With accepted `groups`, the network a factory builds is well formed. */
  lemma FactoryWellFormed(v: Variant, arch: Arch, numClasses: nat)
    requires arch.kind == BlockOf(v) && GroupsAccepted(arch)
    ensures Build(StageCounts(v), arch, numClasses).Success?
    ensures WellFormed(Build(StageCounts(v), arch, numClasses).value)
  {
    BuildWellFormed(StageCounts(v), arch, numClasses);
  }

  /** With accepted `groups`, the depth of the network a factory builds is
      the number in the factory's name. */
  lemma FactoryDepthNamed(v: Variant, arch: Arch, numClasses: nat)
    requires arch.kind == BlockOf(v) && GroupsAccepted(arch)
    ensures Build(StageCounts(v), arch, numClasses).Success?
    ensures FactoryName(v) == "resnet" + Decimal.NatToString(Depth(Build(StageCounts(v), arch, numClasses).value))
  {
    var cfg := StageCounts(v);
    BuildDepth(cfg, arch, numClasses);
    assert cfg[..4] == cfg;
    NameMatchesDepth(v, Depth(Build(cfg, arch, numClasses).value));
  }

  /** The first block of the first stage a factory builds: its projection
      is whatever `Downsample` decides for the stem's 64 channels at
      stride 1. */
  lemma FirstStageFirstBlock(v: Variant, groups: nat, channelsPerGroup: nat, numClasses: nat)
    requires Factory(v, groups, channelsPerGroup, numClasses).Success?
    ensures var arch := Arch(BlockOf(v), groups, channelsPerGroup);
      Factory(v, groups, channelsPerGroup, numClasses).value.stages[0][0]
      == FirstBlock(arch, StemWidth, StageWidths[0], StageStrides[0])
  {
    var arch := Arch(BlockOf(v), groups, channelsPerGroup);
    var r := Factory(v, groups, channelsPerGroup, numClasses);
    assert r == Build(StageCounts(v), arch, numClasses);
    var layer := MakeLayer(arch, StageInput(arch, StemWidth, StageWidths, 0), StageCounts(v)[0], StageWidths[0], StageStrides[0]);
    assert r.value.stages[0] == layer.blocks;
  }

  /** `resnet50`'s first stage widens the 64 stem channels to 256, so its
      first block gets a projection. */
  lemma ResNet50FirstBlockProjects(groups: nat, channelsPerGroup: nat, numClasses: nat)
    requires groups > 0
    ensures Factory(ResNet50, groups, channelsPerGroup, numClasses).value.stages[0][0].downsample
         == Some(Conv(64, 256, 1, 1, 0, 1))
  {
    FirstStageFirstBlock(ResNet50, groups, channelsPerGroup, numClasses);
    var d := Downsample(Arch(Bottleneck, groups, channelsPerGroup), 64, 64, 1);
    assert d == Some(Conv(64, 256, 1, 1, 0, 1));
  }

  /** `resnet18`'s first stage keeps 64 channels at stride 1, so its first
      block has no projection. */
  lemma ResNet18FirstBlockIdentity(groups: nat, channelsPerGroup: nat, numClasses: nat)
    ensures Factory(ResNet18, groups, channelsPerGroup, numClasses).value.stages[0][0].downsample
         == None
  {
    FirstStageFirstBlock(ResNet18, groups, channelsPerGroup, numClasses);
    var d := Downsample(Arch(Basic, groups, channelsPerGroup), 64, 64, 1);
    assert d == None;
  }

  lemma SumOfFour(c: seq<int>)
    requires |c| == 4
    ensures SumCounts(c) == BlockCount(c[0]) + BlockCount(c[1]) + BlockCount(c[2]) + BlockCount(c[3])
  {
    assert SumCounts(c[3..]) == BlockCount(c[3]) by {
      assert c[3..][1..] == [];
    }
    assert c[2..][1..] == c[3..];
    assert SumCounts(c[2..]) == BlockCount(c[2]) + SumCounts(c[3..]);
    assert c[1..][1..] == c[2..];
    assert SumCounts(c[1..]) == BlockCount(c[1]) + SumCounts(c[2..]);
  }

  /** The depth the name promises: two weighted layers per basic block,
      three per bottleneck, plus the stem convolution and the classifier. */
  lemma NameMatchesDepth(v: Variant, depth: nat)
    requires depth == ConvsPerBlock(BlockOf(v)) * SumCounts(StageCounts(v)) + 2
    ensures FactoryName(v) == "resnet" + Decimal.NatToString(depth)
  {
    SumOfFour(StageCounts(v));
    match v
    case ResNet18 =>
      assert SumCounts(StageCounts(v)) == 8;
      assert depth == 18;
      assert Decimal.NatToString(18) == "18";
    case ResNet34 =>
      assert SumCounts(StageCounts(v)) == 16;
      assert depth == 34;
      assert Decimal.NatToString(34) == "34";
    case ResNet50 =>
      assert SumCounts(StageCounts(v)) == 16;
      assert depth == 50;
      assert Decimal.NatToString(50) == "50";
    case ResNet101 =>
      assert SumCounts(StageCounts(v)) == 33;
      assert depth == 101;
      assert Decimal.NatToString(10) == "10";
      assert Decimal.NatToString(101) == "101";
    case ResNet152 =>
      assert SumCounts(StageCounts(v)) == 50;
      assert depth == 152;
      assert Decimal.NatToString(15) == "15";
      assert Decimal.NatToString(152) == "152";
  }
}
