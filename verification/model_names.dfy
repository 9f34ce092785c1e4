/** `model_names` in train.py: the names bound in model.py's namespace that
    are lower case, do not start with `__`, and are bound to something
    callable, sorted the way Python's `sorted` orders strings (code point by
    code point, a proper prefix first). */
module ArchNames {
  import Factories

  /** One entry of a module's `__dict__`: its key, and whether its value is
      callable. */
  datatype Binding = Binding(name: string, isCallable: bool)

  // ---------------------------------------------------------------------
  // The filter

  predicate IsUpperChar(c: char) { 'A' <= c <= 'Z' }
  predicate IsLowerChar(c: char) { 'a' <= c <= 'z' }

  /** `str.islower()`: at least one cased character and no upper-case one. */
  predicate IsLower(s: string) {
    && (exists i :: 0 <= i < |s| && IsLowerChar(s[i]))
    && (forall i :: 0 <= i < |s| ==> !IsUpperChar(s[i]))
  }

  /** `str.startswith("__")`. */
  predicate StartsWithDunder(s: string) {
    |s| >= 2 && s[0] == '_' && s[1] == '_'
  }

  predicate Listed(b: Binding) {
    IsLower(b.name) && !StartsWithDunder(b.name) && b.isCallable
  }

  /** The generator expression: listed names in namespace order. */
  function Filter(ns: seq<Binding>): seq<string> {
    if |ns| == 0 then []
    else
      var rest := Filter(ns[1..]);
      if Listed(ns[0]) then [ns[0].name] + rest else rest
  }

  /** A name survives the filter exactly when some binding with that name
      passes all three tests. */
  lemma {:induction false} FilterMembers(ns: seq<Binding>)
    ensures forall n :: n in Filter(ns) <==> exists i :: 0 <= i < |ns| && ns[i].name == n && Listed(ns[i])
    decreases |ns|
  {
    if |ns| > 0 {
      FilterMembers(ns[1..]);
      assert forall i :: 1 <= i < |ns| ==> ns[i] == ns[1..][i - 1];
    }
  }

  // ---------------------------------------------------------------------
  // Python's string order

  /** `a < b` on strings: at the first position where they differ `a` has
      the smaller code point, or `a` is a proper prefix of `b`. */
  predicate Less(a: string, b: string) {
    |b| > 0 && (|a| == 0 || a[0] < b[0] || (a[0] == b[0] && Less(a[1..], b[1..])))
  }

  lemma {:induction false} LessIrreflexive(a: string)
    ensures !Less(a, a)
    decreases |a|
  {
    if |a| > 0 {
      LessIrreflexive(a[1..]);
    }
  }

  lemma {:induction false} LessTrichotomy(a: string, b: string)
    ensures Less(a, b) || a == b || Less(b, a)
    decreases |a|
  {
    if |a| > 0 && |b| > 0 && a[0] == b[0] {
      LessTrichotomy(a[1..], b[1..]);
      if a[1..] == b[1..] {
        assert a == [a[0]] + a[1..] && b == [b[0]] + b[1..];
      }
    }
  }

  lemma {:induction false} LessAsymmetric(a: string, b: string)
    requires Less(a, b)
    ensures !Less(b, a)
    decreases |a|
  {
    if |a| > 0 && a[0] == b[0] {
      LessAsymmetric(a[1..], b[1..]);
    }
  }

  lemma {:induction false} LessTransitive(a: string, b: string, c: string)
    requires Less(a, b) && Less(b, c)
    ensures Less(a, c)
    decreases |a|
  {
    if |a| > 0 && a[0] == b[0] && b[0] == c[0] {
      LessTransitive(a[1..], b[1..], c[1..]);
    }
  }

  /** Two strings that agree before position `k` and differ there are
      ordered by their characters at `k`. */
  lemma {:induction false} LessAtFirstDifference(a: string, b: string, k: nat)
    requires k < |a| && k < |b| && a[..k] == b[..k] && a[k] < b[k]
    ensures Less(a, b)
    decreases k
  {
    if k > 0 {
      assert a[0] == a[..k][0] == b[..k][0] == b[0];
      assert a[1..][..k - 1] == a[..k][1..] && b[1..][..k - 1] == b[..k][1..];
      LessAtFirstDifference(a[1..], b[1..], k - 1);
    }
  }

  /** Each name is no greater than the next. */
  predicate Sorted(s: seq<string>) {
    forall i :: 0 < i < |s| ==> !Less(s[i], s[i - 1])
  }

  // ---------------------------------------------------------------------
  // `sorted`

  function Insert(x: string, s: seq<string>): (r: seq<string>)
    requires Sorted(s)
    ensures Sorted(r)
    ensures |r| == |s| + 1
    ensures multiset(r) == multiset(s) + multiset{x}
    ensures r[0] == x || (|s| > 0 && r[0] == s[0])
    decreases |s|
  {
    if |s| == 0 then [x]
    else if Less(s[0], x) then
      var tail := Insert(x, s[1..]);
      assert !Less(tail[0], s[0]) by {
        if tail[0] == x {
          LessAsymmetric(s[0], x);
        }
      }
      assert s == [s[0]] + s[1..];
      [s[0]] + tail
    else
      [x] + s
  }

  /** Python's `sorted` on strings. */
  function Sort(s: seq<string>): (r: seq<string>)
    ensures Sorted(r)
    ensures multiset(r) == multiset(s)
  {
    if |s| == 0 then []
    else
      assert s == [s[0]] + s[1..];
      Insert(s[0], Sort(s[1..]))
  }

  /** In a sorted list the head is no greater than any element. */
  lemma {:induction false} SortedHeadLeast(s: seq<string>, j: nat)
    requires Sorted(s) && j < |s|
    ensures !Less(s[j], s[0])
    decreases j
  {
    if j == 0 {
      LessIrreflexive(s[0]);
    } else {
      SortedHeadLeast(s, j - 1);
      if Less(s[j], s[0]) {
        LessTrichotomy(s[j - 1], s[0]);
        if s[j - 1] == s[0] {
          assert false;
        } else {
          LessTransitive(s[j], s[0], s[j - 1]);
          assert false;
        }
      }
    }
  }

  /** Dropping the head keeps a list sorted and removes one copy of the
      head from its multiset. */
  lemma SortedTail(s: seq<string>)
    requires Sorted(s) && |s| > 0
    ensures Sorted(s[1..])
    ensures multiset(s[1..]) == multiset(s) - multiset{s[0]}
  {
    assert s == [s[0]] + s[1..];
  }

  lemma HeadLeast(s: seq<string>, x: string)
    requires Sorted(s) && x in s
    ensures !Less(x, s[0])
  {
    var j :| 0 <= j < |s| && s[j] == x;
    SortedHeadLeast(s, j);
  }

  /** There is only one sorted arrangement of a multiset of strings, so
      `Sort` agrees with Python's `sorted` whatever algorithm that uses. */
  lemma {:induction false} SortedUnique(a: seq<string>, b: seq<string>)
    requires Sorted(a) && Sorted(b) && multiset(a) == multiset(b)
    ensures a == b
    decreases |a|
  {
    assert |a| == |multiset(a)| == |multiset(b)| == |b|;
    if |a| > 0 {
      assert a[0] in multiset(b) && b[0] in multiset(a);
      HeadLeast(a, b[0]);
      HeadLeast(b, a[0]);
      LessTrichotomy(a[0], b[0]);
      SortedTail(a);
      SortedTail(b);
      SortedUnique(a[1..], b[1..]);
    }
  }

  /** `model_names`. */
  function ModelNames(ns: seq<Binding>): (names: seq<string>)
    ensures Sorted(names)
    ensures forall n :: n in names <==> exists i :: 0 <= i < |ns| && ns[i].name == n && Listed(ns[i])
  {
    var f := Filter(ns);
    var r := Sort(f);
    FilterMembers(ns);
    assert forall n :: n in r <==> n in multiset(r);
    assert forall n :: n in f <==> n in multiset(f);
    r
  }

  /** Any sorted rearrangement of the listed names is `model_names`. */
  lemma ModelNamesIsSortedFilter(ns: seq<Binding>, names: seq<string>)
    requires Sorted(names) && multiset(names) == multiset(Filter(ns))
    ensures ModelNames(ns) == names
  {
    SortedUnique(ModelNames(ns), names);
  }

  // ---------------------------------------------------------------------
  // model.py's namespace

  lemma {:induction false} FilterAppend(a: seq<Binding>, b: seq<Binding>)
    ensures Filter(a + b) == Filter(a) + Filter(b)
    decreases |a|
  {
    if |a| == 0 {
      assert a + b == b;
    } else {
      var head := if Listed(a[0]) then [a[0].name] else [];
      assert (a + b)[0] == a[0];
      assert (a + b)[1..] == a[1..] + b;
      assert Filter(a + b) == head + Filter(a[1..] + b);
      FilterAppend(a[1..], b);
      assert Filter(a) == head + Filter(a[1..]);
    }
  }

  lemma {:induction false} FilterNoneListed(ns: seq<Binding>)
    requires forall i :: 0 <= i < |ns| ==> !Listed(ns[i])
    ensures Filter(ns) == []
    decreases |ns|
  {
    if |ns| > 0 {
      FilterNoneListed(ns[1..]);
    }
  }

  /** When every binding passes, the filter keeps all the names in order. */
  lemma {:induction false} FilterAllListed(ns: seq<Binding>)
    requires forall i :: 0 <= i < |ns| ==> Listed(ns[i])
    ensures Filter(ns) == seq(|ns|, i requires 0 <= i < |ns| => ns[i].name)
    decreases |ns|
  {
    if |ns| > 0 {
      FilterAllListed(ns[1..]);
    }
  }

  /** Names the interpreter binds in every module. */
  function InterpreterBindings(): seq<Binding> {
    [ Binding("__name__", false), Binding("__doc__", false), Binding("__package__", false),
      Binding("__loader__", false), Binding("__spec__", false), Binding("__file__", false),
      Binding("__cached__", false), Binding("__builtins__", false) ]
  }

  /** Names model.py imports, and the names of its classes and `__all__`. */
  function ImportedAndClassBindings(): seq<Binding> {
    [ Binding("Any", true), Binding("List", true), Binding("Type", true), Binding("Union", true),
      Binding("Optional", true), Binding("torch", false), Binding("Tensor", true), Binding("nn", false),
      Binding("__all__", false), Binding("_BasicBlock", true), Binding("_Bottleneck", true),
      Binding("ResNet", true) ]
  }

  /** The factory functions, in definition order. */
  function FactoryBindings(): seq<Binding> {
    [ Binding(Factories.FactoryName(Factories.ResNet18), true),
      Binding(Factories.FactoryName(Factories.ResNet34), true),
      Binding(Factories.FactoryName(Factories.ResNet50), true),
      Binding(Factories.FactoryName(Factories.ResNet101), true),
      Binding(Factories.FactoryName(Factories.ResNet152), true) ]
  }

  /** model.py's `__dict__` after it has been imported. */
  function ModelModule(): seq<Binding> {
    InterpreterBindings() + ImportedAndClassBindings() + FactoryBindings()
  }

  /** Every factory name is lower case, has no leading `__` and names a
      function. */
  lemma FactoryListed(v: Factories.Variant)
    ensures Listed(Binding(Factories.FactoryName(v), true))
  {
    var name := Factories.FactoryName(v);
    assert IsLowerChar(name[0]);
  }

  lemma FactoryBindingsListed()
    ensures Filter(FactoryBindings()) == ["resnet18", "resnet34", "resnet50", "resnet101", "resnet152"]
  {
    var ns := FactoryBindings();
    FactoryListed(Factories.ResNet18);
    FactoryListed(Factories.ResNet34);
    FactoryListed(Factories.ResNet50);
    FactoryListed(Factories.ResNet101);
    FactoryListed(Factories.ResNet152);
    FilterAllListed(ns);
  }

  lemma InterpreterBindingsUnlisted()
    ensures Filter(InterpreterBindings()) == []
  {
    var a := InterpreterBindings();
    assert forall i :: 0 <= i < |a| ==> StartsWithDunder(a[i].name);
    FilterNoneListed(a);
  }

  lemma ImportedAndClassBindingsUnlisted()
    ensures Filter(ImportedAndClassBindings()) == []
  {
    var b := ImportedAndClassBindings();
    assert IsUpperChar(b[0].name[0]) && IsUpperChar(b[1].name[0]) && IsUpperChar(b[2].name[0]);
    assert IsUpperChar(b[3].name[0]) && IsUpperChar(b[4].name[0]) && !b[5].isCallable;
    assert IsUpperChar(b[6].name[0]) && !b[7].isCallable && StartsWithDunder(b[8].name);
    assert IsUpperChar(b[9].name[1]) && IsUpperChar(b[10].name[1]) && IsUpperChar(b[11].name[0]);
    FilterNoneListed(b);
  }

  lemma FactoryNamesInOrder()
    ensures Sorted(["resnet101", "resnet152", "resnet18", "resnet34", "resnet50"])
  {
    var e := ["resnet101", "resnet152", "resnet18", "resnet34", "resnet50"];
    LessAtFirstDifference(e[0], e[1], 7);
    LessAtFirstDifference(e[1], e[2], 7);
    LessAtFirstDifference(e[2], e[3], 6);
    LessAtFirstDifference(e[3], e[4], 6);
    LessAsymmetric(e[0], e[1]);
    LessAsymmetric(e[1], e[2]);
    LessAsymmetric(e[2], e[3]);
    LessAsymmetric(e[3], e[4]);
  }

  /** Only the factories pass the filter, in definition order. */
  lemma FilterOfModelModule()
    ensures Filter(ModelModule()) == ["resnet18", "resnet34", "resnet50", "resnet101", "resnet152"]
  {
    FactoryBindingsListed();
    InterpreterBindingsUnlisted();
    ImportedAndClassBindingsUnlisted();
    FilterAppend(InterpreterBindings(), ImportedAndClassBindings());
    FilterAppend(InterpreterBindings() + ImportedAndClassBindings(), FactoryBindings());
  }

  lemma SameFactoryNames(ns: seq<Binding>)
    requires Filter(ns) == ["resnet18", "resnet34", "resnet50", "resnet101", "resnet152"]
    ensures multiset(["resnet101", "resnet152", "resnet18", "resnet34", "resnet50"]) == multiset(Filter(ns))
  {
  }

  lemma ModelNamesOfFactories(ns: seq<Binding>)
    requires Filter(ns) == ["resnet18", "resnet34", "resnet50", "resnet101", "resnet152"]
    ensures ModelNames(ns) == ["resnet101", "resnet152", "resnet18", "resnet34", "resnet50"]
  {
    SameFactoryNames(ns);
    FactoryNamesInOrder();
    ModelNamesIsSortedFilter(ns, ["resnet101", "resnet152", "resnet18", "resnet34", "resnet50"]);
  }

  /** `model_names` is exactly the five factory names, in string order:
      every class, import, module and dunder name is filtered out. */
  lemma ModelNamesOfModelModule()
    ensures ModelNames(ModelModule())
         == ["resnet101", "resnet152", "resnet18", "resnet34", "resnet50"]
  {
    FilterOfModelModule();
    ModelNamesOfFactories(ModelModule());
  }
}
