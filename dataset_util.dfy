/**
  Train/eval splitting of a dataset (src/data/dataset_util.py).

  Examples are of any type `E`; `classOf` reads an example's class (the
  example's `'label'` entry). The split ratio is the exact fraction
  `num / den`, with `0 <= num <= den`. The random permutation that
  `torch.utils.data.random_split` draws from its seeded generator is the
  oracle `shuffle`, which must rearrange its argument without adding or
  dropping anything.
 */
module DatasetUtil {

  /** `int(n * ratio)`: the number of examples that go to the first part. */
  function SplitIndex(n: nat, num: nat, den: nat): (k: nat)
    requires 0 < den && num <= den
    ensures k <= n
    ensures k * den <= n * num < (k + 1) * den
  {
    var k := n * num / den;
    FloorOfRatio(n, num, den);
    k
  }

  lemma FloorOfRatio(n: nat, num: nat, den: nat)
    requires 0 < den && num <= den
    ensures n * num / den <= n
    ensures (n * num / den) * den <= n * num < (n * num / den + 1) * den
  {
    var k := n * num / den;
    assert n * num == k * den + n * num % den;
    assert n * num <= n * den by {
      assert n * den - n * num == n * (den - num);
    }
    assert (k - n) * den <= 0;
  }

  /** `split_dataset_random`: the shuffled examples, the first `int(n * ratio)` of them, then the rest. */
  function RandomSplit<E(!new)>(xs: seq<E>, num: nat, den: nat, shuffle: seq<E> -> seq<E>): (parts: (seq<E>, seq<E>))
    requires 0 < den && num <= den
    requires multiset(shuffle(xs)) == multiset(xs)
    ensures |parts.0| == SplitIndex(|xs|, num, den)
    ensures |parts.0| + |parts.1| == |xs|
    ensures multiset(parts.0) + multiset(parts.1) == multiset(xs)
  {
    var p := shuffle(xs);
    assert |p| == |multiset(p)| == |xs|;
    var k := SplitIndex(|xs|, num, den);
    assert p == p[..k] + p[k..];
    (p[..k], p[k..])
  }

  /**
    What one class contributes: nothing when empty, its only example to
    train, its first example to train and its second to eval, and from three
    examples on a random split.
   */
  function ClassSplit<E(!new)>(xs: seq<E>, num: nat, den: nat, shuffle: seq<E> -> seq<E>): (parts: (seq<E>, seq<E>))
    requires 0 < den && num <= den
    requires multiset(shuffle(xs)) == multiset(xs)
    ensures |xs| == 1 ==> parts == (xs, [])
    ensures |xs| == 2 ==> parts == ([xs[0]], [xs[1]])
    ensures |xs| >= 3 ==> |parts.0| == SplitIndex(|xs|, num, den) && |parts.1| == |xs| - |parts.0|
    ensures multiset(parts.0) + multiset(parts.1) == multiset(xs)
  {
    if |xs| == 0 then ([], [])
    else if |xs| == 1 then assert xs == [xs[0]]; ([xs[0]], [])
    else if |xs| == 2 then assert xs == [xs[0]] + [xs[1]]; ([xs[0]], [xs[1]])
    else RandomSplit(xs, num, den, shuffle)
  }

  /** The classes of `ds` in order of first appearance. */
  function Classes<E(!new), L(==,!new)>(ds: seq<E>, classOf: E -> L): (cs: seq<L>)
    ensures forall i, j :: 0 <= i < j < |cs| ==> cs[i] != cs[j]
    ensures forall l :: l in cs <==> exists i :: 0 <= i < |ds| && classOf(ds[i]) == l
  {
    if ds == [] then []
    else
      var prefix := ds[..|ds| - 1];
      var cs := Classes(prefix, classOf);
      assert forall i :: 0 <= i < |prefix| ==> prefix[i] == ds[i];
      if classOf(ds[|ds| - 1]) in cs then cs else cs + [classOf(ds[|ds| - 1])]
  }

  /** The examples of class `l`, in input order. */
  function Members<E(!new), L(==,!new)>(ds: seq<E>, classOf: E -> L, l: L): (xs: seq<E>)
    ensures forall i :: 0 <= i < |xs| ==> classOf(xs[i]) == l
    ensures |xs| <= |ds|
  {
    if ds == [] then []
    else
      var prefix := ds[..|ds| - 1];
      var x := ds[|ds| - 1];
      assert ds == prefix + [x];
      Members(prefix, classOf, l) + (if classOf(x) == l then [x] else [])
  }

  /** Appending an example adds its class at the end unless the class was already there. */
  lemma ClassesAppend<E(!new), L(!new)>(ds: seq<E>, x: E, classOf: E -> L)
    ensures Classes(ds + [x], classOf) ==
              if classOf(x) in Classes(ds, classOf) then Classes(ds, classOf) else Classes(ds, classOf) + [classOf(x)]
  {
    assert (ds + [x])[..|ds|] == ds;
  }

  /** Appending an example appends it to its own class only. */
  lemma MembersAppend<E(!new), L(!new)>(ds: seq<E>, x: E, classOf: E -> L, l: L)
    ensures Members(ds + [x], classOf, l) == Members(ds, classOf, l) + (if classOf(x) == l then [x] else [])
  {
    assert (ds + [x])[..|ds|] == ds;
  }

  /** The train and eval outputs for the classes `cs`, taken in that order. */
  function Stratify<E(!new), L(==,!new)>(ds: seq<E>, classOf: E -> L, cs: seq<L>, num: nat, den: nat,
                              shuffle: seq<E> -> seq<E>): (parts: (seq<E>, seq<E>))
    requires 0 < den && num <= den
    requires forall s :: multiset(shuffle(s)) == multiset(s)
  {
    if cs == [] then ([], [])
    else
      var before := Stratify(ds, classOf, cs[..|cs| - 1], num, den, shuffle);
      var here := ClassSplit(Members(ds, classOf, cs[|cs| - 1]), num, den, shuffle);
      (before.0 + here.0, before.1 + here.1)
  }

  /** The examples of the classes `cs`, class by class. */
  function Gathered<E(!new), L(==,!new)>(ds: seq<E>, classOf: E -> L, cs: seq<L>): seq<E> {
    if cs == [] then [] else Gathered(ds, classOf, cs[..|cs| - 1]) + Members(ds, classOf, cs[|cs| - 1])
  }

  /**
    The grouping loop of `split_dataset_for_classification`: a dictionary
    from class to its examples in input order, and its keys in insertion
    (first-appearance) order.
   */
  method GroupByClass<E(!new), L(==,!new)>(dataset: seq<E>, classOf: E -> L)
    returns (groups: map<L, seq<E>>, order: seq<L>)
    ensures order == Classes(dataset, classOf)
    ensures forall l :: l in groups <==> l in order
    ensures forall l :: l in groups ==> groups[l] == Members(dataset, classOf, l)
  {
    groups := map[];
    order := [];
    for i := 0 to |dataset|
      invariant Grouped(groups, order, dataset[..i], classOf)
    {
      assert dataset[..i + 1] == dataset[..i] + [dataset[i]];
      groups, order := AddExample(groups, order, dataset[..i], dataset[i], classOf);
    }
    assert dataset[..|dataset|] == dataset;
  }

  /** `groups` and `order` hold the classes of `seen`, and each class's examples in input order. */
  ghost predicate Grouped<E(!new), L(!new)>(groups: map<L, seq<E>>, order: seq<L>, seen: seq<E>, classOf: E -> L) {
    && order == Classes(seen, classOf)
    && (forall l :: l in groups <==> l in order)
    && (forall l :: l in groups ==> groups[l] == Members(seen, classOf, l))
  }

  /** One pass of the grouping loop: `example` joins its class, which is opened if it is new. */
  method AddExample<E(!new), L(==,!new)>(groups: map<L, seq<E>>, order: seq<L>, ghost seen: seq<E>, example: E,
                                         classOf: E -> L)
    returns (groups': map<L, seq<E>>, order': seq<L>)
    requires Grouped(groups, order, seen, classOf)
    ensures Grouped(groups', order', seen + [example], classOf)
  {
    ClassesAppend(seen, example, classOf);
    var l := classOf(example);
    groups', order' := groups, order;
    if l !in groups {
      NoMembersOutsideClasses(seen, classOf, l);
      groups' := groups'[l := []];
      order' := order' + [l];
    }
    groups' := groups'[l := groups'[l] + [example]];
    forall l' | l' in groups'
      ensures groups'[l'] == Members(seen + [example], classOf, l')
    {
      MembersAppend(seen, example, classOf, l');
    }
  }

  /**
    One pass of the class loop of `split_dataset_for_classification`: the
    class's examples are added to train and eval as `ClassSplit` shares them.
   */
  method AddClassShare<E(!new)>(train: seq<E>, eval: seq<E>, examples: seq<E>, num: nat, den: nat,
                                shuffle: seq<E> -> seq<E>)
    returns (train': seq<E>, eval': seq<E>)
    requires 0 < den && num <= den
    requires multiset(shuffle(examples)) == multiset(examples)
    ensures var share := ClassSplit(examples, num, den, shuffle);
            train' == train + share.0 && eval' == eval + share.1
  {
    train', eval' := train, eval;
    var numExamples := |examples|;
    if numExamples == 0 {
      return;
    } else if numExamples == 1 {
      train' := train' + [examples[0]];
    } else if numExamples == 2 {
      train' := train' + [examples[0]];
      eval' := eval' + [examples[1]];
    } else {
      var parts := RandomSplit(examples, num, den, shuffle);
      train' := train' + parts.0;
      eval' := eval' + parts.1;
    }
  }

  /**
    `split_dataset_for_classification`: group the examples by class, keeping
    first-appearance order of the classes and input order within each class,
    then let every class contribute its share to train and eval.
   */
  method SplitForClassification<E(!new), L(==,!new)>(dataset: seq<E>, classOf: E -> L, num: nat, den: nat,
                                          shuffle: seq<E> -> seq<E>)
    returns (train: seq<E>, eval: seq<E>)
    requires 0 < den && num <= den
    requires forall s :: multiset(shuffle(s)) == multiset(s)
    ensures (train, eval) == Stratify(dataset, classOf, Classes(dataset, classOf), num, den, shuffle)
    ensures multiset(train) + multiset(eval) == multiset(dataset)
  {
    var groups, order := GroupByClass(dataset, classOf);
    train, eval := ShareClasses(dataset, classOf, groups, order, num, den, shuffle);
    ClassificationPartition(dataset, classOf, num, den, shuffle);
  }

  /** The class loop of `split_dataset_for_classification`, over the grouped examples. */
  method ShareClasses<E(!new), L(==,!new)>(dataset: seq<E>, classOf: E -> L, groups: map<L, seq<E>>, order: seq<L>,
                                          num: nat, den: nat, shuffle: seq<E> -> seq<E>)
    returns (train: seq<E>, eval: seq<E>)
    requires 0 < den && num <= den
    requires forall s :: multiset(shuffle(s)) == multiset(s)
    requires forall l :: l in order ==> l in groups && groups[l] == Members(dataset, classOf, l)
    ensures (train, eval) == Stratify(dataset, classOf, order, num, den, shuffle)
  {
    train := [];
    eval := [];
    for j := 0 to |order|
      invariant (train, eval) == Stratify(dataset, classOf, order[..j], num, den, shuffle)
    {
      StratifyStep(dataset, classOf, order, j, num, den, shuffle);
      var examples := groups[order[j]];
      assert multiset(shuffle(examples)) == multiset(examples);
      train, eval := AddClassShare(train, eval, examples, num, den, shuffle);
    }
    assert order[..|order|] == order;
  }

  /** Taking one more class of `cs` appends that class's share. */
  lemma StratifyStep<E(!new), L(!new)>(ds: seq<E>, classOf: E -> L, cs: seq<L>, j: nat, num: nat, den: nat,
                                         shuffle: seq<E> -> seq<E>)
    requires j < |cs|
    requires 0 < den && num <= den
    requires forall s :: multiset(shuffle(s)) == multiset(s)
    ensures var before := Stratify(ds, classOf, cs[..j], num, den, shuffle);
            var share := ClassSplit(Members(ds, classOf, cs[j]), num, den, shuffle);
            Stratify(ds, classOf, cs[..j + 1], num, den, shuffle) == (before.0 + share.0, before.1 + share.1)
  {
    assert cs[..j + 1][..j] == cs[..j];
  }

  /** The classification split, over all classes of the dataset, is a rearrangement of the dataset. */
  lemma ClassificationPartition<E(!new), L(!new)>(ds: seq<E>, classOf: E -> L, num: nat, den: nat,
                                                    shuffle: seq<E> -> seq<E>)
    requires 0 < den && num <= den
    requires forall s :: multiset(shuffle(s)) == multiset(s)
    ensures var parts := Stratify(ds, classOf, Classes(ds, classOf), num, den, shuffle);
            multiset(parts.0) + multiset(parts.1) == multiset(ds)
  {
    StratifyPartition(ds, classOf, Classes(ds, classOf), num, den, shuffle);
    GatheredClasses(ds, classOf);
  }

  /** Stratifying loses and invents nothing: train and eval together are the gathered classes. */
  lemma {:induction false} StratifyPartition<E(!new), L(!new)>(ds: seq<E>, classOf: E -> L, cs: seq<L>, num: nat, den: nat,
                                                     shuffle: seq<E> -> seq<E>)
    requires 0 < den && num <= den
    requires forall s :: multiset(shuffle(s)) == multiset(s)
    ensures var parts := Stratify(ds, classOf, cs, num, den, shuffle);
            multiset(parts.0) + multiset(parts.1) == multiset(Gathered(ds, classOf, cs))
  {
    if cs != [] {
      StratifyPartition(ds, classOf, cs[..|cs| - 1], num, den, shuffle);
    }
  }

  /** A label that never occurs has no members. */
  lemma {:induction false} NoMembersOutsideClasses<E(!new), L(!new)>(ds: seq<E>, classOf: E -> L, l: L)
    requires l !in Classes(ds, classOf)
    ensures Members(ds, classOf, l) == []
  {
    if ds != [] {
      var prefix := ds[..|ds| - 1];
      assert forall i :: 0 <= i < |prefix| ==> prefix[i] == ds[i];
      NoMembersOutsideClasses(prefix, classOf, l);
    }
  }

  /** Appending an example of a class outside `cs` leaves the gathered classes as they were. */
  lemma {:induction false} GatheredAppendOther<E(!new), L(!new)>(ds: seq<E>, x: E, classOf: E -> L, cs: seq<L>)
    requires classOf(x) !in cs
    ensures Gathered(ds + [x], classOf, cs) == Gathered(ds, classOf, cs)
  {
    if cs != [] {
      var init := cs[..|cs| - 1];
      var c := cs[|cs| - 1];
      assert classOf(x) !in init;
      GatheredAppendOther(ds, x, classOf, init);
      MembersAppend(ds, x, classOf, c);
    }
  }

  /** Appending an example of one of the distinct classes `cs` adds it to the gathered classes once. */
  lemma {:induction false} GatheredAppendOwn<E(!new), L(!new)>(ds: seq<E>, x: E, classOf: E -> L, cs: seq<L>)
    requires forall i, j :: 0 <= i < j < |cs| ==> cs[i] != cs[j]
    requires classOf(x) in cs
    ensures multiset(Gathered(ds + [x], classOf, cs)) == multiset(Gathered(ds, classOf, cs)) + multiset{x}
  {
    var init := cs[..|cs| - 1];
    var c := cs[|cs| - 1];
    var ds' := ds + [x];
    var before := Gathered(ds, classOf, init);
    var after := Gathered(ds', classOf, init);
    assert Gathered(ds, classOf, cs) == before + Members(ds, classOf, c);
    assert Gathered(ds', classOf, cs) == after + Members(ds', classOf, c);
    MembersAppend(ds, x, classOf, c);
    assert forall i, j :: 0 <= i < j < |init| ==> init[i] != init[j];
    if classOf(x) == c {
      assert classOf(x) !in init;
      GatheredAppendOther(ds, x, classOf, init);
      GrowsRight(before, Members(ds, classOf, c), x);
    } else {
      assert classOf(x) in init;
      GatheredAppendOwn(ds, x, classOf, init);
      GrowsLeft(before, after, Members(ds, classOf, c), x);
    }
  }

  lemma GrowsRight<E>(a: seq<E>, b: seq<E>, x: E)
    ensures multiset(a + (b + [x])) == multiset(a + b) + multiset{x}
  {
  }

  lemma GrowsLeft<E>(a: seq<E>, a': seq<E>, b: seq<E>, x: E)
    requires multiset(a') == multiset(a) + multiset{x}
    ensures multiset(a' + b) == multiset(a + b) + multiset{x}
  {
  }

  /** Gathering every class of the dataset is a rearrangement of the dataset. */
  lemma {:induction false} GatheredClasses<E(!new), L(!new)>(ds: seq<E>, classOf: E -> L)
    ensures multiset(Gathered(ds, classOf, Classes(ds, classOf))) == multiset(ds)
  {
    if ds != [] {
      var prefix := ds[..|ds| - 1];
      var x := ds[|ds| - 1];
      assert ds == prefix + [x];
      var cs := Classes(prefix, classOf);
      GatheredClasses(prefix, classOf);
      if classOf(x) in cs {
        GatheredAppendOwn(prefix, x, classOf, cs);
      } else {
        GatheredAppendOther(prefix, x, classOf, cs);
        NoMembersOutsideClasses(prefix, classOf, classOf(x));
        assert Members(ds, classOf, classOf(x)) == [x];
        assert Classes(ds, classOf) == cs + [classOf(x)];
        assert (cs + [classOf(x)])[..|cs|] == cs;
      }
    }
  }
}
