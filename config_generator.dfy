/**
 * The configuration sweep: parameters are sorted by name once, and
 * iterating yields one configuration per element of the Cartesian product
 * of the parameters' value lists, in lexicographic order (the alphabetically
 * last parameter varies fastest), each with a seed attached.
 */
module ConfigGenerator {
  import opened Common
  import opened Parameters

  // ---------------------------------------------------------------------
  // Sorting parameters by name
  // ---------------------------------------------------------------------

  /** Python's string order: lexicographic by code point. */
  predicate NameLe(a: string, b: string)
  {
    |a| == 0 || (|b| > 0 && (a[0] < b[0] || (a[0] == b[0] && NameLe(a[1..], b[1..]))))
  }

  lemma {:induction false} NameLeTotal(a: string, b: string)
    ensures NameLe(a, b) || NameLe(b, a)
  {
    if |a| > 0 && |b| > 0 && a[0] == b[0] {
      NameLeTotal(a[1..], b[1..]);
    }
  }

  lemma {:induction false} NameLeTransitive(a: string, b: string, c: string)
    requires NameLe(a, b) && NameLe(b, c)
    ensures NameLe(a, c)
  {
    if |a| > 0 && a[0] == b[0] && b[0] == c[0] {
      NameLeTransitive(a[1..], b[1..], c[1..]);
    }
  }

  ghost predicate SortedByName(ps: seq<Parameter>)
  {
    forall i, j :: 0 <= i < j < |ps| ==> NameLe(ps[i].name, ps[j].name)
  }

  /** Inserts `p` after every parameter whose name is not greater (keeps equal names in order). */
  function Insert(p: Parameter, s: seq<Parameter>): (r: seq<Parameter>)
    ensures multiset(r) == multiset(s) + multiset{p}
  {
    if |s| == 0 then [p]
    else if NameLe(s[|s| - 1].name, p.name) then s + [p]
    else
      assert s == s[..|s| - 1] + [s[|s| - 1]];
      Insert(p, s[..|s| - 1]) + [s[|s| - 1]]
  }

  /** `sorted(parameters, key=lambda p: p.name)`, as a stable insertion sort. */
  function SortByName(ps: seq<Parameter>): (r: seq<Parameter>)
    ensures multiset(r) == multiset(ps)
  {
    if |ps| == 0 then []
    else
      assert ps == ps[..|ps| - 1] + [ps[|ps| - 1]];
      Insert(ps[|ps| - 1], SortByName(ps[..|ps| - 1]))
  }

  lemma {:induction false} InsertSorted(p: Parameter, s: seq<Parameter>)
    requires SortedByName(s)
    ensures SortedByName(Insert(p, s))
  {
    if |s| > 0 && !NameLe(s[|s| - 1].name, p.name) {
      InsertSorted(p, s[..|s| - 1]);
      InsertBeforeLast(p, s);
    } else if |s| > 0 {
      AppendSorted(p, s);
    }
  }

  /** Appending a parameter whose name is not below the last one keeps name order. */
  lemma AppendSorted(p: Parameter, s: seq<Parameter>)
    requires SortedByName(s) && |s| > 0 && NameLe(s[|s| - 1].name, p.name)
    ensures SortedByName(s + [p])
  {
    var r := s + [p];
    forall i, j | 0 <= i < j < |r|
      ensures NameLe(r[i].name, r[j].name)
    {
      if j == |r| - 1 && i < |s| - 1 {
        NameLeTransitive(r[i].name, s[|s| - 1].name, p.name);
      }
    }
  }

  /** The insertion step that passes the last element: it stays last. */
  lemma InsertBeforeLast(p: Parameter, s: seq<Parameter>)
    requires SortedByName(s) && |s| > 0 && !NameLe(s[|s| - 1].name, p.name)
    requires SortedByName(Insert(p, s[..|s| - 1]))
    ensures SortedByName(Insert(p, s))
  {
    var init := s[..|s| - 1];
    var last := s[|s| - 1];
    NameLeTotal(p.name, last.name);
    var front := Insert(p, init);
    forall x | x in front
      ensures NameLe(x.name, last.name)
    {
      assert x in multiset(front);
      if x != p {
        assert x in multiset(init);
        var k :| 0 <= k < |init| && init[k] == x;
        assert s[k] == x;
      }
    }
    var r := front + [last];
    assert Insert(p, s) == r;
    forall i, j | 0 <= i < j < |r|
      ensures NameLe(r[i].name, r[j].name)
    {
      if j == |r| - 1 {
        assert r[i] in front;
      }
    }
  }

  /** Sorting yields the same parameters, in ascending name order. */
  lemma {:induction false} SortByNameSorted(ps: seq<Parameter>)
    ensures SortedByName(SortByName(ps))
    ensures multiset(SortByName(ps)) == multiset(ps)
  {
    if |ps| > 0 {
      SortByNameSorted(ps[..|ps| - 1]);
      InsertSorted(ps[|ps| - 1], SortByName(ps[..|ps| - 1]));
    }
  }

  // ---------------------------------------------------------------------
  // The generator
  // ---------------------------------------------------------------------

  /** A configuration value: the seed, or one parameter's value. */
  datatype Setting = Seed(seed: int) | Value(item: Item)

  type Config = map<string, Setting>

  datatype ConfigError =
    | ParameterFailed(error: ParameterError)  // some parameter's generator raised or never stops
    | IndexError                              // fewer seeds than configurations

  /** A generator as built by `ConfigGenerator(parameters, seeds)`: the parameters are already sorted. */
  datatype Generator = Generator(parameters: seq<Parameter>, seeds: Option<seq<int>>)

  /** `ConfigGenerator.__init__`. */
  function NewGenerator(parameters: seq<Parameter>, seeds: Option<seq<int>>): (g: Generator)
    ensures SortedByName(g.parameters)
    ensures multiset(g.parameters) == multiset(parameters)
    ensures g.seeds == seeds
  {
    SortByNameSorted(parameters);
    Generator(SortByName(parameters), seeds)
  }

  function Names(ps: seq<Parameter>): (r: seq<string>)
    ensures |r| == |ps|
    ensures forall i :: 0 <= i < |ps| ==> r[i] == ps[i].name
  {
    seq(|ps|, i requires 0 <= i < |ps| => ps[i].name)
  }

  /** `get_parameter_names`: "seed" first, then the names in sorted order. */
  function ParameterNames(g: Generator): (r: seq<string>)
    ensures |r| == |g.parameters| + 1 && r[0] == "seed"
    ensures r[1..] == Names(g.parameters)
  {
    ["seed"] + Names(g.parameters)
  }

  /** `[list(parameter) for parameter in self.parameters]`; the first failure propagates. */
  function AllValues(ps: seq<Parameter>): (r: Result<seq<seq<Item>>, ParameterError>)
    ensures r.Success? ==> |r.value| == |ps| && forall j :: 0 <= j < |ps| ==> Values(ps[j]) == Success(r.value[j])
    ensures r.Failure? ==> exists j :: 0 <= j < |ps| && Values(ps[j]).Failure?
  {
    if |ps| == 0 then Success([])
    else match Values(ps[0])
      case Failure(e) => Failure(e)
      case Success(first) =>
        match AllValues(ps[1..])
        case Failure(e) => Failure(e)
        case Success(rest) => Success([first] + rest)
  }

  /** Every list in `P`, with `x` in front. */
  function PrependAll(x: Item, p: seq<seq<Item>>): (r: seq<seq<Item>>)
    ensures |r| == |p|
    ensures forall j :: 0 <= j < |p| ==> r[j] == [x] + p[j]
  {
    seq(|p|, j requires 0 <= j < |p| => [x] + p[j])
  }

  function ProductWith(l: seq<Item>, p: seq<seq<Item>>): seq<seq<Item>>
  {
    if |l| == 0 then [] else PrependAll(l[0], p) + ProductWith(l[1..], p)
  }

  /** `itertools.product(*lists)`. */
  function Product(lists: seq<seq<Item>>): seq<seq<Item>>
  {
    if |lists| == 0 then [[]] else ProductWith(lists[0], Product(lists[1..]))
  }

  /** The product of the list lengths. */
  function Size(lists: seq<seq<Item>>): nat
  {
    if |lists| == 0 then 1 else |lists[0]| * Size(lists[1..])
  }

  /** Python's `config = {name_j: combination[j]}`: a later equal name overwrites an earlier one. */
  function Assign(names: seq<string>, combination: seq<Item>): (m: map<string, Setting>)
    requires |names| == |combination|
    ensures m.Keys == Elements(names)
  {
    if |names| == 0 then map[]
    else
      var n := |names| - 1;
      assert Elements(names) == Elements(names[..n]) + {names[n]} by {
        assert names == names[..n] + [names[n]];
      }
      Assign(names[..n], combination[..n])[names[n] := Value(combination[n])]
  }

  /** The `i`-th seed: `seeds[i]`, or the wall clock when no seeds were given. */
  function SeedAt(seeds: Option<seq<int>>, clock: nat -> int, i: nat): int
    requires seeds.Some? ==> i < |seeds.value|
  {
    if seeds.Some? then seeds.value[i] else clock(i)
  }

  /**
   * `list(generator)`: every configuration in product order. `clock(i)` is
   * `int(time.time())` read when the `i`-th configuration is built.
   */
  function Configs(g: Generator, clock: nat -> int): Result<seq<Config>, ConfigError>
  {
    match AllValues(g.parameters)
    case Failure(e) => Failure(ParameterFailed(e))
    case Success(lists) =>
      var combinations := Product(lists);
      if g.seeds.Some? && |g.seeds.value| < |combinations| then Failure(IndexError)
      else
        Success(seq(|combinations|, i requires 0 <= i < |combinations| =>
          ProductMembers(lists, i);
          Assign(Names(g.parameters), combinations[i])["seed" := Seed(SeedAt(g.seeds, clock, i))]))
  }

  // ---------------------------------------------------------------------
  // Properties of the product and of the configurations
  // ---------------------------------------------------------------------

  lemma {:induction false} ProductWithLength(l: seq<Item>, p: seq<seq<Item>>)
    ensures |ProductWith(l, p)| == |l| * |p|
  {
    if |l| > 0 {
      ProductWithLength(l[1..], p);
    }
  }

  /** There is one combination per choice of one value from each list. */
  lemma {:induction false} ProductLength(lists: seq<seq<Item>>)
    ensures |Product(lists)| == Size(lists)
  {
    if |lists| > 0 {
      ProductLength(lists[1..]);
      ProductWithLength(lists[0], Product(lists[1..]));
    }
  }

  lemma MulStep(a: nat, n: nat)
    ensures a * n + n == (a + 1) * n
  {
  }

  lemma MulBelow(a: nat, b: nat, k: nat, n: nat)
    requires a < k && b < n
    ensures a * n + b < k * n
  {
    MulStep(a, n);
    assert (a + 1) * n <= k * n;
  }

  /**
   * Within `ProductWith(l, P)` the element of `l` changes slowest and `P`
   * fastest: position `a * |P| + b` holds `l[a]` followed by `P[b]`.
   */
  lemma {:induction false} ProductWithIndex(l: seq<Item>, p: seq<seq<Item>>, a: nat, b: nat)
    requires a < |l| && b < |p|
    ensures a * |p| + b < |ProductWith(l, p)|
    ensures ProductWith(l, p)[a * |p| + b] == [l[a]] + p[b]
  {
    ProductWithLength(l, p);
    MulBelow(a, b, |l|, |p|);
    if a > 0 {
      ProductWithIndex(l[1..], p, a - 1, b);
      MulStep(a - 1, |p|);
      assert ProductWith(l, p)[a * |p| + b] == ProductWith(l[1..], p)[(a - 1) * |p| + b];
    }
  }

  /**
   * Lexicographic order, the last list varying fastest: combination
   * `a * Size(rest) + b` takes value `a` of the first list followed by
   * combination `b` of the rest.
   */
  lemma ProductOrder(lists: seq<seq<Item>>, a: nat, b: nat)
    requires |lists| > 0 && a < |lists[0]| && b < Size(lists[1..])
    ensures |Product(lists[1..])| == Size(lists[1..])
    ensures a * Size(lists[1..]) + b < |Product(lists)|
    ensures Product(lists)[a * Size(lists[1..]) + b] == [lists[0][a]] + Product(lists[1..])[b]
  {
    ProductLength(lists[1..]);
    ProductWithIndex(lists[0], Product(lists[1..]), a, b);
  }

  /** Every combination of `ProductWith(l, P)` is an element of `l` in front of a member of `P`. */
  lemma {:induction false} ProductWithMembers(l: seq<Item>, p: seq<seq<Item>>, i: nat)
    requires i < |ProductWith(l, p)|
    ensures |ProductWith(l, p)[i]| > 0
    ensures ProductWith(l, p)[i][0] in l && ProductWith(l, p)[i][1..] in p
  {
    if i >= |p| {
      ProductWithMembers(l[1..], p, i - |p|);
    } else {
      assert ProductWith(l, p)[i] == [l[0]] + p[i];
    }
  }

  /** Combination `i` picks, for every position `j`, one value of list `j`. */
  lemma {:induction false} ProductMembers(lists: seq<seq<Item>>, i: nat)
    requires i < |Product(lists)|
    ensures |Product(lists)[i]| == |lists|
    ensures forall j :: 0 <= j < |lists| ==> Product(lists)[i][j] in lists[j]
  {
    if |lists| > 0 {
      var rest := lists[1..];
      var c := Product(lists)[i];
      ProductWithMembers(lists[0], Product(rest), i);
      var k :| 0 <= k < |Product(rest)| && Product(rest)[k] == c[1..];
      ProductMembers(rest, k);
      forall j | 0 <= j < |lists|
        ensures c[j] in lists[j]
      {
        if j > 0 {
          assert c[j] == c[1..][j - 1];
        }
      }
    }
  }

  /** The number of configurations is the product of the parameters' value counts. */
  lemma ConfigCount(g: Generator, clock: nat -> int)
    requires Configs(g, clock).Success?
    ensures |Configs(g, clock).value| == Size(AllValues(g.parameters).value)
  {
    ProductLength(AllValues(g.parameters).value);
  }

  /** Without enough seeds the sweep raises once it runs out; with no seeds it never does. */
  lemma ConfigSeedsSuffice(g: Generator, clock: nat -> int)
    requires AllValues(g.parameters).Success?
    ensures Configs(g, clock).Success? <==>
      g.seeds.None? || |g.seeds.value| >= Size(AllValues(g.parameters).value)
  {
    ProductLength(AllValues(g.parameters).value);
  }

  /**
   * Configuration `i` has exactly the parameter names and "seed" as keys,
   * its seed is `seeds[i]` when seeds were given, and (with distinct names
   * other than "seed") each parameter is mapped to a value of its own list.
   */
  lemma ConfigContents(g: Generator, clock: nat -> int, i: nat)
    requires Configs(g, clock).Success? && i < |Configs(g, clock).value|
    ensures var c := Configs(g, clock).value[i];
      && c.Keys == Elements(Names(g.parameters)) + {"seed"}
      && c["seed"] == Seed(SeedAt(g.seeds, clock, i))
      && (g.seeds.Some? ==> c["seed"] == Seed(g.seeds.value[i]))
  {
  }

  /** A parameter with a distinct name is mapped to the value its position in the combination holds. */
  lemma {:induction false} AssignDistinct(names: seq<string>, combination: seq<Item>, j: nat)
    requires |names| == |combination| && j < |names|
    requires forall k :: 0 <= k < |names| && k != j ==> names[k] != names[j]
    ensures Assign(names, combination)[names[j]] == Value(combination[j])
  {
    var n := |names| - 1;
    if j < n {
      AssignDistinct(names[..n], combination[..n], j);
    }
  }

  /** Configuration `i` is built from combination `i` of the parameters' values. */
  lemma ConfigAt(g: Generator, clock: nat -> int, i: nat)
    requires Configs(g, clock).Success? && i < |Configs(g, clock).value|
    ensures var lists := AllValues(g.parameters).value;
      && AllValues(g.parameters).Success?
      && i < |Product(lists)| && |Product(lists)[i]| == |g.parameters|
      && Configs(g, clock).value[i] ==
           Assign(Names(g.parameters), Product(lists)[i])["seed" := Seed(SeedAt(g.seeds, clock, i))]
  {
    ProductMembers(AllValues(g.parameters).value, i);
  }

  lemma ConfigValues(g: Generator, clock: nat -> int, i: nat, j: nat)
    requires Configs(g, clock).Success? && i < |Configs(g, clock).value|
    requires j < |g.parameters| && g.parameters[j].name != "seed"
    requires forall k :: 0 <= k < |g.parameters| && k != j ==> g.parameters[k].name != g.parameters[j].name
    ensures var lists := AllValues(g.parameters).value;
      i < |Product(lists)| && |Product(lists)[i]| == |g.parameters|
    ensures var lists := AllValues(g.parameters).value;
      && Configs(g, clock).value[i][g.parameters[j].name] == Value(Product(lists)[i][j])
      && Product(lists)[i][j] in lists[j]
  {
    var lists := AllValues(g.parameters).value;
    ConfigAt(g, clock, i);
    ProductMembers(lists, i);
    var names := Names(g.parameters);
    var c := Product(lists)[i];
    assert forall k :: 0 <= k < |names| && k != j ==> names[k] != names[j];
    AssignDistinct(names, c, j);
    SeedKeepsOthers(Assign(names, c), names[j], Seed(SeedAt(g.seeds, clock, i)));
  }

  lemma SeedKeepsOthers(m: map<string, Setting>, k: string, v: Setting)
    requires k != "seed" && k in m
    ensures k in m["seed" := v] && m["seed" := v][k] == m[k]
  {
  }

  /** With seeds given, iterating twice (at different wall-clock times) yields identical lists. */
  lemma RepeatIterationAgrees(g: Generator, clock1: nat -> int, clock2: nat -> int)
    requires g.seeds.Some?
    ensures Configs(g, clock1) == Configs(g, clock2)
  {
    match AllValues(g.parameters)
    case Failure(_) =>
    case Success(lists) =>
      var combinations := Product(lists);
      if |g.seeds.value| >= |combinations| {
        var a := Configs(g, clock1).value;
        var b := Configs(g, clock2).value;
        assert |a| == |b|;
        forall i | 0 <= i < |a|
          ensures a[i] == b[i]
        {
          ConfigAt(g, clock1, i);
          ConfigAt(g, clock2, i);
        }
        assert a == b;
      }
  }

  // ---------------------------------------------------------------------
  // The mixed-values sweep: a = 1; b from 2 to 9 in steps of 7; c as three values from 0 to 4
  // ---------------------------------------------------------------------

  const MixedParameters: seq<Parameter> := [
    Parameter("a", Num(1.0), Missing, None, None, None),
    Parameter("b", Num(2.0), Num(9.0), None, Some(7.0), None),
    Parameter("c", Num(0.0), Num(4.0), Some(3), None, None)]

  const MixedLists: seq<seq<Item>> := [[Num(1.0)], [Num(2.0), Num(9.0)], [Num(0.0), Num(2.0), Num(4.0)]]

  /** Sorting a list that is already in name order leaves it as it is. */
  lemma {:induction false} SortByNameKeepsSorted(ps: seq<Parameter>)
    requires SortedByName(ps)
    ensures SortByName(ps) == ps
  {
    if |ps| > 0 {
      var init := ps[..|ps| - 1];
      assert SortedByName(init);
      SortByNameKeepsSorted(init);
      if |init| > 0 {
        assert init[|init| - 1] == ps[|ps| - 2];
        assert NameLe(init[|init| - 1].name, ps[|ps| - 1].name);
      }
      assert ps == init + [ps[|ps| - 1]];
    }
  }

  lemma MixedSorted()
    ensures NewGenerator(MixedParameters, Some([0, 0, 0, 0, 0, 0])).parameters == MixedParameters
  {
    var ps := MixedParameters;
    assert NameLe("a", "b") && NameLe("b", "c") && NameLe("a", "c");
    assert SortedByName(ps);
    SortByNameKeepsSorted(ps);
  }

  lemma MixedValues()
    ensures AllValues(MixedParameters) == Success(MixedLists)
  {
    var ps := MixedParameters;
    SingleValueShape(ps[0]);
    assert (9.0 - 2.0) / 7.0 == 1.0;
    assert StepCount(2.0, 9.0, 7.0) == 2;
    assert Arithmetic(2.0, 7.0, 2) == [Num(2.0), Num(9.0)];
    assert Values(ps[1]) == Success(MixedLists[1]);
    assert (4.0 - 0.0) / ((3 - 1) as real) == 2.0;
    assert Arithmetic(0.0, 2.0, 3) == [Num(0.0), Num(2.0), Num(4.0)];
    assert Values(ps[2]) == Success(MixedLists[2]);
    assert ps[1..] == [ps[1], ps[2]];
    assert [ps[1], ps[2]][1..] == [ps[2]];
    assert [ps[2]][1..] == [];
    assert [MixedLists[2]] + [] == [MixedLists[2]];
    assert AllValues([ps[2]]) == Success([MixedLists[2]]);
    assert [MixedLists[1]] + [MixedLists[2]] == MixedLists[1..];
    assert AllValues(ps[1..]) == Success(MixedLists[1..]);
    assert [MixedLists[0]] + MixedLists[1..] == MixedLists;
  }

  /** `ProductWith` of a single value is that value in front of every member. */
  lemma ProductWithSingle(x: Item, p: seq<seq<Item>>)
    ensures ProductWith([x], p) == PrependAll(x, p)
  {
    assert [x][1..] == [];
    assert PrependAll(x, p) + [] == PrependAll(x, p);
  }

  lemma ProductWithPair(x: Item, y: Item, p: seq<seq<Item>>)
    ensures ProductWith([x, y], p) == PrependAll(x, p) + PrependAll(y, p)
  {
    assert [x, y][1..] == [y];
    ProductWithSingle(y, p);
  }

  lemma ProductWithTriple(x: Item, y: Item, z: Item, p: seq<seq<Item>>)
    ensures ProductWith([x, y, z], p) == PrependAll(x, p) + PrependAll(y, p) + PrependAll(z, p)
  {
    assert [x, y, z][1..] == [y, z];
    ProductWithPair(y, z, p);
  }

  lemma PrependAllThree(x: Item, a: Item, b: Item, c: Item)
    ensures PrependAll(x, [[a], [b], [c]]) == [[x, a], [x, b], [x, c]]
  {
    assert [x] + [a] == [x, a] && [x] + [b] == [x, b] && [x] + [c] == [x, c];
  }

  lemma PrependAllEmpty(x: Item)
    ensures PrependAll(x, [[]]) == [[x]]
  {
    assert [x] + [] == [x];
  }

  lemma ProductSingleList(l: seq<Item>)
    ensures Product([l]) == ProductWith(l, [[]])
  {
    assert [l][1..] == [];
  }

  lemma MixedLastProduct()
    ensures Product([MixedLists[2]]) == [[Num(0.0)], [Num(2.0)], [Num(4.0)]]
  {
    ProductSingleList(MixedLists[2]);
    ProductWithTriple(Num(0.0), Num(2.0), Num(4.0), [[]]);
    PrependAllEmpty(Num(0.0));
    PrependAllEmpty(Num(2.0));
    PrependAllEmpty(Num(4.0));
  }

  lemma MixedTailProduct()
    ensures Product(MixedLists[1..]) == [
      [Num(2.0), Num(0.0)], [Num(2.0), Num(2.0)], [Num(2.0), Num(4.0)],
      [Num(9.0), Num(0.0)], [Num(9.0), Num(2.0)], [Num(9.0), Num(4.0)]]
  {
    var c := [[Num(0.0)], [Num(2.0)], [Num(4.0)]];
    assert MixedLists[1..] == [[Num(2.0), Num(9.0)], MixedLists[2]];
    assert MixedLists[1..][1..] == [MixedLists[2]];
    MixedLastProduct();
    assert Product(MixedLists[1..]) == ProductWith([Num(2.0), Num(9.0)], c);
    ProductWithPair(Num(2.0), Num(9.0), c);
    PrependAllThree(Num(2.0), Num(0.0), Num(2.0), Num(4.0));
    PrependAllThree(Num(9.0), Num(0.0), Num(2.0), Num(4.0));
  }

  lemma MixedProduct()
    ensures Product(MixedLists) == [
      [Num(1.0), Num(2.0), Num(0.0)], [Num(1.0), Num(2.0), Num(2.0)], [Num(1.0), Num(2.0), Num(4.0)],
      [Num(1.0), Num(9.0), Num(0.0)], [Num(1.0), Num(9.0), Num(2.0)], [Num(1.0), Num(9.0), Num(4.0)]]
  {
    var bc := [[Num(2.0), Num(0.0)], [Num(2.0), Num(2.0)], [Num(2.0), Num(4.0)],
               [Num(9.0), Num(0.0)], [Num(9.0), Num(2.0)], [Num(9.0), Num(4.0)]];
    MixedTailProduct();
    ProductWithSingle(Num(1.0), bc);
    assert forall k :: 0 <= k < 6 ==> [Num(1.0)] + bc[k] == [Num(1.0), bc[k][0], bc[k][1]];
  }

  /** Assigning three distinct names builds the three-entry dictionary. */
  lemma AssignThree(x: Item, y: Item, z: Item)
    ensures Assign(["a", "b", "c"], [x, y, z]) == map["a" := Value(x), "b" := Value(y), "c" := Value(z)]
  {
    var names: seq<string> := ["a", "b", "c"];
    var c := [x, y, z];
    assert names[..2] == ["a", "b"] && names[..2][..1] == ["a"] && names[..2][..1][..0] == [];
    assert c[..2] == [x, y] && c[..2][..1] == [x] && c[..2][..1][..0] == [];
    assert Assign([], []) == map[];
    assert Assign(["a"], [x]) == map["a" := Value(x)];
    assert Assign(["a", "b"], [x, y]) == map["a" := Value(x), "b" := Value(y)];
  }

  /** The three-parameter sweep with six seeds: six configurations, `c` varying fastest. */
  lemma MixedExample()
    ensures var configs := Configs(NewGenerator(MixedParameters, Some([0, 0, 0, 0, 0, 0])), i => 0);
      && configs.Success? && |configs.value| == 6
      && configs.value[0] == map["a" := Value(Num(1.0)), "b" := Value(Num(2.0)), "c" := Value(Num(0.0)), "seed" := Seed(0)]
      && configs.value[1] == map["a" := Value(Num(1.0)), "b" := Value(Num(2.0)), "c" := Value(Num(2.0)), "seed" := Seed(0)]
      && configs.value[5] == map["a" := Value(Num(1.0)), "b" := Value(Num(9.0)), "c" := Value(Num(4.0)), "seed" := Seed(0)]
  {
    var seeds := Some([0, 0, 0, 0, 0, 0]);
    MixedSorted();
    var g := NewGenerator(MixedParameters, seeds);
    assert g == Generator(MixedParameters, seeds);
    MixedConfigs();
  }

  lemma MixedConfigs()
    ensures var configs := Configs(Generator(MixedParameters, Some([0, 0, 0, 0, 0, 0])), i => 0);
      && configs.Success? && |configs.value| == 6
      && configs.value[0] == map["a" := Value(Num(1.0)), "b" := Value(Num(2.0)), "c" := Value(Num(0.0)), "seed" := Seed(0)]
      && configs.value[1] == map["a" := Value(Num(1.0)), "b" := Value(Num(2.0)), "c" := Value(Num(2.0)), "seed" := Seed(0)]
      && configs.value[5] == map["a" := Value(Num(1.0)), "b" := Value(Num(9.0)), "c" := Value(Num(4.0)), "seed" := Seed(0)]
  {
    var g := Generator(MixedParameters, Some([0, 0, 0, 0, 0, 0]));
    var clock: nat -> int := i => 0;
    MixedValues();
    MixedProduct();
    assert Names(g.parameters) == ["a", "b", "c"];
    var configs := Configs(g, clock);
    assert configs.Success?;
    assert |configs.value| == 6;
    ConfigAt(g, clock, 0);
    ConfigAt(g, clock, 1);
    ConfigAt(g, clock, 5);
    AssignThree(Num(1.0), Num(2.0), Num(0.0));
    AssignThree(Num(1.0), Num(2.0), Num(2.0));
    AssignThree(Num(1.0), Num(9.0), Num(4.0));
  }
}
