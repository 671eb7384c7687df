/**
 * Selection of the instrumented methods of a run (package
 * com.google.caliper.runner): every configured instrument is paired with
 * every benchmark method it accepts, narrowed to the requested method names
 * when any are requested, and a request naming a method the benchmark class
 * does not have is refused.
 *
 * The requested names arrive as an immutable set with a fixed iteration
 * order; they are kept here as a sequence in that order.
 */
module Runner {
  import opened JavaText

  datatype TrialSchedulingPolicy = Serial | Parallel

  /** A benchmark method found on the user's benchmark class: its name and its parameter types. */
  datatype BenchmarkMethod = BenchmarkMethod(name: string, parameterTypes: seq<string>)

  /** How an instrument answers `isBenchmarkMethod`: for every method, or by the method's parameter list. */
  datatype Eligibility = AnyMethod | ParameterLists(accepted: set<seq<string>>)

  /** A measurement strategy; `id` tells apart instruments that behave alike. */
  datatype Instrument = Instrument(id: string, eligibility: Eligibility, policy: TrialSchedulingPolicy)

  /** The pairing of one instrument with one benchmark method, the unit of scheduling. */
  datatype InstrumentedMethod = InstrumentedMethod(instrument: Instrument, benchmarkMethod: BenchmarkMethod)

  /** The refusal of a request: the names that match no method, and the message. */
  datatype InvalidBenchmarkError = InvalidBenchmarkError(unmatched: seq<string>, message: string)

  datatype Result<T> = Success(value: T) | Failure(error: InvalidBenchmarkError)

  predicate IsBenchmarkMethod(instrument: Instrument, m: BenchmarkMethod) {
    match instrument.eligibility
    case AnyMethod => true
    case ParameterLists(accepted) => m.parameterTypes in accepted
  }

  /** The instrument of the tests: it accepts every method and asks for serial trials. */
  function FakeInstrument(id: string): (i: Instrument)
    ensures forall m :: IsBenchmarkMethod(i, m)
    ensures i.policy == Serial && i.id == id
  {
    Instrument(id, AnyMethod, Serial)
  }

  // ---------------------------------------------------------------------
  // The selection

  /** A method is wanted when no names are requested or its name is one of them. */
  predicate Requested(names: seq<string>, m: BenchmarkMethod) {
    |names| == 0 || m.name in names
  }

  predicate NoMethodNamed(methods: set<BenchmarkMethod>, name: string) {
    !exists m :: m in methods && m.name == name
  }

  /** The requested names that no method of the class carries, each once, in order of first request. */
  function UnmatchedNames(names: seq<string>, methods: set<BenchmarkMethod>): seq<string> {
    if names == [] then []
    else
      var init, last := names[..|names| - 1], names[|names| - 1];
      UnmatchedNames(init, methods) + (if NoMethodNamed(methods, last) && last !in init then [last] else [])
  }

  /** The pairs an instrument contributes for the methods it accepts among those wanted. */
  function Selection(names: seq<string>, methods: set<BenchmarkMethod>, instruments: set<Instrument>): set<InstrumentedMethod> {
    set i, m | i in instruments && m in methods && IsBenchmarkMethod(i, m) && Requested(names, m) :: InstrumentedMethod(i, m)
  }

  /** `AbstractCollection.toString`: the elements between brackets, separated by a comma and a space. */
  function FormatNames(names: seq<string>): string {
    "[" + Join(names, ", ") + "]"
  }

  const INVALID_NAMES_PREFIX: string := "Invalid benchmark method(s) specified in options: "

  /**
   * `provideInstrumentedMethods`: the set of instrumented methods of the run,
   * or, when some requested name matches no method of the class, the failure
   * that lists every such name once, in ascending order.
   */
  function ProvideInstrumentedMethods(names: seq<string>, methods: set<BenchmarkMethod>, instruments: set<Instrument>)
    : (r: Result<set<InstrumentedMethod>>)
    ensures r.Failure? <==> exists n :: n in names && NoMethodNamed(methods, n)
    ensures r.Failure? ==>
      && StrictlySorted(r.error.unmatched)
      && (forall n :: n in r.error.unmatched <==> n in names && NoMethodNamed(methods, n))
      && r.error.message == INVALID_NAMES_PREFIX + FormatNames(r.error.unmatched)
    ensures r.Success? ==> forall im :: im in r.value <==>
      && im.instrument in instruments
      && im.benchmarkMethod in methods
      && IsBenchmarkMethod(im.instrument, im.benchmarkMethod)
      && Requested(names, im.benchmarkMethod)
  {
    var unmatched := UnmatchedNames(names, methods);
    UnmatchedNamesMembers(names, methods);
    if unmatched == [] then
      Success(Selection(names, methods, instruments))
    else
      assert unmatched[0] in unmatched;
      var sorted := SortStrings(unmatched);
      forall n ensures multiset(sorted)[n] <= 1 {
        UnmatchedNamesCounts(names, methods, n);
      }
      SortedDistinctIsStrict(sorted);
      assert forall n :: n in sorted <==> n in multiset(unmatched);
      Failure(InvalidBenchmarkError(sorted, INVALID_NAMES_PREFIX + FormatNames(sorted)))
  }

  lemma {:induction false} UnmatchedNamesMembers(names: seq<string>, methods: set<BenchmarkMethod>)
    ensures forall n :: n in UnmatchedNames(names, methods) <==> n in names && NoMethodNamed(methods, n)
  {
    if names != [] {
      var init := names[..|names| - 1];
      UnmatchedNamesMembers(init, methods);
      assert names == init + [names[|names| - 1]];
    }
  }

  // ---------------------------------------------------------------------
  // Size of the selection

  /** The methods an instrument runs under a request. */
  function MethodsFor(instrument: Instrument, names: seq<string>, methods: set<BenchmarkMethod>): set<BenchmarkMethod> {
    set m | m in methods && IsBenchmarkMethod(instrument, m) && Requested(names, m)
  }

  ghost function Pick(instruments: set<Instrument>): Instrument
    requires instruments != {}
  {
    var i :| i in instruments; i
  }

  /** Σ over the instruments of the number of wanted methods each accepts. */
  ghost function EligibleCount(names: seq<string>, methods: set<BenchmarkMethod>, instruments: set<Instrument>): nat
    decreases instruments
  {
    if instruments == {} then 0
    else
      var i := Pick(instruments);
      |MethodsFor(i, names, methods)| + EligibleCount(names, methods, instruments - {i})
  }

  /** Pairing one instrument with distinct methods gives distinct instrumented methods. */
  lemma {:induction false} PairingKeepsCount(i: Instrument, ms: set<BenchmarkMethod>)
    ensures |set m | m in ms :: InstrumentedMethod(i, m)| == |ms|
    decreases ms
  {
    if ms != {} {
      var m0 :| m0 in ms;
      PairingKeepsCount(i, ms - {m0});
      var rest := set m | m in ms - {m0} :: InstrumentedMethod(i, m);
      assert (set m | m in ms :: InstrumentedMethod(i, m)) == rest + {InstrumentedMethod(i, m0)};
      assert InstrumentedMethod(i, m0) !in rest;
    }
  }

  /**
   * The run has exactly one instrumented method per instrument and wanted
   * method that instrument accepts: two instruments over one method are two
   * entries, and nothing is counted twice.
   */
  lemma {:induction false} SelectionSize(names: seq<string>, methods: set<BenchmarkMethod>, instruments: set<Instrument>)
    ensures |Selection(names, methods, instruments)| == EligibleCount(names, methods, instruments)
    decreases instruments
  {
    if instruments == {} {
      assert Selection(names, methods, instruments) == {};
    } else {
      var i := Pick(instruments);
      var others := instruments - {i};
      var slice := set m | m in MethodsFor(i, names, methods) :: InstrumentedMethod(i, m);
      SelectionSize(names, methods, others);
      PairingKeepsCount(i, MethodsFor(i, names, methods));
      assert Selection(names, methods, instruments) == slice + Selection(names, methods, others);
      assert slice !! Selection(names, methods, others);
    }
  }

  /** With instruments that accept every method and no names requested, the run is the full cross product. */
  lemma {:induction false} CrossProductCount(methods: set<BenchmarkMethod>, instruments: set<Instrument>)
    requires forall i, m :: i in instruments ==> IsBenchmarkMethod(i, m)
    ensures |Selection([], methods, instruments)| == |instruments| * |methods|
  {
    AllAcceptingCount(methods, instruments);
    SelectionSize([], methods, instruments);
  }

  lemma {:induction false} AllAcceptingCount(methods: set<BenchmarkMethod>, instruments: set<Instrument>)
    requires forall i, m :: i in instruments ==> IsBenchmarkMethod(i, m)
    ensures EligibleCount([], methods, instruments) == |instruments| * |methods|
    decreases instruments
  {
    if instruments != {} {
      var i := Pick(instruments);
      assert MethodsFor(i, [], methods) == methods;
      AllAcceptingCount(methods, instruments - {i});
    }
  }

  // ---------------------------------------------------------------------
  // Independence from the order and the history of requests

  lemma {:induction false} UnmatchedNamesCounts(names: seq<string>, methods: set<BenchmarkMethod>, n: string)
    ensures multiset(UnmatchedNames(names, methods))[n] == if n in names && NoMethodNamed(methods, n) then 1 else 0
  {
    if names != [] {
      var init := names[..|names| - 1];
      UnmatchedNamesCounts(init, methods, n);
      assert names == init + [names[|names| - 1]];
      assert n in names <==> n in init || n == names[|names| - 1];
    }
  }

  /**
   * The outcome depends only on which names are requested, not on their
   * order or on a name being given twice; a call keeps nothing from earlier
   * calls, so two requests with the same names get the same answer.
   */
  lemma NamesOrderIrrelevant(names1: seq<string>, names2: seq<string>, methods: set<BenchmarkMethod>, instruments: set<Instrument>)
    requires forall n :: n in names1 <==> n in names2
    ensures ProvideInstrumentedMethods(names1, methods, instruments) == ProvideInstrumentedMethods(names2, methods, instruments)
  {
    var u1, u2 := UnmatchedNames(names1, methods), UnmatchedNames(names2, methods);
    forall n ensures multiset(u1)[n] == multiset(u2)[n] {
      UnmatchedNamesCounts(names1, methods, n);
      UnmatchedNamesCounts(names2, methods, n);
    }
    assert multiset(u1) == multiset(u2);
    SortStringsOrderInsensitive(u1, u2);
    assert u1 == [] <==> u2 == [] by {
      assert |multiset(u1)| == |u1| && |multiset(u2)| == |u2|;
    }
    assert |names1| == 0 <==> |names2| == 0 by {
      if |names1| > 0 { assert names1[0] in names2; }
      if |names2| > 0 { assert names2[0] in names1; }
    }
    assert Selection(names1, methods, instruments) == Selection(names2, methods, instruments);
  }

  // ---------------------------------------------------------------------
  // The behaviour the tests pin down

  const A: Instrument := FakeInstrument("instrumentA")
  const B: Instrument := FakeInstrument("instrumentB")
  const MethodA: BenchmarkMethod := BenchmarkMethod("a", [])
  const MethodB: BenchmarkMethod := BenchmarkMethod("b", [])
  const MethodC: BenchmarkMethod := BenchmarkMethod("c", [])

  /** No names requested: each of the two instruments with each of the three methods, six in all. */
  lemma NoNamesGivesEveryPair()
    ensures ProvideInstrumentedMethods([], {MethodA, MethodB, MethodC}, {A, B}) ==
      Success({InstrumentedMethod(A, MethodA), InstrumentedMethod(A, MethodB), InstrumentedMethod(A, MethodC),
               InstrumentedMethod(B, MethodA), InstrumentedMethod(B, MethodB), InstrumentedMethod(B, MethodC)})
    ensures |Selection([], {MethodA, MethodB, MethodC}, {A, B})| == 6
  {
    var methods, instruments := {MethodA, MethodB, MethodC}, {A, B};
    var expected := {InstrumentedMethod(A, MethodA), InstrumentedMethod(A, MethodB), InstrumentedMethod(A, MethodC),
                     InstrumentedMethod(B, MethodA), InstrumentedMethod(B, MethodB), InstrumentedMethod(B, MethodC)};
    var r := ProvideInstrumentedMethods([], methods, instruments);
    assert r.Success?;
    forall im ensures im in r.value <==> im in expected {
      if im in r.value {
        assert im == InstrumentedMethod(im.instrument, im.benchmarkMethod);
      }
      if im in expected {
        assert IsBenchmarkMethod(im.instrument, im.benchmarkMethod);
      }
    }
    assert r.value == expected;
    assert A != B;
    assert |instruments| == 2;
    assert |methods| == 3;
    CrossProductCount(methods, instruments);
  }

  /** Names `b`, then `a` and `c`: only the requested methods, each with both instruments. */
  lemma RequestedNamesNarrow()
    ensures ProvideInstrumentedMethods(["b"], {MethodA, MethodB, MethodC}, {A, B}) ==
      Success({InstrumentedMethod(A, MethodB), InstrumentedMethod(B, MethodB)})
    ensures ProvideInstrumentedMethods(["a", "c"], {MethodA, MethodB, MethodC}, {A, B}) ==
      Success({InstrumentedMethod(A, MethodA), InstrumentedMethod(A, MethodC),
               InstrumentedMethod(B, MethodA), InstrumentedMethod(B, MethodC)})
  {
    var methods, instruments := {MethodA, MethodB, MethodC}, {A, B};
    assert !NoMethodNamed(methods, "a") && !NoMethodNamed(methods, "b") && !NoMethodNamed(methods, "c");
    var r1 := ProvideInstrumentedMethods(["b"], methods, instruments);
    assert r1.Success?;
    var expected1 := {InstrumentedMethod(A, MethodB), InstrumentedMethod(B, MethodB)};
    forall im ensures im in r1.value <==> im in expected1 {
      if im in r1.value {
        assert im == InstrumentedMethod(im.instrument, im.benchmarkMethod);
      }
      if im in expected1 {
        assert IsBenchmarkMethod(im.instrument, im.benchmarkMethod);
      }
    }
    assert r1.value == expected1;
    var r2 := ProvideInstrumentedMethods(["a", "c"], methods, instruments);
    assert r2.Success? by {
      assert forall n :: n in ["a", "c"] ==> n == "a" || n == "c";
    }
    var expected2 := {InstrumentedMethod(A, MethodA), InstrumentedMethod(A, MethodC),
                      InstrumentedMethod(B, MethodA), InstrumentedMethod(B, MethodC)};
    forall im ensures im in r2.value <==> im in expected2 {
      if im in r2.value {
        assert im == InstrumentedMethod(im.instrument, im.benchmarkMethod);
      }
      if im in expected2 {
        assert IsBenchmarkMethod(im.instrument, im.benchmarkMethod);
      }
    }
    assert r2.value == expected2;
  }

  /** When the unmatched names already come in ascending order, the failure lists them in that order. */
  lemma SortedUnmatchedListed(names: seq<string>, methods: set<BenchmarkMethod>, instruments: set<Instrument>)
    requires UnmatchedNames(names, methods) != [] && Sorted(UnmatchedNames(names, methods))
    ensures var u := UnmatchedNames(names, methods);
      ProvideInstrumentedMethods(names, methods, instruments) == Failure(InvalidBenchmarkError(u, INVALID_NAMES_PREFIX + FormatNames(u)))
  {
    var u := UnmatchedNames(names, methods);
    SortedUnique(SortStrings(u), u);
  }

  /**
   * Names `a`, `c` and `bad` against a class that has methods `a` and `c`
   * but none named `bad` (as the test's class): refused although `a` and `c`
   * exist, and the message shows `[bad]`.
   */
  lemma UnknownNameFails(methods: set<BenchmarkMethod>, instruments: set<Instrument>)
    requires !NoMethodNamed(methods, "a") && !NoMethodNamed(methods, "c") && NoMethodNamed(methods, "bad")
    ensures var r := ProvideInstrumentedMethods(["a", "c", "bad"], methods, instruments);
      && r.Failure?
      && r.error.unmatched == ["bad"]
      && r.error.message == INVALID_NAMES_PREFIX + "[bad]"
  {
    OnlyBadIsUnmatched(methods);
    OneUnmatchedListed(["a", "c", "bad"], methods, instruments, "bad");
    BadInBrackets();
  }

  lemma BadInBrackets()
    ensures FormatNames(["bad"]) == "[bad]"
  {
  }

  /** A name requested twice and matching no method is reported once. */
  lemma RepeatedNameListedOnce(methods: set<BenchmarkMethod>, instruments: set<Instrument>)
    requires NoMethodNamed(methods, "bad")
    ensures var r := ProvideInstrumentedMethods(["bad", "bad"], methods, instruments);
      r.Failure? && r.error.unmatched == ["bad"]
  {
    var names: seq<string> := ["bad", "bad"];
    assert names[..1] == ["bad"] && ["bad"][..0] == [];
    assert UnmatchedNames(["bad"], methods) == ["bad"];
    OneUnmatchedListed(names, methods, instruments, "bad");
  }

  /** A request with a single unmatched name reports that name alone, in brackets. */
  lemma OneUnmatchedListed(names: seq<string>, methods: set<BenchmarkMethod>, instruments: set<Instrument>, name: string)
    requires UnmatchedNames(names, methods) == [name]
    ensures var r := ProvideInstrumentedMethods(names, methods, instruments);
      r == Failure(InvalidBenchmarkError([name], INVALID_NAMES_PREFIX + FormatNames([name])))
  {
    assert Sorted([name]) by { StrLessIrreflexive(name); }
    SortedUnmatchedListed(names, methods, instruments);
  }

  /** The test's class has methods `a` and `c` and none named `bad`. */
  lemma TestClassLacksBad()
    ensures var methods := {MethodA, MethodB, MethodC};
      !NoMethodNamed(methods, "a") && !NoMethodNamed(methods, "c") && NoMethodNamed(methods, "bad")
  {
    assert "a" != "bad" && "b" != "bad" && "c" != "bad";
  }

  lemma OnlyBadIsUnmatched(methods: set<BenchmarkMethod>)
    requires !NoMethodNamed(methods, "a") && !NoMethodNamed(methods, "c") && NoMethodNamed(methods, "bad")
    ensures UnmatchedNames(["a", "c", "bad"], methods) == ["bad"]
  {
    var names: seq<string> := ["a", "c", "bad"];
    assert names[..2] == ["a", "c"];
    assert "bad" !in ["a", "c"];
    assert ["a", "c"][..1] == ["a"];
    assert ["a"][..0] == [];
    assert UnmatchedNames(["a"], methods) == [];
    assert UnmatchedNames(["a", "c"], methods) == [];
  }
}
