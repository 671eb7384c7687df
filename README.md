# Caliper trial core in Dafny

A Dafny model of three small pieces of the Caliper micro-benchmark harness:

- **Allocation records** (`Worker`, from `caliper-worker-jvm/.../worker/Allocation.java`).
  An `Allocation` is an immutable value: a description such as `int[23]`, a size in bytes, and the
  allocation's stack trace as a list of strings. The model covers its constructor, which renders each stack frame
  to a string in a builder loop, its structural `equals`, its `hashCode` over the same three fields, and its
  `toString`. The datatype destructors `description`, `size` and `location` are the getters. `getTotalSize` is
  modelled as a loop over the entries of a counted multiset. It is proved equal to Σ size × count over the distinct
  allocations, and that sum is proved equal to the sum of sizes over every recorded occurrence.
- **Instrumented-method selection** (`Runner`, as pinned by `CaliperRunModuleTest.java`). Every configured
  instrument is paired with every benchmark method it accepts. When method names are requested, only methods with
  those names are paired. A requested name that matches no method makes the call fail, and the message lists the
  unmatched names in brackets, as `[bad]`. The model lists each unmatched name once, in ascending order.
- **Result-processor creation** (`ResultProcessing`, as pinned by `ResultProcessorCreatorTest.java`). A processor
  class is instantiated through a public constructor taking a `ResultProcessorConfig`, or else through a public
  no-argument constructor. Any other class fails with a `UserCodeException` whose message is `NO_VALID_CONSTRUCTOR`
  formatted with the class. Reflection is replaced by the list of constructors a class declares. A class that
  declares none has the implicit default constructor, which is public when the class is.

`JavaText` holds the Java and Guava text operations these pieces use: `Long.toString`, `Joiner`, the natural order
of `String`, sorting, and `String.format` with one `%s`. Strings are sequences of Unicode code points; the claims
about their order, hash and length hold for Java strings whose characters lie in the Basic Multilingual Plane.

Files: `java_text.dfy`, `worker.dfy`, `runner.dfy`, `result_processing.dfy`.

## Model

| member | source | states |
|---|---|---|
| `Worker.NewAllocation` | caliper-worker-jvm/src/main/java/com/google/caliper/worker/Allocation.java:45-57 | the description and size are kept unchanged; the location has one entry per stack frame, and entry i is the string form of frame i |
| `Worker.Equals` | caliper-worker-jvm/src/main/java/com/google/caliper/worker/Allocation.java:59-68 | `equals` holds exactly when the argument is an Allocation with the same description, size and location list, i.e. the same value; it is false for null and for objects of other classes |
| `Worker.EqualsIsEquivalence` | caliper-worker-jvm/src/main/java/com/google/caliper/worker/Allocation.java:60-68 | `equals` is reflexive, symmetric and transitive |
| `Worker.HashCode` | caliper-worker-jvm/src/main/java/com/google/caliper/worker/Allocation.java:82-85 | `hashCode` is `Objects.hashCode` (that is, `Arrays.hashCode`) of the hashes of the description, the size and the location, in that order |
| `Worker.HashCodeConsistentWithEquals` | caliper-worker-jvm/src/main/java/com/google/caliper/worker/Allocation.java:82-85 | equal allocations have equal hash codes, because the hash reads only the three compared fields |
| `Worker.ToString` | caliper-worker-jvm/src/main/java/com/google/caliper/worker/Allocation.java:87-93 | `toString` is the header `description (size bytes)` followed by each frame on its own line after a tab and `at`; with no frames, a bare `at` line ends the text |
| `Worker.ToStringSizeReadsBack` | caliper-worker-jvm/src/main/java/com/google/caliper/worker/Allocation.java:90 | the size is printed into `toString` right after the description and ` (`, and that text parses back to the same number |
| `Worker.GetTotalSize` | caliper-worker-jvm/src/main/java/com/google/caliper/worker/Allocation.java:32-39 | the loop over the entries returns Σ size × count over the distinct allocations; the running total is that sum over the entries visited so far; the empty multiset gives 0 |
| `Worker.EntrySumRemove` | caliper-worker-jvm/src/main/java/com/google/caliper/worker/Allocation.java:35-37 | any entry can be taken first: the total is that entry's size × count plus the total of the rest, so the entry order does not matter |
| `Worker.EntrySumAddOne` | caliper-worker-jvm/src/main/java/com/google/caliper/worker/Allocation.java:35-36 | adding one occurrence of an allocation raises the total by exactly its size |
| `Worker.EntrySumIsReplaySum` | caliper-worker-jvm/src/main/java/com/google/caliper/worker/Allocation.java:32-39 | the total of the multiset of recorded events equals the sum of the sizes of the events, one by one |
| `JavaText.LongToStringRoundTrip` | caliper-worker-jvm/src/main/java/com/google/caliper/worker/Allocation.java:90 | the decimal text of a `long` parses back to the same number |
| `JavaText.SepJoinIsPrefixEach` | caliper-worker-jvm/src/main/java/com/google/caliper/worker/Allocation.java:90-91 | a separator followed by the join of a non-empty list equals the list with the separator before every element |
| `JavaText.JoinLength` | caliper-worker-jvm/src/main/java/com/google/caliper/worker/Allocation.java:91 | joining n parts yields all their characters plus n - 1 separators |
| `Runner.FakeInstrument` | caliper-runner/src/test/java/com/google/caliper/runner/CaliperRunModuleTest.java:127-153 | the test instrument accepts every method and declares serial trial scheduling |
| `Runner.ProvideInstrumentedMethods` | caliper-runner/src/test/java/com/google/caliper/runner/CaliperRunModuleTest.java:57-113 | fails exactly when some requested name matches no method; the failure lists exactly those names, each once and in strictly ascending order, in `[a, b]` form; on success the result holds exactly the (instrument, method) pairs where the instrument accepts the method and the method is requested (all methods when no names are given) |
| `Runner.UnmatchedNamesMembers` | caliper-runner/src/test/java/com/google/caliper/runner/CaliperRunModuleTest.java:103-113 | a name is reported as unmatched exactly when it was requested and no method carries it, even if other requested names are valid |
| `Runner.SelectionSize` | caliper-runner/src/test/java/com/google/caliper/runner/CaliperRunModuleTest.java:57-73 | the run's size is Σ over instruments of the number of requested methods each accepts: different instruments over one method are distinct entries |
| `Runner.CrossProductCount` | caliper-runner/src/test/java/com/google/caliper/runner/CaliperRunModuleTest.java:57-73 | instruments that accept every method, with no names requested, give \|instruments\| × \|methods\| instrumented methods |
| `Runner.NamesOrderIrrelevant` | caliper-runner/src/test/java/com/google/caliper/runner/CaliperRunModuleTest.java:76-100 | the outcome depends only on the set of requested names, not on their order or on a name being repeated; the function keeps no state, so successive calls with different names are independent |
| `Runner.NoNamesGivesEveryPair` | caliper-runner/src/test/java/com/google/caliper/runner/CaliperRunModuleTest.java:57-73 | instruments A and B with methods a, b and c and no names give exactly the six pairs |
| `Runner.RequestedNamesNarrow` | caliper-runner/src/test/java/com/google/caliper/runner/CaliperRunModuleTest.java:76-100 | names {b} give exactly (A,b) and (B,b); names {a, c} give exactly the pairs of a and c with both instruments |
| `Runner.UnknownNameFails` | caliper-runner/src/test/java/com/google/caliper/runner/CaliperRunModuleTest.java:102-114 | for any class with methods a and c but none named bad, names {a, c, bad} fail although a and c exist; only `bad` is reported and the message ends with `[bad]` |
| `Runner.TestClassLacksBad` | caliper-runner/src/test/java/com/google/caliper/runner/CaliperRunModuleTest.java:116-125 | the test's benchmark class has methods named a and c and none named bad, so the previous row applies to it |
| `Runner.RepeatedNameListedOnce` | caliper-runner/src/test/java/com/google/caliper/runner/CaliperRunModuleTest.java:104-112 | a name that matches no method is reported once even when it is requested twice, as it would be from a set of option values |
| `Runner.OneUnmatchedListed` | caliper-runner/src/test/java/com/google/caliper/runner/CaliperRunModuleTest.java:103-113 | a request with exactly one unmatched name fails, listing that name alone, in brackets, after the fixed message text |
| `Runner.SortedUnmatchedListed` | caliper-runner/src/test/java/com/google/caliper/runner/CaliperRunModuleTest.java:103-113 | when the unmatched names are already in sorted order, the failure lists them in exactly that order, after the fixed message text |
| `ResultProcessing.CreateResultProcessor` | caliper-runner/src/test/java/com/google/caliper/runner/resultprocessor/ResultProcessorCreatorTest.java:37-39 | creation succeeds exactly when there is a public `(ResultProcessorConfig)` or public `()` constructor; the instance belongs to the requested class; it receives the config exactly when the config constructor exists; every failure is a `UserCodeException` whose message is `No valid constructor found for class <name>.` |
| `ResultProcessing.NoValidConstructorMessage` | caliper-runner/src/test/java/com/google/caliper/runner/resultprocessor/ResultProcessorCreatorTest.java:53-55 | `String.format(NO_VALID_CONSTRUCTOR, cls)` is the fixed text with the class's `toString` in place of `%s` |
| `JavaText.FormatOneSplits` | caliper-runner/src/test/java/com/google/caliper/runner/resultprocessor/ResultProcessorCreatorTest.java:77-78 | formatting a template with one `%s` and no other `%` before it puts the argument exactly between the text before and after the placeholder |
| `ResultProcessing.FailureIdentifiesClass` | caliper-runner/src/test/java/com/google/caliper/runner/resultprocessor/ResultProcessorCreatorTest.java:116-119 | two failures with the same message concern classes with the same name: the message identifies the class |
| `ResultProcessing.NoPublicConstructorFails` | caliper-runner/src/test/java/com/google/caliper/runner/resultprocessor/ResultProcessorCreatorTest.java:111-125 | a class with no public constructor fails, even when a non-public constructor has the config or no-argument signature: visibility is checked, not just the signature |
| `ResultProcessing.NonPublicConstructorInvisible` | caliper-runner/src/test/java/com/google/caliper/runner/resultprocessor/ResultProcessorCreatorTest.java:47-61 | on a class that already declares a constructor, declaring one more non-public constructor does not change whether creation succeeds, the argument passed to the constructor, or the error; on a class that declares none it would replace the implicit public default constructor, so the lemma does not cover that case |
| `ResultProcessing.ConfigConstructorFirst` | caliper-runner/src/test/java/com/google/caliper/runner/resultprocessor/ResultProcessorCreatorTest.java:134-142 | a class with both public constructors is built through the config constructor; this priority is a choice of the model, as no test gives a class both |
| `ResultProcessing.InvalidConstructorsRefused` | caliper-runner/src/test/java/com/google/caliper/runner/resultprocessor/ResultProcessorCreatorTest.java:47-132 | a non-public `()`, a public `(int)` and a non-public `(ResultProcessorConfig)` class each fail with exactly `String.format(NO_VALID_CONSTRUCTOR, cls)` |
| `ResultProcessing.ValidConstructorsAccepted` | caliper-runner/src/test/java/com/google/caliper/runner/resultprocessor/ResultProcessorCreatorTest.java:96-149 | a public class with only the implicit default constructor, and a class with a public config constructor, each yield an instance of that class |

## Left out

- `caliper-core/src/main/java/com/google/caliper/bridge/LogMessageParserModule.java` is a single dependency-injection binding with no logic; it is not modelled.
- String interning in the `Allocation` constructor: it changes which object holds a string, never its characters. The model keeps each string as given.
- `Worker.GetTotalSize`: sizes and the total are unbounded integers. Java's 64-bit `long` wrap-around on overflow is not modelled.
- `Worker.HashCodeConsistentWithEquals`: `Worker.HashCode` has the shape of `Objects.hashCode` over the three fields, but it is unbounded. It leaves out the 32-bit wrap-around and the bit-level `Long.hashCode`. Only agreement with `equals` is claimed.
- `Worker.GetTotalSize`: the loop visits entries in an unspecified order rather than Guava's iteration order. `Worker.EntrySumRemove` shows that the order cannot change the total.
- `Worker.NewAllocation`: `StackTraceElement.toString` belongs to the Java platform and is not part of this repository. `Worker.FrameToString` models its classic form (`Class.method(File.java:12)`, `(Native Method)`, `(Unknown Source)`) without the module and class-loader prefixes that later JDKs add.
- `CaliperRunModule.java` is not part of this model; the selection is modelled from what its test asserts. The requested names are kept as a sequence in the option set's iteration order.
- `Runner.ProvideInstrumentedMethods`: the order of the listed unmatched names (ascending natural order) and listing each once are the model's own choice. The test checks only that the message contains `[bad]`, and no test fixes the order.
- `Runner.ProvideInstrumentedMethods`: the text before the bracketed list (`INVALID_NAMES_PREFIX`) is not fixed by the test, which pins only `[bad]`. Requested names are checked against every benchmark method of the class, whether or not an instrument accepts it. The test instruments accept every method, so the test cannot tell this apart from checking only accepted methods.
- `Runner`: an instrument's `isBenchmarkMethod` is modelled as either "every method" or "methods with one of these parameter lists". Other instruments' rules, the instrumented method's `type()` and its measurement visitor are not modelled; the test versions of the last two only throw. The trial scheduling policy is a plain value.
- `ResultProcessorCreator.java` is not part of this model. The value of `NO_VALID_CONSTRUCTOR` is taken to be `No valid constructor found for %s.`, and `%s` receives `Class.toString()`, which is `class ` followed by the binary name.
- `ResultProcessing.CreateResultProcessor`: reflection, class loading, running the chosen constructor's user code, and the errors that code or access checks can raise are not modelled. Constructors of non-static inner classes, with their hidden outer parameter, are not modelled either.
- `JavaText.StrLess`, `Worker.StringHash`, `JavaText.JoinLength`: a Dafny string is a sequence of Unicode code points, a Java `String` a sequence of UTF-16 code units. For text with characters outside the Basic Multilingual Plane, the order, the hash and the lengths here differ from Java's.
- Mockito stubbing and the JUnit runner are not modelled; only the input and output behaviour the tests assert is.
