/**
 * Creation of result processors (package
 * com.google.caliper.runner.resultprocessor): a processor class is
 * instantiated through a public constructor taking the processor's
 * configuration, or else through a public constructor taking nothing; a
 * class with neither is refused with a message naming it.
 *
 * Reflection is replaced by the list of constructors a class declares; the
 * user code those constructors run is not modelled.
 */
module ResultProcessing {
  import opened JavaText

  /** The type of a constructor parameter: the configuration record, or any other type. */
  datatype ParameterType = ConfigType | OtherType(typeName: string)

  /** A constructor as reflection sees it: its visibility and its parameter types. */
  datatype Constructor = Constructor(isPublic: bool, parameters: seq<ParameterType>)

  /** A class implementing ResultProcessor: its binary name, whether it is public, and its declared constructors. */
  datatype ProcessorClass = ProcessorClass(name: string, isPublicClass: bool, declared: seq<Constructor>)

  /** The configuration of one processor: the implementing class's name and its settings. */
  datatype ResultProcessorConfig = ResultProcessorConfig(className: string, options: map<string, string>)

  /** A created processor: its class, and the configuration passed to it when the config constructor was used. */
  datatype ResultProcessor = ResultProcessor(processorClass: ProcessorClass, configArgument: Option<ResultProcessorConfig>)

  /**
   * The kind of a creation failure. Only the user-code exception raised when
   * no constructor fits is modelled; the errors that reflection and the
   * constructor's own code can raise are left out, so this has one value.
   */
  datatype ErrorKind = UserCodeException

  datatype Outcome = Created(processor: ResultProcessor) | Failed(kind: ErrorKind, message: string)

  /**
   * The constructors the class has: those it declares, or, when it declares
   * none, the default constructor, which takes nothing and is public exactly
   * when the class is.
   */
  function Constructors(c: ProcessorClass): seq<Constructor> {
    if c.declared == [] then [Constructor(c.isPublicClass, [])] else c.declared
  }

  /** `Class.getConstructor(parameterTypes)` succeeds: a public constructor with exactly these parameters. */
  predicate HasPublicConstructor(c: ProcessorClass, parameters: seq<ParameterType>) {
    Constructor(true, parameters) in Constructors(c)
  }

  /** The fixed text before the class in the no-valid-constructor message. */
  const NO_VALID_CONSTRUCTOR_LEAD: string := "No valid constructor found for "

  const NO_VALID_CONSTRUCTOR: string := NO_VALID_CONSTRUCTOR_LEAD + "%s."

  /** `Class.toString()` of a class (not an interface): `class ` and the binary name. */
  function ClassToString(c: ProcessorClass): string {
    "class " + c.name
  }

  /**
   * `createResultProcessor`: the config constructor when there is a public
   * one, else the public no-argument constructor, else a user-code failure
   * whose message is `NO_VALID_CONSTRUCTOR` formatted with the class.
   */
  function CreateResultProcessor(c: ProcessorClass, config: ResultProcessorConfig): (r: Outcome)
    ensures r.Created? <==> HasPublicConstructor(c, [ConfigType]) || HasPublicConstructor(c, [])
    ensures r.Created? ==> r.processor.processorClass == c
    ensures r.Created? ==> (r.processor.configArgument == Some(config) <==> HasPublicConstructor(c, [ConfigType]))
    ensures r.Created? ==> (r.processor.configArgument == None <==> !HasPublicConstructor(c, [ConfigType]))
    ensures r.Failed? ==> r.kind == UserCodeException && r.message == "No valid constructor found for class " + c.name + "."
  {
    if HasPublicConstructor(c, [ConfigType]) then
      Created(ResultProcessor(c, Some(config)))
    else if HasPublicConstructor(c, []) then
      Created(ResultProcessor(c, None))
    else
      NoValidConstructorMessage(c);
      Failed(UserCodeException, FormatOne(NO_VALID_CONSTRUCTOR, ClassToString(c)))
  }

  /** The formatted message is the fixed text around the class's `toString`. */
  lemma NoValidConstructorMessage(c: ProcessorClass)
    ensures FormatOne(NO_VALID_CONSTRUCTOR, ClassToString(c)) == "No valid constructor found for class " + c.name + "."
  {
    var prefix := NO_VALID_CONSTRUCTOR_LEAD;
    assert NO_VALID_CONSTRUCTOR == prefix + "%s" + ".";
    FormatOneSplits(prefix, ".", ClassToString(c));
  }

  // ---------------------------------------------------------------------
  // Properties of the resolution

  /** The failure names the class: two classes refused with the same message have the same name. */
  lemma FailureIdentifiesClass(c1: ProcessorClass, c2: ProcessorClass, config1: ResultProcessorConfig, config2: ResultProcessorConfig)
    requires CreateResultProcessor(c1, config1).Failed? && CreateResultProcessor(c2, config2).Failed?
    requires CreateResultProcessor(c1, config1).message == CreateResultProcessor(c2, config2).message
    ensures c1.name == c2.name
  {
    var prefix := "No valid constructor found for class ";
    var m1, m2 := prefix + c1.name + ".", prefix + c2.name + ".";
    assert m1 == m2;
    assert c1.name == m1[|prefix|..|m1| - 1];
    assert c2.name == m2[|prefix|..|m2| - 1];
  }

  /** A class none of whose constructors is public is refused, whatever their parameters. */
  lemma NoPublicConstructorFails(c: ProcessorClass, config: ResultProcessorConfig)
    requires forall k :: 0 <= k < |Constructors(c)| ==> !Constructors(c)[k].isPublic
    ensures CreateResultProcessor(c, config) == Failed(UserCodeException, FormatOne(NO_VALID_CONSTRUCTOR, ClassToString(c)))
  {
  }

  /**
   * Declaring one more non-public constructor (besides others) changes
   * nothing: it is invisible to the resolution, which picks the same
   * constructor or fails with the same error.
   */
  lemma NonPublicConstructorInvisible(c: ProcessorClass, extra: seq<ParameterType>, config: ResultProcessorConfig)
    requires c.declared != []
    ensures var c' := ProcessorClass(c.name, c.isPublicClass, c.declared + [Constructor(false, extra)]);
      var r, r' := CreateResultProcessor(c, config), CreateResultProcessor(c', config);
      && (r'.Created? <==> r.Created?)
      && (r.Created? ==> r'.processor.configArgument == r.processor.configArgument)
      && (r.Failed? ==> r' == r)
  {
  }

  /** The public config constructor wins over a public no-argument one; the tests never give a class both. */
  lemma ConfigConstructorFirst(c: ProcessorClass, config: ResultProcessorConfig)
    requires HasPublicConstructor(c, [ConfigType]) && HasPublicConstructor(c, [])
    ensures CreateResultProcessor(c, config) == Created(ResultProcessor(c, Some(config)))
  {
  }

  // ---------------------------------------------------------------------
  // The behaviour the tests pin down

  const TEST_CLASS: string := "com.google.caliper.runner.resultprocessor.ResultProcessorCreatorTest$"

  const NoPublicConstructorResultProcessor: ProcessorClass :=
    ProcessorClass(TEST_CLASS + "NoPublicConstructorResultProcessor", true, [Constructor(false, [])])
  const PublicButNotDefaultDefaultConstructorResultProcessor: ProcessorClass :=
    ProcessorClass(TEST_CLASS + "PublicButNotDefaultDefaultConstructorResultProcessor", true, [Constructor(true, [OtherType("int")])])
  const PublicDefaultConstructorResultProcessor: ProcessorClass :=
    ProcessorClass(TEST_CLASS + "PublicDefaultConstructorResultProcessor", true, [])
  const NoPublicConfigConstructorResultProcessor: ProcessorClass :=
    ProcessorClass(TEST_CLASS + "NoPublicConfigConstructorResultProcessor", true, [Constructor(false, [ConfigType])])
  const PublicConfigConstructorResultProcessor: ProcessorClass :=
    ProcessorClass(TEST_CLASS + "PublicConfigConstructorResultProcessor", true, [Constructor(true, [ConfigType])])

  /** The configuration the tests build: only the class name is set. */
  function ConfigFor(c: ProcessorClass): ResultProcessorConfig {
    ResultProcessorConfig(c.name, map[])
  }

  /** The three refused classes: a non-public no-argument constructor, a public `(int)` one, a non-public config one. */
  lemma InvalidConstructorsRefused()
    ensures var c := NoPublicConstructorResultProcessor;
      CreateResultProcessor(c, ConfigFor(c)) == Failed(UserCodeException, FormatOne(NO_VALID_CONSTRUCTOR, ClassToString(c)))
    ensures var c := PublicButNotDefaultDefaultConstructorResultProcessor;
      CreateResultProcessor(c, ConfigFor(c)) == Failed(UserCodeException, FormatOne(NO_VALID_CONSTRUCTOR, ClassToString(c)))
    ensures var c := NoPublicConfigConstructorResultProcessor;
      CreateResultProcessor(c, ConfigFor(c)) == Failed(UserCodeException, FormatOne(NO_VALID_CONSTRUCTOR, ClassToString(c)))
  {
  }

  /** The two accepted classes give an instance of themselves: the implicit default constructor, and the public config constructor. */
  lemma ValidConstructorsAccepted()
    ensures var c := PublicDefaultConstructorResultProcessor;
      CreateResultProcessor(c, ConfigFor(c)) == Created(ResultProcessor(c, None))
    ensures var c := PublicConfigConstructorResultProcessor;
      CreateResultProcessor(c, ConfigFor(c)) == Created(ResultProcessor(c, Some(ConfigFor(c))))
  {
  }
}
