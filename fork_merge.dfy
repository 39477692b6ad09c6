/** The `onlyIf` action of the `forkedSpringBootRun` task
    (OpenApiGradlePlugin.kt): copy the Spring Boot `bootRun` settings onto
    the forked run, letting each field of the `customBootRun` block replace
    the `bootRun` value when it is set (and, for collections, non-empty),
    dropping the `java.class.path*` system properties, and switching off
    descendant-killing on a 1.8 JVM. */
module ForkMerge {
  import opened Common

  /** `CLASS_PATH_PROPERTY_NAME` of Constants.kt. */
  const CLASS_PATH_PROPERTY_NAME: string := "java.class.path"

  /** The settings read from the `bootRun` task. `args` is a nullable list;
      `mainClass` is a property that may have no value. System property and
      environment values are modelled as strings. */
  datatype BootRun = BootRun(
    systemProperties: map<string, string>,
    workingDir: string,
    args: Option<seq<string>>,
    classpath: seq<string>,
    mainClass: Option<string>,
    jvmArgs: seq<string>,
    environment: map<string, string>)

  /** The `customBootRun` block; `None` is a property without a value. The
      classpath is a file collection, which is never unset, only empty. */
  datatype CustomBootRun = CustomBootRun(
    systemProperties: Option<map<string, string>>,
    workingDir: Option<string>,
    mainClass: Option<string>,
    args: Option<seq<string>>,
    classpath: seq<string>,
    jvmArgs: Option<seq<string>>,
    environment: Option<map<string, string>>)

  /** Reading the `bootRun` main class when it has no value. */
  datatype ForkError = MissingMainClass

  // ---------------------------------------------------------------------
  // Per-field selection.

  /** The custom list if it is set and non-empty, else the base list. */
  function NonEmptyOr<T>(custom: Option<seq<T>>, base: seq<T>): seq<T> {
    if custom.Some? && |custom.value| > 0 then custom.value else base
  }

  /** The custom map if it is set and non-empty, else the base map. */
  function NonEmptyMapOr(custom: Option<map<string, string>>, base: map<string, string>): map<string, string> {
    if custom.Some? && |custom.value| > 0 then custom.value else base
  }

  /** The properties whose names do not start with `java.class.path`. */
  function WithoutClassPath(props: map<string, string>): (r: map<string, string>)
    ensures forall k :: k in r <==> k in props && !StartsWith(k, CLASS_PATH_PROPERTY_NAME)
    ensures forall k :: k in r ==> r[k] == props[k]
  {
    map k | k in props && !StartsWith(k, CLASS_PATH_PROPERTY_NAME) :: props[k]
  }

  function ForkSystemProperties(b: BootRun, c: CustomBootRun): map<string, string> {
    WithoutClassPath(NonEmptyMapOr(c.systemProperties, b.systemProperties))
  }

  function ForkWorkingDir(b: BootRun, c: CustomBootRun): string {
    c.workingDir.GetOr(b.workingDir)
  }

  function ForkArgs(b: BootRun, c: CustomBootRun): seq<string> {
    NonEmptyOr(c.args, b.args.GetOr([]))
  }

  function ForkClasspath(b: BootRun, c: CustomBootRun): seq<string> {
    if |c.classpath| > 0 then c.classpath else b.classpath
  }

  /** The custom main class if set, else `bootRun`'s, failing if neither has one. */
  function ForkMain(b: BootRun, c: CustomBootRun): Result<string, ForkError> {
    match c.mainClass
    case Some(m) => Ok(m)
    case None =>
      match b.mainClass
      case Some(m) => Ok(m)
      case None => Err(MissingMainClass)
  }

  function ForkJvmArgs(b: BootRun, c: CustomBootRun): seq<string> {
    NonEmptyOr(c.jvmArgs, b.jvmArgs)
  }

  function ForkEnvironment(b: BootRun, c: CustomBootRun): map<string, string> {
    NonEmptyMapOr(c.environment, b.environment)
  }

  /** The description of the running JVM starts with `1.8`. */
  predicate IsJava8(jvm: string) {
    StartsWith(jvm, "1.8")
  }

  // ---------------------------------------------------------------------
  // The forked run task.

  class JavaExecFork {
    var systemProperties: map<string, string>
    var workingDir: string
    var args: seq<string>
    var classpath: seq<string>
    var main: Option<string>
    var jvmArgs: seq<string>
    var environment: map<string, string>
    var killDescendants: bool

    /** A fork task before its `onlyIf` action ran. */
    constructor (workingDir: string, killDescendants: bool)
      ensures this.workingDir == workingDir && this.killDescendants == killDescendants
      ensures systemProperties == map[] && args == [] && classpath == [] && main == None
      ensures jvmArgs == [] && environment == map[]
    {
      this.workingDir := workingDir;
      this.killDescendants := killDescendants;
      systemProperties := map[];
      args := [];
      classpath := [];
      main := None;
      jvmArgs := [];
      environment := map[];
    }

    /** The `onlyIf` action: assigns the fields one by one, in the source's
        order. A missing main class stops it after the classpath has been
        assigned, leaving the later fields untouched. Otherwise the predicate
        answers `true`. */
    method OnlyIf(bootRun: BootRun, custom: CustomBootRun, jvm: string) returns (r: Result<bool, ForkError>)
      modifies this
      ensures systemProperties == ForkSystemProperties(bootRun, custom)
      ensures workingDir == ForkWorkingDir(bootRun, custom)
      ensures args == ForkArgs(bootRun, custom)
      ensures classpath == ForkClasspath(bootRun, custom)
      ensures match ForkMain(bootRun, custom)
        case Ok(m) =>
          r == Ok(true) && main == Some(m) &&
          jvmArgs == ForkJvmArgs(bootRun, custom) &&
          environment == ForkEnvironment(bootRun, custom) &&
          killDescendants == (if IsJava8(jvm) then false else old(killDescendants))
        case Err(e) =>
          r == Err(e) && main == old(main) && jvmArgs == old(jvmArgs) &&
          environment == old(environment) && killDescendants == old(killDescendants)
    {
      systemProperties := ForkSystemProperties(bootRun, custom);
      workingDir := ForkWorkingDir(bootRun, custom);
      args := ForkArgs(bootRun, custom);
      classpath := ForkClasspath(bootRun, custom);
      var resolvedMain := ForkMain(bootRun, custom);
      if resolvedMain.Err? {
        return Err(resolvedMain.error);
      }
      main := Some(resolvedMain.value);
      jvmArgs := ForkJvmArgs(bootRun, custom);
      environment := ForkEnvironment(bootRun, custom);
      if IsJava8(jvm) {
        killDescendants := false;
      }
      r := Ok(true);
    }
  }

  // ---------------------------------------------------------------------
  // Properties of the merge.

  /** Every field of the custom block is unset or empty. */
  predicate NoOverrides(c: CustomBootRun) {
    (c.systemProperties.None? || c.systemProperties.value == map[]) &&
    c.workingDir.None? && c.mainClass.None? &&
    (c.args.None? || c.args.value == []) &&
    c.classpath == [] &&
    (c.jvmArgs.None? || c.jvmArgs.value == []) &&
    (c.environment.None? || c.environment.value == map[])
  }

  /** Every field of the custom block is set and non-empty. */
  predicate FullOverrides(c: CustomBootRun) {
    c.systemProperties.Some? && |c.systemProperties.value| > 0 &&
    c.workingDir.Some? && c.mainClass.Some? &&
    c.args.Some? && |c.args.value| > 0 &&
    |c.classpath| > 0 &&
    c.jvmArgs.Some? && |c.jvmArgs.value| > 0 &&
    c.environment.Some? && |c.environment.value| > 0
  }

  /** Empty overrides reproduce `bootRun`, apart from the class-path system
      properties, and an absent `bootRun` argument list becomes empty. */
  lemma EmptyOverridesReproduceBase(b: BootRun, c: CustomBootRun)
    requires NoOverrides(c)
    ensures ForkSystemProperties(b, c) == WithoutClassPath(b.systemProperties)
    ensures ForkWorkingDir(b, c) == b.workingDir
    ensures ForkArgs(b, c) == b.args.GetOr([])
    ensures ForkClasspath(b, c) == b.classpath
    ensures ForkMain(b, c) == if b.mainClass.Some? then Ok(b.mainClass.value) else Err(MissingMainClass)
    ensures ForkJvmArgs(b, c) == b.jvmArgs
    ensures ForkEnvironment(b, c) == b.environment
  {
  }

  /** Set, non-empty overrides replace `bootRun` wholesale, whatever its
      values: no list is appended to and no map merged. */
  lemma FullOverridesReplaceBase(b: BootRun, c: CustomBootRun)
    requires FullOverrides(c)
    ensures ForkSystemProperties(b, c) == WithoutClassPath(c.systemProperties.value)
    ensures ForkWorkingDir(b, c) == c.workingDir.value
    ensures ForkArgs(b, c) == c.args.value
    ensures ForkClasspath(b, c) == c.classpath
    ensures ForkMain(b, c) == Ok(c.mainClass.value)
    ensures ForkJvmArgs(b, c) == c.jvmArgs.value
    ensures ForkEnvironment(b, c) == c.environment.value
  {
  }

  /** Each field is decided by its own custom and base values alone. */
  lemma FieldsAreIndependent(b1: BootRun, c1: CustomBootRun, b2: BootRun, c2: CustomBootRun)
    ensures c1.args == c2.args && b1.args == b2.args ==> ForkArgs(b1, c1) == ForkArgs(b2, c2)
    ensures c1.jvmArgs == c2.jvmArgs && b1.jvmArgs == b2.jvmArgs ==> ForkJvmArgs(b1, c1) == ForkJvmArgs(b2, c2)
    ensures c1.environment == c2.environment && b1.environment == b2.environment ==>
      ForkEnvironment(b1, c1) == ForkEnvironment(b2, c2)
    ensures c1.systemProperties == c2.systemProperties && b1.systemProperties == b2.systemProperties ==>
      ForkSystemProperties(b1, c1) == ForkSystemProperties(b2, c2)
    ensures c1.classpath == c2.classpath && b1.classpath == b2.classpath ==>
      ForkClasspath(b1, c1) == ForkClasspath(b2, c2)
    ensures c1.workingDir == c2.workingDir && b1.workingDir == b2.workingDir ==>
      ForkWorkingDir(b1, c1) == ForkWorkingDir(b2, c2)
    ensures c1.mainClass == c2.mainClass && b1.mainClass == b2.mainClass ==>
      ForkMain(b1, c1) == ForkMain(b2, c2)
  {
  }

  /** Argument resolution: a non-empty custom list, else the `bootRun`
      list, else the empty list. */
  lemma ArgsResolution(b: BootRun, c: CustomBootRun)
    ensures c.args.Some? && c.args.value != [] ==> ForkArgs(b, c) == c.args.value
    ensures (c.args.None? || c.args.value == []) && b.args.Some? ==> ForkArgs(b, c) == b.args.value
    ensures (c.args.None? || c.args.value == []) && b.args.None? ==> ForkArgs(b, c) == []
  {
  }

  /** Classpath resolution: a non-empty custom collection, else the
      `bootRun` classpath. */
  lemma ClasspathResolution(b: BootRun, c: CustomBootRun)
    ensures c.classpath != [] ==> ForkClasspath(b, c) == c.classpath
    ensures c.classpath == [] ==> ForkClasspath(b, c) == b.classpath
  {
  }

  /** A set custom working directory or main class wins even when it is the
      empty string: only presence is checked. An unset one falls back to
      `bootRun`'s, and a main class set on neither side is an error. */
  lemma PresenceOverrides(b: BootRun, c: CustomBootRun)
    ensures c.workingDir.Some? ==> ForkWorkingDir(b, c) == c.workingDir.value
    ensures c.workingDir.None? ==> ForkWorkingDir(b, c) == b.workingDir
    ensures c.mainClass.Some? ==> ForkMain(b, c) == Ok(c.mainClass.value)
    ensures c.mainClass.None? && b.mainClass.Some? ==> ForkMain(b, c) == Ok(b.mainClass.value)
    ensures c.mainClass.None? && b.mainClass.None? ==> ForkMain(b, c) == Err(MissingMainClass)
  {
  }

  /** The forked run keeps exactly the system properties of the chosen map
      whose names do not start with `java.class.path`, values unchanged. */
  lemma {:induction false} SystemPropertiesFiltered(b: BootRun, c: CustomBootRun)
    ensures var chosen := if c.systemProperties.Some? && |c.systemProperties.value| > 0
                          then c.systemProperties.value else b.systemProperties;
      var r := ForkSystemProperties(b, c);
      r.Keys == chosen.Keys - (set k | k in chosen && StartsWith(k, "java.class.path")) &&
      forall k :: k in r ==> r[k] == chosen[k]
  {
  }

  /** A map without class-path properties passes the filter unchanged. */
  lemma WithoutClassPathKeepsOthers(props: map<string, string>)
    requires forall k :: k in props ==> !StartsWith(k, CLASS_PATH_PROPERTY_NAME)
    ensures WithoutClassPath(props) == props
  {
  }

  /** A JVM description of the 1.8 line switches descendant-killing off;
      one of version 17 does not. */
  lemma Java8Prefix(rest: string)
    ensures IsJava8("1.8" + rest)
    ensures !IsJava8("17" + rest)
  {
    assert ("1.8" + rest)[..3] == "1.8";
    assert ("17" + rest)[1] == '7';
  }
}
