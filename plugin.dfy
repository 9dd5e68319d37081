/**
 * START test definitions (`plugin.py`): loading a test and a test suite from
 * their configuration dictionaries, and the suite built from them. Checking
 * that a mission file exists and reading it go through a `FileSystem` value.
 */
module Plugin {
  import opened Wrappers
  import opened Text
  import opened Config
  import opened Dronekit
  import opened Ardu
  import opened Attacks

  /** The parameters file used when a test names none. */
  const DefaultParameters := "/opt/ardupilot/copter.parm"

  /** The vehicle model used when a suite names none. */
  const DefaultVehicle := "copter"

  /** A START test case. */
  datatype StartTest = StartTest(
    name: string,
    mission: Mission,
    parametersFilename: string,
    attack: Option<Attack>,
    timeoutSecs: int,
    speedup: int)

  /** Why a test definition was rejected (`BadConfigurationException`, or an error raised while loading). */
  datatype TestError =
    | MissingName
    | RelativeParameters(path: string)
    | MissingMission
    | MissionNotFound(path: string)
    | BadMission(missionError: MissionError)
    | MissingTimeout
    | BadAttack(attackError: AttackError)
    | BadType(key: string)
    | NotADict

  /** Why a suite definition was rejected. */
  datatype SuiteError =
    | NoDirectory
    | MissingTests
    | TestsNotAList
    | BadTest(index: nat, error: TestError)
    | VehicleNotAString

  /** `timeout_secs_without_speedup`: the wall-clock budget scaled up by the simulator speedup. */
  function TimeoutWithoutSpeedup(t: StartTest): (r: int)
    ensures t.speedup == 1 ==> r == t.timeoutSecs
    ensures t.speedup > 0 && t.timeoutSecs >= 0 ==> r >= t.timeoutSecs
    ensures t.speedup != 0 ==> r % t.speedup == 0 && r / t.speedup == t.timeoutSecs
    ensures t.speedup == 0 ==> r == 0
  {
    ScaledTimeout(t.timeoutSecs, t.speedup);
    t.timeoutSecs * t.speedup
  }

  /** What scaling a timeout by a speedup gives. */
  lemma ScaledTimeout(timeout: int, speedup: int)
    ensures speedup == 1 ==> timeout * speedup == timeout
    ensures speedup > 0 && timeout >= 0 ==> timeout * speedup >= timeout
    ensures speedup != 0 ==> (timeout * speedup) % speedup == 0 && (timeout * speedup) / speedup == timeout
    ensures speedup == 0 ==> timeout * speedup == 0
  {
    if speedup > 0 && timeout >= 0 {
      MulNonNeg(timeout, speedup - 1);
      assert timeout * speedup == timeout * (speedup - 1) + timeout;
    }
    ExactQuotient(timeout, speedup);
  }

  /** Dividing a multiple of `b` by `b` leaves no remainder and gives the other factor back. */
  lemma ExactQuotient(a: int, b: int)
    ensures b != 0 ==> (a * b) % b == 0 && (a * b) / b == a
  {
    if b != 0 {
      var q, m := (a * b) / b, (a * b) % b;
      assert b * (a - q) == m by {
        assert a * b == b * q + m;
      }
      if a != q {
        NonZeroMultiple(b, a - q);
      }
    }
  }

  /** A non-zero multiple of `b` is negative or at least `|b|`. */
  lemma NonZeroMultiple(b: int, d: int)
    requires b != 0 && d != 0
    ensures b * d < 0 || b * d >= (if b < 0 then -b else b)
  {
    if b > 0 && d > 0 {
      MulNonNeg(b, d - 1);
      assert b * d == b * (d - 1) + b;
    } else if b < 0 && d < 0 {
      MulNonNeg(-b, -d - 1);
      assert b * d == (-b) * (-d - 1) + (-b);
    } else if b > 0 {
      MulNonNeg(b, -d);
      assert b * d == -(b * (-d));
    } else {
      MulNonNeg(-b, d);
      assert b * d == -((-b) * d);
    }
  }

  lemma MulNonNeg(x: int, y: int)
    requires x >= 0 && y >= 0
    ensures x * y >= 0
  {
  }

  /** `os.path.isabs` on POSIX. */
  predicate IsAbs(path: string) {
    |path| > 0 && path[0] == '/'
  }

  /** `os.path.join(dir, path)` on POSIX, for two components. */
  function PathJoin(dir: string, path: string): (r: string)
    ensures IsAbs(path) ==> r == path
    ensures IsAbs(dir) ==> IsAbs(r)
    ensures !IsAbs(path) ==> |dir| + |path| <= |r| && r[..|dir|] == dir && r[|r| - |path|..] == path
  {
    if IsAbs(path) then path
    else if dir == [] || dir[|dir| - 1] == '/' then dir + path
    else dir + "/" + path
  }

  /** The mission path of a test, relative paths being taken from `dir`. */
  function MissionPath(dir: string, path: string): (r: string)
    ensures IsAbs(dir) || IsAbs(path) ==> IsAbs(r)
  {
    if IsAbs(path) then path else PathJoin(dir, path)
  }

  /** The parameters file of a test: the default when absent, and it must be absolute. */
  function ParametersFile(d: map<string, Value>): (r: Result<string, TestError>)
    ensures r.Success? <==>
      Get(d, "parameters", Str(DefaultParameters)).Str? && IsAbs(Get(d, "parameters", Str(DefaultParameters)).s)
    ensures r.Success? ==> Get(d, "parameters", Str(DefaultParameters)) == Str(r.value)
    ensures "parameters" !in d ==> r == Success(DefaultParameters)
    ensures r.Failure? ==> r.error.BadType? || r.error.RelativeParameters?
  {
    var parameters := Get(d, "parameters", Str(DefaultParameters));
    if !parameters.Str? then Failure(BadType("parameters"))
    else if !IsAbs(parameters.s) then Failure(RelativeParameters(parameters.s))
    else Success(parameters.s)
  }

  /** The mission of a test: named, found on disk, and loaded. */
  function LoadMission(d: map<string, Value>, dir: string, fs: FileSystem, parseFloat: FloatParser): (r: Result<Mission, TestError>)
    ensures "mission" !in d ==> r == Failure(MissingMission)
    ensures r.Success? <==>
      && "mission" in d && d["mission"].Str?
      && fs.fileExists(MissionPath(dir, d["mission"].s))
      && FromFile(MissionPath(dir, d["mission"].s), fs, parseFloat).Success?
    ensures "mission" in d && d["mission"].Str? && fs.fileExists(MissionPath(dir, d["mission"].s))
      && FromFile(MissionPath(dir, d["mission"].s), fs, parseFloat).Failure?
      ==> r == Failure(BadMission(FromFile(MissionPath(dir, d["mission"].s), fs, parseFloat).error))
    ensures r.Success? ==>
      && "mission" in d && d["mission"].Str?
      && fs.fileExists(MissionPath(dir, d["mission"].s))
      && FromFile(MissionPath(dir, d["mission"].s), fs, parseFloat) == Success(r.value)
    ensures r.Failure? && r.error.MissionNotFound? <==>
      && "mission" in d && d["mission"].Str?
      && !fs.fileExists(MissionPath(dir, d["mission"].s))
    ensures r.Failure? && r.error.MissionNotFound? ==>
      "mission" in d && d["mission"].Str? && r.error.path == MissionPath(dir, d["mission"].s)
  {
    if "mission" !in d then Failure(MissingMission)
    else if !d["mission"].Str? then Failure(BadType("mission"))
    else
      var path := MissionPath(dir, d["mission"].s);
      if !fs.fileExists(path) then Failure(MissionNotFound(path))
      else match FromFile(path, fs, parseFloat)
        case Failure(e) => Failure(BadMission(e))
        case Success(mission) => Success(mission)
  }

  /** The speedup (default 1), the timeout (required) and the optional attack of a test. */
  function Settings(d: map<string, Value>): (r: Result<(int, int, Option<Attack>), TestError>)
    ensures r.Success? <==>
      && Get(d, "speedup", Int(1)).Int?
      && "timeout-seconds" in d && d["timeout-seconds"].Int?
      && ("attack" in d ==> d["attack"].Dict? && Attacks.FromDict(d["attack"].entries).Success?)
    ensures r.Success? ==>
      && Get(d, "speedup", Int(1)) == Int(r.value.0)
      && "timeout-seconds" in d && d["timeout-seconds"] == Int(r.value.1)
      && (r.value.2.None? <==> "attack" !in d)
      && ("attack" in d ==> d["attack"].Dict? && Attacks.FromDict(d["attack"].entries) == Success(r.value.2.value))
    ensures Get(d, "speedup", Int(1)).Int? && "timeout-seconds" !in d ==> r == Failure(MissingTimeout)
    ensures r.Failure? ==> r.error.BadType? || r.error.MissingTimeout? || r.error.BadAttack?
    ensures Get(d, "speedup", Int(1)).Int? && "timeout-seconds" in d && d["timeout-seconds"].Int?
      && "attack" in d && d["attack"].Dict? && Attacks.FromDict(d["attack"].entries).Failure?
      ==> r == Failure(BadAttack(Attacks.FromDict(d["attack"].entries).error))
  {
    var speedup := Get(d, "speedup", Int(1));
    if !speedup.Int? then Failure(BadType("speedup"))
    else if "timeout-seconds" !in d then Failure(MissingTimeout)
    else if !d["timeout-seconds"].Int? then Failure(BadType("timeout-seconds"))
    else if "attack" !in d then Success((speedup.i, d["timeout-seconds"].i, None))
    else if !d["attack"].Dict? then Failure(BadType("attack"))
    else match Attacks.FromDict(d["attack"].entries)
      case Failure(e) => Failure(BadAttack(e))
      case Success(a) => Success((speedup.i, d["timeout-seconds"].i, Some(a)))
  }

  /**
   * `StartTest.from_dict`: the name, the parameters file, the mission, the
   * speedup, the timeout and the attack are determined in that order, and
   * the first problem found is reported.
   */
  function TestFromDict(d: map<string, Value>, dir: string, fs: FileSystem, parseFloat: FloatParser): (r: Result<StartTest, TestError>)
    ensures "name" !in d ==> r == Failure(MissingName)
    ensures r.Success? <==>
      && "name" in d && d["name"].Str?
      && ParametersFile(d).Success?
      && LoadMission(d, dir, fs, parseFloat).Success?
      && Settings(d).Success?
    ensures "name" in d && d["name"].Str? && ParametersFile(d).Failure?
      ==> r == Failure(ParametersFile(d).error)
    ensures "name" in d && d["name"].Str? && ParametersFile(d).Success?
      && LoadMission(d, dir, fs, parseFloat).Failure?
      ==> r == Failure(LoadMission(d, dir, fs, parseFloat).error)
    ensures "name" in d && d["name"].Str? && ParametersFile(d).Success?
      && LoadMission(d, dir, fs, parseFloat).Success? && Settings(d).Failure?
      ==> r == Failure(Settings(d).error)
    ensures r.Success? ==>
      && d["name"] == Str(r.value.name)
      && ParametersFile(d) == Success(r.value.parametersFilename)
      && LoadMission(d, dir, fs, parseFloat) == Success(r.value.mission)
      && Settings(d) == Success((r.value.speedup, r.value.timeoutSecs, r.value.attack))
    ensures r.Failure? && r.error.MissionNotFound? <==>
      && "name" in d && d["name"].Str? && ParametersFile(d).Success?
      && LoadMission(d, dir, fs, parseFloat).Failure?
      && LoadMission(d, dir, fs, parseFloat).error.MissionNotFound?
  {
    if "name" !in d then Failure(MissingName)
    else if !d["name"].Str? then Failure(BadType("name"))
    else
      var parameters :- ParametersFile(d);
      var mission :- LoadMission(d, dir, fs, parseFloat);
      var settings :- Settings(d);
      Success(StartTest(d["name"].s, mission, parameters, settings.2, settings.1, settings.0))
  }

  /** A START test suite definition: its tests in the order given, and the vehicle model. */
  datatype SuiteConfig = SuiteConfig(tests: seq<StartTest>, model: string)

  /** One item of the tests section; an item that is not a dictionary cannot describe a test. */
  function LoadTest(item: Value, dir: string, fs: FileSystem, parseFloat: FloatParser): (r: Result<StartTest, TestError>)
    ensures item.Dict? ==> r == TestFromDict(item.entries, dir, fs, parseFloat)
    ensures !item.Dict? ==> r == Failure(NotADict)
  {
    if item.Dict? then TestFromDict(item.entries, dir, fs, parseFloat) else Failure(NotADict)
  }

  /** How each item of a tests section is loaded, given the suite's directory. */
  function Loader(dir: string, fs: FileSystem, parseFloat: FloatParser): Value -> Result<StartTest, TestError> {
    item => LoadTest(item, dir, fs, parseFloat)
  }

  /** `[StartTest.from_dict(dd, dir_) for dd in items]`: every item in order, stopping at the first failure. */
  function LoadTests(items: seq<Value>, load: Value -> Result<StartTest, TestError>): (r: Result<seq<StartTest>, SuiteError>)
    ensures r.Success? ==> |r.value| == |items|
    ensures r.Success? ==> forall i :: 0 <= i < |items| ==> load(items[i]) == Success(r.value[i])
    ensures r.Failure? ==>
      exists i ::
        && 0 <= i < |items| && load(items[i]).Failure?
        && r.error == BadTest(i, load(items[i]).error)
        && forall j :: 0 <= j < i ==> load(items[j]).Success?
  {
    if items == [] then Success([])
    else match load(items[0])
      case Failure(e) => Failure(BadTest(0, e))
      case Success(t) =>
        match LoadTests(items[1..], load)
        case Failure(e) =>
          ghost var i :| 0 <= i < |items[1..]| && load(items[1..][i]).Failure?
            && e == BadTest(i, load(items[1..][i]).error)
            && forall j :: 0 <= j < i ==> load(items[1..][j]).Success?;
          assert forall j :: 1 <= j < i + 1 ==> items[j] == items[1..][j - 1];
          assert items[i + 1] == items[1..][i];
          Failure(BadTest(e.index + 1, e.error))
        case Success(ts) =>
          assert forall j :: 1 <= j < |items| ==> items[j] == items[1..][j - 1];
          Success([t] + ts)
  }

  /**
   * `StartTestSuiteConfig.from_dict`: a directory must be given; the vehicle
   * defaults to copter; the tests section is required and every test in it
   * must load.
   */
  function SuiteFromDict(d: map<string, Value>, dir: Option<string>, fs: FileSystem, parseFloat: FloatParser): (r: Result<SuiteConfig, SuiteError>)
    ensures dir.None? || dir == Some("") ==> r == Failure(NoDirectory)
    ensures r.Success? <==>
      && dir.Some? && dir.value != ""
      && Get(d, "vehicle", Str(DefaultVehicle)).Str?
      && "tests" in d && d["tests"].List?
      && LoadTests(d["tests"].items, Loader(dir.value, fs, parseFloat)).Success?
    ensures dir.Some? && dir.value != "" && Get(d, "vehicle", Str(DefaultVehicle)).Str?
      && "tests" in d && d["tests"].List?
      && LoadTests(d["tests"].items, Loader(dir.value, fs, parseFloat)).Failure?
      ==> r == Failure(LoadTests(d["tests"].items, Loader(dir.value, fs, parseFloat)).error)
    ensures r.Success? ==> Get(d, "vehicle", Str(DefaultVehicle)) == Str(r.value.model)
    ensures r.Success? ==>
      && "tests" in d && d["tests"].List?
      && LoadTests(d["tests"].items, Loader(dir.value, fs, parseFloat)) == Success(r.value.tests)
    ensures dir.Some? && dir.value != "" && Get(d, "vehicle", Str(DefaultVehicle)).Str? && "tests" !in d
      ==> r == Failure(MissingTests)
  {
    if dir.None? || dir.value == "" then Failure(NoDirectory)
    else
      var vehicle := Get(d, "vehicle", Str(DefaultVehicle));
      if !vehicle.Str? then Failure(VehicleNotAString)
      else if "tests" !in d then Failure(MissingTests)
      else if !d["tests"].List? then Failure(TestsNotAList)
      else
        var tests :- LoadTests(d["tests"].items, Loader(dir.value, fs, parseFloat));
        Success(SuiteConfig(tests, vehicle.s))
  }

  /** A built test suite: tests by name, and the vehicle model. */
  datatype Suite = Suite(tests: map<string, StartTest>, model: string)

  /** `{t.name: t for t in tests}`: a later test replaces an earlier one of the same name. */
  function ByName(tests: seq<StartTest>): map<string, StartTest> {
    if tests == [] then map[]
    else ByName(tests[..|tests| - 1])[tests[|tests| - 1].name := tests[|tests| - 1]]
  }

  /** The names of `tests`. */
  function Names(tests: seq<StartTest>): set<string> {
    set t | t in tests :: t.name
  }

  /** `StartTestSuiteConfig.build` */
  function Build(config: SuiteConfig): (s: Suite)
    ensures s.model == config.model
    ensures s.tests.Keys == Names(config.tests)
  {
    ByNameKeys(config.tests);
    Suite(ByName(config.tests), config.model)
  }

  /** `suite[name]`: `KeyError` for an unknown name. */
  function GetItem(s: Suite, name: string): (r: Option<StartTest>)
    ensures r.Some? <==> name in s.tests
  {
    if name in s.tests then Some(s.tests[name]) else None
  }

  /** `len(suite)` */
  function Length(s: Suite): (n: nat)
    ensures n == |s.tests.Keys|
  {
    |s.tests|
  }

  /** The keys of the suite are exactly the names of its tests. */
  lemma {:induction false} ByNameKeys(tests: seq<StartTest>)
    ensures ByName(tests).Keys == Names(tests)
    ensures forall n :: n in ByName(tests) ==> ByName(tests)[n].name == n && ByName(tests)[n] in tests
  {
    if tests != [] {
      var prefix := tests[..|tests| - 1];
      ByNameKeys(prefix);
      assert tests == prefix + [tests[|tests| - 1]];
      assert Names(tests) == Names(prefix) + {tests[|tests| - 1].name};
    }
  }

  /** Each name maps to the last test that carries it. */
  lemma {:induction false} ByNameLastWins(tests: seq<StartTest>, i: nat)
    requires i < |tests|
    requires forall j :: i < j < |tests| ==> tests[j].name != tests[i].name
    ensures tests[i].name in ByName(tests) && ByName(tests)[tests[i].name] == tests[i]
  {
    if i < |tests| - 1 {
      ByNameLastWins(tests[..|tests| - 1], i);
    }
  }

  /** Looking a name up in a built suite gives one of the listed tests, and one that carries that name. */
  lemma SuiteLookup(config: SuiteConfig, name: string)
    ensures GetItem(Build(config), name).Some? <==> exists t :: t in config.tests && t.name == name
    ensures GetItem(Build(config), name).Some? ==>
      GetItem(Build(config), name).value.name == name && GetItem(Build(config), name).value in config.tests
  {
    ByNameKeys(config.tests);
  }

  /** The suite's length counts distinct names, never more tests than were listed. */
  lemma SuiteLength(config: SuiteConfig)
    ensures Length(Build(config)) == |Names(config.tests)|
    ensures Length(Build(config)) <= |config.tests|
  {
    NamesBound(config.tests);
  }

  lemma {:induction false} NamesBound(tests: seq<StartTest>)
    ensures |Names(tests)| <= |tests|
  {
    if tests != [] {
      var prefix := tests[..|tests| - 1];
      NamesBound(prefix);
      assert tests == prefix + [tests[|tests| - 1]];
      assert Names(tests) == Names(prefix) + {tests[|tests| - 1].name};
    }
  }

  /** A test listed after another of the same name hides it: looking the name up gives the later one. */
  lemma DuplicateNameReplaced(config: SuiteConfig, i: nat, j: nat)
    requires i < j < |config.tests| && config.tests[i].name == config.tests[j].name
    requires forall k :: j < k < |config.tests| ==> config.tests[k].name != config.tests[j].name
    ensures GetItem(Build(config), config.tests[i].name) == Some(config.tests[j])
  {
    ByNameLastWins(config.tests, j);
  }
}
