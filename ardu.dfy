/**
 * Missions in the WPL text format, the protocol that issues a mission to a
 * vehicle and watches it fly, and the strings that launch the simulator and
 * its MAVProxy relay (`ardu.py`).
 *
 * The vehicle is a `Dronekit.Vehicle` object; what it reports back arrives as
 * a finite trace of polls, each carrying the stopwatch reading taken at that
 * poll. A loop that is still polling when its trace runs out ends in
 * `Unobserved`: the trace did not reach a verdict.
 */
module Ardu {
  import opened Wrappers
  import opened Text
  import opened Dronekit

  // ---------------------------------------------------------------------
  // Missions
  // ---------------------------------------------------------------------

  datatype MissionData = MissionData(filename: string, commands: seq<Command>)

  /** A mission: the constructor's validator rejects an empty command list. */
  type Mission = m: MissionData | |m.commands| > 0
    witness MissionData("", [Command(0, 0, 0, 0, 0, 0, 0, 0.0, 0.0, 0.0, 0.0, 0.0, 0.0, 0.0)])

  /** Latitude, longitude, altitude and heading. */
  datatype Location = Location(lat: real, lon: real, alt: real, heading: real)

  /** `float(s)`: how a numeric field is read is left to the caller. */
  type FloatParser = string -> Option<real>

  /** Which field of a WPL line was missing or unreadable (`IndexError` / `ValueError`). */
  datatype LineError =
    | MissingField(index: nat)
    | NotAnInteger(index: nat)
    | NotAFloat(index: nat)
    | TooFewNumbers(count: nat)

  datatype MissionError =
    | FileNotFound(path: string)
    | EmptyMission
    | BadLine(line: nat, error: LineError)

  /** The file system a mission is loaded from. */
  datatype FileSystem = FileSystem(
    fileExists: string -> bool,
    readLines: string -> seq<string>,
    absPath: string -> string)

  /** `Mission(filename=..., commands=...)`, including its validator. */
  function NewMission(filename: string, commands: seq<Command>): (r: Result<Mission, MissionError>)
    ensures r.Success? <==> |commands| > 0
    ensures r.Success? ==> r.value.filename == filename && r.value.commands == commands
    ensures r.Failure? ==> r.error == EmptyMission
  {
    if |commands| == 0 then Failure(EmptyMission)
    else Success(MissionData(filename, commands))
  }

  /** `home_location`: position of the first command, heading 0. */
  function HomeLocation(m: Mission): Location {
    var home := m.commands[0];
    Location(home.x, home.y, home.z, 0.0)
  }

  /** `frozenset(range(n))` */
  function IndexSet(n: nat): set<int> {
    if n == 0 then {} else IndexSet(n - 1) + {n - 1}
  }

  /** `waypoints`: one index per command. */
  function Waypoints(m: Mission): set<int> {
    IndexSet(|m.commands|)
  }

  /** `len(mission)` */
  function Len(m: Mission): (n: nat)
    ensures n >= 1
    ensures n == |m.commands|
  {
    |m.commands|
  }

  /** `mission[i]` for an integer index, negative indices counting from the end. */
  function GetItem(m: Mission, i: int): (r: Option<Command>)
    ensures r.Some? <==> -(Len(m) as int) <= i < Len(m)
    ensures 0 <= i < Len(m) ==> r == Some(m.commands[i])
  {
    if 0 <= i < |m.commands| then Some(m.commands[i])
    else if -|m.commands| <= i < 0 then Some(m.commands[i + |m.commands|])
    else None
  }

  /** Mission equality, which the class restricts to `filename`. */
  predicate MissionEq(a: Mission, b: Mission) {
    a.filename == b.filename
  }

  lemma {:induction false} IndexSetIsRange(n: nat)
    ensures forall i :: i in IndexSet(n) <==> 0 <= i < n
    ensures |IndexSet(n)| == n
  {
    if n > 0 {
      IndexSetIsRange(n - 1);
    }
  }

  /** The waypoint set is exactly {0, ..., len - 1}, so it has `len` elements. */
  lemma WaypointsAreIndices(m: Mission)
    ensures forall i :: i in Waypoints(m) <==> 0 <= i < Len(m)
    ensures |Waypoints(m)| == Len(m)
    ensures 0 in Waypoints(m)
  {
    IndexSetIsRange(|m.commands|);
  }

  /** Negative indices alias the commands counted from the end. */
  lemma NegativeIndexAliases(m: Mission, i: int)
    requires 0 <= i < Len(m)
    ensures GetItem(m, i - Len(m)) == GetItem(m, i)
  {
  }

  /** Mission equality is an equivalence. */
  lemma MissionEqIsEquivalence(a: Mission, b: Mission, c: Mission)
    ensures MissionEq(a, a)
    ensures MissionEq(a, b) ==> MissionEq(b, a)
    ensures MissionEq(a, b) && MissionEq(b, c) ==> MissionEq(a, c)
  {
  }

  /**
   * Two constructed missions are equal exactly when their file names are,
   * while their lengths, waypoint sets and home locations follow their
   * commands: equality ignores the commands and everything derived from them.
   */
  lemma EqualityIgnoresCommands(f1: string, c1: seq<Command>, f2: string, c2: seq<Command>)
    requires |c1| > 0 && |c2| > 0
    ensures NewMission(f1, c1).Success? && NewMission(f2, c2).Success?
    ensures MissionEq(NewMission(f1, c1).value, NewMission(f2, c2).value) <==> f1 == f2
    ensures Len(NewMission(f1, c1).value) == Len(NewMission(f2, c2).value) <==> |c1| == |c2|
    ensures Waypoints(NewMission(f1, c1).value) == Waypoints(NewMission(f2, c2).value) <==> |c1| == |c2|
    ensures HomeLocation(NewMission(f1, c1).value) == HomeLocation(NewMission(f2, c2).value)
      <==> c1[0].x == c2[0].x && c1[0].y == c2[0].y && c1[0].z == c2[0].z
  {
    var a, b := NewMission(f1, c1).value, NewMission(f2, c2).value;
    WaypointsAreIndices(a);
    WaypointsAreIndices(b);
  }

  // ---------------------------------------------------------------------
  // WPL parsing
  // ---------------------------------------------------------------------

  /** `[float(x) for x in toks]`; `first` is the field number of `toks[0]`. */
  function ParseFloats(toks: seq<string>, first: nat, parseFloat: FloatParser): (r: Result<seq<real>, LineError>)
    ensures r.Success? <==> forall i :: 0 <= i < |toks| ==> parseFloat(toks[i]).Some?
    ensures r.Success? ==> |r.value| == |toks|
    ensures r.Success? ==> forall i :: 0 <= i < |toks| ==> parseFloat(toks[i]) == Some(r.value[i])
  {
    if toks == [] then Success([])
    else match parseFloat(toks[0])
      case None => Failure(NotAFloat(first))
      case Some(x) =>
        match ParseFloats(toks[1..], first + 1, parseFloat)
        case Failure(e) => Failure(e)
        case Success(xs) =>
          assert forall i :: 1 <= i < |toks| ==> toks[i] == toks[1..][i - 1];
          Success([x] + xs)
  }

  function Min(a: int, b: int): int {
    if a < b then a else b
  }

  /** Fields 0, 2 and 3 read as integers and fields 4 to 10 as numbers. */
  predicate WellFormedFields(f: seq<string>, parseFloat: FloatParser) {
    && |f| >= 11
    && ParseInt(f[0]).Some? && ParseInt(f[2]).Some? && ParseInt(f[3]).Some?
    && forall i :: 4 <= i < 11 ==> parseFloat(f[i]).Some?
  }

  /**
   * The body of `Mission.line_to_command` once the line is split: field 0
   * (the index) must read as an integer but is ignored, field 1 (the current
   * flag) is never read, field 2 is the frame, field 3 the command id, fields
   * 4 to 10 the four parameters and x, y, z; fields after the eleventh are
   * ignored. The current flag and autocontinue are always 0.
   */
  function FieldsToCommand(args: seq<string>, parseFloat: FloatParser): (r: Result<Command, LineError>)
    ensures r.Success? <==> WellFormedFields(args, parseFloat)
    ensures r.Success? ==>
      var c := r.value;
      && ParseInt(args[2]) == Some(c.frame)
      && ParseInt(args[3]) == Some(c.command)
      && parseFloat(args[4]) == Some(c.param1) && parseFloat(args[5]) == Some(c.param2)
      && parseFloat(args[6]) == Some(c.param3) && parseFloat(args[7]) == Some(c.param4)
      && parseFloat(args[8]) == Some(c.x) && parseFloat(args[9]) == Some(c.y)
      && parseFloat(args[10]) == Some(c.z)
      && c.current == 0 && c.autocontinue == 0
      && c.targetSystem == 0 && c.targetComponent == 0 && c.seqNum == 0
  {
    if |args| < 1 then Failure(MissingField(0))
    else if ParseInt(args[0]).None? then Failure(NotAnInteger(0))
    else if |args| < 3 then Failure(MissingField(2))
    else if ParseInt(args[2]).None? then Failure(NotAnInteger(2))
    else if |args| < 4 then Failure(MissingField(3))
    else if ParseInt(args[3]).None? then Failure(NotAnInteger(3))
    else
      var toks := args[4..Min(11, |args|)];
      match ParseFloats(toks, 4, parseFloat)
      case Failure(e) =>
        assert !WellFormedFields(args, parseFloat) by {
          var i :| 0 <= i < |toks| && parseFloat(toks[i]).None?;
          assert toks[i] == args[4 + i];
        }
        Failure(e)
      case Success(p) =>
        if |p| != 7 then Failure(TooFewNumbers(|p|))
        else
          assert forall i :: 4 <= i < 11 ==> args[i] == toks[i - 4];
          Success(Command(0, 0, 0, ParseInt(args[2]).value, ParseInt(args[3]).value, 0, 0,
                          p[0], p[1], p[2], p[3], p[4], p[5], p[6]))
  }

  /** `Mission.line_to_command`: a line with fewer than eleven fields is always rejected. */
  function LineToCommand(s: string, parseFloat: FloatParser): (r: Result<Command, LineError>)
    ensures r.Success? <==> WellFormedFields(Split(s), parseFloat)
    ensures |Split(s)| < 11 ==> r.Failure?
  {
    FieldsToCommand(Split(s), parseFloat)
  }

  /** `line_to_command` with the number reader fixed. */
  function LineParser(parseFloat: FloatParser): string -> Result<Command, LineError> {
    line => LineToCommand(line, parseFloat)
  }

  /** Parses `lines` in order, stopping at the first bad one; `first` numbers `lines[0]`. */
  function ParseLines(lines: seq<string>, first: nat, parse: string -> Result<Command, LineError>): (r: Result<seq<Command>, MissionError>)
    ensures r.Success? ==> |r.value| == |lines|
    ensures r.Success? ==> forall i :: 0 <= i < |lines| ==> parse(lines[i]) == Success(r.value[i])
    ensures r.Failure? ==>
      exists i ::
        && 0 <= i < |lines| && parse(lines[i]).Failure?
        && r.error == BadLine(first + i, parse(lines[i]).error)
        && forall j :: 0 <= j < i ==> parse(lines[j]).Success?
  {
    if lines == [] then Success([])
    else match parse(lines[0])
      case Failure(e) => Failure(BadLine(first, e))
      case Success(c) =>
        match ParseLines(lines[1..], first + 1, parse)
        case Failure(e) =>
          ghost var i :| 0 <= i < |lines[1..]| && parse(lines[1..][i]).Failure?
            && e == BadLine(first + 1 + i, parse(lines[1..][i]).error)
            && forall j :: 0 <= j < i ==> parse(lines[1..][j]).Success?;
          assert forall j :: 1 <= j < i + 1 ==> lines[j] == lines[1..][j - 1];
          assert lines[i + 1] == lines[1..][i];
          Failure(e)
        case Success(cs) =>
          assert forall j :: 1 <= j < |lines| ==> lines[j] == lines[1..][j - 1];
          Success([c] + cs)
  }

  /** `lines[1:]` */
  function DropHeader(lines: seq<string>): seq<string> {
    if |lines| == 0 then [] else lines[1..]
  }

  /**
   * `Mission.from_file` once the file has been read: the header line is
   * dropped, every other line becomes one command, and a file with no line
   * after the header is rejected.
   */
  function FromLines(filename: string, lines: seq<string>, parseFloat: FloatParser): (r: Result<Mission, MissionError>)
    ensures |lines| <= 1 ==> r == Failure(EmptyMission)
    ensures r.Success? <==>
      |lines| >= 2 && forall i :: 1 <= i < |lines| ==> LineToCommand(lines[i], parseFloat).Success?
    ensures r.Success? ==> r.value.filename == filename && Len(r.value) == |lines| - 1
    ensures r.Success? ==> forall i :: 1 <= i < |lines| ==>
      LineToCommand(lines[i], parseFloat) == Success(r.value.commands[i - 1])
    ensures r.Failure? && |lines| >= 2 ==>
      exists i ::
        && 1 <= i < |lines| && LineToCommand(lines[i], parseFloat).Failure?
        && r.error == BadLine(i, LineToCommand(lines[i], parseFloat).error)
        && forall j :: 1 <= j < i ==> LineToCommand(lines[j], parseFloat).Success?
  {
    var parse := LineParser(parseFloat);
    ParseBody(lines, parse);
    match ParseLines(DropHeader(lines), 1, parse)
    case Failure(e) => Failure(e)
    case Success(cs) => NewMission(filename, cs)
  }

  /** `ParseLines` over the lines after the header, indexed as lines of the whole file. */
  lemma ParseBody(lines: seq<string>, parse: string -> Result<Command, LineError>)
    ensures var r := ParseLines(DropHeader(lines), 1, parse);
      && (r.Success? <==> forall i :: 1 <= i < |lines| ==> parse(lines[i]).Success?)
      && (r.Success? ==> |r.value| == |DropHeader(lines)| && forall i :: 1 <= i < |lines| ==> parse(lines[i]) == Success(r.value[i - 1]))
      && (r.Failure? ==>
        exists i ::
          && 1 <= i < |lines| && parse(lines[i]).Failure?
          && r.error == BadLine(i, parse(lines[i]).error)
          && forall j :: 1 <= j < i ==> parse(lines[j]).Success?)
  {
  }

  /**
   * `Mission.from_file(filename)`: a file that does not exist cannot be
   * opened; otherwise its lines are loaded as by `FromLines`, under the
   * absolute path of the file.
   */
  function FromFile(filename: string, fs: FileSystem, parseFloat: FloatParser): (r: Result<Mission, MissionError>)
    ensures !fs.fileExists(filename) ==> r == Failure(FileNotFound(filename))
    ensures r.Success? <==>
      && fs.fileExists(filename)
      && |fs.readLines(filename)| >= 2
      && forall i :: 1 <= i < |fs.readLines(filename)| ==> LineToCommand(fs.readLines(filename)[i], parseFloat).Success?
    ensures r.Success? ==> r.value.filename == fs.absPath(filename)
    ensures r.Success? ==> Len(r.value) == |fs.readLines(filename)| - 1
    ensures r.Success? ==> forall i :: 0 <= i < Len(r.value) ==>
      LineToCommand(fs.readLines(filename)[i + 1], parseFloat) == Success(r.value.commands[i])
  {
    if !fs.fileExists(filename) then Failure(FileNotFound(filename))
    else
      FromLines(fs.absPath(filename), fs.readLines(filename), parseFloat)
  }

  /** What the header line says never matters. */
  lemma HeaderIgnored(filename: string, h1: string, h2: string, rest: seq<string>, parseFloat: FloatParser)
    ensures FromLines(filename, [h1] + rest, parseFloat) == FromLines(filename, [h2] + rest, parseFloat)
  {
    assert DropHeader([h1] + rest) == rest == DropHeader([h2] + rest);
  }

  /** Home is the x, y, z of the first line after the header (fields 8, 9, 10), heading 0. */
  lemma HomeFromFirstLine(filename: string, lines: seq<string>, parseFloat: FloatParser, m: Mission)
    requires FromLines(filename, lines, parseFloat) == Success(m)
    ensures |lines| >= 2
    ensures var f := Split(lines[1]);
      && |f| >= 11
      && Some(HomeLocation(m).lat) == parseFloat(f[8])
      && Some(HomeLocation(m).lon) == parseFloat(f[9])
      && Some(HomeLocation(m).alt) == parseFloat(f[10])
      && HomeLocation(m).heading == 0.0
  {
    assert LineToCommand(lines[1], parseFloat) == Success(m.commands[0]);
  }

  /**
   * A line whose fields are joined by whitespace (spaces or the tabs of a
   * saved mission file) is read by position:
   * the result depends on the fields exactly as `line_to_command` picks them.
   */
  lemma LineFieldsByPosition(sep: string, f: seq<string>, parseFloat: FloatParser)
    requires IsGap(sep)
    requires forall i :: 0 <= i < |f| ==> IsWord(f[i])
    requires WellFormedFields(f, parseFloat)
    ensures LineToCommand(Join(sep, f), parseFloat) == Success(Command(
      0, 0, 0, ParseInt(f[2]).value, ParseInt(f[3]).value, 0, 0,
      parseFloat(f[4]).value, parseFloat(f[5]).value, parseFloat(f[6]).value, parseFloat(f[7]).value,
      parseFloat(f[8]).value, parseFloat(f[9]).value, parseFloat(f[10]).value))
  {
    SplitJoin(sep, f);
  }

  /** The index and current-flag fields do not influence the command a line yields. */
  lemma IndexFieldIgnored(sep: string, f: seq<string>, g: seq<string>, parseFloat: FloatParser)
    requires IsGap(sep)
    requires forall i :: 0 <= i < |f| ==> IsWord(f[i])
    requires forall i :: 0 <= i < |g| ==> IsWord(g[i])
    requires |f| == |g| >= 2 && f[2..] == g[2..]
    requires ParseInt(f[0]).Some? && ParseInt(g[0]).Some?
    ensures LineToCommand(Join(sep, f), parseFloat) == LineToCommand(Join(sep, g), parseFloat)
  {
    SplitJoin(sep, f);
    SplitJoin(sep, g);
    FieldsIndexIgnored(f, g, parseFloat);
  }

  lemma FieldsIndexIgnored(f: seq<string>, g: seq<string>, parseFloat: FloatParser)
    requires |f| == |g| >= 2 && f[2..] == g[2..]
    requires ParseInt(f[0]).Some? && ParseInt(g[0]).Some?
    ensures FieldsToCommand(f, parseFloat) == FieldsToCommand(g, parseFloat)
  {
    if |f| >= 4 {
      assert f[2] == f[2..][0] == g[2] && f[3] == f[2..][1] == g[3];
      var n := Min(11, |f|);
      assert f[4..n] == f[2..][2..n - 2] == g[4..n];
    } else if |f| == 3 {
      assert f[2] == f[2..][0] == g[2];
    }
  }

  // ---------------------------------------------------------------------
  // Issuing a mission
  // ---------------------------------------------------------------------

  /** What one poll of the vehicle during setup shows, and the stopwatch reading then. */
  datatype SetupPoll = SetupPoll(
    elapsed: real,     // seconds since `issue` started its stopwatch
    armable: bool,     // `vehicle.is_armable`
    homeKnown: bool,   // `vehicle.home_location` is set
    armed: bool,       // `vehicle.armed`
    ackDelay: real)    // how long `commands.wait_ready` would wait after this poll

  /** What one poll during the flight shows: mission-stopwatch reading and `commands.next`. */
  datatype FlightPoll = FlightPoll(elapsed: real, cursor: int)

  datatype Phase = WaitArmable | WaitHome | Download | WaitArmed | Upload | Flight

  /** How a polling loop ended: `next` is the first poll not consumed. */
  datatype Progress = Reached(next: nat) | TimedOut(phase: Phase, at: nat) | Unobserved

  /** `time_left()`: the part of the budget not used yet, never negative. */
  function TimeLeft(timeout: real, elapsed: real): (r: real)
    ensures r >= 0.0
    ensures r >= timeout - elapsed
    ensures r == 0.0 || r == timeout - elapsed
  {
    if timeout - elapsed > 0.0 then timeout - elapsed else 0.0
  }

  /** `wait_ready(timeout=time_left())` succeeds. */
  predicate AckInTime(p: SetupPoll, timeout: real) {
    p.ackDelay <= TimeLeft(timeout, p.elapsed)
  }

  /** The condition the phase's `while not ...` loop waits for. */
  predicate Ready(phase: Phase, p: SetupPoll) {
    match phase
    case WaitArmable => p.armable
    case WaitHome => p.homeKnown
    case WaitArmed => p.armed
    case _ => false
  }

  /** A poll at which the waiting loop neither exits nor raises. */
  predicate Quiet(phase: Phase, p: SetupPoll, timeout: real) {
    && !Ready(phase, p)
    && p.elapsed <= timeout
    && (phase == WaitHome ==> AckInTime(p, timeout))
  }

  /**
   * One waiting loop of `issue`, from poll `k`: leave when the condition
   * holds, raise once the stopwatch strictly exceeds the timeout, and while
   * waiting for home, request a download and raise when it is not
   * acknowledged within the time left.
   */
  function Await(phase: Phase, polls: seq<SetupPoll>, k: nat, timeout: real): (r: Progress)
    requires phase in {WaitArmable, WaitHome, WaitArmed}
    ensures r.Reached? ==>
      && k < r.next <= |polls| && Ready(phase, polls[r.next - 1])
      && forall j :: k <= j < r.next - 1 ==> Quiet(phase, polls[j], timeout)
    ensures r.TimedOut? ==>
      && k <= r.at < |polls| && !Ready(phase, polls[r.at])
      && (r.phase == phase ==> polls[r.at].elapsed > timeout)
      && (r.phase != phase ==>
            r.phase == Download && phase == WaitHome && polls[r.at].elapsed <= timeout
            && !AckInTime(polls[r.at], timeout))
      && forall j :: k <= j < r.at ==> Quiet(phase, polls[j], timeout)
    ensures r.Unobserved? ==> forall j :: k <= j < |polls| ==> Quiet(phase, polls[j], timeout)
    decreases |polls| - k
  {
    if k >= |polls| then Unobserved
    else if Ready(phase, polls[k]) then Reached(k + 1)
    else if polls[k].elapsed > timeout then TimedOut(phase, k)
    else if phase == WaitHome && !AckInTime(polls[k], timeout) then TimedOut(Download, k)
    else Await(phase, polls, k + 1, timeout)
  }

  /** Setup up to and including the home location. */
  function ThroughHome(polls: seq<SetupPoll>, timeout: real): Progress {
    match Await(WaitArmable, polls, 0, timeout)
    case Reached(a) => Await(WaitHome, polls, a, timeout)
    case other => other
  }

  /** Setup up to and including the arm confirmation. */
  function ThroughArm(polls: seq<SetupPoll>, timeout: real): Progress {
    match ThroughHome(polls, timeout)
    case Reached(h) => Await(WaitArmed, polls, h, timeout)
    case other => other
  }

  /** `issue`: the three waits, then the upload acknowledgement. */
  function IssueSpec(polls: seq<SetupPoll>, timeout: real): Progress {
    match ThroughArm(polls, timeout)
    case Reached(b) =>
      if b >= |polls| then Unobserved
      else if AckInTime(polls[b], timeout) then Reached(b + 1)
      else TimedOut(Upload, b)
    case other => other
  }

  /** MAV_CMD_MISSION_START */
  const MissionStart := 300

  /** The message that starts the mission, addressed one past the last command. */
  function StartMessage(n: nat): CommandLong {
    CommandLong(0, 0, MissionStart, 0, 1, n + 1, 0, 0, 0, 0, 4)
  }

  /** The vehicle after `issue`: what it was told, phase by phase, until setup stopped. */
  function IssueEffect(m: Mission, polls: seq<SetupPoll>, timeout: real, s: VehicleState): VehicleState {
    var s1 := if ThroughHome(polls, timeout).Reached? then s.(armRequested := true) else s;
    var s2 := if ThroughArm(polls, timeout).Reached?
      then s1.(commands := m.commands, uploaded := s1.uploaded + [m.commands])
      else s1;
    if IssueSpec(polls, timeout).Reached?
    then s2.(mode := "AUTO", sent := s2.sent + [StartMessage(|m.commands|)])
    else s2
  }

  /** The waiting loop of one phase, run against the trace. */
  method AwaitPhase(phase: Phase, polls: seq<SetupPoll>, k0: nat, timeout: real) returns (r: Progress)
    requires phase in {WaitArmable, WaitHome, WaitArmed}
    ensures r == Await(phase, polls, k0, timeout)
  {
    var k := k0;
    while true
      invariant k0 <= k
      invariant Await(phase, polls, k, timeout) == Await(phase, polls, k0, timeout)
      decreases |polls| - k
    {
      if k >= |polls| {
        return Unobserved;
      }
      var p := polls[k];
      if Ready(phase, p) {
        return Reached(k + 1);
      }
      if p.elapsed > timeout {
        return TimedOut(phase, k);
      }
      if phase == WaitHome && p.ackDelay > TimeLeft(timeout, p.elapsed) {
        return TimedOut(Download, k);
      }
      k := k + 1;
    }
  }

  /** The three waits of `issue`, with the arm request sent once the home location is known. */
  method Prepare(v: Vehicle, polls: seq<SetupPoll>, timeout: real) returns (r: Progress)
    modifies v
    ensures r == ThroughArm(polls, timeout)
    ensures v.State() == if ThroughHome(polls, timeout).Reached? then old(v.State()).(armRequested := true) else old(v.State())
  {
    var a := AwaitPhase(WaitArmable, polls, 0, timeout);
    if !a.Reached? {
      return a;
    }
    var h := AwaitPhase(WaitHome, polls, a.next, timeout);
    if !h.Reached? {
      return h;
    }
    v.RequestArm();
    r := AwaitPhase(WaitArmed, polls, h.next, timeout);
  }

  /** Clear the vehicle's command list, add the mission's commands in order, and upload them. */
  method UploadMission(m: Mission, v: Vehicle)
    modifies v
    ensures v.State() == old(v.State()).(commands := m.commands, uploaded := old(v.uploaded) + [m.commands])
  {
    v.Clear();
    for i := 0 to |m.commands|
      invariant v.commands == m.commands[..i]
      invariant v.uploaded == old(v.uploaded) && v.armRequested == old(v.armRequested)
      invariant v.mode == old(v.mode) && v.sent == old(v.sent) && v.parameters == old(v.parameters)
    {
      v.Add(m.commands[i]);
    }
    assert m.commands[..|m.commands|] == m.commands;
    v.Upload();
  }

  /** `Mission.issue` */
  method Issue(m: Mission, v: Vehicle, polls: seq<SetupPoll>, timeout: real) returns (r: Progress)
    modifies v
    ensures r == IssueSpec(polls, timeout)
    ensures v.State() == IssueEffect(m, polls, timeout, old(v.State()))
  {
    r := Prepare(v, polls, timeout);
    if !r.Reached? {
      return;
    }
    UploadMission(m, v);
    var b := r.next;
    if b >= |polls| {
      return Unobserved;
    }
    if polls[b].ackDelay > TimeLeft(timeout, polls[b].elapsed) {
      return TimedOut(Upload, b);
    }
    v.SetMode("AUTO");
    v.SendMavlink(StartMessage(|m.commands|));
    r := Reached(b + 1);
  }

  /** A successful `issue` went through each stage in turn. */
  lemma IssueStages(polls: seq<SetupPoll>, timeout: real)
    requires IssueSpec(polls, timeout).Reached?
    ensures Await(WaitArmable, polls, 0, timeout).Reached?
    ensures ThroughHome(polls, timeout) == Await(WaitHome, polls, Await(WaitArmable, polls, 0, timeout).next, timeout)
    ensures ThroughHome(polls, timeout).Reached?
    ensures ThroughArm(polls, timeout) == Await(WaitArmed, polls, ThroughHome(polls, timeout).next, timeout)
    ensures ThroughArm(polls, timeout).Reached?
    ensures ThroughArm(polls, timeout).next < |polls|
    ensures IssueSpec(polls, timeout).next == ThroughArm(polls, timeout).next + 1
    ensures AckInTime(polls[ThroughArm(polls, timeout).next], timeout)
  {
  }

  /** Polls `a`, `h` and `b` saw the vehicle armable, home known and armed, in that order, and the upload was acknowledged at poll `n - 1`. */
  predicate PhasesAt(polls: seq<SetupPoll>, timeout: real, n: nat, a: nat, h: nat, b: nat) {
    && a < h < b < n - 1 < |polls|
    && polls[a].armable && polls[h].homeKnown && polls[b].armed
    && AckInTime(polls[n - 1], timeout)
  }

  /** The phases happen in order, each on a later poll than the one before. */
  lemma IssuePhasesInOrder(polls: seq<SetupPoll>, timeout: real)
    requires IssueSpec(polls, timeout).Reached?
    ensures exists a, h, b :: PhasesAt(polls, timeout, IssueSpec(polls, timeout).next, a, h, b)
  {
    IssueStages(polls, timeout);
    var a := Await(WaitArmable, polls, 0, timeout).next - 1;
    var h := ThroughHome(polls, timeout).next - 1;
    var b := ThroughArm(polls, timeout).next - 1;
    assert PhasesAt(polls, timeout, IssueSpec(polls, timeout).next, a, h, b);
  }

  /** Every setup timeout is justified by the poll at which it is raised. */
  lemma IssueTimeoutJustified(polls: seq<SetupPoll>, timeout: real)
    requires IssueSpec(polls, timeout).TimedOut?
    ensures var r := IssueSpec(polls, timeout);
      && r.at < |polls| && r.phase != Flight
      && (r.phase in {WaitArmable, WaitHome, WaitArmed} ==> polls[r.at].elapsed > timeout)
      && (r.phase in {Download, Upload} ==> !AckInTime(polls[r.at], timeout))
  {
  }

  /** A wait that has a poll past the deadline ahead of it cannot outlast that poll. */
  lemma AwaitBounded(phase: Phase, polls: seq<SetupPoll>, k: nat, d: nat, timeout: real)
    requires phase in {WaitArmable, WaitHome, WaitArmed}
    requires k <= d < |polls| && polls[d].elapsed > timeout
    ensures Await(phase, polls, k, timeout) != Unobserved
    ensures Await(phase, polls, k, timeout).Reached? ==> Await(phase, polls, k, timeout).next <= d + 1
  {
  }

  /**
   * Setup cannot hang: once the stopwatch is past the timeout at every poll
   * from `d` on, and the trace has room for the four phases, `issue` has
   * either finished or raised.
   */
  lemma IssueCannotHang(polls: seq<SetupPoll>, d: nat, timeout: real)
    requires d + 4 <= |polls|
    requires forall j :: d <= j < |polls| ==> polls[j].elapsed > timeout
    ensures IssueSpec(polls, timeout) != Unobserved
  {
    AwaitBounded(WaitArmable, polls, 0, d, timeout);
    var w1 := Await(WaitArmable, polls, 0, timeout);
    if w1.Reached? {
      var d2 := if w1.next > d then w1.next else d;
      AwaitBounded(WaitHome, polls, w1.next, d2, timeout);
      var w2 := Await(WaitHome, polls, w1.next, timeout);
      if w2.Reached? {
        var d3 := if w2.next > d then w2.next else d;
        AwaitBounded(WaitArmed, polls, w2.next, d3, timeout);
      }
    }
  }

  /** After a successful `issue` the vehicle holds exactly the mission and was told to start it. */
  lemma IssuedVehicle(m: Mission, polls: seq<SetupPoll>, timeout: real, s: VehicleState)
    requires IssueSpec(polls, timeout).Reached?
    ensures var t := IssueEffect(m, polls, timeout, s);
      && t.commands == m.commands
      && t.uploaded == s.uploaded + [m.commands]
      && t.armRequested && t.mode == "AUTO"
      && t.sent == s.sent + [StartMessage(Len(m))]
      && t.sent[|t.sent| - 1].command == MissionStart
      && t.sent[|t.sent| - 1].param2 == Len(m) + 1
      && t.parameters == s.parameters
  {
  }

  /** A setup that timed out never switched to AUTO nor sent the start message. */
  lemma TimedOutVehicle(m: Mission, polls: seq<SetupPoll>, timeout: real, s: VehicleState)
    requires !IssueSpec(polls, timeout).Reached?
    ensures var t := IssueEffect(m, polls, timeout, s);
      t.mode == s.mode && t.sent == s.sent && t.parameters == s.parameters
  {
  }

  // ---------------------------------------------------------------------
  // Executing a mission
  // ---------------------------------------------------------------------

  /** `has_started` before poll `k`: the cursor has left 0 at an earlier poll. */
  predicate StartedBefore(polls: seq<FlightPoll>, k: nat)
    requires k <= |polls|
  {
    exists j :: 0 <= j < k && polls[j].cursor != 0
  }

  /** The cursor is back at 0 at poll `j` after having started: the mission is complete. */
  predicate CompletesAt(polls: seq<FlightPoll>, j: nat)
    requires j < |polls|
  {
    polls[j].cursor == 0 && StartedBefore(polls, j)
  }

  /**
   * The loop of `execute` from poll `k`: latch `has_started`, stop when the
   * cursor is 0 after having started, and otherwise raise once the mission
   * stopwatch exceeds the timeout. The completion test comes first.
   */
  function Track(polls: seq<FlightPoll>, k: nat, started: bool, timeout: real): Progress
    decreases |polls| - k
  {
    if k >= |polls| then Unobserved
    else
      var nowStarted := started || polls[k].cursor != 0;
      if nowStarted && polls[k].cursor == 0 then Reached(k + 1)
      else if polls[k].elapsed > timeout then TimedOut(Flight, k)
      else Track(polls, k + 1, nowStarted, timeout)
  }

  /** `execute`: issue the mission, then watch the cursor. */
  function ExecuteSpec(setup: seq<SetupPoll>, flight: seq<FlightPoll>, timeoutSetup: real, timeoutMission: real): Progress {
    match IssueSpec(setup, timeoutSetup)
    case Reached(_) => Track(flight, 0, false, timeoutMission)
    case other => other
  }

  lemma StartedBeforeStep(polls: seq<FlightPoll>, k: nat)
    requires k < |polls|
    ensures StartedBefore(polls, k + 1) == (StartedBefore(polls, k) || polls[k].cursor != 0)
  {
    if polls[k].cursor != 0 {
      assert 0 <= k < k + 1 && polls[k].cursor != 0;
    }
  }

  /**
   * What the completion detector decides, from any poll `k` whose latch is
   * right: completion exactly at the first return to 0 after a start,
   * a timeout exactly at the first poll past the deadline that is not a
   * completion, and no verdict only when neither ever happens.
   */
  lemma {:induction false} TrackOutcome(polls: seq<FlightPoll>, k: nat, started: bool, timeout: real)
    requires k <= |polls| && started == StartedBefore(polls, k)
    ensures var r := Track(polls, k, started, timeout);
      && (r.Reached? ==>
            && k < r.next <= |polls| && CompletesAt(polls, r.next - 1)
            && forall j :: k <= j < r.next - 1 ==> !CompletesAt(polls, j) && polls[j].elapsed <= timeout)
      && (r.TimedOut? ==>
            && r.phase == Flight && k <= r.at < |polls|
            && polls[r.at].elapsed > timeout && !CompletesAt(polls, r.at)
            && forall j :: k <= j < r.at ==> !CompletesAt(polls, j) && polls[j].elapsed <= timeout)
      && (r.Unobserved? ==>
            forall j :: k <= j < |polls| ==> !CompletesAt(polls, j) && polls[j].elapsed <= timeout)
    decreases |polls| - k
  {
    if k < |polls| {
      StartedBeforeStep(polls, k);
      var nowStarted := started || polls[k].cursor != 0;
      if !(nowStarted && polls[k].cursor == 0) && polls[k].elapsed <= timeout {
        TrackOutcome(polls, k + 1, nowStarted, timeout);
      }
    }
  }

  /** A cursor that reads 0 at the first poll never completes the mission there. */
  lemma InitialZeroNeverCompletes(polls: seq<FlightPoll>, timeout: real)
    requires |polls| > 0 && polls[0].cursor == 0
    ensures Track(polls, 0, false, timeout) != Reached(1)
  {
    TrackOutcome(polls, 0, false, timeout);
  }

  /** A completed flight had a non-zero cursor before its final 0. */
  lemma CompletionNeedsStart(polls: seq<FlightPoll>, timeout: real)
    requires Track(polls, 0, false, timeout).Reached?
    ensures var n := Track(polls, 0, false, timeout).next;
      2 <= n <= |polls| && polls[n - 1].cursor == 0 && exists j :: 0 <= j < n - 1 && polls[j].cursor != 0
  {
    TrackOutcome(polls, 0, false, timeout);
  }

  /**
   * A stalled vehicle, whose cursor never leaves 0, never completes; it times
   * out at the first poll past the deadline.
   */
  lemma StalledVehicleTimesOut(polls: seq<FlightPoll>, d: nat, timeout: real)
    requires forall j :: 0 <= j < |polls| ==> polls[j].cursor == 0
    requires d < |polls| && polls[d].elapsed > timeout
    requires forall j :: 0 <= j < d ==> polls[j].elapsed <= timeout
    ensures Track(polls, 0, false, timeout) == TimedOut(Flight, d)
  {
    TrackOutcome(polls, 0, false, timeout);
    assert forall j :: 0 <= j < |polls| ==> !CompletesAt(polls, j);
  }

  /** A flight that started but never came back to 0 times out at the deadline. */
  lemma NoReturnTimesOut(polls: seq<FlightPoll>, d: nat, timeout: real)
    requires forall j :: 0 <= j < |polls| ==> !CompletesAt(polls, j)
    requires d < |polls| && polls[d].elapsed > timeout
    requires forall j :: 0 <= j < d ==> polls[j].elapsed <= timeout
    ensures Track(polls, 0, false, timeout) == TimedOut(Flight, d)
  {
    TrackOutcome(polls, 0, false, timeout);
  }

  /** Once decided, the verdict does not depend on polls that come later. */
  lemma {:induction false} TrackIgnoresLaterPolls(polls: seq<FlightPoll>, more: seq<FlightPoll>, k: nat, started: bool, timeout: real)
    requires Track(polls, k, started, timeout) != Unobserved
    ensures Track(polls + more, k, started, timeout) == Track(polls, k, started, timeout)
    decreases |polls| - k
  {
    assert k < |polls|;
    assert (polls + more)[k] == polls[k];
    var nowStarted := started || polls[k].cursor != 0;
    if !(nowStarted && polls[k].cursor == 0) && polls[k].elapsed <= timeout {
      TrackIgnoresLaterPolls(polls, more, k + 1, nowStarted, timeout);
    }
  }

  /** `Mission.execute` */
  method Execute(m: Mission, v: Vehicle, setup: seq<SetupPoll>, flight: seq<FlightPoll>,
                 timeoutSetup: real, timeoutMission: real) returns (r: Progress)
    modifies v
    ensures r == ExecuteSpec(setup, flight, timeoutSetup, timeoutMission)
    ensures v.State() == IssueEffect(m, setup, timeoutSetup, old(v.State()))
  {
    r := Issue(m, v, setup, timeoutSetup);
    if !r.Reached? {
      return;
    }
    var hasStarted := false;
    var k := 0;
    while true
      invariant k <= |flight|
      invariant Track(flight, k, hasStarted, timeoutMission) == Track(flight, 0, false, timeoutMission)
      decreases |flight| - k
    {
      if k >= |flight| {
        return Unobserved;
      }
      var commandNum := flight[k].cursor;
      hasStarted := hasStarted || commandNum != 0;
      if hasStarted && commandNum == 0 {
        return Reached(k + 1);
      }
      if flight[k].elapsed > timeoutMission {
        return TimedOut(Flight, k);
      }
      k := k + 1;
    }
  }

  // ---------------------------------------------------------------------
  // Launching SITL and MAVProxy
  // ---------------------------------------------------------------------

  const SitlBinDir := "/opt/ardupilot/build/sitl/bin/"

  /** The model-to-binary table of `SITL.__attrs_post_init__`. */
  function BinaryName(model: string): Option<string> {
    if model == "copter" then Some("arducopter")
    else if model == "rover" then Some("ardurover")
    else if model == "plane" then Some("arduplane")
    else None
  }

  datatype SitlError = UnknownModel(model: string)

  /**
   * The simulator's launch configuration; `home` holds the four components
   * of the home tuple as `str` renders them.
   */
  datatype Sitl = Sitl(
    ipAddress: string, model: string, parametersFilename: string,
    home: seq<string>, speedup: int, binary: string)

  /** `SITL(...)`: looks up the binary for the model; an unknown model is a `KeyError`. */
  function NewSitl(ipAddress: string, model: string, parametersFilename: string,
                   home: seq<string>, speedup: int): (r: Result<Sitl, SitlError>)
    ensures r.Success? <==> model in {"copter", "rover", "plane"}
    ensures r.Failure? ==> r.error == UnknownModel(model)
    ensures r.Success? ==>
      && r.value.model == model && r.value.ipAddress == ipAddress
      && r.value.parametersFilename == parametersFilename && r.value.home == home
      && r.value.speedup == speedup
      && |r.value.binary| > |SitlBinDir| && r.value.binary[..|SitlBinDir|] == SitlBinDir
    ensures model == "copter" ==> r.Success? && r.value.binary == SitlBinDir + "arducopter"
    ensures model == "rover" ==> r.Success? && r.value.binary == SitlBinDir + "ardurover"
    ensures model == "plane" ==> r.Success? && r.value.binary == SitlBinDir + "arduplane"
  {
    match BinaryName(model)
    case None => Failure(UnknownModel(model))
    case Some(name) => Success(Sitl(ipAddress, model, parametersFilename, home, speedup, SitlBinDir + name))
  }

  /** Different models run different binaries. */
  lemma BinaryIdentifiesModel(a: Sitl, b: Sitl, ip: string, mA: string, mB: string, p: string, h: seq<string>, sp: int)
    requires NewSitl(ip, mA, p, h, sp) == Success(a) && NewSitl(ip, mB, p, h, sp) == Success(b)
    requires a.binary == b.binary
    ensures mA == mB
  {
    assert a.binary[|SitlBinDir|..] == b.binary[|SitlBinDir|..];
  }

  /** The argument words of `SITL.command`, in order. */
  function LaunchArgs(s: Sitl): seq<string> {
    [s.binary, "--speedup", ShowInt(s.speedup), "--model", s.model,
     "--home", Join(",", s.home), "--defaults", s.parametersFilename]
  }

  /** `SITL.command`: the words separated by single spaces. */
  function LaunchCommand(s: Sitl): string {
    Join(" ", LaunchArgs(s))
  }

  /**
   * When the binary, model, home components and parameter file hold no
   * whitespace, the shell reads the launch command back as exactly these
   * nine words, and the speed-up word reads back as the configured speed-up.
   */
  lemma LaunchCommandWords(s: Sitl)
    requires IsWord(s.binary) && IsWord(s.model) && IsWord(s.parametersFilename)
    requires |s.home| > 0 && forall i :: 0 <= i < |s.home| ==> IsWord(s.home[i])
    ensures Split(LaunchCommand(s)) == LaunchArgs(s)
    ensures |LaunchArgs(s)| == 9 && ParseInt(LaunchArgs(s)[2]) == Some(s.speedup)
  {
    JoinIsWord(",", s.home);
    SplitJoin(" ", LaunchArgs(s));
    ParseShowInt(s.speedup);
  }

  const RelayPrefix := "udp:127.0.0.1:"

  /** `urls_out`: one local UDP endpoint per port. */
  function RelayUrls(ports: seq<int>): (r: seq<string>)
    ensures |r| == |ports|
  {
    seq(|ports|, i requires 0 <= i < |ports| => RelayPrefix + ShowInt(ports[i]))
  }

  /** Each relay URL names its own port: the port reads back from the URL. */
  lemma RelayUrlsNamePorts(ports: seq<int>)
    ensures forall i :: 0 <= i < |ports| ==>
      && |RelayUrls(ports)[i]| > |RelayPrefix|
      && RelayUrls(ports)[i][..|RelayPrefix|] == RelayPrefix
      && ParseInt(RelayUrls(ports)[i][|RelayPrefix|..]) == Some(ports[i])
  {
    forall i | 0 <= i < |ports|
      ensures ParseInt(RelayUrls(ports)[i][|RelayPrefix|..]) == Some(ports[i])
    {
      assert RelayUrls(ports)[i][|RelayPrefix|..] == ShowInt(ports[i]);
      ParseShowInt(ports[i]);
    }
  }

  /** `url_master`: MAVProxy's upstream, the simulator's TCP port 5760. */
  function MasterUrl(ipAddress: string): string {
    "tcp:" + ipAddress + ":5760"
  }

  /** `[f'--out {url}' for url in urls]` */
  function OutArgs(urls: seq<string>): (r: seq<string>)
    ensures |r| == |urls|
  {
    if urls == [] then [] else ["--out " + urls[0]] + OutArgs(urls[1..])
  }

  /** `cmd_args`: the daemon/master argument, then one `--out` per relay URL. */
  function MavproxyArgs(binMavproxy: string, ipAddress: string, ports: seq<int>): seq<string> {
    [binMavproxy + " --daemon --master=" + MasterUrl(ipAddress)] + OutArgs(RelayUrls(ports))
  }

  /** The words of the `--out` arguments for a list of URLs. */
  function OutWords(urls: seq<string>): seq<string> {
    if urls == [] then [] else ["--out", urls[0]] + OutWords(urls[1..])
  }

  /** The MAVProxy command line: `' '.join(cmd_args)`. */
  function MavproxyCommand(binMavproxy: string, ipAddress: string, ports: seq<int>): string {
    Join(" ", MavproxyArgs(binMavproxy, ipAddress, ports))
  }

  /** Two words joined by one space split back into the two words. */
  lemma SplitPair(a: string, b: string)
    requires IsWord(a) && IsWord(b)
    ensures Split(a + " " + b) == [a, b]
  {
    SplitAroundGap(a, " ", b);
    SplitWord(a);
    SplitWord(b);
  }

  lemma {:induction false} SplitOutArgs(urls: seq<string>)
    requires forall i :: 0 <= i < |urls| ==> IsWord(urls[i])
    ensures SplitEach(OutArgs(urls)) == OutWords(urls)
  {
    if urls != [] {
      var rest := OutArgs(urls[1..]);
      var o := "--out " + urls[0];
      assert OutArgs(urls) == [o] + rest;
      assert ([o] + rest)[0] == o && ([o] + rest)[1..] == rest;
      assert Split(o) == ["--out", urls[0]] by {
        assert o == "--out" + " " + urls[0];
        SplitPair("--out", urls[0]);
      }
      SplitOutArgs(urls[1..]);
    }
  }

  lemma MasterArgIsWord(ipAddress: string)
    requires IsWord(ipAddress)
    ensures IsWord("--master=" + MasterUrl(ipAddress))
  {
    WordConcat("--master=tcp:", ipAddress);
    WordConcat("--master=tcp:" + ipAddress, ":5760");
    assert "--master=" + MasterUrl(ipAddress) == "--master=tcp:" + ipAddress + ":5760";
  }

  lemma RelayUrlsAreWords(ports: seq<int>)
    ensures forall i :: 0 <= i < |RelayUrls(ports)| ==> IsWord(RelayUrls(ports)[i])
  {
    forall i | 0 <= i < |ports| ensures IsWord(RelayUrls(ports)[i]) {
      WordConcat(RelayPrefix, ShowInt(ports[i]));
    }
  }

  lemma HeadShape(b: string, x: string)
    ensures b + " --daemon --master=" + x == b + " " + ("--daemon" + " " + ("--master=" + x))
  {
    var lhs := b + " --daemon --master=" + x;
    var rhs := b + " " + ("--daemon" + " " + ("--master=" + x));
    assert |lhs| == |rhs|;
    forall i | 0 <= i < |lhs| ensures lhs[i] == rhs[i] {
      if i < |b| {
      } else if i < |b| + 18 {
        assert lhs[i] == " --daemon --master="[i - |b|];
      }
    }
  }

  lemma DaemonMasterWords(b: string, x: string)
    requires IsWord(b) && IsWord("--master=" + x)
    ensures Split(b + " --daemon --master=" + x) == [b, "--daemon", "--master=" + x]
  {
    HeadShape(b, x);
    SplitPair("--daemon", "--master=" + x);
    SplitAroundGap(b, " ", "--daemon" + " " + ("--master=" + x));
    SplitWord(b);
  }

  lemma MavproxyHeadWords(binMavproxy: string, ipAddress: string)
    requires IsWord(binMavproxy) && IsWord(ipAddress)
    ensures Split(binMavproxy + " --daemon --master=" + MasterUrl(ipAddress))
      == [binMavproxy, "--daemon", "--master=" + MasterUrl(ipAddress)]
  {
    MasterArgIsWord(ipAddress);
    DaemonMasterWords(binMavproxy, MasterUrl(ipAddress));
  }

  /**
   * The relay is started with the master URL and then one `--out` per port,
   * in port order, each naming that port's local UDP endpoint.
   */
  lemma MavproxyCommandWords(binMavproxy: string, ipAddress: string, ports: seq<int>)
    requires IsWord(binMavproxy) && IsWord(ipAddress)
    ensures Split(MavproxyCommand(binMavproxy, ipAddress, ports))
      == [binMavproxy, "--daemon", "--master=" + MasterUrl(ipAddress)] + OutWords(RelayUrls(ports))
  {
    var urls := RelayUrls(ports);
    var master := "--master=" + MasterUrl(ipAddress);
    var head := binMavproxy + " --daemon --master=" + MasterUrl(ipAddress);
    var args := [head] + OutArgs(urls);
    assert args[0] == head && args[1..] == OutArgs(urls);
    SplitJoinEach(" ", args);
    MavproxyHeadWords(binMavproxy, ipAddress);
    RelayUrlsAreWords(ports);
    SplitOutArgs(urls);
  }
}
