/** The parking-lot simulator: a command parser, a fixed-size lot of numbered
    spots, and a controller that reads command lines and prints replies until
    it is told to exit. Console input and output are replaced by a sequence of
    input lines and a sequence of printed lines. */
module Parking {
  import opened Text

  // ---------------------------------------------------------------------------
  // Commands and the parser
  // ---------------------------------------------------------------------------

  datatype Command =
    | Create(spotCount: int)
    | Park(carNumber: string, carColor: string)
    | Leave(spotNumber: int)
    | Status
    | Exit

  /** What parsing a line gives: a command; `Invalid`, the IllegalArgumentException
      that the controller reports as "Error"; or `Fault`, the exception that an
      empty colour token raises and that nothing in the controller catches. */
  datatype Parsed = Ok(cmd: Command) | Invalid | Fault

  /** The colour as a parked car carries it: first character upper-case, the rest lower-case. */
  function NormalizeColor(color: string): string
    requires color != []
  {
    [Upper(color[0])] + LowerStr(color[1..])
  }

  /** `parseCmd`: a blank line is an error; otherwise the line is split on
      single spaces and the tokens are recognised. */
  function ParseCmd(line: string): Parsed {
    if IsBlank(line) then Invalid
    // `split` never returns an empty list, so the source's emptiness check cannot fire.
    else ParseTokens(Split(line, ' '))
  }

  /** The `when` over the tokens: the command is named by its first token,
      ignoring case, and needs its exact number of tokens. */
  function ParseTokens(parts: seq<string>): Parsed
    requires |parts| >= 1
  {
    var name := parts[0];
    if |parts| == 1 && EqualsIgnoreCase(name, "exit") then Ok(Exit)
    else if |parts| == 1 && EqualsIgnoreCase(name, "status") then Ok(Status)
    else if |parts| < 2 then Invalid
    else
      var keyword := LowerStr(name);
      if keyword == "create" then
        if |parts| != 2 then Invalid
        else match ParseInt(parts[1])
          case None => Invalid
          case Some(n) => Ok(Create(n))
      else if keyword == "park" then
        if |parts| != 3 then Invalid
        else if parts[2] == "" then Fault
        else Ok(Park(parts[1], NormalizeColor(parts[2])))
      else if keyword == "leave" then
        if |parts| != 2 then Invalid
        else match ParseInt(parts[1])
          case None => Invalid
          case Some(n) => Ok(Leave(n))
      else Invalid
  }

  /** The parser's rules: a blank line is an error; one token is accepted only
      as `exit` or `status`, in any letter case; `create` and `leave` take
      exactly one integer argument and `park` exactly two arguments; the
      registration is kept as typed and the colour is normalised; an empty
      colour token raises the uncaught fault; anything else is an error. */
  lemma ParseCmdRules(line: string)
    ensures IsBlank(line) ==> ParseCmd(line) == Invalid
    ensures !IsBlank(line) ==>
      var r, parts := ParseCmd(line), Split(line, ' ');
      && (r == Ok(Exit) <==> |parts| == 1 && EqualsIgnoreCase(parts[0], "exit"))
      && (r == Ok(Status) <==> |parts| == 1 && EqualsIgnoreCase(parts[0], "status"))
      && (r.Ok? && r.cmd.Create? <==>
            |parts| == 2 && LowerStr(parts[0]) == "create" && ParseInt(parts[1]).Some?)
      && (r.Ok? && r.cmd.Leave? <==>
            |parts| == 2 && LowerStr(parts[0]) == "leave" && ParseInt(parts[1]).Some?)
      && (r.Ok? && r.cmd.Park? <==>
            |parts| == 3 && LowerStr(parts[0]) == "park" && parts[2] != "")
      && (r == Fault <==> |parts| == 3 && LowerStr(parts[0]) == "park" && parts[2] == "")
      && (r.Ok? && r.cmd.Create? ==> ParseInt(parts[1]) == Some(r.cmd.spotCount))
      && (r.Ok? && r.cmd.Leave? ==> ParseInt(parts[1]) == Some(r.cmd.spotNumber))
      && (r.Ok? && r.cmd.Park? ==> r.cmd.carNumber == parts[1] && r.cmd.carColor == NormalizeColor(parts[2]))
  {
  }

  /** A canonical command line for a command: the keyword in lower case and its arguments. */
  function Render(cmd: Command): string {
    match cmd
    case Create(n) => "create " + IntToString(n)
    case Park(carNumber, carColor) => "park " + carNumber + " " + carColor
    case Leave(n) => "leave " + IntToString(n)
    case Status => "status"
    case Exit => "exit"
  }

  /** The commands the parser can produce: integers that fit in an `Int`,
      a registration without spaces, a non-empty colour already normalised. */
  predicate Producible(cmd: Command) {
    match cmd
    case Create(n) => INT_MIN <= n <= INT_MAX
    case Leave(n) => INT_MIN <= n <= INT_MAX
    case Park(carNumber, carColor) =>
      ' ' !in carNumber && ' ' !in carColor && carColor != [] && NormalizeColor(carColor) == carColor
    case Status => true
    case Exit => true
  }

  lemma NumberHasNoSpace(n: int)
    ensures ' ' !in IntToString(n)
  {
    var s := IntToString(n);
    forall i | 0 <= i < |s| ensures s[i] != ' ' {
    }
  }

  lemma KeywordsLower()
    ensures LowerStr("create") == "create" && LowerStr("park") == "park" && LowerStr("leave") == "leave"
    ensures LowerStr("status") == "status" && LowerStr("exit") == "exit"
    ensures LowerStr("status") != "exit" && "status" != "exit"
  {
  }

  lemma KeywordsDiffer()
    ensures "create" != "park" && "create" != "leave" && "park" != "leave"
  {
    assert "create"[0] != "park"[0] && "create"[0] != "leave"[0] && "park"[0] != "leave"[0];
  }

  lemma SplitNumberArgument(keyword: string, n: int)
    requires keyword == "create" || keyword == "leave"
    ensures var line := keyword + " " + IntToString(n);
      !IsBlank(line) && Split(line, ' ') == [keyword, IntToString(n)]
  {
    var line := keyword + " " + IntToString(n);
    assert !IsWhitespace(line[0]);
    var parts := [keyword, IntToString(n)];
    NumberHasNoSpace(n);
    assert line == Join(parts, " ");
    SplitJoin(parts, ' ');
  }

  lemma SplitPark(carNumber: string, carColor: string)
    requires ' ' !in carNumber && ' ' !in carColor
    ensures var line := Render(Park(carNumber, carColor));
      !IsBlank(line) && Split(line, ' ') == ["park", carNumber, carColor]
  {
    var line := Render(Park(carNumber, carColor));
    assert !IsWhitespace(line[0]);
    var parts := ["park", carNumber, carColor];
    assert parts[1..] == [carNumber, carColor] && [carNumber, carColor][1..] == [carColor];
    assert Join(parts[1..], " ") == carNumber + " " + carColor;
    assert line == Join(parts, " ");
    SplitJoin(parts, ' ');
  }

  /** Every command the parser can produce is parsed back from its canonical line. */
  lemma ParseRender(cmd: Command)
    requires Producible(cmd)
    ensures ParseCmd(Render(cmd)) == Ok(cmd)
  {
    KeywordsLower();
    KeywordsDiffer();
    match cmd
    case Create(n) =>
      SplitNumberArgument("create", n);
      ParseIntToString(n);
      assert "create" + " " == "create ";
    case Leave(n) =>
      SplitNumberArgument("leave", n);
      ParseIntToString(n);
      assert "leave" + " " == "leave ";
    case Park(carNumber, carColor) =>
      SplitPark(carNumber, carColor);
    case Status =>
      assert !IsWhitespace("status"[0]);
      SplitJoin(["status"], ' ');
    case Exit =>
      assert !IsWhitespace("exit"[0]);
      SplitJoin(["exit"], ' ');
  }

  /** Whatever the parser returns is a command it can produce, so `ParseRender` covers all of them. */
  lemma ParsedIsProducible(line: string)
    requires ParseCmd(line).Ok?
    ensures Producible(ParseCmd(line).cmd)
  {
    var cmd := ParseCmd(line).cmd;
    if cmd.Park? {
      var parts := Split(line, ' ');
      var color := parts[2];
      assert parts[1] == cmd.carNumber && NormalizeColor(color) == cmd.carColor;
      NormalizeColorIdempotent(color);
      NormalizeColorKeepsNoSpace(color);
    }
  }

  /** Normalising changes letters only, so a colour without spaces stays without spaces. */
  lemma NormalizeColorKeepsNoSpace(color: string)
    requires color != [] && ' ' !in color
    ensures ' ' !in NormalizeColor(color)
  {
    var n := NormalizeColor(color);
    forall i | 0 <= i < |n| ensures n[i] != ' ' {
      assert color[i] != ' ';
    }
  }

  /** Normalising a colour twice is normalising it once. */
  lemma NormalizeColorIdempotent(color: string)
    requires color != []
    ensures NormalizeColor(NormalizeColor(color)) == NormalizeColor(color)
  {
  }

  /** Two spellings of a colour that differ only in letter case normalise alike. */
  lemma NormalizeColorIgnoresCase(a: string, b: string)
    requires a != [] && b != [] && EqualsIgnoreCase(a, b)
    ensures NormalizeColor(a) == NormalizeColor(b)
  {
    assert Lower(a[0]) == LowerStr(a)[0] == LowerStr(b)[0] == Lower(b[0]);
    assert LowerStr(a[1..]) == LowerStr(a)[1..];
    assert LowerStr(b[1..]) == LowerStr(b)[1..];
  }

  // ---------------------------------------------------------------------------
  // Cars, spots and lots, as values
  // ---------------------------------------------------------------------------

  datatype Car = Car(number: string, color: string)

  /** One parking place: its fixed number and the car in it, if any. */
  datatype Spot = Spot(number: int, car: Option<Car>)

  predicate IsFree(spot: Spot) {
    spot.car.None?
  }

  /** The spots are numbered 1, 2, 3, ... in the order they are kept. */
  ghost predicate WellNumbered(spots: seq<Spot>) {
    forall i :: 0 <= i < |spots| ==> spots[i].number == i + 1
  }

  /** The spots of a new lot of `n` places. */
  function NewSpots(n: nat): seq<Spot> {
    seq(n, i => Spot(i + 1, None))
  }

  /** `hasAnyCars`: some spot holds a car. */
  predicate AnyCars(spots: seq<Spot>) {
    exists i :: 0 <= i < |spots| && !IsFree(spots[i])
  }

  /** Index of the first free spot, as `indices.firstOrNull { ... car == null }` finds it. */
  function FirstFree(spots: seq<Spot>): (k: Option<nat>)
    ensures k.Some? ==>
      k.value < |spots| && IsFree(spots[k.value]) && forall j :: 0 <= j < k.value ==> !IsFree(spots[j])
    ensures k.None? ==> forall j :: 0 <= j < |spots| ==> !IsFree(spots[j])
  {
    if spots == [] then None
    else if IsFree(spots[0]) then Some(0)
    else match FirstFree(spots[1..])
      case None => None
      case Some(k) => Some(k + 1)
  }

  /** `getBusySpots`: the occupied spots, in the order of the lot. */
  function Busy(spots: seq<Spot>): (busy: seq<Spot>)
    ensures forall x :: x in busy <==> x in spots && !IsFree(x)
    ensures |busy| <= |spots|
  {
    if spots == [] then []
    else (if IsFree(spots[0]) then [] else [spots[0]]) + Busy(spots[1..])
  }

  ghost predicate Ascending(spots: seq<Spot>) {
    forall i, j :: 0 <= i < j < |spots| ==> spots[i].number < spots[j].number
  }

  /** The busy spots come out in ascending spot-number order. */
  lemma {:induction false} BusyAscending(spots: seq<Spot>)
    requires Ascending(spots)
    ensures Ascending(Busy(spots))
  {
    if spots != [] {
      BusyAscending(spots[1..]);
      forall x | x in Busy(spots[1..]) ensures spots[0].number < x.number {
        var j :| 0 <= j < |spots[1..]| && spots[1..][j] == x;
        assert spots[j + 1] == x;
      }
    }
  }

  lemma WellNumberedAscending(spots: seq<Spot>)
    requires WellNumbered(spots)
    ensures Ascending(spots)
  {
  }

  lemma BusyAreTaken(spots: seq<Spot>)
    ensures forall j :: 0 <= j < |Busy(spots)| ==> !IsFree(Busy(spots)[j])
  {
    forall j | 0 <= j < |Busy(spots)| ensures !IsFree(Busy(spots)[j]) {
      assert Busy(spots)[j] in Busy(spots);
    }
  }

  /** `hasAnyCars` holds exactly when the list of busy spots is not empty. */
  lemma AnyCarsIffBusy(spots: seq<Spot>)
    ensures AnyCars(spots) <==> Busy(spots) != []
  {
    if AnyCars(spots) {
      var i :| 0 <= i < |spots| && !IsFree(spots[i]);
      assert spots[i] in Busy(spots);
    }
  }

  /** A new lot is well numbered, free everywhere and has no busy spots. */
  lemma NewSpotsEmpty(n: nat)
    ensures |NewSpots(n)| == n && WellNumbered(NewSpots(n))
    ensures !AnyCars(NewSpots(n)) && Busy(NewSpots(n)) == [] && FirstFree(NewSpots(n)) == (if n == 0 then None else Some(0))
  {
    AnyCarsIffBusy(NewSpots(n));
  }

  /** The lot after `car` takes spot index `k`. */
  function Parked(spots: seq<Spot>, k: nat, car: Car): seq<Spot>
    requires k < |spots|
  {
    spots[k := spots[k].(car := Some(car))]
  }

  /** The lot after spot index `k` is emptied. */
  function Freed(spots: seq<Spot>, k: nat): seq<Spot>
    requires k < |spots|
  {
    spots[k := spots[k].(car := None)]
  }

  /** Leaving the spot a car has just taken gives back the lot it was parked into. */
  lemma LeaveUndoesPark(spots: seq<Spot>, car: Car)
    requires FirstFree(spots).Some?
    ensures Freed(Parked(spots, FirstFree(spots).value, car), FirstFree(spots).value) == spots
  {
  }

  /** In a lot whose first `j` spots are taken and the rest free, the next car
      takes spot index `j`, and afterwards the first `j + 1` spots are taken. */
  lemma {:induction false} FirstFreeIs(spots: seq<Spot>, j: nat)
    requires j < |spots| && IsFree(spots[j])
    requires forall i :: 0 <= i < j ==> !IsFree(spots[i])
    ensures FirstFree(spots) == Some(j)
  {
    if j > 0 {
      FirstFreeIs(spots[1..], j - 1);
    }
  }

  lemma ParkFillsInOrder(spots: seq<Spot>, j: nat, car: Car)
    requires j < |spots|
    requires forall i :: 0 <= i < j ==> !IsFree(spots[i])
    requires forall i :: j <= i < |spots| ==> IsFree(spots[i])
    ensures FirstFree(spots) == Some(j)
    ensures forall i :: 0 <= i < j + 1 ==> !IsFree(Parked(spots, j, car)[i])
    ensures forall i :: j + 1 <= i < |spots| ==> IsFree(Parked(spots, j, car)[i])
  {
    FirstFreeIs(spots, j);
  }

  // ---------------------------------------------------------------------------
  // The lot as a mutable object
  // ---------------------------------------------------------------------------

  /** What `tryLeave` does: `Vacated` stands for `true`, `AlreadyFree` for `false`,
      `OutOfRange` for the exception an invalid spot number raises. */
  datatype LeaveResult = Vacated | AlreadyFree | OutOfRange

  /** `ParkingLot`: `spotCount` spots created at once, numbered from 1, whose
      cars are changed in place. */
  class ParkingLot {
    const spotCount: int
    const spots: array<Spot>

    ghost predicate Valid()
      reads spots
    {
      spots.Length == spotCount && WellNumbered(spots[..])
    }

    /** A lot of `spotCount` free spots. A negative count makes the source's
        list allocation throw; callers check it first. */
    constructor (spotCount: int)
      requires spotCount >= 0
      ensures Valid() && fresh(spots)
      ensures this.spotCount == spotCount && spots[..] == NewSpots(spotCount)
    {
      this.spotCount := spotCount;
      spots := new Spot[spotCount](i => Spot(i + 1, None));
      new;
      assert spots[..] == NewSpots(spotCount);
    }

    /** `hasAnyCars`: true exactly when `getBusySpots` is not empty. */
    predicate HasAnyCars()
      reads spots
      ensures HasAnyCars() <==> Busy(spots[..]) != []
    {
      AnyCarsIffBusy(spots[..]);
      exists i :: 0 <= i < spots.Length && spots[i].car.Some?
    }

    /** `getBusySpots`: exactly the occupied spots, in ascending spot-number order. */
    function GetBusySpots(): (busy: seq<Spot>)
      reads spots
      requires Valid()
      ensures forall x :: x in busy <==> x in spots[..] && !IsFree(x)
      ensures Ascending(busy)
    {
      BusyAscending(spots[..]);
      Busy(spots[..])
    }

    /** `tryPark`: put the car in the first free spot and return its number, or
        return nothing and change nothing when every spot is taken. */
    method TryPark(carNumber: string, carColor: string) returns (number: Option<int>)
      requires Valid()
      modifies spots
      ensures Valid()
      ensures match FirstFree(old(spots[..]))
        case None => number == None && spots[..] == old(spots[..])
        case Some(k) =>
          number == Some(k + 1) && spots[..] == Parked(old(spots[..]), k, Car(carNumber, carColor))
    {
      match FirstFree(spots[..])
      case None =>
        number := None;
      case Some(k) =>
        spots[k] := spots[k].(car := Some(Car(carNumber, carColor)));
        number := Some(spots[k].number);
    }

    /** `tryLeave`: empty spot `spotNumber` if it holds a car. A number outside
        1..spotCount throws in the source; here it is `OutOfRange`. */
    method TryLeave(spotNumber: int) returns (r: LeaveResult)
      requires Valid()
      modifies spots
      ensures Valid()
      ensures !(1 <= spotNumber <= spotCount) ==> r == OutOfRange && spots[..] == old(spots[..])
      ensures 1 <= spotNumber <= spotCount ==>
        if IsFree(old(spots[spotNumber - 1])) then r == AlreadyFree && spots[..] == old(spots[..])
        else r == Vacated && spots[..] == Freed(old(spots[..]), spotNumber - 1)
    {
      if spotNumber - 1 > spots.Length - 1 {
        return OutOfRange;
      }
      if spotNumber - 1 < 0 {
        // the list index is negative: IndexOutOfBoundsException
        return OutOfRange;
      }
      var spot := spots[spotNumber - 1];
      if IsFree(spot) {
        return AlreadyFree;
      }
      spots[spotNumber - 1] := spot.(car := None);
      r := Vacated;
    }
  }

  // ---------------------------------------------------------------------------
  // The controller, as values
  // ---------------------------------------------------------------------------

  const NOT_CREATED := "Sorry, a parking lot has not been created."

  /** The controller's state: no lot yet, or the spots of the current lot. */
  datatype Registry = NoLot | Lot(spots: seq<Spot>)

  /** Why the controller's loop ended: an `exit` command, an exception that
      nothing catches, or no more input (where reading would throw). */
  datatype Halt = Exited | Crashed | InputExhausted

  function CreateReply(n: int): string {
    "Created a parking lot with " + IntToString(n) + " spots."
  }

  /** The lot and the printed line after `park`. */
  function ParkReply(spots: seq<Spot>, carNumber: string, carColor: string): (seq<Spot>, string) {
    match FirstFree(spots)
    case None => (spots, "Sorry, the parking lot is full.")
    case Some(k) =>
      (Parked(spots, k, Car(carNumber, carColor)),
       carColor + " car parked in spot " + IntToString(spots[k].number) + ".")
  }

  /** The lot and the printed line after `leave`. */
  function LeaveReply(spots: seq<Spot>, spotNumber: int): (seq<Spot>, string) {
    if !(1 <= spotNumber <= |spots|) then (spots, "Spot number is invalid")
    else if IsFree(spots[spotNumber - 1]) then
      (spots, "There is no car in spot " + IntToString(spotNumber) + ".")
    else (Freed(spots, spotNumber - 1), "Spot " + IntToString(spotNumber) + " is free.")
  }

  /** The line `showStatus` prints for one busy spot. */
  function SpotLine(spot: Spot): string
    requires !IsFree(spot)
  {
    IntToString(spot.number) + " " + spot.car.value.number + " " + spot.car.value.color
  }

  function SpotLines(busy: seq<Spot>): seq<string>
    requires forall i :: 0 <= i < |busy| ==> !IsFree(busy[i])
  {
    seq(|busy|, i requires 0 <= i < |busy| => SpotLine(busy[i]))
  }

  /** The lines `status` prints. */
  function StatusReply(spots: seq<Spot>): seq<string> {
    if !AnyCars(spots) then ["Parking lot is empty."] else SpotLines(Busy(spots))
  }

  /** What the controller does with one input line. */
  datatype StepResult = Continue(next: Registry, lines: seq<string>) | Stop(lines: seq<string>, halt: Halt)

  function Step(registry: Registry, line: string): StepResult {
    match ParseCmd(line)
    case Invalid => Continue(registry, ["Error"])
    case Fault => Stop([], Crashed)
    case Ok(cmd) =>
      if registry.NoLot? && !(cmd.Exit? || cmd.Create?) then Continue(registry, [NOT_CREATED])
      else match cmd
        case Exit => Stop([], Exited)
        case Create(n) =>
          if n < 0 then Stop([], Crashed) else Continue(Lot(NewSpots(n)), [CreateReply(n)])
        case Park(carNumber, carColor) =>
          var (spots, reply) := ParkReply(registry.spots, carNumber, carColor);
          Continue(Lot(spots), [reply])
        case Leave(n) =>
          var (spots, reply) := LeaveReply(registry.spots, n);
          Continue(Lot(spots), [reply])
        case Status => Continue(registry, StatusReply(registry.spots))
  }

  /** Everything printed, why it stopped, and the final state, for a run over `input`. */
  datatype Trace = Trace(output: seq<string>, halt: Halt, registry: Registry)

  function Run(registry: Registry, input: seq<string>): Trace
    decreases |input|
  {
    if input == [] then Trace([], InputExhausted, registry)
    else match Step(registry, input[0])
      case Stop(lines, halt) => Trace(lines, halt, registry)
      case Continue(next, lines) =>
        var rest := Run(next, input[1..]);
        rest.(output := lines + rest.output)
  }

  // ---------------------------------------------------------------------------
  // Properties of the controller
  // ---------------------------------------------------------------------------

  /** A line that does not parse prints "Error" and changes nothing. */
  lemma ErrorChangesNothing(registry: Registry, line: string, rest: seq<string>)
    requires ParseCmd(line) == Invalid
    ensures Run(registry, [line] + rest) ==
      Run(registry, rest).(output := ["Error"] + Run(registry, rest).output)
  {
    assert ([line] + rest)[1..] == rest;
  }

  /** Before a lot exists, park, leave and status only print the advisory line. */
  lemma NoLotAdvisory(line: string, rest: seq<string>)
    requires ParseCmd(line).Ok? && !ParseCmd(line).cmd.Create? && !ParseCmd(line).cmd.Exit?
    ensures Run(NoLot, [line] + rest) ==
      Run(NoLot, rest).(output := [NOT_CREATED] + Run(NoLot, rest).output)
  {
    assert ([line] + rest)[1..] == rest;
  }

  /** `create n` replaces whatever lot there was by `n` fresh free spots. */
  lemma CreateReplaces(registry: Registry, line: string, n: int)
    requires ParseCmd(line) == Ok(Create(n)) && n >= 0
    ensures Step(registry, line) == Continue(Lot(NewSpots(n)), [CreateReply(n)])
    ensures !AnyCars(NewSpots(n)) && StatusReply(NewSpots(n)) == ["Parking lot is empty."]
  {
    NewSpotsEmpty(n);
  }

  /** `exit` stops the run: nothing after it is read, nothing is printed or changed. */
  lemma ExitStops(registry: Registry, line: string, rest: seq<string>)
    requires ParseCmd(line) == Ok(Exit)
    ensures Run(registry, [line] + rest) == Trace([], Exited, registry)
  {
  }

  /** A line that lets the run continue contributes its lines in front of the rest of the run. */
  lemma ContinueRun(registry: Registry, line: string, rest: seq<string>)
    requires Step(registry, line).Continue?
    ensures var step := Step(registry, line); var tail := Run(step.next, rest);
      Run(registry, [line] + rest) == tail.(output := step.lines + tail.output)
  {
    assert ([line] + rest)[1..] == rest;
  }

  /** The accounting of `start`'s loop: when the whole run is what was printed
      so far followed by the run from line `i`, handling line `i` either ends
      the run or leaves the same shape one line further on. */
  lemma RunAdvance(whole: Trace, printed: seq<string>, registry: Registry, input: seq<string>, i: nat,
                   lines: seq<string>, stop: Option<Halt>, next: Registry)
    requires i < |input|
    requires whole == var rest := Run(registry, input[i..]); rest.(output := printed + rest.output)
    requires Step(registry, input[i]) == if stop.None? then Continue(next, lines) else Stop(lines, stop.value)
    ensures stop.Some? ==> whole == Trace(printed + lines, stop.value, registry)
    ensures stop.None? ==>
      whole == var rest := Run(next, input[i + 1..]); rest.(output := (printed + lines) + rest.output)
  {
    assert input[i..][0] == input[i] && input[i..][1..] == input[i + 1..];
    if stop.None? {
      var rest := Run(next, input[i + 1..]);
      assert printed + (lines + rest.output) == (printed + lines) + rest.output;
    }
  }

  /** `status` on a lot prints its report and changes nothing. */
  lemma StatusStep(spots: seq<Spot>)
    ensures Step(Lot(spots), "status") == Continue(Lot(spots), StatusReply(spots))
  {
    ParseStatus();
  }

  lemma ParseStatus()
    ensures ParseCmd("status") == Ok(Status)
  {
    SplitJoin(["status"], ' ');
    assert Split("status", ' ') == ["status"];
  }

  /** `status` changes nothing, so asking twice prints the same lines twice. */
  lemma StatusTwice(spots: seq<Spot>, rest: seq<string>)
    ensures Run(Lot(spots), ["status", "status"] + rest) ==
      var tail := Run(Lot(spots), rest);
      tail.(output := StatusReply(spots) + StatusReply(spots) + tail.output)
  {
    StatusStep(spots);
    assert ["status", "status"] + rest == ["status"] + (["status"] + rest);
    ContinueRun(Lot(spots), "status", ["status"] + rest);
    ContinueRun(Lot(spots), "status", rest);
    var reply := StatusReply(spots);
    var tail := Run(Lot(spots), rest);
    assert reply + (reply + tail.output) == reply + reply + tail.output;
  }

  lemma ParseParkLine(carNumber: string, carColor: string)
    requires ' ' !in carNumber && ' ' !in carColor && carColor != []
    ensures ParseCmd("park " + carNumber + " " + carColor) == Ok(Park(carNumber, NormalizeColor(carColor)))
  {
    SplitPark(carNumber, carColor);
    KeywordsLower();
    KeywordsDiffer();
  }

  lemma ParseNumberLine(keyword: string, n: int)
    requires keyword == "create" || keyword == "leave"
    requires INT_MIN <= n <= INT_MAX
    ensures ParseCmd(keyword + " " + IntToString(n)) ==
      Ok(if keyword == "create" then Create(n) else Leave(n))
  {
    SplitNumberArgument(keyword, n);
    ParseIntToString(n);
    KeywordsLower();
    KeywordsDiffer();
  }

  /** Before `create`, the line `park x 1` only prints the advisory line. */
  lemma EarlyParkAdvisory()
    ensures Step(NoLot, "park x 1") == Continue(NoLot, [NOT_CREATED])
  {
    ParseParkLine("x", "1");
    assert "park " + "x" + " " + "1" == "park x 1";
    assert NormalizeColor("1") == "1";
  }

  /** On a lot, a `park` line prints the park reply and moves to the lot it describes. */
  lemma ParkStep(spots: seq<Spot>, line: string, carNumber: string, carColor: string)
    requires ParseCmd(line) == Ok(Park(carNumber, carColor))
    ensures var (next, reply) := ParkReply(spots, carNumber, carColor);
      Step(Lot(spots), line) == Continue(Lot(next), [reply])
  {
  }

  /** On a lot, a `leave` line prints the leave reply and moves to the lot it describes. */
  lemma LeaveStep(spots: seq<Spot>, line: string, n: int)
    requires ParseCmd(line) == Ok(Leave(n))
    ensures var (next, reply) := LeaveReply(spots, n);
      Step(Lot(spots), line) == Continue(Lot(next), [reply])
  {
  }

  /** A lot with only its second spot taken lists just that spot. */
  lemma OnlySecondBusy(spots: seq<Spot>)
    requires |spots| >= 2 && !IsFree(spots[1])
    requires forall i :: 0 <= i < |spots| && i != 1 ==> IsFree(spots[i])
    ensures Busy(spots) == [spots[1]]
  {
    var rest := spots[2..];
    assert !AnyCars(rest) by {
      forall i | 0 <= i < |rest| ensures IsFree(rest[i]) {
        assert rest[i] == spots[i + 2];
      }
    }
    AnyCarsIffBusy(rest);
    assert spots[1..][1..] == rest;
  }

  /** The lots of the session below, after each of its first four lines. */
  function SessionLots(n: nat, car1: Car, car2: Car): seq<seq<Spot>>
    requires n >= 2
  {
    var s0 := NewSpots(n);
    var s1 := Parked(s0, 0, car1);
    var s2 := Parked(s1, 1, car2);
    [s0, s1, s2, Freed(s2, 0)]
  }

  lemma SessionLotFacts(n: nat, car1: Car, car2: Car)
    requires n >= 2
    ensures var lots := SessionLots(n, car1, car2);
      && FirstFree(lots[0]) == Some(0) && lots[0][0].number == 1
      && FirstFree(lots[1]) == Some(1) && lots[1][1].number == 2
      && |lots[2]| == n && !IsFree(lots[2][0])
      && Busy(lots[3]) == [Spot(2, Some(car2))]
  {
    var lots := SessionLots(n, car1, car2);
    NewSpotsEmpty(n);
    FirstFreeIs(lots[1], 1);
    OnlySecondBusy(lots[3]);
  }

  /** Lines each answered by one reply, then `exit`: the run prints those
      replies in order and stops with the last state reached. */
  lemma {:induction false} RunOfReplies(regs: seq<Registry>, body: seq<string>, replies: seq<string>, last: string)
    requires |regs| == |body| + 1 && |replies| == |body|
    requires forall k :: 0 <= k < |body| ==> Step(regs[k], body[k]) == Continue(regs[k + 1], [replies[k]])
    requires ParseCmd(last) == Ok(Exit)
    ensures Run(regs[0], body + [last]) == Trace(replies, Exited, regs[|body|])
    decreases |body|
  {
    if body == [] {
      assert body + [last] == [last];
    } else {
      RunOfReplies(regs[1..], body[1..], replies[1..], last);
      assert Step(regs[0], body[0]) == Continue(regs[1], [replies[0]]);
      ContinueRun(regs[0], body[0], body[1..] + [last]);
      assert [body[0]] + (body[1..] + [last]) == body + [last];
      assert [replies[0]] + replies[1..] == replies;
    }
  }

  lemma SessionCreate(n: int)
    requires 0 <= n <= INT_MAX
    ensures Step(NoLot, "create " + IntToString(n)) ==
      Continue(Lot(NewSpots(n)), ["Created a parking lot with " + IntToString(n) + " spots."])
  {
    ParseNumberLine("create", n);
    assert "create" + " " + IntToString(n) == "create " + IntToString(n);
    CreateReplaces(NoLot, "create " + IntToString(n), n);
  }

  lemma SessionPark(spots: seq<Spot>, k: nat, reg: string, color: string)
    requires ' ' !in reg && ' ' !in color && color != []
    requires FirstFree(spots) == Some(k) && spots[k].number == k + 1 && k + 1 <= INT_MAX
    ensures Step(Lot(spots), "park " + reg + " " + color) ==
      Continue(Lot(Parked(spots, k, Car(reg, NormalizeColor(color)))),
               [NormalizeColor(color) + " car parked in spot " + IntToString(k + 1) + "."])
  {
    ParseParkLine(reg, color);
    ParkStep(spots, "park " + reg + " " + color, reg, NormalizeColor(color));
  }

  lemma ParseLeaveOne()
    ensures ParseCmd("leave 1") == Ok(Leave(1))
  {
    assert IntToString(1) == "1";
    ParseNumberLine("leave", 1);
    assert "leave" + " " + "1" == "leave 1";
  }

  lemma SessionLeaveFirst(spots: seq<Spot>)
    requires |spots| >= 1 && !IsFree(spots[0])
    ensures Step(Lot(spots), "leave 1") == Continue(Lot(Freed(spots, 0)), ["Spot 1 is free."])
  {
    ParseLeaveOne();
    LeaveStep(spots, "leave 1", 1);
    LeaveFirstReply(spots);
  }

  lemma LeaveFirstReply(spots: seq<Spot>)
    requires |spots| >= 1 && !IsFree(spots[0])
    ensures LeaveReply(spots, 1) == (Freed(spots, 0), "Spot 1 is free.")
  {
    assert IntToString(1) == "1";
    assert "Spot " + "1" + " is free." == "Spot 1 is free.";
  }

  lemma SessionStatus(spots: seq<Spot>, car: Car)
    requires Busy(spots) == [Spot(2, Some(car))]
    ensures Step(Lot(spots), "status") == Continue(Lot(spots), ["2 " + car.number + " " + car.color])
  {
    StatusStep(spots);
    AnyCarsIffBusy(spots);
    assert IntToString(2) == "2";
    assert StatusReply(spots) == [SpotLine(Spot(2, Some(car)))];
    assert IntToString(2) + " " == "2 ";
  }

  /** The lines of the session below. */
  function SessionInput(n: int, reg1: string, color1: string, reg2: string, color2: string): seq<string> {
    ["create " + IntToString(n), "park " + reg1 + " " + color1, "park " + reg2 + " " + color2,
     "leave 1", "status", "exit"]
  }

  /** What the session below prints. */
  function SessionOutput(n: int, reg1: string, color1: string, reg2: string, color2: string): seq<string>
    requires color1 != [] && color2 != []
  {
    ["Created a parking lot with " + IntToString(n) + " spots.",
     NormalizeColor(color1) + " car parked in spot 1.", NormalizeColor(color2) + " car parked in spot 2.",
     "Spot 1 is free.", "2 " + reg2 + " " + NormalizeColor(color2)]
  }

  /** The controller's state before each line of the session below. */
  function SessionRegistries(n: nat, reg1: string, color1: string, reg2: string, color2: string): seq<Registry>
    requires n >= 2 && color1 != [] && color2 != []
  {
    var lots := SessionLots(n, Car(reg1, NormalizeColor(color1)), Car(reg2, NormalizeColor(color2)));
    [NoLot, Lot(lots[0]), Lot(lots[1]), Lot(lots[2]), Lot(lots[3]), Lot(lots[3])]
  }

  lemma SessionLine0(n: int, reg1: string, color1: string, reg2: string, color2: string)
    requires 2 <= n <= INT_MAX
    requires ' ' !in reg1 && ' ' !in color1 && color1 != []
    requires ' ' !in reg2 && ' ' !in color2 && color2 != []
    ensures var regs := SessionRegistries(n, reg1, color1, reg2, color2);
      Step(regs[0], SessionInput(n, reg1, color1, reg2, color2)[0]) ==
      Continue(regs[1], [SessionOutput(n, reg1, color1, reg2, color2)[0]])
  {
    var c1, c2 := NormalizeColor(color1), NormalizeColor(color2);
    var lots := SessionLots(n, Car(reg1, c1), Car(reg2, c2));
    SessionLotFacts(n, Car(reg1, c1), Car(reg2, c2));
    SessionCreate(n);
  }

  lemma SessionLine1(n: int, reg1: string, color1: string, reg2: string, color2: string)
    requires 2 <= n <= INT_MAX
    requires ' ' !in reg1 && ' ' !in color1 && color1 != []
    requires ' ' !in reg2 && ' ' !in color2 && color2 != []
    ensures var regs := SessionRegistries(n, reg1, color1, reg2, color2);
      Step(regs[1], SessionInput(n, reg1, color1, reg2, color2)[1]) ==
      Continue(regs[2], [SessionOutput(n, reg1, color1, reg2, color2)[1]])
  {
    var c1, c2 := NormalizeColor(color1), NormalizeColor(color2);
    var lots := SessionLots(n, Car(reg1, c1), Car(reg2, c2));
    SessionLotFacts(n, Car(reg1, c1), Car(reg2, c2));
    SessionPark(lots[0], 0, reg1, color1);
    assert IntToString(1) == "1";
    ConcatAssoc(c1, " car parked in spot ", "1");
    ConcatAssoc(c1, " car parked in spot " + "1", ".");
    assert " car parked in spot " + "1" + "." == " car parked in spot 1.";
    assert Parked(lots[0], 0, Car(reg1, c1)) == lots[1];
  }

  lemma SessionLine2(n: int, reg1: string, color1: string, reg2: string, color2: string)
    requires 2 <= n <= INT_MAX
    requires ' ' !in reg1 && ' ' !in color1 && color1 != []
    requires ' ' !in reg2 && ' ' !in color2 && color2 != []
    ensures var regs := SessionRegistries(n, reg1, color1, reg2, color2);
      Step(regs[2], SessionInput(n, reg1, color1, reg2, color2)[2]) ==
      Continue(regs[3], [SessionOutput(n, reg1, color1, reg2, color2)[2]])
  {
    var c1, c2 := NormalizeColor(color1), NormalizeColor(color2);
    var lots := SessionLots(n, Car(reg1, c1), Car(reg2, c2));
    SessionLotFacts(n, Car(reg1, c1), Car(reg2, c2));
    SessionPark(lots[1], 1, reg2, color2);
    assert IntToString(2) == "2";
    ConcatAssoc(c2, " car parked in spot ", "2");
    ConcatAssoc(c2, " car parked in spot " + "2", ".");
    assert " car parked in spot " + "2" + "." == " car parked in spot 2.";
    assert Parked(lots[1], 1, Car(reg2, c2)) == lots[2];
  }

  lemma SessionLine3(n: int, reg1: string, color1: string, reg2: string, color2: string)
    requires 2 <= n <= INT_MAX
    requires ' ' !in reg1 && ' ' !in color1 && color1 != []
    requires ' ' !in reg2 && ' ' !in color2 && color2 != []
    ensures var regs := SessionRegistries(n, reg1, color1, reg2, color2);
      Step(regs[3], SessionInput(n, reg1, color1, reg2, color2)[3]) ==
      Continue(regs[4], [SessionOutput(n, reg1, color1, reg2, color2)[3]])
  {
    var c1, c2 := NormalizeColor(color1), NormalizeColor(color2);
    var lots := SessionLots(n, Car(reg1, c1), Car(reg2, c2));
    SessionLotFacts(n, Car(reg1, c1), Car(reg2, c2));
    SessionLeaveFirst(lots[2]);
  }

  lemma SessionLine4(n: int, reg1: string, color1: string, reg2: string, color2: string)
    requires 2 <= n <= INT_MAX
    requires ' ' !in reg1 && ' ' !in color1 && color1 != []
    requires ' ' !in reg2 && ' ' !in color2 && color2 != []
    ensures var regs := SessionRegistries(n, reg1, color1, reg2, color2);
      Step(regs[4], SessionInput(n, reg1, color1, reg2, color2)[4]) ==
      Continue(regs[5], [SessionOutput(n, reg1, color1, reg2, color2)[4]])
  {
    var c1, c2 := NormalizeColor(color1), NormalizeColor(color2);
    var lots := SessionLots(n, Car(reg1, c1), Car(reg2, c2));
    SessionLotFacts(n, Car(reg1, c1), Car(reg2, c2));
    SessionStatus(lots[3], Car(reg2, c2));
  }

  /** The five lines before `exit` each print one reply and move to the next state. */
  lemma SessionSteps(n: int, reg1: string, color1: string, reg2: string, color2: string)
    requires 2 <= n <= INT_MAX
    requires ' ' !in reg1 && ' ' !in color1 && color1 != []
    requires ' ' !in reg2 && ' ' !in color2 && color2 != []
    ensures var regs := SessionRegistries(n, reg1, color1, reg2, color2);
      var input := SessionInput(n, reg1, color1, reg2, color2);
      var output := SessionOutput(n, reg1, color1, reg2, color2);
      forall k :: 0 <= k < 5 ==> Step(regs[k], input[k]) == Continue(regs[k + 1], [output[k]])
  {
    var regs := SessionRegistries(n, reg1, color1, reg2, color2);
    var input := SessionInput(n, reg1, color1, reg2, color2);
    var output := SessionOutput(n, reg1, color1, reg2, color2);
    forall k | 0 <= k < 5 ensures Step(regs[k], input[k]) == Continue(regs[k + 1], [output[k]]) {
      if k == 0 {
        SessionLine0(n, reg1, color1, reg2, color2);
      } else if k == 1 {
        SessionLine1(n, reg1, color1, reg2, color2);
      } else if k == 2 {
        SessionLine2(n, reg1, color1, reg2, color2);
      } else if k == 3 {
        SessionLine3(n, reg1, color1, reg2, color2);
      } else {
        SessionLine4(n, reg1, color1, reg2, color2);
      }
    }
  }

  /** A session on a new lot of `n >= 2` spots: two cars park in spots 1 and
      2 with their colours normalised, spot 1 is freed, `status` lists the
      remaining car, and `exit` ends the run. */
  lemma ExampleSession(n: int, reg1: string, color1: string, reg2: string, color2: string)
    requires 2 <= n <= INT_MAX
    requires ' ' !in reg1 && ' ' !in color1 && color1 != []
    requires ' ' !in reg2 && ' ' !in color2 && color2 != []
    ensures Run(NoLot, SessionInput(n, reg1, color1, reg2, color2)) ==
      Trace(SessionOutput(n, reg1, color1, reg2, color2), Exited,
            Lot(SessionLots(n, Car(reg1, NormalizeColor(color1)), Car(reg2, NormalizeColor(color2)))[3]))
  {
    SessionSteps(n, reg1, color1, reg2, color2);
    var input := SessionInput(n, reg1, color1, reg2, color2);
    SplitJoin(["exit"], ' ');
    assert ParseCmd("exit") == Ok(Exit);
    RunOfReplies(SessionRegistries(n, reg1, color1, reg2, color2), input[..5],
                 SessionOutput(n, reg1, color1, reg2, color2), "exit");
    assert input[..5] + ["exit"] == input;
  }

  // ---------------------------------------------------------------------------
  // The controller as an object
  // ---------------------------------------------------------------------------

  /** `ParkingController`: the current lot, if any, and the command loop. */
  class ParkingController {
    var parking: ParkingLot?

    ghost function Footprint(): set<object>
      reads this
    {
      if parking == null then {} else {parking.spots}
    }

    ghost predicate Valid()
      reads this, Footprint()
    {
      parking != null ==> parking.Valid()
    }

    ghost function Registry(): Registry
      reads this, Footprint()
    {
      if parking == null then NoLot else Lot(parking.spots[..])
    }

    constructor ()
      ensures Valid() && Registry() == NoLot
    {
      parking := null;
    }

    /** `create`: replace the lot by a new one of `spotCount` spots. */
    method Create(spotCount: int) returns (line: string)
      requires spotCount >= 0
      modifies this
      ensures Valid() && parking != null && fresh(parking.spots)
      ensures Registry() == Lot(NewSpots(spotCount)) && line == CreateReply(spotCount)
    {
      parking := new ParkingLot(spotCount);
      line := "Created a parking lot with " + IntToString(parking.spotCount) + " spots.";
    }

    /** `park`: the first free spot takes the car, or the lot is full. */
    method Park(carNumber: string, carColor: string) returns (line: string)
      requires Valid() && parking != null
      modifies parking.spots
      ensures Valid()
      ensures (Registry().spots, line) == ParkReply(old(Registry().spots), carNumber, carColor)
    {
      var number := parking.TryPark(carNumber, carColor);
      match number
      case None =>
        line := "Sorry, the parking lot is full.";
      case Some(k) =>
        line := carColor + " car parked in spot " + IntToString(k) + ".";
    }

    /** `leave`: free a spot, report that it was already free, or reject the number. */
    method Leave(spotNumber: int) returns (line: string)
      requires Valid() && parking != null
      modifies parking.spots
      ensures Valid()
      ensures (Registry().spots, line) == LeaveReply(old(Registry().spots), spotNumber)
    {
      var r := parking.TryLeave(spotNumber);
      match r
      case OutOfRange => line := "Spot number is invalid";
      case Vacated => line := "Spot " + IntToString(spotNumber) + " is free.";
      case AlreadyFree => line := "There is no car in spot " + IntToString(spotNumber) + ".";
    }

    /** The loop of `showStatus` over the busy spots: one line per spot, in order. */
    static method PrintSpots(busy: seq<Spot>) returns (lines: seq<string>)
      requires forall j :: 0 <= j < |busy| ==> !IsFree(busy[j])
      ensures lines == SpotLines(busy)
    {
      lines := [];
      for i := 0 to |busy|
        invariant |lines| == i
        invariant forall j :: 0 <= j < i ==> lines[j] == SpotLine(busy[j])
      {
        var spot := busy[i];
        lines := lines + [IntToString(spot.number) + " " + spot.car.value.number + " " + spot.car.value.color];
      }
    }

    /** `showStatus`: one line per busy spot in spot order, or the empty-lot line. */
    method ShowStatus() returns (lines: seq<string>)
      requires Valid() && parking != null
      ensures lines == StatusReply(parking.spots[..])
    {
      ghost var spots := parking.spots[..];
      AnyCarsIffBusy(spots);
      if !parking.HasAnyCars() {
        return ["Parking lot is empty."];
      }
      var busy := parking.GetBusySpots();
      BusyAreTaken(spots);
      lines := PrintSpots(busy);
    }

    /** One pass of `start`'s loop: parse the line, answer "Error" or the
        advisory line, or dispatch the command. `stop` is set when the loop
        ends here, on `exit` or on an exception that nothing catches. */
    method Handle(line: string) returns (lines: seq<string>, stop: Option<Halt>)
      requires Valid()
      modifies this, Footprint()
      ensures Valid()
      ensures parking != null ==> parking.spots in old(Footprint()) || fresh(parking.spots)
      ensures Step(old(Registry()), line) ==
        if stop.None? then Continue(Registry(), lines) else Stop(lines, stop.value)
      ensures stop.Some? ==> Registry() == old(Registry())
    {
      var parsed := ParseCmd(line);
      lines, stop := [], None;
      if parsed == Invalid {
        lines := ["Error"];
      } else if parsed == Fault {
        stop := Some(Crashed);
      } else if parking == null && !(parsed.cmd.Exit? || parsed.cmd.Create?) {
        lines := [NOT_CREATED];
      } else {
        match parsed.cmd
        case Exit =>
          stop := Some(Exited);
        case Create(n) =>
          if n < 0 {
            // `List(spotCount)` throws, and nothing around `create` catches it
            stop := Some(Crashed);
          } else {
            var reply := Create(n);
            lines := [reply];
          }
        case Park(carNumber, carColor) =>
          var reply := Park(carNumber, carColor);
          lines := [reply];
        case Leave(n) =>
          var reply := Leave(n);
          lines := [reply];
        case Status =>
          lines := ShowStatus();
      }
    }

    /** `start`: handle input lines one after another until `exit`, an
        uncaught exception, or the end of the input. */
    method Start(input: seq<string>) returns (output: seq<string>, halt: Halt)
      requires Valid()
      modifies this, Footprint()
      ensures Valid()
      ensures Run(old(Registry()), input) == Trace(output, halt, Registry())
    {
      output := [];
      var i := 0;
      while i < |input|
        invariant 0 <= i <= |input|
        invariant Valid()
        invariant parking != null ==> parking.spots in old(Footprint()) || fresh(parking.spots)
        invariant Run(old(Registry()), input) ==
          var rest := Run(Registry(), input[i..]);
          rest.(output := output + rest.output)
      {
        ghost var before := Registry();
        var lines, stop := Handle(input[i]);
        RunAdvance(Run(old(Registry()), input), output, before, input, i, lines, stop, Registry());
        output := output + lines;
        if stop.Some? {
          halt := stop.value;
          return;
        }
        i := i + 1;
      }
      halt := InputExhausted;
    }
  }
}
