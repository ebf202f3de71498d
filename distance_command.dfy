/** The `/distance` chat command: argument checking, coordinate parsing and
    bounds checking, distance-method resolution, the two distance formulas
    and tab completion. The command holds no state; each call works on the
    argument array alone.

    Numbers are `real`, an idealisation of Java's `double`. The number
    parser (Double.parseDouble) and the square root (Math.sqrt) are not
    defined here: they are passed in as functions, `parse` and `sqrt`. */
module DistanceCommand {
  import opened Ascii

  datatype Option<T> = None | Some(value: T)

  /** The command takes six coordinates and, optionally, a seventh argument. */
  const RequiredArgumentCount: nat := 7

  /** Bounds on every coordinate, and on the first point's y coordinate. */
  const MinXYZ: real := -30_000_000.0
  const MaxXYZ: real := 30_000_000.0
  const MinY: real := -319.0
  const MaxY: real := 319.0

  datatype DistanceMethod = Euclidean | Manhattan

  /** The enum's constants in declaration order (DistanceMethod.values()). */
  const Methods: seq<DistanceMethod> := [Euclidean, Manhattan]

  /** The enum constant's name (name()). */
  function Name(m: DistanceMethod): string {
    match m
    case Euclidean => "EUCLIDEAN"
    case Manhattan => "MANHATTAN"
  }

  /** The name as it is shown to the user and completed. */
  function LowerName(m: DistanceMethod): string {
    ToLower(Name(m))
  }

  /** The error messages the command sends, one tag per kind. */
  datatype Failure =
    | Usage          // wrong number of arguments
    | InvalidNumber  // a coordinate token is not a number
    | OutOfBounds    // a coordinate lies outside the bounds
    | InvalidMethod  // the seventh token names no distance method

  datatype Result<T> = Ok(value: T) | Err(failure: Failure)

  /** What the success message reports: the method, the six coordinates
      and the distance. */
  datatype Report = Report(distanceMethod: DistanceMethod, coordinates: seq<real>, distance: real)

  /** Double.parseDouble: a number, or None where it throws NumberFormatException. */
  type Parser = string -> Option<real>

  /** Math.sqrt. */
  type SquareRoot = real -> real

  /** The six placeholders offered when completing an eighth argument. */
  const Placeholders: seq<string> := ["<x1>", "<y1>", "<z1>", "<x2>", "<y2>", "<z2>"]

  // ---------------------------------------------------------------------
  // Method resolution

  /** Enum.valueOf: the constant whose name is exactly `name`, if any. */
  function ValueOf(name: string): (r: Option<DistanceMethod>)
    ensures r.Some? ==> Name(r.value) == name
    ensures r.None? ==> forall m :: Name(m) != name
  {
    if name == Name(Euclidean) then Some(Euclidean)
    else if name == Name(Manhattan) then Some(Manhattan)
    else None
  }

  /** getDistanceMethod: valueOf of the upper-cased token, None where valueOf throws. */
  function GetDistanceMethod(token: string): (r: Option<DistanceMethod>)
    ensures r.Some? <==> exists m :: ToUpper(token) == Name(m)
    ensures r.Some? ==> ToUpper(token) == Name(r.value)
  {
    ValueOf(ToUpper(token))
  }

  /** The token handed to getDistanceMethod: the lower-cased seventh
      argument, or "euclidean" when there are only six. The token is always
      in lower case, and the default names the Euclidean method. */
  function MethodToken(args: seq<string>): (r: string)
    requires RequiredArgumentCount - 1 <= |args| <= RequiredArgumentCount
    ensures ToLower(r) == r
    ensures |args| == RequiredArgumentCount - 1 ==> GetDistanceMethod(r) == Some(Euclidean)
  {
    if |args| == RequiredArgumentCount then
      ToLowerIdempotent(args[6]);
      ToLower(args[6])
    else
      "euclidean"
  }

  // ---------------------------------------------------------------------
  // Coordinates

  /** Parsing a list of tokens in order; the first token that does not parse
      makes the whole result None. */
  function ParseTokens(tokens: seq<string>, parse: Parser): (r: Option<seq<real>>)
    ensures r.Some? ==> |r.value| == |tokens|
  {
    if tokens == [] then Some([])
    else match parse(tokens[0])
      case None => None
      case Some(v) =>
        match ParseTokens(tokens[1..], parse)
        case None => None
        case Some(vs) => Some([v] + vs)
  }

  /** The bounds check of isValidCoordinate: every value within the
      horizontal range, and the value at index 1 (the first point's y)
      within the vertical range too. Both ranges are inclusive and symmetric
      about zero, so the check bounds each value's magnitude. */
  predicate WithinBounds(c: seq<real>): (b: bool)
    requires |c| > 1
    ensures b <==> (forall i :: 0 <= i < |c| ==> Abs(c[i]) <= MaxXYZ) && Abs(c[1]) <= MaxY
  {
    (forall i :: 0 <= i < |c| ==> MinXYZ <= c[i] <= MaxXYZ) && MinY <= c[1] <= MaxY
  }

  /** What parseCoordinates yields for the first six arguments: the six
      numbers, or the error it reports. Parsing comes before the bounds check. */
  function CoordinatesOf(args: seq<string>, parse: Parser): (r: Result<seq<real>>)
    requires |args| >= 6
    ensures r.Ok? ==> |r.value| == 6 && WithinBounds(r.value)
    ensures r.Err? ==> r.failure == InvalidNumber || r.failure == OutOfBounds
  {
    match ParseTokens(args[..6], parse)
    case None => Err(InvalidNumber)
    case Some(c) => if WithinBounds(c) then Ok(c) else Err(OutOfBounds)
  }

  // ---------------------------------------------------------------------
  // Distances

  /** The second point first and the first point second. */
  function Swapped(c: seq<real>): seq<real>
    requires |c| == 6
  {
    c[3..] + c[..3]
  }

  /** The two points are the same point. */
  predicate SamePoint(c: seq<real>)
    requires |c| == 6
  {
    c[0] == c[3] && c[1] == c[4] && c[2] == c[5]
  }

  function Abs(x: real): real { if x < 0.0 then -x else x }

  /** The sum of squared differences that calculateEuclideanDistance takes the root of. */
  function Radicand(c: seq<real>): (r: real)
    requires |c| == 6
    ensures r >= 0.0
  {
    var dx, dy, dz := c[3] - c[0], c[4] - c[1], c[5] - c[2];
    dx * dx + dy * dy + dz * dz
  }

  /** calculateEuclideanDistance: the root of the radicand. The radicand is
      the same with the points swapped, and it is zero for a single point. */
  function CalculateEuclideanDistance(c: seq<real>, sqrt: SquareRoot): (r: real)
    requires |c| == 6
    ensures r == sqrt(Radicand(Swapped(c)))
    ensures SamePoint(c) ==> r == sqrt(0.0)
  {
    assert Radicand(Swapped(c)) == Radicand(c) by {
      var s := Swapped(c);
      assert s[0] == c[3] && s[1] == c[4] && s[2] == c[5];
      assert s[3] == c[0] && s[4] == c[1] && s[5] == c[2];
    }
    assert SamePoint(c) ==> Radicand(c) == 0.0;
    sqrt(Radicand(c))
  }

  function CalculateManhattanDistance(c: seq<real>): (r: real)
    requires |c| == 6
    ensures r >= 0.0
  {
    Abs(c[3] - c[0]) + Abs(c[4] - c[1]) + Abs(c[5] - c[2])
  }

  /** calculateDistance: the formula the method selects. The Manhattan
      distance is never negative; from a point to itself it is zero, and the
      Euclidean one is the root of zero. */
  function CalculateDistance(c: seq<real>, m: DistanceMethod, sqrt: SquareRoot): (r: real)
    requires |c| == 6
    ensures m == Manhattan ==> r >= 0.0
    ensures SamePoint(c) ==> r == (if m == Manhattan then 0.0 else sqrt(0.0))
  {
    match m
    case Euclidean => CalculateEuclideanDistance(c, sqrt)
    case Manhattan => CalculateManhattanDistance(c)
  }

  // ---------------------------------------------------------------------
  // The command

  /** What `execute` does with the argument array, check by check: the
      argument count, then parsing, then bounds, then the method. A success
      carries six coordinates within bounds, and the method error needs a
      seventh argument, since the default token always resolves. */
  function Outcome(args: seq<string>, parse: Parser, sqrt: SquareRoot): (r: Result<Report>)
    ensures r.Ok? ==> |r.value.coordinates| == 6 && WithinBounds(r.value.coordinates)
    ensures r == Err(InvalidMethod) ==> |args| == RequiredArgumentCount
  {
    if |args| < RequiredArgumentCount - 1 || |args| > RequiredArgumentCount then Err(Usage)
    else match CoordinatesOf(args, parse)
      case Err(f) => Err(f)
      case Ok(c) =>
        match GetDistanceMethod(MethodToken(args))
        case None => Err(InvalidMethod)
        case Some(m) => Ok(Report(m, c, CalculateDistance(c, m, sqrt)))
  }

  /** Parsing `tokens` succeeds exactly when every token parses, and then
      yields each token's number at its index. */
  lemma {:induction false} ParseTokensExact(tokens: seq<string>, parse: Parser)
    ensures ParseTokens(tokens, parse).Some? <==> forall i :: 0 <= i < |tokens| ==> parse(tokens[i]).Some?
    ensures ParseTokens(tokens, parse).Some? ==>
              forall i :: 0 <= i < |tokens| ==> parse(tokens[i]) == Some(ParseTokens(tokens, parse).value[i])
  {
    if tokens != [] {
      ParseTokensExact(tokens[1..], parse);
      assert forall i :: 1 <= i < |tokens| ==> tokens[i] == tokens[1..][i - 1];
    }
  }

  /** isValidCoordinate: the loop over all values with an early exit,
      then the check of index 1. */
  method IsValidCoordinate(coordinates: array<real>) returns (valid: bool)
    requires coordinates.Length > 1
    ensures valid == WithinBounds(coordinates[..])
  {
    var i := 0;
    while i < coordinates.Length
      invariant 0 <= i <= coordinates.Length
      invariant forall k :: 0 <= k < i ==> MinXYZ <= coordinates[k] <= MaxXYZ
    {
      var value := coordinates[i];
      if value < MinXYZ || value > MaxXYZ {
        return false;
      }
      i := i + 1;
    }
    return MinY <= coordinates[1] <= MaxY;
  }

  /** parseCoordinates: fill a six-element array from the first six
      arguments, stopping at the first that does not parse, then check the
      bounds. */
  method ParseCoordinates(args: seq<string>, parse: Parser) returns (r: Result<seq<real>>)
    requires |args| >= 6
    ensures r == CoordinatesOf(args, parse)
  {
    ParseTokensExact(args[..6], parse);
    var coordinates := new real[6];
    for i := 0 to 6
      invariant forall k :: 0 <= k < i ==> parse(args[k]) == Some(coordinates[k])
    {
      match parse(args[i]) {
        case None =>
          assert args[..6][i] == args[i];
          return Err(InvalidNumber);
        case Some(v) =>
          coordinates[i] := v;
      }
    }
    assert ParseTokens(args[..6], parse).Some? by {
      assert forall k :: 0 <= k < 6 ==> args[..6][k] == args[k];
    }
    var values := ParseTokens(args[..6], parse).value;
    forall k | 0 <= k < 6 ensures values[k] == coordinates[..][k] {
      assert args[..6][k] == args[k];
      assert parse(args[..6][k]) == Some(values[k]);
    }
    assert values == coordinates[..];
    var valid := IsValidCoordinate(coordinates);
    if !valid {
      return Err(OutOfBounds);
    }
    return Ok(coordinates[..]);
  }

  /** execute: the count check, then parseCoordinates, then method
      resolution and the distance. */
  method Execute(args: seq<string>, parse: Parser, sqrt: SquareRoot) returns (outcome: Result<Report>)
    ensures outcome == Outcome(args, parse, sqrt)
  {
    if |args| < RequiredArgumentCount - 1 || |args| > RequiredArgumentCount {
      return Err(Usage);
    }
    var parsed := ParseCoordinates(args, parse);
    if parsed.Err? {
      return Err(parsed.failure);
    }
    var coordinates := parsed.value;
    var token := MethodToken(args);
    match GetDistanceMethod(token) {
      case Some(m) =>
        outcome := Ok(Report(m, coordinates, CalculateDistance(coordinates, m, sqrt)));
      case None =>
        outcome := Err(InvalidMethod);
    }
  }

  // ---------------------------------------------------------------------
  // Tab completion

  /** The lower-cased names of `ms`, in order, that start with `prefix`. */
  function MatchingNames(prefix: string, ms: seq<DistanceMethod>): (r: seq<string>)
    ensures |r| <= |ms|
    ensures forall s :: s in r ==> prefix <= s
  {
    if ms == [] then []
    else
      var name := LowerName(ms[|ms| - 1]);
      MatchingNames(prefix, ms[..|ms| - 1]) + (if prefix <= name then [name] else [])
  }

  /** getTabCompletions: with seven arguments, the method names that start
      with the lower-cased seventh; with eight, the coordinate placeholders;
      otherwise nothing. */
  method GetTabCompletions(args: seq<string>) returns (completions: seq<string>)
    ensures |args| == 7 ==> completions == MatchingNames(ToLower(args[6]), Methods)
    ensures |args| == 8 ==> completions == Placeholders
    ensures |args| != 7 && |args| != 8 ==> completions == []
  {
    completions := [];
    if |args| == 7 {
      var arg := ToLower(args[6]);
      for i := 0 to |Methods|
        invariant completions == MatchingNames(arg, Methods[..i])
      {
        var name := LowerName(Methods[i]);
        assert Methods[..i + 1][..i] == Methods[..i];
        if arg <= name {
          completions := completions + [name];
        }
      }
      assert Methods[..|Methods|] == Methods;
    } else if |args| == 8 {
      completions := Placeholders;
    }
  }
}
