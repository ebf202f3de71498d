# The `/distance` command, modelled in Dafny

A model of `CommandDistance`, the chat command of a game mod that measures the
distance between two points:

    /distance <x1> <y1> <z1> <x2> <y2> <z2> [euclidean/manhattan]

The command keeps no state between calls, so the model is three modules of
functions, methods and lemmas:

- `Ascii` (`ascii.dfy`): `toLowerCase` and `toUpperCase` as ASCII case folding,
  and the lemma that upper-casing to a capitalised name is the same test as
  lower-casing to its lower-case spelling.
- `DistanceCommand` (`distance_command.dfy`): the command itself.
  - The loops of the source stay loops. `ParseCoordinates` fills a six-element
    array and stops at the first token that does not parse. `IsValidCoordinate`
    walks the array with an early exit. `GetTabCompletions` appends the matching
    names one by one.
  - Each method is proved equal to a specification function: `CoordinatesOf`,
    `WithinBounds` and `MatchingNames`.
  - `Execute` is proved equal to `Outcome`, which runs the checks in the
    source's order: count, parsing, bounds, method.
  - The distance formulas, `getDistanceMethod` and `calculateDistance` are
    functions.
- `DistanceProperties` (`distance_properties.dfy`): what the command
  guarantees. This covers which error wins, the exact bounds, how the method is
  chosen, the properties of the two distance formulas, worked examples, and what
  tab completion offers.

Numbers are `real`, an idealisation of Java's `double`. Two library calls are
passed in as functions and not defined:

- `Double.parseDouble` is a parameter `parse: string -> Option<real>`. `None`
  stands for `NumberFormatException`.
- `Math.sqrt` is a parameter `sqrt: real -> real`. Lemmas that need facts about
  the root state them as preconditions. `IsSquareRoot` says the root is
  non-negative and squares back to its argument.

The command reports each outcome as a chat message. The model returns a
`Result<Report>`:

- a failure tag `Usage`, `InvalidNumber`, `OutOfBounds` or `InvalidMethod`;
- or a `Report` holding the method, the six coordinates and the distance.

The bounds follow the code. Every value must lie in
[-30,000,000, 30,000,000]. Only index 1, the first point's y, must also lie in
[-319, 319]. The second point's y (index 4) is checked only against the wide
range, so a second point at y = 400 is accepted. `OnlyFirstYIsVertical` and
`SecondYAt400Accepted` state this. There is no vertical bound on the second
point's y; the model keeps that and does not add one.

## Model

| member | source | states |
|---|---|---|
| `Ascii.UpperMatchIffLowerMatch` | src/main/java/com/example/distancecalculatormod/commands/CommandDistance.java:101 | for a capitalised name, a token upper-cases to the name exactly when it lower-cases to the name's lower-case spelling (a case-insensitive match) |
| `DistanceCommand.ValueOf` | src/main/java/com/example/distancecalculatormod/commands/CommandDistance.java:21-23 | `Enum.valueOf`: the result's name is exactly the given string; `None` (the exception) only when no constant has that name |
| `DistanceCommand.GetDistanceMethod` | src/main/java/com/example/distancecalculatormod/commands/CommandDistance.java:99-105 | some method exactly when the upper-cased token is a constant's name, and then the method with that name |
| `DistanceCommand.MethodToken` | src/main/java/com/example/distancecalculatormod/commands/CommandDistance.java:49 | the token handed to method resolution is always lower-case, and with six arguments the default token resolves to Euclidean |
| `DistanceCommand.ParseTokens` | src/main/java/com/example/distancecalculatormod/commands/CommandDistance.java:70-77 | parsing the tokens in order yields one number per token when it succeeds |
| `DistanceCommand.ParseTokensExact` | src/main/java/com/example/distancecalculatormod/commands/CommandDistance.java:70-77 | parsing succeeds exactly when every token parses, and then each position holds its token's number |
| `DistanceCommand.WithinBounds` | src/main/java/com/example/distancecalculatormod/commands/CommandDistance.java:85-97 | the bounds check holds exactly when every value has magnitude at most 30,000,000 and the first point's y has magnitude at most 319; `BoundsExact` and `OnlyFirstYIsVertical` give the limits index by index |
| `DistanceCommand.CoordinatesOf` | src/main/java/com/example/distancecalculatormod/commands/CommandDistance.java:68-83 | a success is six numbers within bounds; the only failures are the invalid-number and out-of-bounds errors |
| `DistanceCommand.IsValidCoordinate` | src/main/java/com/example/distancecalculatormod/commands/CommandDistance.java:85-97 | the loop with early exit returns true exactly when the array's contents are within bounds |
| `DistanceCommand.ParseCoordinates` | src/main/java/com/example/distancecalculatormod/commands/CommandDistance.java:68-83 | filling the array token by token and then checking bounds gives exactly `CoordinatesOf`: invalid number if any of the first six tokens fails, else out of bounds or the six numbers |
| `DistanceCommand.Execute` | src/main/java/com/example/distancecalculatormod/commands/CommandDistance.java:36-60 | the command's result is exactly `Outcome`: count, then parsing, then bounds, then method, then the distance |
| `DistanceCommand.Outcome` | src/main/java/com/example/distancecalculatormod/commands/CommandDistance.java:36-60 | a success carries six coordinates within bounds; the invalid-method error needs a seventh argument, since the default token always resolves; `CountChecked`, `ParseFailureWins`, `BoundsBeforeMethod` and `SuccessReport` state the order of the checks |
| `DistanceCommand.Radicand` | src/main/java/com/example/distancecalculatormod/commands/CommandDistance.java:118-122 | the sum of squared differences is never negative |
| `DistanceCommand.CalculateEuclideanDistance` | src/main/java/com/example/distancecalculatormod/commands/CommandDistance.java:118-123 | the distance is the same with the points swapped, and from a point to itself it is the root of zero; `DistanceNonNegative` and `EuclideanAtMostManhattan` bound it for a true square root |
| `DistanceCommand.CalculateManhattanDistance` | src/main/java/com/example/distancecalculatormod/commands/CommandDistance.java:125-127 | the Manhattan distance is never negative |
| `DistanceCommand.CalculateDistance` | src/main/java/com/example/distancecalculatormod/commands/CommandDistance.java:107-116 | the Manhattan choice is never negative, and from a point to itself the distance is zero (Manhattan) or the root of zero (Euclidean); `DistanceSymmetric`, `DistanceToItself` and `DistanceNonNegative` state symmetry and the bounds for either method |
| `DistanceCommand.MatchingNames` | src/main/java/com/example/distancecalculatormod/commands/CommandDistance.java:139-143 | at most one completion per method, and every completion starts with the prefix |
| `DistanceCommand.GetTabCompletions` | src/main/java/com/example/distancecalculatormod/commands/CommandDistance.java:134-148 | seven arguments: the matching lower-case names in enum order; eight: the six placeholders `<x1>`..`<z2>`; otherwise the empty list |
| `DistanceProperties.LowerNames` | src/main/java/com/example/distancecalculatormod/commands/CommandDistance.java:21-23 | the constants' lower-case names are `euclidean` and `manhattan` |
| `DistanceProperties.MethodResolution` | src/main/java/com/example/distancecalculatormod/commands/CommandDistance.java:49-50 | a lower-cased token resolves to a method exactly when it equals that method's lower-case name |
| `DistanceProperties.UnknownMethodRejected` | src/main/java/com/example/distancecalculatormod/commands/CommandDistance.java:49-58 | a lower-cased token resolves to nothing exactly when it is neither `euclidean` nor `manhattan` |
| `DistanceProperties.CountChecked` | src/main/java/com/example/distancecalculatormod/commands/CommandDistance.java:37-42 | the usage error is given exactly when the count is not 6 or 7, and then the result does not depend on the parser or the root |
| `DistanceProperties.ParseFailureWins` | src/main/java/com/example/distancecalculatormod/commands/CommandDistance.java:70-77 | with a correct count, the invalid-number error is given exactly when one of the first six tokens does not parse |
| `DistanceProperties.BoundsBeforeMethod` | src/main/java/com/example/distancecalculatormod/commands/CommandDistance.java:44-53 | once the six tokens parse, out-of-bounds values give the bounds error whatever the method token; values within bounds go on to method resolution and the distance |
| `DistanceProperties.InvalidMethodNeedsValidCoordinates` | src/main/java/com/example/distancecalculatormod/commands/CommandDistance.java:49-58 | the invalid-method error needs seven arguments, six parsed numbers within bounds and a seventh token that is neither name |
| `DistanceProperties.SuccessReport` | src/main/java/com/example/distancecalculatormod/commands/CommandDistance.java:49-56 | a success reports the parsed numbers, within bounds; Euclidean with six arguments; with seven, the method named by the seventh token; and the distance by that method |
| `DistanceProperties.SeventhTokenChooses` | src/main/java/com/example/distancecalculatormod/commands/CommandDistance.java:49-53 | with valid coordinates and seven arguments, the result uses method m exactly when the lower-cased seventh token is m's name |
| `DistanceProperties.BoundsExact` | src/main/java/com/example/distancecalculatormod/commands/CommandDistance.java:85-97 | within bounds exactly when all six values are in [-30,000,000, 30,000,000] and the value at index 1 is in [-319, 319], inclusive |
| `DistanceProperties.OnlyFirstYIsVertical` | src/main/java/com/example/distancecalculatormod/commands/CommandDistance.java:91-96 | the second point's y may take any value in the wide range; the first point's y outside [-319, 319] is rejected |
| `DistanceProperties.BoundaryValues` | src/main/java/com/example/distancecalculatormod/commands/CommandDistance.java:85-97 | ±319 and ±30,000,000 pass, ±320 and 30,000,001 do not, and y2 = 400 passes |
| `DistanceProperties.ManhattanProperties` | src/main/java/com/example/distancecalculatormod/commands/CommandDistance.java:125-127 | the Manhattan distance is unchanged when the points are swapped, and zero exactly when they coincide |
| `DistanceProperties.RadicandProperties` | src/main/java/com/example/distancecalculatormod/commands/CommandDistance.java:118-122 | the sum of squares is unchanged when the points are swapped, and zero when they coincide |
| `DistanceProperties.DistanceSymmetric` | src/main/java/com/example/distancecalculatormod/commands/CommandDistance.java:107-116 | the distance by either method is unchanged when the points are swapped |
| `DistanceProperties.DistanceToItself` | src/main/java/com/example/distancecalculatormod/commands/CommandDistance.java:107-116 | the distance between coinciding points is zero by either method, given a root of zero that is zero |
| `DistanceProperties.DistanceNonNegative` | src/main/java/com/example/distancecalculatormod/commands/CommandDistance.java:107-116 | the distance by either method is non-negative, given a true square root |
| `DistanceProperties.RadicandAtMostManhattanSquared` | src/main/java/com/example/distancecalculatormod/commands/CommandDistance.java:118-127 | the sum of squares is at most the square of the Manhattan distance |
| `DistanceProperties.EuclideanAtMostManhattan` | src/main/java/com/example/distancecalculatormod/commands/CommandDistance.java:118-127 | with a true square root, the Euclidean distance never exceeds the Manhattan distance |
| `DistanceProperties.ManhattanExample` | src/main/java/com/example/distancecalculatormod/commands/CommandDistance.java:38-40 | the usage example `392 -43 81 48 293 58 manhattan` reports 703 |
| `DistanceProperties.EuclideanExample` | src/main/java/com/example/distancecalculatormod/commands/CommandDistance.java:38-40 | the usage example with `EUCLIDEAN` in capitals reports the root of 231761 |
| `DistanceProperties.SecondYAt400Accepted` | src/main/java/com/example/distancecalculatormod/commands/CommandDistance.java:96 | six arguments with y2 = 400 succeed, and the same y for the first point gives the bounds error |
| `DistanceProperties.MatchingNamesMembership` | src/main/java/com/example/distancecalculatormod/commands/CommandDistance.java:139-143 | a string is offered exactly when it is a method's lower-case name and starts with the prefix |
| `DistanceProperties.CompletionsInOrder` | src/main/java/com/example/distancecalculatormod/commands/CommandDistance.java:136-143 | the completions are `euclidean` if it starts with the prefix, followed by `manhattan` if it does |
| `DistanceProperties.CompletionExtremes` | src/main/java/com/example/distancecalculatormod/commands/CommandDistance.java:137-143 | an empty prefix gives both names in enum order; a prefix of neither name gives none |
| `DistanceProperties.CompletionsResolve` | src/main/java/com/example/distancecalculatormod/commands/CommandDistance.java:139-141 | every completion offered is a token the command accepts, and it selects the method it names |

## Left out

- Sending chat messages (`sendMessage`, `TextComponentString`), the colour-code prefixes and the `%.2f` formatting of the success message are not modelled. Each message becomes a failure tag or a `Report`.
- `getName`, `getUsage` and `checkPermission` return constants to the host platform and are not modelled. Neither are the host's command base class, server and sender.
- The grammar of `Double.parseDouble` is not modelled. The parser is a parameter, so every property holds for any parser.
- `Math.sqrt` is a parameter with no definition. `Radicand` models the value it is applied to.
- IEEE-754 behaviour is not modelled: rounding, infinities, and `NaN` slipping through the bounds check because every comparison with it is false. Numbers are reals.
- `toLowerCase` and `toUpperCase` are ASCII case folding. Java's locale- and Unicode-aware case mapping is not modelled. For example, the dotless `ı` upper-cases to `I` in Java.
- `default: return 0` in `calculateDistance` cannot be reached with a two-constant enum, and the model's `match` has no such case.
- `RadicandProperties`: proves that the sum of squares is zero when the points coincide, but not the converse. The converse holds over the reals, but it needs nonlinear real arithmetic that the solver does not settle reliably. `ManhattanProperties` does state both directions.
