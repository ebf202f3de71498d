/** What the `/distance` command guarantees: which error wins, the exact
    bounds, how the method is chosen, the properties of the two distance
    formulas, and what tab completion offers. */
module DistanceProperties {
  import opened Ascii
  import opened DistanceCommand

  // ---------------------------------------------------------------------
  // Method names

  lemma LowerNames()
    ensures LowerName(Euclidean) == "euclidean"
    ensures LowerName(Manhattan) == "manhattan"
  {
  }

  /** A lower-cased token resolves to a method exactly when it is that
      method's lower-case name: the match ignores case and nothing else. */
  lemma MethodResolution(t: string, m: DistanceMethod)
    ensures GetDistanceMethod(ToLower(t)) == Some(m) <==> ToLower(t) == LowerName(m)
  {
    ToLowerIdempotent(t);
    assert forall i :: 0 <= i < |Name(m)| ==> IsUpperLetter(Name(m)[i]);
    UpperMatchIffLowerMatch(ToLower(t), Name(m));
  }

  /** A lower-cased token that is neither name resolves to nothing. */
  lemma UnknownMethodRejected(t: string)
    ensures GetDistanceMethod(ToLower(t)).None? <==>
              ToLower(t) != "euclidean" && ToLower(t) != "manhattan"
  {
    LowerNames();
    MethodResolution(t, Euclidean);
    MethodResolution(t, Manhattan);
  }

  // ---------------------------------------------------------------------
  // Which error wins

  /** The usage error is given exactly for a count other than 6 or 7, and
      then neither the parser nor the square root is consulted. */
  lemma CountChecked(args: seq<string>, parse: Parser, sqrt: SquareRoot,
                     otherParse: Parser, otherSqrt: SquareRoot)
    ensures Outcome(args, parse, sqrt) == Err(Usage) <==> |args| != 6 && |args| != 7
    ensures |args| != 6 && |args| != 7 ==>
              Outcome(args, parse, sqrt) == Outcome(args, otherParse, otherSqrt)
  {
  }

  /** With a correct count, the invalid-number error is given exactly when
      one of the first six tokens does not parse. */
  lemma ParseFailureWins(args: seq<string>, parse: Parser, sqrt: SquareRoot)
    requires 6 <= |args| <= 7
    ensures Outcome(args, parse, sqrt) == Err(InvalidNumber) <==>
              exists i :: 0 <= i < 6 && parse(args[i]).None?
  {
    ParseTokensExact(args[..6], parse);
    assert forall i :: 0 <= i < 6 ==> args[..6][i] == args[i];
  }

  /** Once the six tokens parse to `c`, the bounds decide before the method
      token is looked at: out-of-bounds coordinates give the bounds error
      whatever the seventh token is, and only coordinates within bounds
      reach method resolution. */
  lemma BoundsBeforeMethod(args: seq<string>, parse: Parser, sqrt: SquareRoot, c: seq<real>)
    requires 6 <= |args| <= 7 && |c| == 6
    requires forall i :: 0 <= i < 6 ==> parse(args[i]) == Some(c[i])
    ensures !WithinBounds(c) ==> Outcome(args, parse, sqrt) == Err(OutOfBounds)
    ensures WithinBounds(c) ==>
              Outcome(args, parse, sqrt) ==
                match GetDistanceMethod(MethodToken(args))
                case None => Err(InvalidMethod)
                case Some(m) => Ok(Report(m, c, CalculateDistance(c, m, sqrt)))
  {
    ParseTokensExact(args[..6], parse);
    assert forall i :: 0 <= i < 6 ==> args[..6][i] == args[i];
    var values := ParseTokens(args[..6], parse).value;
    forall i | 0 <= i < 6 ensures values[i] == c[i] {
      assert parse(args[..6][i]) == Some(values[i]);
    }
    assert values == c;
  }

  /** The invalid-method error needs seven arguments, six tokens that parse
      and coordinates within bounds; with six arguments it never occurs. */
  lemma InvalidMethodNeedsValidCoordinates(args: seq<string>, parse: Parser, sqrt: SquareRoot)
    requires Outcome(args, parse, sqrt) == Err(InvalidMethod)
    ensures |args| == 7
    ensures ParseTokens(args[..6], parse).Some?
    ensures forall i :: 0 <= i < 6 ==> parse(args[i]).Some?
    ensures WithinBounds(ParseTokens(args[..6], parse).value)
    ensures ToLower(args[6]) != "euclidean" && ToLower(args[6]) != "manhattan"
  {
    ParseTokensExact(args[..6], parse);
    assert forall i :: 0 <= i < 6 ==> args[..6][i] == args[i];
    if |args| == 6 {
      LowerNames();
      MethodResolution("euclidean", Euclidean);
      assert false;
    }
    UnknownMethodRejected(args[6]);
  }

  /** A successful call reports the six parsed numbers, which lie within
      bounds, the method chosen and the distance by that method. */
  lemma SuccessReport(args: seq<string>, parse: Parser, sqrt: SquareRoot, r: Report)
    requires Outcome(args, parse, sqrt) == Ok(r)
    ensures 6 <= |args| <= 7 && |r.coordinates| == 6
    ensures forall i :: 0 <= i < 6 ==> parse(args[i]) == Some(r.coordinates[i])
    ensures WithinBounds(r.coordinates)
    ensures |args| == 6 ==> r.distanceMethod == Euclidean
    ensures |args| == 7 ==> ToLower(args[6]) == LowerName(r.distanceMethod)
    ensures r.distance == CalculateDistance(r.coordinates, r.distanceMethod, sqrt)
  {
    ParseTokensExact(args[..6], parse);
    forall i | 0 <= i < 6 ensures parse(args[i]) == Some(r.coordinates[i]) {
      assert args[..6][i] == args[i];
    }
    if |args| == 6 {
      LowerNames();
      MethodResolution("euclidean", r.distanceMethod);
      assert ToLower("euclidean") == "euclidean";
    } else {
      MethodResolution(args[6], r.distanceMethod);
    }
  }

  /** With six numbers within bounds and seven arguments, the seventh token
      chooses the method, ignoring case. */
  lemma SeventhTokenChooses(args: seq<string>, parse: Parser, sqrt: SquareRoot,
                            c: seq<real>, m: DistanceMethod)
    requires |args| == 7 && |c| == 6 && WithinBounds(c)
    requires forall i :: 0 <= i < 6 ==> parse(args[i]) == Some(c[i])
    ensures Outcome(args, parse, sqrt) == Ok(Report(m, c, CalculateDistance(c, m, sqrt))) <==>
              ToLower(args[6]) == LowerName(m)
  {
    BoundsBeforeMethod(args, parse, sqrt, c);
    MethodResolution(args[6], m);
  }

  // ---------------------------------------------------------------------
  // Bounds

  /** The bounds written out index by index: all six values within the
      horizontal range, and the first point's y (index 1) within the
      vertical range. The second point's y (index 4) has no vertical bound. */
  lemma BoundsExact(c: seq<real>)
    requires |c| == 6
    ensures WithinBounds(c) <==>
              MinXYZ <= c[0] <= MaxXYZ && MinY <= c[1] <= MaxY && MinXYZ <= c[2] <= MaxXYZ &&
              MinXYZ <= c[3] <= MaxXYZ && MinXYZ <= c[4] <= MaxXYZ && MinXYZ <= c[5] <= MaxXYZ
  {
  }

  /** Changing the second point's y to any value in the horizontal range
      keeps coordinates within bounds; changing the first point's y to a
      value outside the vertical range does not. */
  lemma OnlyFirstYIsVertical(c: seq<real>, v: real)
    requires |c| == 6 && WithinBounds(c)
    ensures MinXYZ <= v <= MaxXYZ ==> WithinBounds(c[4 := v])
    ensures !(MinY <= v <= MaxY) ==> !WithinBounds(c[1 := v])
  {
  }

  /** The edges are inclusive: 319 and 30,000,000 pass, 320 and 30,000,001 do not. */
  lemma BoundaryValues()
    ensures WithinBounds([0.0, 319.0, 0.0, 0.0, 0.0, 0.0])
    ensures WithinBounds([0.0, -319.0, 0.0, 0.0, 0.0, 0.0])
    ensures !WithinBounds([0.0, 320.0, 0.0, 0.0, 0.0, 0.0])
    ensures !WithinBounds([0.0, -320.0, 0.0, 0.0, 0.0, 0.0])
    ensures WithinBounds([30_000_000.0, 0.0, -30_000_000.0, 0.0, 0.0, 0.0])
    ensures !WithinBounds([30_000_001.0, 0.0, 0.0, 0.0, 0.0, 0.0])
    ensures WithinBounds([0.0, 0.0, 0.0, 0.0, 400.0, 0.0])
  {
    BoundsExact([0.0, 319.0, 0.0, 0.0, 0.0, 0.0]);
    BoundsExact([0.0, -319.0, 0.0, 0.0, 0.0, 0.0]);
    BoundsExact([30_000_000.0, 0.0, -30_000_000.0, 0.0, 0.0, 0.0]);
    BoundsExact([0.0, 0.0, 0.0, 0.0, 400.0, 0.0]);
    BoundsExact([30_000_001.0, 0.0, 0.0, 0.0, 0.0, 0.0]);
  }

  // ---------------------------------------------------------------------
  // Distances

  /** Math.sqrt over the reals: non-negative, and squares back to its argument. */
  ghost predicate IsSquareRoot(sqrt: SquareRoot) {
    forall x :: 0.0 <= x ==> 0.0 <= sqrt(x) && sqrt(x) * sqrt(x) == x
  }

  lemma ProductPositive(a: real, b: real)
    requires a > 0.0 && b > 0.0
    ensures a * b > 0.0
  {
  }

  lemma SquareOfAbs(x: real)
    ensures Abs(x) * Abs(x) == x * x
  {
    if x < 0.0 {
      assert (-x) * (-x) == x * x;
    }
  }

  /** The Manhattan distance does not depend on which point comes first,
      and it is zero exactly when the points coincide. */
  lemma ManhattanProperties(c: seq<real>)
    requires |c| == 6
    ensures CalculateManhattanDistance(Swapped(c)) == CalculateManhattanDistance(c)
    ensures CalculateManhattanDistance(c) == 0.0 <==> SamePoint(c)
  {
  }

  /** The radicand does not depend on which point comes first, and it is
      zero when the points coincide. */
  lemma RadicandProperties(c: seq<real>)
    requires |c| == 6
    ensures Radicand(Swapped(c)) == Radicand(c)
    ensures SamePoint(c) ==> Radicand(c) == 0.0
  {
  }

  /** The distance by either method is the same both ways round. */
  lemma DistanceSymmetric(c: seq<real>, m: DistanceMethod, sqrt: SquareRoot)
    requires |c| == 6
    ensures CalculateDistance(Swapped(c), m, sqrt) == CalculateDistance(c, m, sqrt)
  {
    ManhattanProperties(c);
    RadicandProperties(c);
  }

  /** The distance from a point to itself is zero by either method, given
      a square root that maps zero to zero. */
  lemma DistanceToItself(c: seq<real>, m: DistanceMethod, sqrt: SquareRoot)
    requires |c| == 6 && SamePoint(c) && sqrt(0.0) == 0.0
    ensures CalculateDistance(c, m, sqrt) == 0.0
  {
    ManhattanProperties(c);
    RadicandProperties(c);
  }

  /** Both distances are non-negative, given a non-negative square root. */
  lemma DistanceNonNegative(c: seq<real>, m: DistanceMethod, sqrt: SquareRoot)
    requires |c| == 6 && IsSquareRoot(sqrt)
    ensures CalculateDistance(c, m, sqrt) >= 0.0
  {
  }

  /** The sum of squares never exceeds the square of the Manhattan distance. */
  lemma RadicandAtMostManhattanSquared(c: seq<real>)
    requires |c| == 6
    ensures Radicand(c) <= CalculateManhattanDistance(c) * CalculateManhattanDistance(c)
  {
    var a, b, d := Abs(c[3] - c[0]), Abs(c[4] - c[1]), Abs(c[5] - c[2]);
    SquareOfAbs(c[3] - c[0]);
    SquareOfAbs(c[4] - c[1]);
    SquareOfAbs(c[5] - c[2]);
    assert a * b >= 0.0 && b * d >= 0.0 && a * d >= 0.0;
    assert (a + b + d) * (a + b + d) == a * a + b * b + d * d + 2.0 * (a * b + b * d + a * d);
  }

  lemma RootOrder(s: real, m: real)
    requires 0.0 <= s && 0.0 <= m && s * s <= m * m
    ensures s <= m
  {
    if s > m {
      ProductPositive(s - m, s + m);
      assert false;
    }
  }

  /** With a true square root, the straight-line distance is never longer
      than the Manhattan distance. */
  lemma EuclideanAtMostManhattan(c: seq<real>, sqrt: SquareRoot)
    requires |c| == 6 && IsSquareRoot(sqrt)
    ensures CalculateEuclideanDistance(c, sqrt) <= CalculateManhattanDistance(c)
  {
    RadicandAtMostManhattanSquared(c);
    var s, m := sqrt(Radicand(c)), CalculateManhattanDistance(c);
    RootOrder(s, m);
  }

  // ---------------------------------------------------------------------
  // Worked examples

  /** `/distance 392 -43 81 48 293 58 manhattan` reports 344 + 336 + 23 = 703. */
  lemma ManhattanExample(parse: Parser, sqrt: SquareRoot)
    requires parse("392") == Some(392.0) && parse("-43") == Some(-43.0) && parse("81") == Some(81.0)
    requires parse("48") == Some(48.0) && parse("293") == Some(293.0) && parse("58") == Some(58.0)
    ensures Outcome(["392", "-43", "81", "48", "293", "58", "manhattan"], parse, sqrt) ==
              Ok(Report(Manhattan, [392.0, -43.0, 81.0, 48.0, 293.0, 58.0], 703.0))
  {
    var args := ["392", "-43", "81", "48", "293", "58", "manhattan"];
    var c := [392.0, -43.0, 81.0, 48.0, 293.0, 58.0];
    BoundsExact(c);
    LowerNames();
    assert ToLower("manhattan") == "manhattan";
    SeventhTokenChooses(args, parse, sqrt, c, Manhattan);
  }

  /** The same points with the token in capitals: the Euclidean distance is
      the root of 118336 + 112896 + 529 = 231761. */
  lemma EuclideanExample(parse: Parser, sqrt: SquareRoot)
    requires parse("392") == Some(392.0) && parse("-43") == Some(-43.0) && parse("81") == Some(81.0)
    requires parse("48") == Some(48.0) && parse("293") == Some(293.0) && parse("58") == Some(58.0)
    ensures Outcome(["392", "-43", "81", "48", "293", "58", "EUCLIDEAN"], parse, sqrt) ==
              Ok(Report(Euclidean, [392.0, -43.0, 81.0, 48.0, 293.0, 58.0], sqrt(231761.0)))
  {
    var args := ["392", "-43", "81", "48", "293", "58", "EUCLIDEAN"];
    var c := [392.0, -43.0, 81.0, 48.0, 293.0, 58.0];
    BoundsExact(c);
    LowerNames();
    SeventhTokenChooses(args, parse, sqrt, c, Euclidean);
  }

  /** A second point at y = 400 is accepted; the same y for the first
      point is out of bounds. */
  lemma SecondYAt400Accepted(parse: Parser, sqrt: SquareRoot)
    requires parse("0") == Some(0.0) && parse("400") == Some(400.0)
    ensures Outcome(["0", "0", "0", "0", "400", "0"], parse, sqrt).Ok?
    ensures Outcome(["0", "400", "0", "0", "0", "0"], parse, sqrt) == Err(OutOfBounds)
  {
    var accepted := ["0", "0", "0", "0", "400", "0"];
    BoundsExact([0.0, 0.0, 0.0, 0.0, 400.0, 0.0]);
    assert GetDistanceMethod(MethodToken(accepted)) == Some(Euclidean);
    BoundsBeforeMethod(accepted, parse, sqrt, [0.0, 0.0, 0.0, 0.0, 400.0, 0.0]);
    BoundsBeforeMethod(["0", "400", "0", "0", "0", "0"], parse, sqrt, [0.0, 400.0, 0.0, 0.0, 0.0, 0.0]);
  }

  // ---------------------------------------------------------------------
  // Tab completion

  /** A name is offered exactly when it is the lower-case name of one of
      the methods and starts with the prefix. */
  lemma {:induction false} MatchingNamesMembership(prefix: string, ms: seq<DistanceMethod>, s: string)
    ensures s in MatchingNames(prefix, ms) <==>
              prefix <= s && exists i :: 0 <= i < |ms| && s == LowerName(ms[i])
  {
    if ms != [] {
      var init, last := ms[..|ms| - 1], ms[|ms| - 1];
      MatchingNamesMembership(prefix, init, s);
      var tail := if prefix <= LowerName(last) then [LowerName(last)] else [];
      assert MatchingNames(prefix, ms) == MatchingNames(prefix, init) + tail;
      if s in MatchingNames(prefix, init) {
        var i :| 0 <= i < |init| && s == LowerName(init[i]);
        assert ms[i] == init[i];
      }
      if prefix <= s && exists i :: 0 <= i < |ms| && s == LowerName(ms[i]) {
        var i :| 0 <= i < |ms| && s == LowerName(ms[i]);
        if i < |init| {
          assert ms[i] == init[i];
        } else {
          assert s in tail;
        }
      }
    }
  }

  /** The completions of a seventh argument, in enum order. */
  lemma CompletionsInOrder(prefix: string)
    ensures MatchingNames(prefix, Methods) ==
              (if prefix <= "euclidean" then ["euclidean"] else []) +
              (if prefix <= "manhattan" then ["manhattan"] else [])
  {
    LowerNames();
    assert Methods[..1] == [Euclidean];
    assert [Euclidean][..0] == [];
  }

  /** An empty seventh argument is completed to both names; one that
      starts neither name to none. */
  lemma CompletionExtremes(prefix: string)
    ensures MatchingNames([], Methods) == ["euclidean", "manhattan"]
    ensures !(prefix <= "euclidean") && !(prefix <= "manhattan") ==> MatchingNames(prefix, Methods) == []
  {
    CompletionsInOrder([]);
    CompletionsInOrder(prefix);
  }

  /** Every completion offered is a token that the command accepts, and it
      selects the method it names. */
  lemma CompletionsResolve(prefix: string, s: string)
    requires s in MatchingNames(prefix, Methods)
    ensures GetDistanceMethod(ToLower(s)).Some?
    ensures ToLower(s) == LowerName(GetDistanceMethod(ToLower(s)).value)
  {
    MatchingNamesMembership(prefix, Methods, s);
    var i :| 0 <= i < |Methods| && s == LowerName(Methods[i]);
    ToLowerIdempotent(Name(Methods[i]));
    MethodResolution(s, Methods[i]);
  }
}
