/**
  The text frame decoder of the IMU manager: a line such as
  `W: 0.12 X: 0.23 Y: -0.96 Z: 0.06` becomes an orientation sample, and two
  comma-separated helper formats become a vector and a quaternion.

  Number parsing is the platform's `float.TryParse`, which is outside this
  model: it is a parameter `parse`, and a failed parse stores 0, exactly as
  the `out` argument of TryParse does.
 */
module Frame {
  import opened Wrappers
  import opened Text

  datatype Vector3 = Vector3(x: real, y: real, z: real)

  /** Constructor argument order is (x, y, z, w), as in the host engine. */
  datatype Quaternion = Quaternion(x: real, y: real, z: real, w: real)

  datatype ImuData = ImuData(
    acceleration: Vector3,
    gyroscope: Vector3,
    magnetometer: Vector3,
    orientation: Quaternion,
    timestamp: real)

  const ZeroVector := Vector3(0.0, 0.0, 0.0)
  const ZeroQuaternion := Quaternion(0.0, 0.0, 0.0, 0.0)
  const IdentityQuaternion := Quaternion(0.0, 0.0, 0.0, 1.0)

  /** The all-zero record a fresh `IMUData` struct holds. */
  const DefaultData := ImuData(ZeroVector, ZeroVector, ZeroVector, ZeroQuaternion, 0.0)

  /** The culture-dependent float parser: a value, or None on failure. */
  type FloatParser = string -> Option<real>

  /** `float.TryParse(token, out v)`: the value written to `v`. */
  function TryParse(parse: FloatParser, token: string): real
  {
    parse(token).GetOr(0.0)
  }

  // ---------------------------------------------------------------------
  // Marker scan (ParseIMUData)
  // ---------------------------------------------------------------------

  datatype Axis = W | X | Y | Z

  /** The token that labels the next token as the value of `a`. */
  function Marker(a: Axis): string
  {
    match a
    case W => "W:"
    case X => "X:"
    case Y => "Y:"
    case Z => "Z:"
  }

  /** The token is one of the four markers. */
  predicate IsMarker(token: string)
  {
    exists a :: Marker(a) == token
  }

  function Component(q: Quaternion, a: Axis): real
  {
    match a
    case W => q.w
    case X => q.x
    case Y => q.y
    case Z => q.z
  }

  /** Number of loop iterations of the scan: `tokens.Length - 1`, never negative. */
  function Examined(tokens: seq<string>): nat
  {
    if |tokens| == 0 then 0 else |tokens| - 1
  }

  /** One iteration of the scan at index `i`: the four marker tests, in the order W, X, Y, Z. */
  function ScanStep(parse: FloatParser, tokens: seq<string>, i: nat, q: Quaternion): Quaternion
    requires i + 1 < |tokens|
  {
    var t := tokens[i];
    var next := TryParse(parse, tokens[i + 1]);
    var q1 := if t == "W:" then q.(w := next) else q;
    var q2 := if t == "X:" then q1.(x := next) else q1;
    var q3 := if t == "Y:" then q2.(y := next) else q2;
    if t == "Z:" then q3.(z := next) else q3
  }

  /** The scan's components after its first `k` iterations, starting from all zeros. */
  function Scan(parse: FloatParser, tokens: seq<string>, k: nat): Quaternion
    requires k <= Examined(tokens)
  {
    if k == 0 then ZeroQuaternion
    else ScanStep(parse, tokens, k - 1, Scan(parse, tokens, k - 1))
  }

  /** The last index below `k` holding the marker of `a`, if any. */
  function LastMarker(tokens: seq<string>, a: Axis, k: nat): (r: Option<nat>)
    requires k <= |tokens|
    ensures r.Some? ==> r.value < k && tokens[r.value] == Marker(a)
    ensures r.Some? ==> forall j :: r.value < j < k ==> tokens[j] != Marker(a)
    ensures r.None? ==> forall j :: 0 <= j < k ==> tokens[j] != Marker(a)
  {
    if k == 0 then None
    else if tokens[k - 1] == Marker(a) then Some(k - 1)
    else LastMarker(tokens, a, k - 1)
  }

  /** Reference value of `a` among the first `k` examined positions: the parse of the
      token after the last marker of `a`, or 0 when there is no such marker. */
  function ValueBefore(parse: FloatParser, tokens: seq<string>, a: Axis, k: nat): real
    requires k <= Examined(tokens)
  {
    match LastMarker(tokens, a, k)
    case None => 0.0
    case Some(i) => TryParse(parse, tokens[i + 1])
  }

  /** Reference value of `a` in a whole token list. */
  function MarkerValue(parse: FloatParser, tokens: seq<string>, a: Axis): real
  {
    ValueBefore(parse, tokens, a, Examined(tokens))
  }

  /** The left-to-right scan ends with, for each axis, the value after the LAST
      occurrence of its marker at an examined position, and 0 without one. */
  lemma {:induction false} ScanFindsLastMarker(parse: FloatParser, tokens: seq<string>, k: nat)
    requires k <= Examined(tokens)
    ensures forall a :: Component(Scan(parse, tokens, k), a) == ValueBefore(parse, tokens, a, k)
  {
    if k > 0 {
      ScanFindsLastMarker(parse, tokens, k - 1);
      forall a
        ensures Component(Scan(parse, tokens, k), a) == ValueBefore(parse, tokens, a, k)
      {
        var t := tokens[k - 1];
        if t == Marker(a) {
          assert LastMarker(tokens, a, k) == Some(k - 1);
        } else {
          assert LastMarker(tokens, a, k) == LastMarker(tokens, a, k - 1);
          assert Component(Scan(parse, tokens, k), a) == Component(Scan(parse, tokens, k - 1), a) by {
            match a
            case W => assert t != "W:";
            case X => assert t != "X:";
            case Y => assert t != "Y:";
            case Z => assert t != "Z:";
          }
        }
      }
    }
  }

  /** `ParseIMUData(raw)`: split on single spaces, scan the markers, build the
      orientation as (x, y, z, w), stamp it with `now`; every other field is zero. */
  function ParseImuData(parse: FloatParser, raw: string, now: real): (d: ImuData)
    ensures forall a :: Component(d.orientation, a) == MarkerValue(parse, Split(raw, ' '), a)
    ensures d.acceleration == ZeroVector && d.gyroscope == ZeroVector && d.magnetometer == ZeroVector
    ensures d.timestamp == now
  {
    var tokens := Split(raw, ' ');
    ScanFindsLastMarker(parse, tokens, Examined(tokens));
    ImuData(ZeroVector, ZeroVector, ZeroVector, Scan(parse, tokens, Examined(tokens)), now)
  }

  // ---------------------------------------------------------------------
  // Properties of the marker scan
  // ---------------------------------------------------------------------

  /** The last-marker search only looks at the first `k` tokens. */
  lemma {:induction false} LastMarkerOfPrefix(t: seq<string>, u: seq<string>, a: Axis, k: nat)
    requires k <= |t| && k <= |u| && t[..k] == u[..k]
    ensures LastMarker(t, a, k) == LastMarker(u, a, k)
  {
    if k > 0 {
      assert t[k - 1] == t[..k][k - 1] == u[..k][k - 1] == u[k - 1];
      assert t[..k - 1] == t[..k][..k - 1] && u[..k - 1] == u[..k][..k - 1];
      LastMarkerOfPrefix(t, u, a, k - 1);
    }
  }

  /** Appending `m v` to a frame whose last token is a value: the axis of `m` takes
      the parse of `v` (0 if `v` does not parse, whatever an earlier pair gave),
      and every other axis keeps its value. */
  lemma AppendedPairWins(parse: FloatParser, tokens: seq<string>, b: Axis, v: string)
    ensures MarkerValue(parse, tokens + [Marker(b), v], b) == TryParse(parse, v)
    ensures |tokens| == 0 || !IsMarker(tokens[|tokens| - 1]) ==>
      forall a :: a != b ==> MarkerValue(parse, tokens + [Marker(b), v], a) == MarkerValue(parse, tokens, a)
  {
    var t := tokens + [Marker(b), v];
    var n := |tokens|;
    assert LastMarker(t, b, n + 1) == Some(n);
    if n == 0 || !IsMarker(tokens[n - 1]) {
      forall a | a != b
        ensures MarkerValue(parse, t, a) == MarkerValue(parse, tokens, a)
      {
        assert Marker(b) != Marker(a) by {
          match a
          case W =>
          case X =>
          case Y =>
          case Z =>
        }
        assert LastMarker(t, a, n + 1) == LastMarker(t, a, n);
        if n > 0 {
          assert IsMarker(Marker(a));
          assert t[n - 1] != Marker(a);
          assert t[..n - 1] == tokens[..n - 1];
          LastMarkerOfPrefix(t, tokens, a, n - 1);
        }
      }
    }
  }

  /** A marker as the final token is never examined: it contributes nothing. */
  lemma TrailingMarkerIgnored(parse: FloatParser, tokens: seq<string>, b: Axis)
    requires |tokens| == 0 || !IsMarker(tokens[|tokens| - 1])
    ensures forall a :: MarkerValue(parse, tokens + [Marker(b)], a) == MarkerValue(parse, tokens, a)
  {
    var t := tokens + [Marker(b)];
    var n := |tokens|;
    if n > 0 {
      forall a
        ensures MarkerValue(parse, t, a) == MarkerValue(parse, tokens, a)
      {
        assert IsMarker(Marker(a));
        assert t[n - 1] != Marker(a);
        assert LastMarker(t, a, n) == LastMarker(t, a, n - 1);
        assert t[..n - 1] == tokens[..n - 1];
        LastMarkerOfPrefix(t, tokens, a, n - 1);
      }
    }
  }

  /** A line without any marker token decodes to the all-zero quaternion. */
  lemma NoMarkerGivesZeroQuaternion(parse: FloatParser, raw: string, now: real)
    requires forall i :: 0 <= i < |Split(raw, ' ')| ==> !IsMarker(Split(raw, ' ')[i])
    ensures ParseImuData(parse, raw, now).orientation == ZeroQuaternion
  {
    var tokens := Split(raw, ' ');
    forall a
      ensures MarkerValue(parse, tokens, a) == 0.0
    {
      assert IsMarker(Marker(a));
    }
    var q := ParseImuData(parse, raw, now).orientation;
    assert Component(q, W) == 0.0 && Component(q, X) == 0.0;
    assert Component(q, Y) == 0.0 && Component(q, Z) == 0.0;
  }

  // ---------------------------------------------------------------------
  // Encoding a frame: the round trip and marker-order independence
  // ---------------------------------------------------------------------

  /** The tokens `M v` for each axis of `order`, in that order, with `show`
      printing each value. */
  function PairTokens(q: Quaternion, order: seq<Axis>, show: real -> string): (r: seq<string>)
    ensures |r| == 2 * |order|
  {
    if |order| == 0 then []
    else
      var last := order[|order| - 1];
      PairTokens(q, order[..|order| - 1], show) + [Marker(last), show(Component(q, last))]
  }

  /** The line a device sends for `q` when it lists the axes in `order`. */
  function RenderFrame(q: Quaternion, order: seq<Axis>, show: real -> string): string
  {
    Join(PairTokens(q, order, show), ' ')
  }

  /** `q` with the axes missing from `order` set to 0. */
  function Present(q: Quaternion, order: seq<Axis>): Quaternion
  {
    Quaternion(
      if X in order then q.x else 0.0,
      if Y in order then q.y else 0.0,
      if Z in order then q.z else 0.0,
      if W in order then q.w else 0.0)
  }

  /** `show` prints `v` so that `parse` reads it back, without `sep` and without
      looking like a marker. */
  ghost predicate PrintsBack(parse: FloatParser, show: real -> string, sep: char, v: real)
  {
    parse(show(v)) == Some(v) && sep !in show(v) && !IsMarker(show(v))
  }

  /** Every component of `q` prints back through `show` and `parse`. */
  ghost predicate PrintsComponents(parse: FloatParser, show: real -> string, q: Quaternion)
  {
    forall a :: PrintsBack(parse, show, ' ', Component(q, a))
  }

  lemma {:induction false} PairTokensDecode(parse: FloatParser, show: real -> string, q: Quaternion, order: seq<Axis>)
    requires PrintsComponents(parse, show, q)
    ensures forall a :: MarkerValue(parse, PairTokens(q, order, show), a) == Component(Present(q, order), a)
    ensures forall i :: 0 <= i < |PairTokens(q, order, show)| ==> ' ' !in PairTokens(q, order, show)[i]
  {
    if |order| > 0 {
      var prefix := order[..|order| - 1];
      var last := order[|order| - 1];
      assert order == prefix + [last];
      var t := PairTokens(q, prefix, show);
      PairTokensDecode(parse, show, q, prefix);
      var v := show(Component(q, last));
      assert t == [] || !IsMarker(t[|t| - 1]) by {
        if |prefix| > 0 {
          var p2 := prefix[..|prefix| - 1];
          assert t == PairTokens(q, p2, show) + [Marker(prefix[|prefix| - 1]), show(Component(q, prefix[|prefix| - 1]))];
        }
      }
      AppendedPairWins(parse, t, last, v);
      forall a
        ensures MarkerValue(parse, t + [Marker(last), v], a) == Component(Present(q, order), a)
      {
        assert a in order <==> a in prefix || a == last;
      }
      forall i | 0 <= i < |t| + 2
        ensures ' ' !in (t + [Marker(last), v])[i]
      {
        if i == |t| {
          match last
          case W =>
          case X =>
          case Y =>
          case Z =>
        }
      }
    }
  }

  /** Round trip: decoding a rendered frame gives back every axis that was sent,
      and 0 for every axis that was not. */
  lemma FrameRoundTrip(parse: FloatParser, show: real -> string, q: Quaternion, order: seq<Axis>, now: real)
    requires PrintsComponents(parse, show, q)
    ensures ParseImuData(parse, RenderFrame(q, order, show), now).orientation == Present(q, order)
  {
    var tokens := PairTokens(q, order, show);
    PairTokensDecode(parse, show, q, order);
    if |order| == 0 {
      assert RenderFrame(q, order, show) == "";
      assert Split("", ' ') == [""];
      assert Present(q, order) == ZeroQuaternion;
    } else {
      SplitJoin(tokens, ' ');
    }
    var d := ParseImuData(parse, RenderFrame(q, order, show), now).orientation;
    assert Component(d, W) == Component(Present(q, order), W);
    assert Component(d, X) == Component(Present(q, order), X);
    assert Component(d, Y) == Component(Present(q, order), Y);
    assert Component(d, Z) == Component(Present(q, order), Z);
  }

  /** The decoded orientation does not depend on the order the markers are sent in. */
  lemma MarkerOrderIrrelevant(parse: FloatParser, show: real -> string, q: Quaternion,
                              order1: seq<Axis>, order2: seq<Axis>, now: real)
    requires PrintsComponents(parse, show, q)
    requires forall a :: a in order1 <==> a in order2
    ensures ParseImuData(parse, RenderFrame(q, order1, show), now).orientation
         == ParseImuData(parse, RenderFrame(q, order2, show), now).orientation
  {
    FrameRoundTrip(parse, show, q, order1, now);
    FrameRoundTrip(parse, show, q, order2, now);
  }

  /** A frame that sends only `Z:`, read with a parser that knows "0" and "1":
      z comes back, and the unsent w decodes as 0 although q.w is 1. */
  lemma OnlyZSentExample()
    ensures ParseImuData(
              t => if t == "1" then Some(1.0) else if t == "0" then Some(0.0) else None,
              RenderFrame(Quaternion(0.0, 0.0, 1.0, 1.0), [Z], v => if v == 1.0 then "1" else "0"),
              0.0).orientation
         == Quaternion(0.0, 0.0, 1.0, 0.0)
  {
    var parse: FloatParser := t => if t == "1" then Some(1.0) else if t == "0" then Some(0.0) else None;
    var show := (v: real) => if v == 1.0 then "1" else "0";
    var q := Quaternion(0.0, 0.0, 1.0, 1.0);
    forall a
      ensures PrintsBack(parse, show, ' ', Component(q, a))
    {
      assert !IsMarker("0") && !IsMarker("1") by {
        forall b ensures Marker(b) != "0" && Marker(b) != "1" {
          match b
          case W =>
          case X =>
          case Y =>
          case Z =>
        }
      }
    }
    FrameRoundTrip(parse, show, q, [Z], 0.0);
  }

  // ---------------------------------------------------------------------
  // Comma-separated helper formats (ParseVector3, ParseQuaternion)
  // ---------------------------------------------------------------------

  /** `ParseVector3("x,y,z")`: the zero vector unless there are exactly two commas. */
  function ParseVector3(parse: FloatParser, value: string): (v: Vector3)
    ensures Count(value, ',') != 2 ==> v == ZeroVector
  {
    var c := Split(value, ',');
    if |c| != 3 then ZeroVector
    else Vector3(TryParse(parse, c[0]), TryParse(parse, c[1]), TryParse(parse, c[2]))
  }

  /** `ParseQuaternion("w,x,y,z")`: the identity unless there are exactly three commas. */
  function ParseQuaternion(parse: FloatParser, value: string): (q: Quaternion)
    ensures Count(value, ',') != 3 ==> q == IdentityQuaternion
  {
    var c := Split(value, ',');
    if |c| != 4 then IdentityQuaternion
    else Quaternion(TryParse(parse, c[1]), TryParse(parse, c[2]), TryParse(parse, c[3]), TryParse(parse, c[0]))
  }

  /** Three comma-free parts joined by commas are read as x, y, z in that order. */
  lemma Vector3Parts(parse: FloatParser, sx: string, sy: string, sz: string)
    requires ',' !in sx && ',' !in sy && ',' !in sz
    ensures ParseVector3(parse, Join([sx, sy, sz], ','))
         == Vector3(TryParse(parse, sx), TryParse(parse, sy), TryParse(parse, sz))
  {
    SplitJoin([sx, sy, sz], ',');
  }

  /** The wire order is w first: parts `w,x,y,z` become Quaternion(x, y, z, w). */
  lemma QuaternionParts(parse: FloatParser, sw: string, sx: string, sy: string, sz: string)
    requires ',' !in sw && ',' !in sx && ',' !in sy && ',' !in sz
    ensures ParseQuaternion(parse, Join([sw, sx, sy, sz], ','))
         == Quaternion(TryParse(parse, sx), TryParse(parse, sy), TryParse(parse, sz), TryParse(parse, sw))
  {
    SplitJoin([sw, sx, sy, sz], ',');
  }

  /** A part that fails to parse gives 0 in its place; the other two parts are still read. */
  lemma Vector3FailedPartIsZero(parse: FloatParser, sx: string, sy: string, sz: string)
    requires ',' !in sx && ',' !in sy && ',' !in sz
    ensures parse(sx).None? ==>
      ParseVector3(parse, Join([sx, sy, sz], ',')) == Vector3(0.0, TryParse(parse, sy), TryParse(parse, sz))
    ensures parse(sy).None? ==>
      ParseVector3(parse, Join([sx, sy, sz], ',')) == Vector3(TryParse(parse, sx), 0.0, TryParse(parse, sz))
    ensures parse(sz).None? ==>
      ParseVector3(parse, Join([sx, sy, sz], ',')) == Vector3(TryParse(parse, sx), TryParse(parse, sy), 0.0)
  {
    Vector3Parts(parse, sx, sy, sz);
  }

  // ---------------------------------------------------------------------
  // The example frame
  // ---------------------------------------------------------------------

  const ExampleLine := "W: 0.12 X: 0.23 Y: -0.96 Z: 0.06"
  const ExampleTokens := ["W:", "0.12", "X:", "0.23", "Y:", "-0.96", "Z:", "0.06"]

  /** The parser reads the example line's four numbers as their decimal values. */
  ghost predicate ReadsExample(parse: FloatParser)
  {
    parse("0.12") == Some(0.12) && parse("0.23") == Some(0.23)
    && parse("-0.96") == Some(-0.96) && parse("0.06") == Some(0.06)
  }

  lemma JoinExampleTokens()
    ensures Join(ExampleTokens, ' ') == ExampleLine
  {
  }

  lemma ExampleTokensSpaceFree()
    ensures forall i :: 0 <= i < |ExampleTokens| ==> ' ' !in ExampleTokens[i]
  {
  }

  lemma SplitExampleLine()
    ensures Split(ExampleLine, ' ') == ExampleTokens
  {
    JoinExampleTokens();
    ExampleTokensSpaceFree();
    SplitJoin(ExampleTokens, ' ');
  }

  lemma ExampleMarkers(parse: FloatParser)
    requires ReadsExample(parse)
    ensures MarkerValue(parse, ExampleTokens, W) == 0.12
    ensures MarkerValue(parse, ExampleTokens, X) == 0.23
    ensures MarkerValue(parse, ExampleTokens, Y) == -0.96
    ensures MarkerValue(parse, ExampleTokens, Z) == 0.06
  {
    var t := ExampleTokens;
    assert t[6] == "Z:" && t[4] == "Y:" && t[2] == "X:" && t[0] == "W:";
    assert t[5] != "W:" && t[5] != "X:";
  }

  /** A line with the example's tokens (ExampleLine is one, by `SplitExampleLine`):
      W: is the scalar part and lands last in (x, y, z, w). */
  lemma DecodeExampleLine(parse: FloatParser, line: string, now: real)
    requires ReadsExample(parse)
    requires Split(line, ' ') == ExampleTokens
    ensures ParseImuData(parse, line, now).orientation == Quaternion(0.23, -0.96, 0.06, 0.12)
  {
    ExampleMarkers(parse);
    var q := ParseImuData(parse, line, now).orientation;
    assert Component(q, W) == 0.12 && Component(q, X) == 0.23;
    assert Component(q, Y) == -0.96 && Component(q, Z) == 0.06;
  }
}
