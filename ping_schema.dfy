/** The request-body validator pingSchema (schemas/ping.schema.ts).

    The schema is kept as data, the way it is declared: one list of checks
    per field, evaluated by a small interpreter that reports one issue per
    failing check it reaches. Accepts says the parse succeeds (no issue at
    all) and is proved equal to WithinRanges, the ranges written out
    directly.

    The checks behave as in zod 4, the version the root "zod" module of the
    source stands for (it imports the older API separately, as "zod/v3"):
    int() accepts only safe integers, and an int() that fails on a
    non-integer stops the field's later checks.

    Numbers are mathematical reals: floating point (NaN, infinities,
    rounding) is not part of this model. */
module PingSchema {

  /** The body of POST /v1/drivers/ping, after the JSON types have been
      checked. The timestamp is a number like the others; being an integer
      is one of its checks. */
  datatype Ping = Ping(driverId: string, latitude: real, longitude: real, timestamp: real)

  datatype Field = DriverId | Latitude | Longitude | Timestamp

  /** z.string().min(n): at least n characters. */
  datatype StringCheck = MinLength(length: nat)

  /** z.number().min / max (inclusive) / positive (min 0, exclusive) / int
      (a safe integer). */
  datatype NumberCheck =
    | Min(bound: real, inclusive: bool)
    | Max(bound: real, inclusive: bool)
    | Int

  /** One entry of the validator's error details: a field and the check it failed. */
  datatype Issue =
    | StringIssue(field: Field, stringCheck: StringCheck)
    | NumberIssue(field: Field, numberCheck: NumberCheck)

  /** The declaration of pingSchema (ping.schema.ts:3-8). */
  const DriverIdChecks: seq<StringCheck> := [MinLength(1)]
  const LatitudeChecks: seq<NumberCheck> := [Min(-90.0, true), Max(90.0, true)]
  const LongitudeChecks: seq<NumberCheck> := [Min(-180.0, true), Max(180.0, true)]
  const TimestampChecks: seq<NumberCheck> := [Int, Min(0.0, false)]

  predicate IsInteger(x: real) {
    x.Floor as real == x
  }

  /** Number.MAX_SAFE_INTEGER, 2^53 - 1. */
  const MaxSafeInteger: int := 0x1F_FFFF_FFFF_FFFF

  /** Number.isSafeInteger: an integer of magnitude at most 2^53 - 1. */
  predicate IsSafeInteger(x: real) {
    IsInteger(x) && -(MaxSafeInteger as real) <= x <= MaxSafeInteger as real
  }

  predicate StringHolds(c: StringCheck, s: string) {
    |s| >= c.length
  }

  predicate NumberHolds(c: NumberCheck, x: real) {
    match c
    case Min(bound, inclusive) => if inclusive then bound <= x else bound < x
    case Max(bound, inclusive) => if inclusive then x <= bound else x < bound
    case Int => IsSafeInteger(x)
  }

  /** A failure that stops the field's later checks: int() on a value that
      is not an integer at all. Every other failure, an integer outside the
      safe range included, lets the later checks run. */
  predicate Aborts(c: NumberCheck, x: real) {
    c.Int? && !IsInteger(x)
  }

  /** No check of the list stops the ones after it. */
  predicate NoneAborts(checks: seq<NumberCheck>, x: real) {
    forall c :: c in checks ==> !Aborts(c, x)
  }

  /** The issues of a string field: one per failing check, in order. */
  function StringIssues(f: Field, checks: seq<StringCheck>, s: string): (r: seq<Issue>)
    ensures forall x :: x in r ==> x.StringIssue? && x.field == f && x.stringCheck in checks
    ensures |r| <= |checks|
    ensures forall c :: c in checks ==> (StringIssue(f, c) in r <==> !StringHolds(c, s))
    decreases |checks|
  {
    if checks == [] then []
    else
      (if StringHolds(checks[0], s) then [] else [StringIssue(f, checks[0])])
      + StringIssues(f, checks[1..], s)
  }

  /** The issues of a number field: one per failing check, in order, up to
      and including a failure that stops the later checks. */
  function NumberIssues(f: Field, checks: seq<NumberCheck>, x: real): (r: seq<Issue>)
    // only checks of the field that fail are reported
    ensures forall y :: y in r ==>
      y.NumberIssue? && y.field == f && y.numberCheck in checks && !NumberHolds(y.numberCheck, x)
    ensures |r| <= |checks|
    // when nothing stops the checks, a check is reported exactly when it fails
    ensures NoneAborts(checks, x) ==>
      forall c :: c in checks ==> (NumberIssue(f, c) in r <==> !NumberHolds(c, x))
    decreases |checks|
  {
    if checks == [] then []
    else if NumberHolds(checks[0], x) then NumberIssues(f, checks[1..], x)
    else if Aborts(checks[0], x) then [NumberIssue(f, checks[0])]
    else [NumberIssue(f, checks[0])] + NumberIssues(f, checks[1..], x)
  }

  /** A failure that stops the checks ends the list: the issues are those of
      the checks before it, then its own, and none of the checks after it. */
  lemma {:induction false} NumberIssuesStop(f: Field, checks: seq<NumberCheck>, x: real, i: nat)
    requires i < |checks| && Aborts(checks[i], x) && NoneAborts(checks[..i], x)
    ensures NumberIssues(f, checks, x) == NumberIssues(f, checks[..i], x) + [NumberIssue(f, checks[i])]
    decreases i
  {
    if i == 0 {
      assert checks[..0] == [];
    } else {
      assert checks[0] in checks[..i];
      assert checks[1..][..i - 1] == checks[1..i];
      assert forall c :: c in checks[1..i] ==> c in checks[..i];
      NumberIssuesStop(f, checks[1..], x, i - 1);
      assert checks[..i][0] == checks[0] && checks[..i][1..] == checks[1..i];
    }
  }

  /** No element occurs twice. */
  predicate Distinct<T(==)>(s: seq<T>) {
    forall i, j :: 0 <= i < j < |s| ==> s[i] != s[j]
  }

  /** Two repetition-free lists with no common element concatenate to one. */
  lemma DistinctConcat<T>(a: seq<T>, b: seq<T>)
    requires Distinct(a) && Distinct(b)
    requires forall x :: x in a ==> x !in b
    ensures Distinct(a + b)
  {
    forall i, j | 0 <= i < j < |a + b|
      ensures (a + b)[i] != (a + b)[j]
    {
      if i < |a| && |a| <= j {
        assert (a + b)[i] in a && (a + b)[j] == b[j - |a|];
      }
    }
  }

  /** A string field whose checks are all different reports no check twice. */
  lemma {:induction false} StringIssuesDistinct(f: Field, checks: seq<StringCheck>, s: string)
    requires Distinct(checks)
    ensures Distinct(StringIssues(f, checks, s))
    decreases |checks|
  {
    if checks != [] {
      assert Distinct(checks[1..]) by {
        forall i, j | 0 <= i < j < |checks[1..]| ensures checks[1..][i] != checks[1..][j] {
          assert checks[1..][i] == checks[i + 1] && checks[1..][j] == checks[j + 1];
        }
      }
      StringIssuesDistinct(f, checks[1..], s);
      assert checks[0] !in checks[1..] by {
        forall k | 0 <= k < |checks[1..]| ensures checks[1..][k] != checks[0] {
          assert checks[1..][k] == checks[k + 1];
        }
      }
      var head := if StringHolds(checks[0], s) then [] else [StringIssue(f, checks[0])];
      DistinctConcat(head, StringIssues(f, checks[1..], s));
    }
  }

  /** A number field whose checks are all different reports no check twice. */
  lemma {:induction false} NumberIssuesDistinct(f: Field, checks: seq<NumberCheck>, x: real)
    requires Distinct(checks)
    ensures Distinct(NumberIssues(f, checks, x))
    decreases |checks|
  {
    if checks != [] {
      assert Distinct(checks[1..]) by {
        forall i, j | 0 <= i < j < |checks[1..]| ensures checks[1..][i] != checks[1..][j] {
          assert checks[1..][i] == checks[i + 1] && checks[1..][j] == checks[j + 1];
        }
      }
      NumberIssuesDistinct(f, checks[1..], x);
      assert checks[0] !in checks[1..] by {
        forall k | 0 <= k < |checks[1..]| ensures checks[1..][k] != checks[0] {
          assert checks[1..][k] == checks[k + 1];
        }
      }
      if !NumberHolds(checks[0], x) && !Aborts(checks[0], x) {
        DistinctConcat([NumberIssue(f, checks[0])], NumberIssues(f, checks[1..], x));
      }
    }
  }

  /** The error details of pingSchema.safeParse, field by field. */
  function Issues(p: Ping): (r: seq<Issue>)
    // at most seven issues, one per declared check
    ensures |r| <= 7
    // no issue is reported twice
    ensures Distinct(r)
    // every issue names a check declared for its own field
    ensures forall x :: x in r ==>
      || (x.StringIssue? && x.field == DriverId && x.stringCheck in DriverIdChecks)
      || (x.NumberIssue? && x.field == Latitude && x.numberCheck in LatitudeChecks)
      || (x.NumberIssue? && x.field == Longitude && x.numberCheck in LongitudeChecks)
      || (x.NumberIssue? && x.field == Timestamp && x.numberCheck in TimestampChecks)
  {
    var a := StringIssues(DriverId, DriverIdChecks, p.driverId);
    var b := NumberIssues(Latitude, LatitudeChecks, p.latitude);
    var c := NumberIssues(Longitude, LongitudeChecks, p.longitude);
    var d := NumberIssues(Timestamp, TimestampChecks, p.timestamp);
    StringIssuesDistinct(DriverId, DriverIdChecks, p.driverId);
    NumberIssuesDistinct(Latitude, LatitudeChecks, p.latitude);
    NumberIssuesDistinct(Longitude, LongitudeChecks, p.longitude);
    NumberIssuesDistinct(Timestamp, TimestampChecks, p.timestamp);
    FieldsApart(a, b, c, d);
    a + b + c + d
  }

  /** The issues of four different fields, each list without repetition,
      concatenate without repetition: issues of different fields differ in
      their field. */
  lemma FieldsApart(a: seq<Issue>, b: seq<Issue>, c: seq<Issue>, d: seq<Issue>)
    requires Distinct(a) && Distinct(b) && Distinct(c) && Distinct(d)
    requires forall x :: x in a ==> x.field == DriverId
    requires forall x :: x in b ==> x.field == Latitude
    requires forall x :: x in c ==> x.field == Longitude
    requires forall x :: x in d ==> x.field == Timestamp
    ensures Distinct(a + b + c + d)
  {
    DistinctConcat(a, b);
    DistinctConcat(a + b, c);
    DistinctConcat(a + b + c, d);
  }


  /** The four field constraints written out as ranges. */
  predicate WithinRanges(p: Ping) {
    && |p.driverId| >= 1
    && -90.0 <= p.latitude <= 90.0
    && -180.0 <= p.longitude <= 180.0
    && IsInteger(p.timestamp) && 0.0 < p.timestamp <= MaxSafeInteger as real
  }

  /** An empty list of issues means that every check holds. */
  lemma {:induction false} NumberIssuesEmpty(f: Field, checks: seq<NumberCheck>, x: real)
    ensures NumberIssues(f, checks, x) == [] <==> forall c :: c in checks ==> NumberHolds(c, x)
    decreases |checks|
  {
    if checks != [] {
      NumberIssuesEmpty(f, checks[1..], x);
      assert forall c :: c in checks <==> c == checks[0] || c in checks[1..];
    }
  }

  /** pingSchema accepts the ping (safeParse reports success) exactly when
      all four field constraints hold together (ping.schema.ts:3-8). */
  predicate Accepts(p: Ping)
    ensures Accepts(p) <==> WithinRanges(p)
  {
    NumberIssuesEmpty(Latitude, LatitudeChecks, p.latitude);
    NumberIssuesEmpty(Longitude, LongitudeChecks, p.longitude);
    NumberIssuesEmpty(Timestamp, TimestampChecks, p.timestamp);
    Issues(p) == []
  }

  /** Each failed constraint is reported against its own field and check,
      and only failed ones are. */
  lemma IssueDetails(p: Ping)
    ensures StringIssue(DriverId, MinLength(1)) in Issues(p) <==> p.driverId == ""
    ensures NumberIssue(Latitude, Min(-90.0, true)) in Issues(p) <==> p.latitude < -90.0
    ensures NumberIssue(Latitude, Max(90.0, true)) in Issues(p) <==> p.latitude > 90.0
    ensures NumberIssue(Longitude, Min(-180.0, true)) in Issues(p) <==> p.longitude < -180.0
    ensures NumberIssue(Longitude, Max(180.0, true)) in Issues(p) <==> p.longitude > 180.0
    ensures NumberIssue(Timestamp, Int) in Issues(p) <==> !IsSafeInteger(p.timestamp)
    // positive() is not reached when the timestamp is no integer at all
    ensures NumberIssue(Timestamp, Min(0.0, false)) in Issues(p) <==>
      IsInteger(p.timestamp) && p.timestamp <= 0.0
  {
    var a := StringIssues(DriverId, DriverIdChecks, p.driverId);
    var b := NumberIssues(Latitude, LatitudeChecks, p.latitude);
    var c := NumberIssues(Longitude, LongitudeChecks, p.longitude);
    var d := NumberIssues(Timestamp, TimestampChecks, p.timestamp);
    assert Issues(p) == a + b + c + d;
    RangeDetails(Latitude, -90.0, 90.0, p.latitude);
    RangeDetails(Longitude, -180.0, 180.0, p.longitude);
    TimestampDetails(p.timestamp);
    InFourParts(StringIssue(DriverId, MinLength(1)), a, b, c, d);
    InFourParts(NumberIssue(Latitude, Min(-90.0, true)), a, b, c, d);
    InFourParts(NumberIssue(Latitude, Max(90.0, true)), a, b, c, d);
    InFourParts(NumberIssue(Longitude, Min(-180.0, true)), a, b, c, d);
    InFourParts(NumberIssue(Longitude, Max(180.0, true)), a, b, c, d);
    InFourParts(NumberIssue(Timestamp, Int), a, b, c, d);
    InFourParts(NumberIssue(Timestamp, Min(0.0, false)), a, b, c, d);
  }

  /** The issues of a field between two inclusive bounds: each bound is
      reported exactly when the value lies beyond it. */
  lemma RangeDetails(f: Field, lo: real, hi: real, x: real)
    ensures NumberIssue(f, Min(lo, true)) in NumberIssues(f, [Min(lo, true), Max(hi, true)], x) <==> x < lo
    ensures NumberIssue(f, Max(hi, true)) in NumberIssues(f, [Min(lo, true), Max(hi, true)], x) <==> x > hi
  {
    assert NoneAborts([Min(lo, true), Max(hi, true)], x);
  }

  /** The timestamp's issues: int() is reported when the value is no safe
      integer, positive() only for an integer that is not positive. */
  lemma TimestampDetails(t: real)
    ensures NumberIssue(Timestamp, Int) in NumberIssues(Timestamp, TimestampChecks, t) <==>
      !IsSafeInteger(t)
    ensures NumberIssue(Timestamp, Min(0.0, false)) in NumberIssues(Timestamp, TimestampChecks, t) <==>
      IsInteger(t) && t <= 0.0
  {
    if !IsInteger(t) {
      NumberIssuesStop(Timestamp, TimestampChecks, t, 0);
    }
  }

  /** Membership in the concatenation of the four fields' issues. */
  lemma InFourParts(x: Issue, a: seq<Issue>, b: seq<Issue>, c: seq<Issue>, d: seq<Issue>)
    ensures x in a + b + c + d <==> x in a || x in b || x in c || x in d
  {
  }

  /** driverId needs at least one character: the empty string is rejected,
      any other is accepted when the other fields are (ping.schema.ts:4). */
  lemma DriverIdBoundary(p: Ping, id: string)
    requires WithinRanges(p) && id != ""
    ensures !Accepts(p.(driverId := ""))
    ensures Accepts(p.(driverId := id))
  {
  }

  /** Both latitude bounds are inclusive, and anything beyond them is
      rejected (ping.schema.ts:5). */
  lemma LatitudeBoundary(p: Ping, eps: real)
    requires WithinRanges(p) && eps > 0.0
    ensures Accepts(p.(latitude := -90.0)) && Accepts(p.(latitude := 90.0))
    ensures !Accepts(p.(latitude := -90.0 - eps)) && !Accepts(p.(latitude := 90.0 + eps))
  {
  }

  /** Both longitude bounds are inclusive, and anything beyond them is
      rejected (ping.schema.ts:6). */
  lemma LongitudeBoundary(p: Ping, eps: real)
    requires WithinRanges(p) && eps > 0.0
    ensures Accepts(p.(longitude := -180.0)) && Accepts(p.(longitude := 180.0))
    ensures !Accepts(p.(longitude := -180.0 - eps)) && !Accepts(p.(longitude := 180.0 + eps))
  {
  }

  /** The timestamp must be a strictly positive integer: zero, negative
      values and non-integers are rejected (ping.schema.ts:7). */
  lemma TimestampRejected(p: Ping, n: int, x: real)
    requires n <= 0 && !IsInteger(x)
    ensures !Accepts(p.(timestamp := n as real))
    ensures !Accepts(p.(timestamp := x))
  {
  }

  /** An integer timestamp is accepted, when the other fields are, exactly
      from 1 up to the largest safe integer, 2^53 - 1 (ping.schema.ts:7). */
  lemma TimestampRange(p: Ping, n: int)
    requires WithinRanges(p)
    ensures Accepts(p.(timestamp := n as real)) <==> 1 <= n <= MaxSafeInteger
  {
  }

  /** A well-formed ping is accepted; the same ping with latitude 91 is
      rejected with the upper latitude bound as its only issue. */
  lemma ExamplePings()
    ensures Accepts(Ping("d1", 10.0, 20.0, 1700000000.0))
    ensures Issues(Ping("d1", 91.0, 20.0, 1700000000.0)) == [NumberIssue(Latitude, Max(90.0, true))]
  {
    assert IsInteger(1700000000.0) by {
      assert (1700000000.0).Floor == 1700000000;
    }
    assert WithinRanges(Ping("d1", 10.0, 20.0, 1700000000.0));
    assert NumberIssues(Latitude, LatitudeChecks, 91.0) == [NumberIssue(Latitude, Max(90.0, true))];
    assert NumberIssues(Longitude, LongitudeChecks, 20.0) == [];
    assert NumberIssues(Timestamp, TimestampChecks, 1700000000.0) == [] by {
      assert NumberHolds(Int, 1700000000.0) && NumberHolds(Min(0.0, false), 1700000000.0);
    }
  }

  /** A timestamp of -1.5 fails int() alone, positive() being skipped; 2^53
      fails int() alone too, being positive but out of the safe range. */
  lemma ExampleTimestamps()
    ensures NumberIssues(Timestamp, TimestampChecks, -1.5) == [NumberIssue(Timestamp, Int)]
    ensures NumberIssues(Timestamp, TimestampChecks, 9007199254740992.0) == [NumberIssue(Timestamp, Int)]
  {
    assert !IsInteger(-1.5) by {
      assert (-1.5).Floor == -2;
    }
    assert IsInteger(9007199254740992.0) by {
      assert (9007199254740992.0).Floor == 9007199254740992;
    }
  }
}
