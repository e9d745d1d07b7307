/**
 * The assertion factories of dheunit/assertions.h over integers and booleans. Each
 * one compares the subject with its captured values and, when the comparison fails,
 * makes exactly one `errorf` (or, for is_true/is_false, `error`) call on the Tester.
 * A value is rendered as `operator<<` renders an int: decimal, with a leading '-'.
 */
module Assertions {
  import opened Wrappers
  import opened Format

  datatype Assertion =
    | IsEqualTo(want: int)
    | IsNotEqualTo(want: int)
    | IsNear(want: int, tolerance: int)
    | IsGreaterThan(max: int)
    | IsNoGreaterThan(max: int)
    | IsBetween(min: int, max: int)
    | IsLessThan(min: int)
    | IsNoLessThan(min: int)

  /** A subject and the assertion applied to it. */
  datatype Check =
    | Compare(actual: int, assertion: Assertion)
    | IsTrue(value: bool)
    | IsFalse(value: bool)

  /** The call a failing check makes on its Tester. */
  datatype Complaint = Errorf(format: string, args: seq<string>) | Error(message: string)

  function Digit(d: nat): char
    requires d < 10
  {
    "0123456789"[d]
  }

  function Digits(n: nat): (s: string)
    ensures |s| > 0
  {
    if n < 10 then [Digit(n)] else Digits(n / 10) + [Digit(n % 10)]
  }

  /** `out << n` for an int. */
  function Show(n: int): string
  {
    if n < 0 then "-" + Digits(-n) else Digits(n)
  }

  /** The literal text around the anchors of each assertion's `errorf` format. */
  function Segments(a: Assertion): seq<string>
  {
    match a
    case IsEqualTo(_) => ["was ", ", want a value equal to ", ""]
    case IsNotEqualTo(_) => ["was ", ", want a value not equal to ", ""]
    case IsNear(_, _) => ["was ", ", want within ", " of ", ""]
    case IsGreaterThan(_) => ["was ", ", want greater than ", ""]
    case IsNoGreaterThan(_) => ["was ", ", want no greater than ", ""]
    case IsBetween(_, _) => ["was ", ", want between ", " and ", ""]
    case IsLessThan(_) => ["was ", ", want less than ", ""]
    case IsNoLessThan(_) => ["was ", ", want no less than ", ""]
  }

  /** The `errorf` arguments, in the order the format names them. */
  function Arguments(actual: int, a: Assertion): seq<string>
  {
    match a
    case IsEqualTo(want) => [Show(actual), Show(want)]
    case IsNotEqualTo(want) => [Show(actual), Show(want)]
    case IsNear(want, tolerance) => [Show(actual), Show(tolerance), Show(want)]
    case IsGreaterThan(max) => [Show(actual), Show(max)]
    case IsNoGreaterThan(max) => [Show(actual), Show(max)]
    case IsBetween(min, max) => [Show(actual), Show(min), Show(max)]
    case IsLessThan(min) => [Show(actual), Show(min)]
    case IsNoLessThan(min) => [Show(actual), Show(min)]
  }

  /** The comparison each factory's closure makes; true means it reports a failure. */
  predicate Fails(actual: int, a: Assertion)
  {
    match a
    case IsEqualTo(want) => actual != want
    case IsNotEqualTo(want) => actual == want
    case IsNear(want, tolerance) => actual < want - tolerance || actual > want + tolerance
    case IsGreaterThan(max) => !(actual > max)
    case IsNoGreaterThan(max) => actual > max
    case IsBetween(min, max) => actual < min || actual > max
    case IsLessThan(min) => !(actual < min)
    case IsNoLessThan(min) => actual < min
  }

  /** What the check does to its Tester: nothing, or one complaint. */
  function Verdict(c: Check): Option<Complaint>
  {
    match c
    case Compare(actual, a) =>
      if Fails(actual, a) then Some(Errorf(FormatOf(a), Arguments(actual, a))) else None
    case IsTrue(value) => if !value then Some(Error("was false, want true")) else None
    case IsFalse(value) => if value then Some(Error("was true, want false")) else None
  }

  /** How the range checks relate: is_near is a bound on the distance to `want`, and a
      negative tolerance accepts nothing; is_between with `min > max` accepts nothing;
      is_equal_to is is_near with tolerance 0 and is_between with a one-value range;
      is_not_equal_to fails exactly where is_equal_to passes. */
  lemma RangeForms(actual: int, want: int, tolerance: int, min: int, max: int)
    ensures Fails(actual, IsNear(want, tolerance)) <==> Abs(actual - want) > tolerance
    ensures tolerance < 0 ==> Fails(actual, IsNear(want, tolerance))
    ensures min > max ==> Fails(actual, IsBetween(min, max))
    ensures Fails(actual, IsEqualTo(want)) <==> Fails(actual, IsNear(want, 0))
    ensures Fails(actual, IsEqualTo(want)) <==> Fails(actual, IsBetween(want, want))
    ensures Fails(actual, IsEqualTo(want)) != Fails(actual, IsNotEqualTo(want))
  {
  }

  function Abs(n: int): nat
  {
    if n < 0 then -n else n
  }

  /** is_greater_than and is_no_greater_than are complementary, and so are is_less_than
      and is_no_less_than: for any pair of values exactly one of the two fails. */
  lemma Complementary(actual: int, bound: int)
    ensures Verdict(Compare(actual, IsGreaterThan(bound))).Some? != Verdict(Compare(actual, IsNoGreaterThan(bound))).Some?
    ensures Verdict(Compare(actual, IsLessThan(bound))).Some? != Verdict(Compare(actual, IsNoLessThan(bound))).Some?
    ensures Verdict(IsTrue(actual == bound)).Some? != Verdict(IsFalse(actual == bound)).Some?
  {
  }

  /** The line each failing check logs, spelled out. */
  function Expected(actual: int, a: Assertion): string
  {
    match a
    case IsEqualTo(want) => "was " + Show(actual) + ", want a value equal to " + Show(want)
    case IsNotEqualTo(want) => "was " + Show(actual) + ", want a value not equal to " + Show(want)
    case IsNear(want, tolerance) => "was " + Show(actual) + ", want within " + Show(tolerance) + " of " + Show(want)
    case IsGreaterThan(max) => "was " + Show(actual) + ", want greater than " + Show(max)
    case IsNoGreaterThan(max) => "was " + Show(actual) + ", want no greater than " + Show(max)
    case IsBetween(min, max) => "was " + Show(actual) + ", want between " + Show(min) + " and " + Show(max)
    case IsLessThan(min) => "was " + Show(actual) + ", want less than " + Show(min)
    case IsNoLessThan(min) => "was " + Show(actual) + ", want no less than " + Show(min)
  }

  /** The `errorf` format of each factory, as written there. */
  function FormatOf(a: Assertion): string
  {
    match a
    case IsEqualTo(_) => "was {}, want a value equal to {}"
    case IsNotEqualTo(_) => "was {}, want a value not equal to {}"
    case IsNear(_, _) => "was {}, want within {} of {}"
    case IsGreaterThan(_) => "was {}, want greater than {}"
    case IsNoGreaterThan(_) => "was {}, want no greater than {}"
    case IsBetween(_, _) => "was {}, want between {} and {}"
    case IsLessThan(_) => "was {}, want less than {}"
    case IsNoLessThan(_) => "was {}, want no less than {}"
  }

  /** The segments put back together with anchors give each factory's format; one
      small lemma per factory keeps each string comparison a goal of its own. */
  lemma IsEqualToFormat()
    ensures Template(Segments(IsEqualTo(0))) == "was {}, want a value equal to {}"
  {
  }

  lemma IsNotEqualToFormat()
    ensures Template(Segments(IsNotEqualTo(0))) == "was {}, want a value not equal to {}"
  {
  }

  lemma IsNearFormat()
    ensures Template(Segments(IsNear(0, 0))) == "was {}, want within {} of {}"
  {
  }

  lemma IsGreaterThanFormat()
    ensures Template(Segments(IsGreaterThan(0))) == "was {}, want greater than {}"
  {
  }

  lemma IsNoGreaterThanFormat()
    ensures Template(Segments(IsNoGreaterThan(0))) == "was {}, want no greater than {}"
  {
  }

  lemma IsBetweenFormat()
    ensures Template(Segments(IsBetween(0, 0))) == "was {}, want between {} and {}"
  {
  }

  lemma IsLessThanFormat()
    ensures Template(Segments(IsLessThan(0))) == "was {}, want less than {}"
  {
  }

  lemma IsNoLessThanFormat()
    ensures Template(Segments(IsNoLessThan(0))) == "was {}, want no less than {}"
  {
  }

  lemma InterleaveOfThree(x: string, y: string, z: string, p: string, q: string)
    ensures Interleave([x, y, z], [p, q]) == x + p + y + q + z
  {
    assert [x, y, z][1..] == [y, z] && [p, q][1..] == [q];
    assert [y, z][1..] == [z] && [q][1..] == [];
    assert Interleave([z], []) == z;
    assert Interleave([y, z], [q]) == y + q + z;
  }

  lemma InterleaveOfFour(w: string, x: string, y: string, z: string, p: string, q: string, r: string)
    ensures Interleave([w, x, y, z], [p, q, r]) == w + p + x + q + y + r + z
  {
    assert [w, x, y, z][1..] == [x, y, z] && [p, q, r][1..] == [q, r];
    InterleaveOfThree(x, y, z, q, r);
  }

  /** A two-anchor format ending in an anchor, with two arguments. */
  lemma SubstituteTwo(x: string, y: string, p: string, q: string)
    requires AnchorFree(x) && AnchorFree(y)
    ensures Formatted(Some(Template([x, y, ""])), [p, q]) == Written(x + p + y + q, None)
  {
    Substitution([x, y, ""], [p, q]);
    InterleaveOfThree(x, y, "", p, q);
  }

  /** A three-anchor format ending in an anchor, with three arguments. */
  lemma SubstituteThree(x: string, y: string, z: string, p: string, q: string, r: string)
    requires AnchorFree(x) && AnchorFree(y) && AnchorFree(z)
    ensures Formatted(Some(Template([x, y, z, ""])), [p, q, r]) == Written(x + p + y + q + z + r, None)
  {
    Substitution([x, y, z, ""], [p, q, r]);
    InterleaveOfFour(x, y, z, "", p, q, r);
  }

  lemma IsEqualToComplaint(actual: int, want: int)
    ensures Formatted(Some(FormatOf(IsEqualTo(want))), Arguments(actual, IsEqualTo(want))) == Written(Expected(actual, IsEqualTo(want)), None)
  {
    IsEqualToFormat();
    SubstituteTwo("was ", ", want a value equal to ", Show(actual), Show(want));
  }

  lemma IsNotEqualToComplaint(actual: int, want: int)
    ensures Formatted(Some(FormatOf(IsNotEqualTo(want))), Arguments(actual, IsNotEqualTo(want))) == Written(Expected(actual, IsNotEqualTo(want)), None)
  {
    IsNotEqualToFormat();
    SubstituteTwo("was ", ", want a value not equal to ", Show(actual), Show(want));
  }

  lemma IsNearComplaint(actual: int, want: int, tolerance: int)
    ensures Formatted(Some(FormatOf(IsNear(want, tolerance))), Arguments(actual, IsNear(want, tolerance))) == Written(Expected(actual, IsNear(want, tolerance)), None)
  {
    IsNearFormat();
    SubstituteThree("was ", ", want within ", " of ", Show(actual), Show(tolerance), Show(want));
  }

  lemma IsGreaterThanComplaint(actual: int, max: int)
    ensures Formatted(Some(FormatOf(IsGreaterThan(max))), Arguments(actual, IsGreaterThan(max))) == Written(Expected(actual, IsGreaterThan(max)), None)
  {
    IsGreaterThanFormat();
    SubstituteTwo("was ", ", want greater than ", Show(actual), Show(max));
  }

  lemma IsNoGreaterThanComplaint(actual: int, max: int)
    ensures Formatted(Some(FormatOf(IsNoGreaterThan(max))), Arguments(actual, IsNoGreaterThan(max))) == Written(Expected(actual, IsNoGreaterThan(max)), None)
  {
    IsNoGreaterThanFormat();
    SubstituteTwo("was ", ", want no greater than ", Show(actual), Show(max));
  }

  lemma IsBetweenComplaint(actual: int, min: int, max: int)
    ensures Formatted(Some(FormatOf(IsBetween(min, max))), Arguments(actual, IsBetween(min, max))) == Written(Expected(actual, IsBetween(min, max)), None)
  {
    IsBetweenFormat();
    SubstituteThree("was ", ", want between ", " and ", Show(actual), Show(min), Show(max));
  }

  lemma IsLessThanComplaint(actual: int, min: int)
    ensures Formatted(Some(FormatOf(IsLessThan(min))), Arguments(actual, IsLessThan(min))) == Written(Expected(actual, IsLessThan(min)), None)
  {
    IsLessThanFormat();
    SubstituteTwo("was ", ", want less than ", Show(actual), Show(min));
  }

  lemma IsNoLessThanComplaint(actual: int, min: int)
    ensures Formatted(Some(FormatOf(IsNoLessThan(min))), Arguments(actual, IsNoLessThan(min))) == Written(Expected(actual, IsNoLessThan(min)), None)
  {
    IsNoLessThanFormat();
    SubstituteTwo("was ", ", want no less than ", Show(actual), Show(min));
  }

  /** Every `errorf` format has exactly as many anchors as arguments, so a failing check
      never raises FormatError and logs exactly the expected line. */
  lemma ComplaintFormats(actual: int, a: Assertion)
    ensures Formatted(Some(FormatOf(a)), Arguments(actual, a)) == Written(Expected(actual, a), None)
  {
    match a
    case IsEqualTo(want) => IsEqualToComplaint(actual, want);
    case IsNotEqualTo(want) => IsNotEqualToComplaint(actual, want);
    case IsNear(want, tolerance) => IsNearComplaint(actual, want, tolerance);
    case IsGreaterThan(max) => IsGreaterThanComplaint(actual, max);
    case IsNoGreaterThan(max) => IsNoGreaterThanComplaint(actual, max);
    case IsBetween(min, max) => IsBetweenComplaint(actual, min, max);
    case IsLessThan(min) => IsLessThanComplaint(actual, min);
    case IsNoLessThan(min) => IsNoLessThanComplaint(actual, min);
  }
}
