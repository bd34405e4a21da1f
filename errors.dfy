/**
 * SectionKit's `Error` enum: its case-wise equality and the message each case
 * describes itself with.
 */
module Errors {
  import opened Wrappers

  /**
   * A metatype such as `UICollectionReusableView.Type`. `==` on metatypes compares
   * type identity (`id`); string interpolation prints only the unqualified name
   * (`printed`), which two distinct types may share.
   */
  datatype TypeName = TypeName(id: nat, printed: string)

  /** A section id (`AnyHashable`), modelled as the `String` it wraps. */
  type SectionId = string

  datatype Error =
    | NotImplemented(functionName: string)
    | DuplicateSectionIds(ids: seq<SectionId>)
    | MissingDataSource(section: int)
    | UnsupportedSupplementaryViewKind(elementKind: string)
    | InvalidIndexPath(indexPath: seq<int>)
    | MoveIsNotInTheSameSection(sourceSection: int, destinationSection: int)
    | AdapterIsNotSetOnContext
    | AdapterDoesNotContainSectionController
    | DequeuedViewHasNotTheCorrectType(expectedView: TypeName, actualView: TypeName)
    | SectionControllerModelTypeMismatch(expectedModel: TypeName, actualModel: TypeName)

  /** The position of an error's case in the enum's declaration. */
  function CaseIndex(e: Error): nat {
    match e
    case NotImplemented(_) => 0
    case DuplicateSectionIds(_) => 1
    case MissingDataSource(_) => 2
    case UnsupportedSupplementaryViewKind(_) => 3
    case InvalidIndexPath(_) => 4
    case MoveIsNotInTheSameSection(_, _) => 5
    case AdapterIsNotSetOnContext => 6
    case AdapterDoesNotContainSectionController => 7
    case DequeuedViewHasNotTheCorrectType(_, _) => 8
    case SectionControllerModelTypeMismatch(_, _) => 9
  }

  /**
   * `Error ==`: equal cases compare their payloads field by field (a function
   * name by its description string); different cases are never equal.
   */
  function Equals(lhs: Error, rhs: Error): (r: bool)
    ensures r ==> CaseIndex(lhs) == CaseIndex(rhs)
    ensures lhs == rhs ==> r
  {
    match (lhs, rhs)
    case (NotImplemented(l), NotImplemented(r)) => l == r
    case (DuplicateSectionIds(l), DuplicateSectionIds(r)) => l == r
    case (MissingDataSource(l), MissingDataSource(r)) => l == r
    case (UnsupportedSupplementaryViewKind(l), UnsupportedSupplementaryViewKind(r)) => l == r
    case (InvalidIndexPath(l), InvalidIndexPath(r)) => l == r
    case (MoveIsNotInTheSameSection(ls, ld), MoveIsNotInTheSameSection(rs, rd)) => ls == rs && ld == rd
    case (AdapterIsNotSetOnContext, AdapterIsNotSetOnContext) => true
    case (AdapterDoesNotContainSectionController, AdapterDoesNotContainSectionController) => true
    case (DequeuedViewHasNotTheCorrectType(le, la), DequeuedViewHasNotTheCorrectType(re, ra)) => le == re && la == ra
    case (SectionControllerModelTypeMismatch(le, la), SectionControllerModelTypeMismatch(re, ra)) => le == re && la == ra
    case _ => false
  }

  /** `==` agrees with equality of the values: same case and same payload. */
  lemma EqualsIffSameValue(lhs: Error, rhs: Error)
    ensures Equals(lhs, rhs) <==> lhs == rhs
  {
  }

  lemma EqualsReflexive(e: Error)
    ensures Equals(e, e)
  {
  }

  lemma EqualsSymmetric(lhs: Error, rhs: Error)
    ensures Equals(lhs, rhs) == Equals(rhs, lhs)
  {
  }

  /** Errors of different cases are never equal. */
  lemma DifferentCasesNeverEqual(lhs: Error, rhs: Error)
    requires CaseIndex(lhs) != CaseIndex(rhs)
    ensures !Equals(lhs, rhs)
  {
  }

  /** The payload-free cases are always equal to themselves. */
  lemma PayloadFreeCasesEqual()
    ensures Equals(AdapterIsNotSetOnContext, AdapterIsNotSetOnContext)
    ensures Equals(AdapterDoesNotContainSectionController, AdapterDoesNotContainSectionController)
  {
  }

  /** `notImplemented` errors compare by the function name's description string. */
  lemma NotImplementedEqualsByName(a: string, b: string)
    ensures Equals(NotImplemented(a), NotImplemented(b)) <==> a == b
  {
  }

  /** A move error needs both the source and the destination section to match. */
  lemma MoveErrorsEqualIff(ls: int, ld: int, rs: int, rd: int)
    ensures Equals(MoveIsNotInTheSameSection(ls, ld), MoveIsNotInTheSameSection(rs, rd)) <==> ls == rs && ld == rd
  {
  }

  /**
   * Type mismatches compare the types themselves: two distinct types with the
   * same printed name give different errors, though their descriptions agree.
   */
  lemma SameNameDistinctTypes(a: TypeName, b: TypeName, actual: TypeName)
    requires a.printed == b.printed && a.id != b.id
    ensures !Equals(DequeuedViewHasNotTheCorrectType(a, actual), DequeuedViewHasNotTheCorrectType(b, actual))
    ensures !Equals(SectionControllerModelTypeMismatch(a, actual), SectionControllerModelTypeMismatch(b, actual))
    ensures Description(DequeuedViewHasNotTheCorrectType(a, actual)) == Description(DequeuedViewHasNotTheCorrectType(b, actual))
    ensures Description(SectionControllerModelTypeMismatch(a, actual)) == Description(SectionControllerModelTypeMismatch(b, actual))
  {
  }

  // ---------------------------------------------------------------------------
  // Decimal rendering of `Int`, as string interpolation prints it
  // ---------------------------------------------------------------------------

  function DigitChar(d: nat): (c: char)
    requires d < 10
    ensures '0' <= c <= '9'
  {
    ('0' as int + d) as char
  }

  function DigitValue(c: char): (r: Option<nat>)
    ensures r.Some? <==> '0' <= c <= '9'
    ensures r.Some? ==> r.value < 10 && DigitChar(r.value) == c
  {
    if '0' <= c <= '9' then Some((c - '0') as nat) else None
  }

  /** The decimal digits of `n`, most significant first, without leading zeros. */
  function NatToString(n: nat): (s: string)
    ensures |s| >= 1
    ensures forall i :: 0 <= i < |s| ==> '0' <= s[i] <= '9'
  {
    if n < 10 then [DigitChar(n)] else NatToString(n / 10) + [DigitChar(n % 10)]
  }

  /** `"\(n)"` for an `Int`: a minus sign before the digits of a negative number. */
  function IntToString(n: int): string {
    if n < 0 then "-" + NatToString(-n) else NatToString(n)
  }

  /** Reads a non-empty string of decimal digits. */
  function ParseNat(s: string): Option<nat> {
    if s == [] then None
    else
      var d := DigitValue(s[|s| - 1]);
      if d.None? then None
      else if |s| == 1 then Some(d.value)
      else
        match ParseNat(s[..|s| - 1])
        case None => None
        case Some(v) => Some(10 * v + d.value)
  }

  /** Reads an optionally negative decimal number. */
  function ParseInt(s: string): Option<int> {
    if |s| > 0 && s[0] == '-' then
      match ParseNat(s[1..])
      case None => None
      case Some(v) => Some(0 - v as int)
    else
      match ParseNat(s)
      case None => None
      case Some(v) => Some(v)
  }

  lemma {:induction false} NatToStringRoundTrip(n: nat)
    ensures ParseNat(NatToString(n)) == Some(n)
  {
    if n >= 10 {
      var q, d := n / 10, n % 10;
      NatToStringRoundTrip(q);
      var s := NatToString(n);
      assert s == NatToString(q) + [DigitChar(d)];
      assert s[..|s| - 1] == NatToString(q);
      assert DigitValue(s[|s| - 1]) == Some(d);
      assert 10 * q + d == n;
    } else {
      assert DigitValue(DigitChar(n)) == Some(n);
    }
  }

  /** The decimal rendering of an `Int` reads back as the same number. */
  lemma IntToStringRoundTrip(n: int)
    ensures ParseInt(IntToString(n)) == Some(n)
  {
    var s := IntToString(n);
    if n < 0 {
      NatToStringRoundTrip(-n);
      assert s[0] == '-' && s[1..] == NatToString(-n);
    } else {
      NatToStringRoundTrip(n);
      assert '0' <= s[0] <= '9';
    }
  }

  lemma IntToStringInjective(a: int, b: int)
    requires IntToString(a) == IntToString(b)
    ensures a == b
  {
    IntToStringRoundTrip(a);
    IntToStringRoundTrip(b);
  }

  /** `IndexPath.description`: its indices between brackets, separated by ", ". */
  function IndicesDescription(indices: seq<int>): string {
    "[" + JoinInts(indices) + "]"
  }

  function JoinInts(indices: seq<int>): string {
    if indices == [] then ""
    else if |indices| == 1 then IntToString(indices[0])
    else IntToString(indices[0]) + ", " + JoinInts(indices[1..])
  }

  /** `"\(ids)"` for an `[AnyHashable]` of strings: each as `AnyHashable("…")`, between brackets. */
  function IdsDescription(ids: seq<SectionId>): string {
    "[" + JoinIds(ids) + "]"
  }

  function JoinIds(ids: seq<SectionId>): string {
    if ids == [] then ""
    else if |ids| == 1 then "AnyHashable(\"" + ids[0] + "\")"
    else "AnyHashable(\"" + ids[0] + "\"), " + JoinIds(ids[1..])
  }

  // ---------------------------------------------------------------------------
  // `description`
  // ---------------------------------------------------------------------------

  const MissingDataSourcePrefix: string := "There is no datasource for section with index "

  /** `description`: one message per case; what it shows is stated by `DescriptionNamesPayload`. */
  function Description(e: Error): (r: string)
    ensures |r| > 0
  {
    match e
    case NotImplemented(f) => f + " not implemented."
    case DuplicateSectionIds(ids) =>
      "The list of sections contains two or more sections with the same id. Affected section id(s): " + IdsDescription(ids)
    case MissingDataSource(section) => MissingDataSourcePrefix + IntToString(section) + "."
    case UnsupportedSupplementaryViewKind(kind) => "Unsupported supplementary view kind \"" + kind + "\"."
    case InvalidIndexPath(indexPath) =>
      "The given IndexPath " + IndicesDescription(indexPath) + " is not valid (does not contain exactly 2 values)."
    case MoveIsNotInTheSameSection(source, destination) =>
      "Move is not supported inside the same section (from " + IntToString(source) + " to " + IntToString(destination) + ")."
    case AdapterIsNotSetOnContext => "The `adapter` is not set on the context."
    case AdapterDoesNotContainSectionController => "The given controller is not child of this adapter."
    case DequeuedViewHasNotTheCorrectType(expected, actual) =>
      "The dequeued view has not the correct type. Expected: " + expected.printed + " Actual: " + actual.printed
    case SectionControllerModelTypeMismatch(expected, actual) =>
      "The model that was given to the sectioncontroller has not the correct type. Expected: " + expected.printed + " Actual: " + actual.printed
  }

  /**
   * The description of `missingDataSource(section: n)` is its fixed sentence
   * around the decimal `n`, and `n` reads back from it.
   */
  lemma MissingDataSourceNamesIndex(n: int)
    ensures var d := Description(MissingDataSource(n));
            && |d| > |MissingDataSourcePrefix| + 1
            && d[..|MissingDataSourcePrefix|] == MissingDataSourcePrefix
            && d[|d| - 1] == '.'
            && ParseInt(d[|MissingDataSourcePrefix|..|d| - 1]) == Some(n)
  {
    var d := Description(MissingDataSource(n));
    assert d[|MissingDataSourcePrefix|..|d| - 1] == IntToString(n);
    IntToStringRoundTrip(n);
  }

  /** Different missing sections are described differently. */
  lemma MissingDataSourceDescriptionsDiffer(a: int, b: int)
    requires a != b
    ensures Description(MissingDataSource(a)) != Description(MissingDataSource(b))
  {
    MissingDataSourceNamesIndex(a);
    MissingDataSourceNamesIndex(b);
  }

  /** The description of `notImplemented` starts with the function's name. */
  lemma NotImplementedNamesFunction(f: string)
    ensures Description(NotImplemented(f))[..|f|] == f
  {
  }

  /** `t` occurs in `s` as a contiguous piece. */
  predicate Contains(s: string, t: string) {
    exists i :: 0 <= i <= |s| && t <= s[i..]
  }

  lemma ContainsMiddle(a: string, t: string, b: string)
    ensures Contains(a + t + b, t)
  {
    assert t <= (a + t + b)[|a|..];
  }

  lemma ContainsPrefix(t: string, b: string)
    ensures Contains(t + b, t)
  {
    assert t <= (t + b)[0..];
  }

  lemma ContainsSuffix(a: string, t: string)
    ensures Contains(a + t, t)
  {
    assert t <= (a + t)[|a|..];
  }

  lemma ContainsExtended(s: string, t: string, u: string)
    requires Contains(s, t)
    ensures Contains(s + u, t)
  {
    var i :| 0 <= i <= |s| && t <= s[i..];
    assert (s + u)[i..] == s[i..] + u;
  }

  lemma MoveDescriptionNamesSections(source: int, destination: int)
    ensures Contains(Description(MoveIsNotInTheSameSection(source, destination)), IntToString(source))
    ensures Contains(Description(MoveIsNotInTheSameSection(source, destination)), IntToString(destination))
  {
    var a := "Move is not supported inside the same section (from ";
    var b := a + IntToString(source) + " to ";
    ContainsMiddle(a, IntToString(source), " to ");
    ContainsExtended(b, IntToString(source), IntToString(destination));
    ContainsExtended(b + IntToString(destination), IntToString(source), ").");
    ContainsMiddle(b, IntToString(destination), ").");
  }

  /** A type-mismatch message `a + expected + " Actual: " + actual` shows both names. */
  lemma MismatchNamesTypes(a: string, expected: string, actual: string)
    ensures Contains(a + expected + " Actual: " + actual, expected)
    ensures Contains(a + expected + " Actual: " + actual, actual)
  {
    ContainsMiddle(a, expected, " Actual: ");
    ContainsExtended(a + expected + " Actual: ", expected, actual);
    ContainsSuffix(a + expected + " Actual: ", actual);
  }

  /**
   * Every description shows the error's payload: the function name, the
   * element kind, the index path, the section indices, and the printed names
   * of both types.
   */
  lemma DescriptionNamesPayload(e: Error)
    ensures e.NotImplemented? ==> Contains(Description(e), e.functionName)
    ensures e.MissingDataSource? ==> Contains(Description(e), IntToString(e.section))
    ensures e.UnsupportedSupplementaryViewKind? ==> Contains(Description(e), e.elementKind)
    ensures e.InvalidIndexPath? ==> Contains(Description(e), IndicesDescription(e.indexPath))
    ensures e.MoveIsNotInTheSameSection? ==>
              Contains(Description(e), IntToString(e.sourceSection)) && Contains(Description(e), IntToString(e.destinationSection))
    ensures e.DequeuedViewHasNotTheCorrectType? ==>
              Contains(Description(e), e.expectedView.printed) && Contains(Description(e), e.actualView.printed)
    ensures e.SectionControllerModelTypeMismatch? ==>
              Contains(Description(e), e.expectedModel.printed) && Contains(Description(e), e.actualModel.printed)
  {
    match e
    case NotImplemented(f) =>
      ContainsPrefix(f, " not implemented.");
    case MissingDataSource(n) =>
      ContainsMiddle(MissingDataSourcePrefix, IntToString(n), ".");
    case UnsupportedSupplementaryViewKind(kind) =>
      ContainsMiddle("Unsupported supplementary view kind \"", kind, "\".");
    case InvalidIndexPath(p) =>
      ContainsMiddle("The given IndexPath ", IndicesDescription(p), " is not valid (does not contain exactly 2 values).");
    case MoveIsNotInTheSameSection(source, destination) =>
      MoveDescriptionNamesSections(source, destination);
    case DequeuedViewHasNotTheCorrectType(expected, actual) =>
      MismatchNamesTypes("The dequeued view has not the correct type. Expected: ", expected.printed, actual.printed);
    case SectionControllerModelTypeMismatch(expected, actual) =>
      MismatchNamesTypes("The model that was given to the sectioncontroller has not the correct type. Expected: ",
                         expected.printed, actual.printed);
    case _ =>
  }
}
