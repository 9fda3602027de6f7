/** The label records uploaded to the backend and printed by the kiosk
    (src/backend/label_data.py): a common base and seven label variants. */
module LabelData {
  import opened Wrappers
  import opened Text
  import opened Clock
  import Backend

  const LABEL_VERSION: int := 3
  const ID_DIGITS: nat := 13
  /** timedelta(minutes=5), the tolerance of approximate equality. */
  const TOLERANCE: int := Minutes(5)

  datatype LabelBase = LabelBase(
    id: int,
    createdByMemberNumber: int,
    memberNumber: int,
    memberName: string,
    createdAt: DateTime,
    version: int)

  datatype Label =
    | TemporaryStorageLabel(base: LabelBase, description: string, expiresOn: Date)
    | BoxLabel(base: LabelBase)
    | FireSafetyLabel(base: LabelBase, expiresOn: Date)
    | Printer3DLabel(base: LabelBase)
    | NameTag(base: LabelBase, membershipExpiresOn: Option<Date>)
    | MeetupNameTag(base: LabelBase)
    | DryingLabel(base: LabelBase, expiresAt: DateTime)

  /** A string of 13 random decimal digits, as the ShortUUID generator with the
      alphabet 0-9 produces it. */
  predicate IsRandomId(digits: string)
  {
    |digits| == ID_DIGITS && AllAsciiDigits(digits)
  }

  /** LabelBase.from_member. The random digits and the current time are inputs. */
  function BaseFromMember(member: Backend.Member, digits: string, now: DateTime): (b: LabelBase)
    requires IsRandomId(digits)
    ensures 0 <= b.id < Pow10(ID_DIGITS)
    ensures b.memberNumber == member.memberNumber && b.createdByMemberNumber == member.memberNumber
    ensures b.memberName == member.firstName + " " + member.lastName
    ensures b.createdAt == now && b.version == LABEL_VERSION
  {
    DecimalValueBound(digits);
    LabelBase(DecimalValue(digits), member.memberNumber, member.memberNumber, Backend.GetName(member), now, LABEL_VERSION)
  }

  /** Leading zeros are possible, so an id may have fewer than 13 digits. */
  lemma IdMayBeShort(member: Backend.Member, now: DateTime)
    ensures BaseFromMember(member, "0000000000042", now).id == 42
  {
    var digits := "0000000000042";
    var prefix := digits[..11];
    assert digits[..12] == prefix + "4" && digits[..12][..11] == prefix;
    ZeroDigits(prefix);
    assert DecimalValue(digits[..12]) == 4;
    assert DecimalValue(digits) == 42;
  }

  /** LabelBase.approximately_equal */
  predicate BaseApproximatelyEqual(a: LabelBase, b: LabelBase)
  {
    a.memberNumber == b.memberNumber && a.memberName == b.memberName &&
    Abs(a.createdAt - b.createdAt) < TOLERANCE &&
    a.createdByMemberNumber == b.createdByMemberNumber
  }

  lemma BaseApproximatelyEqualReflexive(a: LabelBase)
    ensures BaseApproximatelyEqual(a, a)
  {
  }

  lemma BaseApproximatelyEqualSymmetric(a: LabelBase, b: LabelBase)
    ensures BaseApproximatelyEqual(a, b) <==> BaseApproximatelyEqual(b, a)
  {
  }

  /** The tolerance is strict: creation times exactly five minutes apart differ. */
  lemma FiveMinutesApartDiffer(a: LabelBase)
    ensures !BaseApproximatelyEqual(a, a.(createdAt := a.createdAt + Minutes(5)))
    ensures BaseApproximatelyEqual(a, a.(createdAt := a.createdAt + Minutes(5) - 1))
  {
  }

  /** The approximately_equal of each variant: false against any other variant,
      otherwise the bases approximately equal and the variant's own fields equal
      (the drying time within the five-minute tolerance). */
  predicate ApproximatelyEqual(x: Label, y: Label)
  {
    match (x, y)
    case (TemporaryStorageLabel(a, d, e), TemporaryStorageLabel(b, d', e')) =>
      BaseApproximatelyEqual(a, b) && d == d' && e == e'
    case (BoxLabel(a), BoxLabel(b)) => BaseApproximatelyEqual(a, b)
    case (FireSafetyLabel(a, e), FireSafetyLabel(b, e')) => BaseApproximatelyEqual(a, b) && e == e'
    case (Printer3DLabel(a), Printer3DLabel(b)) => BaseApproximatelyEqual(a, b)
    case (NameTag(a, e), NameTag(b, e')) => BaseApproximatelyEqual(a, b) && e == e'
    case (MeetupNameTag(a), MeetupNameTag(b)) => BaseApproximatelyEqual(a, b)
    case (DryingLabel(a, e), DryingLabel(b, e')) => BaseApproximatelyEqual(a, b) && Abs(e - e') < TOLERANCE
    case _ => false
  }

  /** The variant tag, to state that approximate equality never crosses variants. */
  function VariantIndex(x: Label): nat
  {
    match x
    case TemporaryStorageLabel(_, _, _) => 0
    case BoxLabel(_) => 1
    case FireSafetyLabel(_, _) => 2
    case Printer3DLabel(_) => 3
    case NameTag(_, _) => 4
    case MeetupNameTag(_) => 5
    case DryingLabel(_, _) => 6
  }

  lemma ApproximatelyEqualSameVariant(x: Label, y: Label)
    requires ApproximatelyEqual(x, y)
    ensures VariantIndex(x) == VariantIndex(y)
    ensures BaseApproximatelyEqual(x.base, y.base)
  {
  }

  lemma ApproximatelyEqualReflexive(x: Label)
    ensures ApproximatelyEqual(x, x)
  {
  }

  lemma ApproximatelyEqualSymmetric(x: Label, y: Label)
    ensures ApproximatelyEqual(x, y) <==> ApproximatelyEqual(y, x)
  {
  }

  /** roundUpHour: the minute, second and microsecond are dropped; if the minute
      was non-zero, one hour is added. */
  function RoundUpHour(t: DateTime): (r: DateTime)
    ensures Minute(r) == 0 && SubMinute(r) == 0
    ensures Minute(t) > 0 ==> t < r < t + MICROS_PER_HOUR
    ensures Minute(t) == 0 ==> r <= t < r + MICROS_PER_MINUTE
  {
    var hourStart := t - t % MICROS_PER_HOUR;
    if Minute(t) > 0 then hourStart + MICROS_PER_HOUR else hourStart
  }

  lemma RoundUpHourIdempotent(t: DateTime)
    ensures RoundUpHour(RoundUpHour(t)) == RoundUpHour(t)
  {
    var q := t / MICROS_PER_HOUR;
    var hours := if Minute(t) > 0 then q + 1 else q;
    assert RoundUpHour(t) == hours * MICROS_PER_HOUR;
    WholeHours(hours);
  }

  /** A whole number of hours has no minutes and no remainder within the hour. */
  lemma WholeHours(hours: int)
    ensures (hours * MICROS_PER_HOUR) % MICROS_PER_HOUR == 0
    ensures Minute(hours * MICROS_PER_HOUR) == 0
  {
  }

  /** With minute 0 the seconds are dropped, so the result can be earlier than the input. */
  lemma RoundUpHourMayRoundDown()
    ensures RoundUpHour(Hours(10) + 30 * MICROS_PER_SECOND) == Hours(10)
  {
  }

  function TemporaryStorageFromMember(member: Backend.Member, digits: string, now: DateTime,
                                      description: string, expiresOn: Date): (l: Label)
    requires IsRandomId(digits)
    ensures l.TemporaryStorageLabel? && l.base == BaseFromMember(member, digits, now)
    ensures l.description == description && l.expiresOn == expiresOn
  {
    TemporaryStorageLabel(BaseFromMember(member, digits, now), description, expiresOn)
  }

  function BoxFromMember(member: Backend.Member, digits: string, now: DateTime): (l: Label)
    requires IsRandomId(digits)
    ensures l.BoxLabel? && l.base == BaseFromMember(member, digits, now)
  {
    BoxLabel(BaseFromMember(member, digits, now))
  }

  function FireSafetyFromMember(member: Backend.Member, digits: string, now: DateTime, expiresOn: Date): (l: Label)
    requires IsRandomId(digits)
    ensures l.FireSafetyLabel? && l.base == BaseFromMember(member, digits, now) && l.expiresOn == expiresOn
  {
    FireSafetyLabel(BaseFromMember(member, digits, now), expiresOn)
  }

  function Printer3DFromMember(member: Backend.Member, digits: string, now: DateTime): (l: Label)
    requires IsRandomId(digits)
    ensures l.Printer3DLabel? && l.base == BaseFromMember(member, digits, now)
  {
    Printer3DLabel(BaseFromMember(member, digits, now))
  }

  /** NameTag.from_member: the membership end, reduced to its date, or None. */
  function NameTagFromMember(member: Backend.Member, digits: string, now: DateTime): (l: Label)
    requires IsRandomId(digits)
    ensures l.NameTag? && l.base == BaseFromMember(member, digits, now)
    ensures l.membershipExpiresOn.None? <==> member.membership.endDate.None?
    ensures member.membership.endDate.Some? ==>
      l.membershipExpiresOn == Some(DateOf(member.membership.endDate.value))
  {
    NameTag(BaseFromMember(member, digits, now),
            match member.membership.endDate
            case None => None
            case Some(t) => Some(DateOf(t)))
  }

  function MeetupNameTagFromMember(member: Backend.Member, digits: string, now: DateTime): (l: Label)
    requires IsRandomId(digits)
    ensures l.MeetupNameTag? && l.base == BaseFromMember(member, digits, now)
  {
    MeetupNameTag(BaseFromMember(member, digits, now))
  }

  /** DryingLabel.from_member: done drying at the next full hour after the drying time. */
  function DryingFromMember(member: Backend.Member, digits: string, now: DateTime, dryingHours: int): (l: Label)
    requires IsRandomId(digits)
    ensures l.DryingLabel? && l.base == BaseFromMember(member, digits, now)
    ensures l.expiresAt == RoundUpHour(now + Hours(dryingHours))
    ensures Minute(l.expiresAt) == 0 && SubMinute(l.expiresAt) == 0
    ensures now + Hours(dryingHours) - MICROS_PER_MINUTE < l.expiresAt < now + Hours(dryingHours) + MICROS_PER_HOUR
  {
    DryingLabel(BaseFromMember(member, digits, now), RoundUpHour(now + Hours(dryingHours)))
  }

  /** Two drying labels made from the same member within five minutes of each other
      are approximately equal only if their rounded drying times are less than five
      minutes apart; rounding to the hour can put them an hour apart. */
  lemma DryingRoundingCanSeparate(member: Backend.Member, digits: string)
    requires IsRandomId(digits)
    ensures var a := DryingFromMember(member, digits, Hours(10), 1);
            var b := DryingFromMember(member, digits, Hours(10) + MICROS_PER_MINUTE, 1);
            BaseApproximatelyEqual(a.base, b.base) && !ApproximatelyEqual(a, b)
  {
    assert RoundUpHour(Hours(11)) == Hours(11);
    assert RoundUpHour(Hours(11) + MICROS_PER_MINUTE) == Hours(12);
  }
}
