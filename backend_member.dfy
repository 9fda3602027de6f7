/** The member record of the current backend client (src/backend/member.py): a frozen
    record built from the member-info response of the member administration API. */
module Backend {
  import opened Wrappers
  import opened Json
  import opened Clock

  /** One of the four access periods: whether it is active and when it ends. */
  datatype EndDate = EndDate(isActive: bool, endDate: Option<DateTime>)

  datatype Member = Member(
    firstName: string,
    lastName: string,
    memberNumber: int,
    membership: EndDate,
    labaccess: EndDate,
    specialLabaccess: EndDate,
    effectiveLabaccess: EndDate)

  /** The exceptions the parsers raise. `KeyMissing` is the bare KeyError raised
      outside the parser's try block. */
  datatype BackendError =
    | BackendParseError
    | KeyMissing(key: string)
    | NoMatchingMemberNumber(memberNumber: int)

  /** dateutil.parser.parse(s).date(): the calendar day the string names, or None
      when the parser raises. The parser itself is a library call. */
  type DateParser = string -> Option<Date>

  /** str(end_date): a check mark for an active period, a cross otherwise. */
  function Render(e: EndDate): (s: string)
    ensures s == "✓" <==> e.isActive
    ensures s == "✕" <==> !e.isActive
  {
    if e.isActive then "✓" else "✕"
  }

  /** f"{first_name} {last_name}" */
  function GetName(m: Member): string
  {
    m.firstName + " " + m.lastName
  }

  /** The nested `datify`: None stays None, a date string becomes that day at 23:59:59.
      Anything the parser cannot take surfaces as BackendParseError, because the
      call sits inside the try block. */
  function Datify(v: Json, parse: DateParser): (r: Result<Option<DateTime>, BackendError>)
    ensures r == Ok(None) <==> v.Null?
    ensures r.Ok? && r.value.Some? ==>
      v.Str? && parse(v.s).Some? &&
      DateOf(r.value.value) == parse(v.s).value &&
      r.value.value - parse(v.s).value * MICROS_PER_DAY == 23 * MICROS_PER_HOUR + 59 * MICROS_PER_MINUTE + 59 * MICROS_PER_SECOND
    ensures v.Str? && parse(v.s).Some? ==> r == Ok(Some(Combine(parse(v.s).value, 23, 59, 59)))
    ensures r.Err? <==> !v.Null? && !(v.Str? && parse(v.s).Some?)
    ensures r.Err? ==> r.error == BackendParseError
  {
    match v
    case Null => Ok(None)
    case Str(s) =>
      (match parse(s)
       case None => Err(BackendParseError)
       case Some(d) => Ok(Some(Combine(d, 23, 59, 59))))
    case _ => Err(BackendParseError)
  }

  /** obj[key] inside the try block: a missing key or a value that is not a dict
      raises, and the handler turns either into BackendParseError. */
  function Lookup(obj: Json, key: string): (r: Result<Json, BackendError>)
    ensures r.Ok? <==> obj.Object? && key in obj.fields
    ensures r.Ok? ==> r.value == obj.fields[key]
    ensures r.Err? ==> r.error == BackendParseError
  {
    if obj.Object? && key in obj.fields then Ok(obj.fields[key]) else Err(BackendParseError)
  }

  function LookupBool(obj: Json, key: string): Result<bool, BackendError>
  {
    match Lookup(obj, key)
    case Ok(Bool(b)) => Ok(b)
    case _ => Err(BackendParseError)
  }

  function LookupString(obj: Json, key: string): Result<string, BackendError>
  {
    match Lookup(obj, key)
    case Ok(Str(s)) => Ok(s)
    case _ => Err(BackendParseError)
  }

  function LookupInt(obj: Json, key: string): Result<int, BackendError>
  {
    match Lookup(obj, key)
    case Ok(Int(i)) => Ok(i)
    case _ => Err(BackendParseError)
  }

  /** The two fields of one access period are present, the flag is a boolean and the
      end date is None or a string the date parser accepts. */
  predicate WellFormedPeriod(md: Json, prefix: string, parse: DateParser)
  {
    md.Object? && prefix + "_active" in md.fields && md.fields[prefix + "_active"].Bool? &&
    prefix + "_end" in md.fields &&
    (md.fields[prefix + "_end"].Null? || (md.fields[prefix + "_end"].Str? && parse(md.fields[prefix + "_end"].s).Some?))
  }

  /** EndDate(md[prefix + "_active"], datify(md[prefix + "_end"])) */
  function ParseEndDate(md: Json, prefix: string, parse: DateParser): (r: Result<EndDate, BackendError>)
    ensures r.Ok? <==> WellFormedPeriod(md, prefix, parse)
    ensures r.Err? ==> r.error == BackendParseError
    ensures r.Ok? ==>
      md.Object? && prefix + "_active" in md.fields && prefix + "_end" in md.fields &&
      md.fields[prefix + "_active"] == Bool(r.value.isActive) &&
      Datify(md.fields[prefix + "_end"], parse) == Ok(r.value.endDate)
  {
    match LookupBool(md, prefix + "_active")
    case Err(e) => Err(e)
    case Ok(active) =>
      match Lookup(md, prefix + "_end")
      case Err(e) => Err(e)
      case Ok(end) =>
        match Datify(end, parse)
        case Err(e) => Err(e)
        case Ok(d) => Ok(EndDate(active, d))
  }

  /** The four access periods of the membership data are all well formed. */
  predicate WellFormedPeriods(md: Json, parse: DateParser)
  {
    WellFormedPeriod(md, "membership", parse) && WellFormedPeriod(md, "labaccess", parse) &&
    WellFormedPeriod(md, "special_labaccess", parse) && WellFormedPeriod(md, "effective_labaccess", parse)
  }

  /** Every field from_response reads is present with the type the record declares. */
  predicate WellFormedData(data: Json, parse: DateParser)
  {
    data.Object? && "membership_data" in data.fields &&
    "firstname" in data.fields && data.fields["firstname"].Str? &&
    "lastname" in data.fields && data.fields["lastname"].Str? &&
    "member_number" in data.fields && data.fields["member_number"].Int? &&
    WellFormedPeriods(data.fields["membership_data"], parse)
  }

  /** The try block of from_response, applied to response_data["data"]. */
  function ParseData(data: Json, parse: DateParser): (r: Result<Member, BackendError>)
    ensures r.Ok? <==> WellFormedData(data, parse)
    ensures r.Err? ==> r.error == BackendParseError
    ensures r.Ok? ==>
      data.Object? && "membership_data" in data.fields &&
      Lookup(data, "firstname") == Ok(Str(r.value.firstName)) &&
      Lookup(data, "lastname") == Ok(Str(r.value.lastName)) &&
      Lookup(data, "member_number") == Ok(Int(r.value.memberNumber)) &&
      ParseEndDate(data.fields["membership_data"], "membership", parse) == Ok(r.value.membership) &&
      ParseEndDate(data.fields["membership_data"], "labaccess", parse) == Ok(r.value.labaccess) &&
      ParseEndDate(data.fields["membership_data"], "special_labaccess", parse) == Ok(r.value.specialLabaccess) &&
      ParseEndDate(data.fields["membership_data"], "effective_labaccess", parse) == Ok(r.value.effectiveLabaccess)
  {
    match Lookup(data, "membership_data")
    case Err(e) => Err(e)
    case Ok(md) =>
      match LookupString(data, "firstname")
      case Err(e) => Err(e)
      case Ok(first) =>
        match LookupString(data, "lastname")
        case Err(e) => Err(e)
        case Ok(last) =>
          match LookupInt(data, "member_number")
          case Err(e) => Err(e)
          case Ok(number) =>
            match ParseEndDate(md, "membership", parse)
            case Err(e) => Err(e)
            case Ok(membership) =>
              match ParseEndDate(md, "labaccess", parse)
              case Err(e) => Err(e)
              case Ok(labaccess) =>
                match ParseEndDate(md, "special_labaccess", parse)
                case Err(e) => Err(e)
                case Ok(special) =>
                  match ParseEndDate(md, "effective_labaccess", parse)
                  case Err(e) => Err(e)
                  case Ok(effective) =>
                    Ok(Member(first, last, number, membership, labaccess, special, effective))
  }

  /** Member.from_response. The guard `(response_data and response_data["data"]) is None`
      is evaluated outside the try block: a None response or a None "data" gives None;
      an empty dict is falsy, so the guard lets it through and the try block fails on
      it; a non-empty dict without "data" raises a bare KeyError from the guard. */
  function FromResponse(response: Option<map<string, Json>>, parse: DateParser): (r: Result<Option<Member>, BackendError>)
    ensures r == Ok(None) <==>
      response.None? || ("data" in response.value && response.value["data"] == Null)
    ensures r == Err(KeyMissing("data")) <==>
      response.Some? && response.value != map[] && "data" !in response.value
    ensures response == Some(map[]) ==> r == Err(BackendParseError)
    ensures r.Ok? && r.value.Some? ==>
      response.Some? && "data" in response.value &&
      ParseData(response.value["data"], parse) == Ok(r.value.value)
    ensures response.Some? && "data" in response.value && response.value["data"] != Null ==>
      (r.Ok? <==> WellFormedData(response.value["data"], parse))
  {
    match response
    case None => Ok(None)
    case Some(dict) =>
      if dict == map[] then
        Err(BackendParseError)
      else if "data" !in dict then
        Err(KeyMissing("data"))
      else if dict["data"] == Null then
        Ok(None)
      else
        match ParseData(dict["data"], parse)
        case Err(e) => Err(e)
        case Ok(m) => Ok(Some(m))
  }

  /** Member.from_member_number: the member of the response, or NoMatchingMemberNumber
      when from_response gives None; its other exceptions pass through. */
  function FromMemberNumber(response: Option<map<string, Json>>, memberNumber: int, parse: DateParser): (r: Result<Member, BackendError>)
    ensures r == Err(NoMatchingMemberNumber(memberNumber)) <==> FromResponse(response, parse) == Ok(None)
    ensures r.Ok? <==> FromResponse(response, parse).Ok? && FromResponse(response, parse).value.Some?
    ensures r.Ok? ==> FromResponse(response, parse) == Ok(Some(r.value))
  {
    match FromResponse(response, parse)
    case Err(e) => Err(e)
    case Ok(None) => Err(NoMatchingMemberNumber(memberNumber))
    case Ok(Some(m)) => Ok(m)
  }

  /** The end date a well-formed period field holds: None, or the parsed day at 23:59:59. */
  function EndOf(md: map<string, Json>, prefix: string, parse: DateParser): EndDate
    requires WellFormedPeriod(Object(md), prefix, parse)
  {
    var end := md[prefix + "_end"];
    EndDate(md[prefix + "_active"].b, if end.Null? then None else Some(Combine(parse(end.s).value, 23, 59, 59)))
  }

  /** The response the member-info endpoint sends for a complete record. */
  function Response(first: string, last: string, number: int, md: map<string, Json>): map<string, Json>
  {
    map["data" := Object(map["firstname" := Str(first), "lastname" := Str(last),
                              "member_number" := Int(number), "membership_data" := Object(md)])]
  }

  /** A complete record gives the member holding exactly its names, its number and its
      four periods. */
  lemma CompleteRecordParses(first: string, last: string, number: int, md: map<string, Json>, parse: DateParser)
    requires WellFormedPeriods(Object(md), parse)
    ensures FromResponse(Some(Response(first, last, number, md)), parse) ==
      Ok(Some(Member(first, last, number, EndOf(md, "membership", parse), EndOf(md, "labaccess", parse),
                     EndOf(md, "special_labaccess", parse), EndOf(md, "effective_labaccess", parse))))
  {
    var data := Response(first, last, number, md)["data"];
    assert WellFormedData(data, parse);
  }

  /** A missing field anywhere in the record is a BackendParseError, never a bare
      KeyError and never a None result. */
  lemma MissingFieldIsParseError(dict: map<string, Json>, key: string, parse: DateParser)
    requires "data" in dict && dict["data"].Object? && key !in dict["data"].fields
    requires key in {"firstname", "lastname", "member_number", "membership_data"}
    ensures FromResponse(Some(dict), parse) == Err(BackendParseError)
  {
  }
}
