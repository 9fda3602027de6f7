/** The member record of the first backend client (src/member.py), built from the
    tag-info response of the member administration API. */
module LegacyMember {
  import opened Wrappers
  import opened Json
  import opened Clock

  datatype Member = Member(firstName: string, lastName: string, memberNumber: int, labEndDate: Option<DateTime>)

  /** What Member.from_tagid raises. `NoMemberForTag` is its own Exception; the others
      stand for the KeyError/TypeError of a missing or mistyped field and for the
      date parser's error. */
  datatype LegacyError =
    | NoMemberForTag(tagId: string)
    | KeyMissing(key: string)
    | WrongType(key: string)
    | DateParseError(text: string)

  /** dateutil.parser.parse(s), or None when it raises; a library call. */
  type DateTimeParser = string -> Option<DateTime>

  /** f"{first_name} {last_name}" */
  function GetName(m: Member): string
  {
    m.firstName + " " + m.lastName
  }

  function Get(obj: Json, key: string): (r: Result<Json, LegacyError>)
    ensures r.Ok? <==> obj.Object? && key in obj.fields
    ensures r.Ok? ==> r.value == obj.fields[key]
  {
    if !obj.Object? then Err(WrongType(key))
    else if key !in obj.fields then Err(KeyMissing(key))
    else Ok(obj.fields[key])
  }

  /** The lab end date: None passes through unparsed, a string is parsed. */
  function EndDateOf(v: Json, parse: DateTimeParser): (r: Result<Option<DateTime>, LegacyError>)
    ensures r == Ok(None) <==> v == Null
    ensures r.Ok? && r.value.Some? ==> v.Str? && parse(v.s) == r.value
    ensures v.Str? && parse(v.s).Some? ==> r == Ok(parse(v.s))
    ensures r.Err? <==> !v.Null? && !(v.Str? && parse(v.s).Some?)
  {
    match v
    case Null => Ok(None)
    case Str(s) =>
      (match parse(s)
       case None => Err(DateParseError(s))
       case Some(t) => Ok(Some(t)))
    case _ => Err(WrongType("end_date"))
  }

  /** The member record of a tag-info response holds every field from_tagid reads, with
      the type the record declares, and an end date that is None or parses. */
  predicate WellFormedMember(md: Json, parse: DateTimeParser)
  {
    md.Object? &&
    "firstname" in md.fields && md.fields["firstname"].Str? &&
    "lastname" in md.fields && md.fields["lastname"].Str? &&
    "member_number" in md.fields && md.fields["member_number"].Int? &&
    "end_date" in md.fields && EndDateOf(md.fields["end_date"], parse).Ok?
  }

  /** A tag-info response naming a member whose record is well formed. */
  predicate WellFormedTagInfo(data: Json, parse: DateTimeParser)
  {
    data.Object? && "data" in data.fields && data.fields["data"].Object? &&
    "member" in data.fields["data"].fields && WellFormedMember(data.fields["data"].fields["member"], parse)
  }

  /** Member.from_tagid applied to the response of get_tag_info(tagid). */
  function FromTagId(data: Json, tagId: string, parse: DateTimeParser): (r: Result<Member, LegacyError>)
    ensures r == Err(NoMemberForTag(tagId)) <==> Get(data, "data") == Ok(Null)
    ensures r.Ok? <==> WellFormedTagInfo(data, parse)
    ensures r.Ok? ==>
      data.Object? && "data" in data.fields &&
      Get(data.fields["data"], "member").Ok? &&
      var md := data.fields["data"].fields["member"];
      Get(md, "firstname") == Ok(Str(r.value.firstName)) &&
      Get(md, "lastname") == Ok(Str(r.value.lastName)) &&
      Get(md, "member_number") == Ok(Int(r.value.memberNumber)) &&
      Get(md, "end_date").Ok? &&
      EndDateOf(md.fields["end_date"], parse) == Ok(r.value.labEndDate)
  {
    match Get(data, "data")
    case Err(e) => Err(e)
    case Ok(Null) => Err(NoMemberForTag(tagId))
    case Ok(inner) =>
      match Get(inner, "member")
      case Err(e) => Err(e)
      case Ok(md) =>
        match Get(md, "end_date")
        case Err(e) => Err(e)
        case Ok(endValue) =>
          match EndDateOf(endValue, parse)
          case Err(e) => Err(e)
          case Ok(end) =>
            match (Get(md, "firstname"), Get(md, "lastname"), Get(md, "member_number"))
            case (Ok(Str(first)), Ok(Str(last)), Ok(Int(number))) => Ok(Member(first, last, number, end))
            case (Err(e), _, _) => Err(e)
            case (Ok(_), Err(e), _) => Err(e)
            case (Ok(_), Ok(_), Err(e)) => Err(e)
            case _ => Err(WrongType("member"))
  }

  /** The response get_tag_info sends for a member with a complete record. */
  function TagInfo(first: string, last: string, number: int, end: Json): Json
  {
    Object(map["data" := Object(map["member" := Object(map[
      "firstname" := Str(first), "lastname" := Str(last), "member_number" := Int(number), "end_date" := end])])])
  }

  /** A complete record gives the member with exactly its names and number; a missing
      end date stays None and a present one is the parsed date. */
  lemma CompleteTagInfoParses(first: string, last: string, number: int, end: Json, tagId: string, parse: DateTimeParser)
    requires end.Null? || (end.Str? && parse(end.s).Some?)
    ensures FromTagId(TagInfo(first, last, number, end), tagId, parse) ==
      Ok(Member(first, last, number, if end.Null? then None else parse(end.s)))
  {
    var md := TagInfo(first, last, number, end).fields["data"].fields["member"];
    assert WellFormedMember(md, parse);
  }
}
