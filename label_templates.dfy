/** The label templates of src/label/creator.py: each label variant becomes a fixed,
    ordered list of texts and images, which `CreateLabel` fits and stacks into a
    `Label`. QR-code generation and image files are outside the model: an image is
    named by its source and its pixel size comes from a given function. */
module LabelTemplates {
  import opened Wrappers
  import opened Text
  import opened Clock
  import opened LabelCreator
  import LabelData

  /** The wiki page on member storage, "https://wiki.makerspace.se/Medlemsförvaring". */
  const WIKI_LINK_MEMBER_STORAGE: string := "https://wiki.makerspace.se/Medlemsf\U{F6}rvaring"
  /** The side of the QR code pasted into the rotating-storage icon. */
  const ROTATING_QR_SIZE: int := 200

  datatype ImageSource =
    | Logotype
    | FlammableIcon
    | QrCode(data: string)
    /** The rotating-storage icon with a 200 x 200 QR code of `data` pasted at its centre. */
    | RotatingIcon(data: string)

  /** What a template asks for, before fitting: the arguments of LabelString(...) and
      LabelImage(...). */
  datatype ObjectSpec =
    | TextSpec(text: string, multiline: bool, labelWidth: real, replaceWhitespace: bool,
               maxFontSize: Option<int>, align: Align, marginTop: Option<int>, marginBottom: Option<int>)
    | ImageSpec(source: ImageSource, marginTop: Option<int>, marginBottom: Option<int>)

  datatype Template = Template(objects: seq<ObjectSpec>, heightMm: Option<real>)

  /** LabelString(text) with every default. */
  function Line(text: string): ObjectSpec
  {
    TextSpec(text, false, CANVAS_WIDTH as real, true, None, Center, None, None)
  }

  /** LabelString(text, multiline=True, replace_whitespace=...) */
  function Lines(text: string, replaceWhitespace: bool): ObjectSpec
  {
    TextSpec(text, true, CANVAS_WIDTH as real, replaceWhitespace, None, Center, None, None)
  }

  function Image(source: ImageSource): ObjectSpec
  {
    ImageSpec(source, None, None)
  }

  // ---------------------------------------------------------------- id string

  /** '{:_}'.format(n) on a numeral: underscores between groups of three digits,
      counted from the right. */
  function GroupThousands(digits: string, sep: char): string
  {
    if |digits| <= 3 then digits
    else GroupThousands(digits[..|digits| - 3], sep) + [sep] + digits[|digits| - 3..]
  }

  /** '{:_}'.format(id).replace('_', ' '): the decimal id with a space at exactly every
      fourth position from the right; without the spaces it is str(id). */
  function IdString(id: nat): (r: string)
    ensures RemoveChar(r, ' ') == NatToDecimal(id)
    ensures forall i | 0 <= i < |r| :: r[i] == ' ' <==> (|r| - i) % 4 == 0
  {
    var d := NatToDecimal(id);
    GroupReplaceSeparator(d);
    GroupRemoveSeparators(d, ' ');
    GroupShape(d, ' ');
    ReplaceChar(GroupThousands(d, '_'), '_', ' ')
  }

  /** Appending a separator and three other characters keeps the separators at every
      fourth position from the right. */
  lemma SeparatorPositionsStep(g: string, sep: char, back: string)
    requires |back| == 3 && forall i | 0 <= i < 3 :: back[i] != sep
    requires forall i | 0 <= i < |g| :: g[i] == sep <==> (|g| - i) % 4 == 0
    ensures var r := g + [sep] + back;
            forall i | 0 <= i < |r| :: r[i] == sep <==> (|r| - i) % 4 == 0
  {
    var r := g + [sep] + back;
    forall i | 0 <= i < |r| ensures r[i] == sep <==> (|r| - i) % 4 == 0 {
      if i < |g| {
        assert r[i] == g[i];
        assert |r| - i == |g| - i + 4;
      } else if i > |g| {
        assert r[i] == back[i - |g| - 1];
      }
    }
  }

  /** Grouping places the separator exactly at every fourth position from the right. */
  lemma {:induction false} GroupShape(digits: string, sep: char)
    requires forall i | 0 <= i < |digits| :: digits[i] != sep
    ensures var r := GroupThousands(digits, sep);
            |digits| >= 1 ==> |r| == |digits| + (|digits| - 1) / 3
    ensures var r := GroupThousands(digits, sep);
            forall i | 0 <= i < |r| :: r[i] == sep <==> (|r| - i) % 4 == 0
  {
    var r := GroupThousands(digits, sep);
    if |digits| <= 3 {
      forall i | 0 <= i < |r| ensures r[i] == sep <==> (|r| - i) % 4 == 0 {
        assert r[i] == digits[i];
      }
    } else {
      var front, back := digits[..|digits| - 3], digits[|digits| - 3..];
      var g := GroupThousands(front, sep);
      assert r == g + [sep] + back;
      GroupShape(front, sep);
      assert |g| == |front| + (|front| - 1) / 3;
      assert (|digits| - 1) / 3 == (|front| - 1) / 3 + 1;
      SeparatorPositionsStep(g, sep, back);
    }
  }

  /** Taking the separators out gives back the digits. */
  lemma {:induction false} GroupRemoveSeparators(digits: string, sep: char)
    requires forall i | 0 <= i < |digits| :: digits[i] != sep
    ensures RemoveChar(GroupThousands(digits, sep), sep) == digits
  {
    if |digits| <= 3 {
      RemoveCharAbsent(digits, sep);
    } else {
      var front, back := digits[..|digits| - 3], digits[|digits| - 3..];
      assert forall i | 0 <= i < |front| :: front[i] == digits[i];
      assert forall i | 0 <= i < |back| :: back[i] == digits[|digits| - 3 + i];
      var g := GroupThousands(front, sep);
      assert GroupThousands(digits, sep) == g + [sep] + back;
      calc {
        RemoveChar(g + [sep] + back, sep);
        == { RemoveCharAppend(g + [sep], back, sep); }
        RemoveChar(g + [sep], sep) + RemoveChar(back, sep);
        == { RemoveCharAppend(g, [sep], sep); RemoveCharAbsent(back, sep); }
        RemoveChar(g, sep) + RemoveChar([sep], sep) + back;
        == { GroupRemoveSeparators(front, sep); assert RemoveChar([sep], sep) == []; }
        front + back;
      }
      assert front + back == digits;
    }
  }

  /** A replacement that does not touch the characters of `s` leaves it unchanged. */
  lemma ReplaceCharAbsent(s: string, a: char, b: char)
    requires forall i | 0 <= i < |s| :: s[i] != a
    ensures ReplaceChar(s, a, b) == s
  {
  }

  /** Replacing the underscores by spaces is grouping with spaces. */
  lemma {:induction false} GroupReplaceSeparator(digits: string)
    requires AllAsciiDigits(digits)
    ensures ReplaceChar(GroupThousands(digits, '_'), '_', ' ') == GroupThousands(digits, ' ')
  {
    if |digits| <= 3 {
      ReplaceCharAbsent(digits, '_', ' ');
    } else {
      var front, back := digits[..|digits| - 3], digits[|digits| - 3..];
      assert AllAsciiDigits(front) && AllAsciiDigits(back);
      var g := GroupThousands(front, '_');
      GroupReplaceSeparator(front);
      assert GroupThousands(digits, '_') == (g + ['_']) + back;
      ReplaceCharAppend(g + ['_'], back, '_', ' ');
      ReplaceCharAppend(g, ['_'], '_', ' ');
      ReplaceCharAbsent(back, '_', ' ');
      assert ReplaceChar(['_'], '_', ' ') == [' '];
      assert GroupThousands(digits, ' ') == GroupThousands(front, ' ') + [' '] + back;
    }
  }

  /** The printed id: the decimal digits of the id in groups of three from the right,
      separated by single spaces; without the spaces it is str(id). */
  lemma IdStringGroups(id: nat)
    ensures IdString(id) == GroupThousands(NatToDecimal(id), ' ')
    ensures RemoveChar(IdString(id), ' ') == NatToDecimal(id)
    ensures var r := IdString(id);
            forall i | 0 <= i < |r| :: r[i] == ' ' <==> (|r| - i) % 4 == 0
  {
    GroupReplaceSeparator(NatToDecimal(id));
  }

  /** A step of IdStringExample: the decimal digits of the example id. */
  lemma DecimalExample()
    ensures NatToDecimal(1234567) == "1234567"
  {
    assert NatToDecimal(1) == "1";
    assert NatToDecimal(12) == "12";
    assert NatToDecimal(123) == "123";
    assert NatToDecimal(1234) == "1234";
    assert NatToDecimal(12345) == "12345";
    assert NatToDecimal(123456) == "123456";
  }

  /** A step of IdStringExample: grouping the example's digits. */
  lemma GroupExample()
    ensures GroupThousands("1234567", ' ') == "1 234 567"
  {
    var d := "1234567";
    assert d[..4] == "1234" && d[4..] == "567";
    assert "1234"[..1] == "1" && "1234"[1..] == "234";
  }

  lemma IdStringExample()
    ensures IdString(1234567) == "1 234 567"
  {
    DecimalExample();
    GroupExample();
    IdStringGroups(1234567);
  }

  // ---------------------------------------------------------------- templates

  function MemberNumberLine(base: LabelData.LabelBase): string
  {
    "#" + IntToString(base.memberNumber)
  }

  /** create_temporary_storage_label: title, QR code with no gap below, the id set small
      and right-aligned, member, disposal date and description. */
  function TemporaryStorageTemplate(publicUrl: string, base: LabelData.LabelBase,
                                    description: string, expiresOn: Date): (t: Template)
    requires base.id >= 0
    ensures |t.objects| == 6 && t.heightMm.None?
    ensures t.objects[1] == ImageSpec(QrCode(publicUrl), None, Some(0))
    ensures t.objects[2].TextSpec? && t.objects[2].text == IdString(base.id) && t.objects[2].align == Right
    ensures t.objects[5] == Lines(description, true)
  {
    Template([
      Line("Temporary storage"),
      ImageSpec(QrCode(publicUrl), None, Some(0)),
      TextSpec(IdString(base.id), false, CANVAS_WIDTH as real / 5.0, true, None, Right, Some(10), Some(ITEM_MARGIN - 10)),
      Lines(MemberNumberLine(base) + "\n" + base.memberName, false),
      Lines("The board can throw this away after\n" + IsoDate(expiresOn), false),
      Lines(description, true)], None)
  }

  /** The horizontal offset of the QR code inside the rotating-storage icon. */
  function RotatingOffset(iconWidth: int): int
  {
    (iconWidth - ROTATING_QR_SIZE) / 2
  }

  /** create_rotating_storage_label. The id is pulled up over the icon by the QR offset
      and the same distance is added below it. */
  function RotatingStorageTemplate(publicUrl: string, base: LabelData.LabelBase,
                                   description: string, iconWidth: int): (t: Template)
    requires base.id >= 0
    ensures |t.objects| == 6 && t.heightMm.None?
    ensures t.objects[1].ImageSpec? && t.objects[1].source == RotatingIcon(publicUrl)
    ensures t.objects[2].TextSpec? && t.objects[2].text == IdString(base.id) && t.objects[2].align == Center
    ensures t.objects[5] == Lines(description, true)
  {
    var offset := RotatingOffset(iconWidth);
    Template([
      Line("Rotating storage"),
      ImageSpec(RotatingIcon(publicUrl), None, Some(0)),
      TextSpec(IdString(base.id), false, CANVAS_WIDTH as real / 5.0, true, None, Center,
               Some(-5 - offset), Some(ITEM_MARGIN - (-5) + offset)),
      Lines(MemberNumberLine(base) + "\n" + base.memberName, false),
      Lines("Printed " + IsoDate(DateOf(base.createdAt)) + "\n\nAny member can use this when in the Free For All section", false),
      Lines(description, true)], None)
  }

  /** The id line's two margins always add up to the default item margin, so it takes
      the same room as an unmargined line would, whatever the icon size. */
  lemma IdLineMargins(publicUrl: string, base: LabelData.LabelBase, description: string, expiresOn: Date, iconWidth: int)
    requires base.id >= 0
    ensures var s := TemporaryStorageTemplate(publicUrl, base, description, expiresOn).objects[2];
            s.marginTop.value + s.marginBottom.value == ITEM_MARGIN
    ensures var s := RotatingStorageTemplate(publicUrl, base, description, iconWidth).objects[2];
            s.marginTop.value + s.marginBottom.value == ITEM_MARGIN
  {
  }

  /** create_box_label: logotype, QR code, member number, member name. */
  function BoxTemplate(publicUrl: string, base: LabelData.LabelBase): (t: Template)
    ensures |t.objects| == 4 && t.heightMm.None?
    ensures t.objects[1] == Image(QrCode(publicUrl))
  {
    Template([Image(Logotype), Image(QrCode(publicUrl)), Line(MemberNumberLine(base)), Line(base.memberName)], None)
  }

  /** The warning text of create_warning_label. */
  function WarningText(createdAt: DateTime, expiresAt: DateTime): string
  {
    "This project is, as of " + IsoDate(DateOf(createdAt)) +
    ", violating our storage rules. Unless corrected, the board may throw this away by " +
    IsoDate(DateOf(expiresAt)) + "."
  }

  /** Python truthiness of an optional string: neither None nor empty. */
  predicate Truthy(s: Option<string>)
  {
    s.Some? && s.value != ""
  }

  /** The three fixed objects that close the warning label: a reference to the wiki page,
      its QR code and its address. */
  const WARNING_TAIL: seq<ObjectSpec> :=
    [Line("More info on the following web page:"), Image(QrCode(WIKI_LINK_MEMBER_STORAGE)), Line(WIKI_LINK_MEMBER_STORAGE)]

  /** The objects of create_warning_label around a given warning text: logotype, warning
      block, the description block when the description is non-empty, then the tail. */
  function WarningObjects(warning: string, description: Option<string>, tail: seq<ObjectSpec>): seq<ObjectSpec>
  {
    var head := [Image(Logotype), Lines(warning, true)];
    if Truthy(description) then head + [Lines(description.value, true)] + tail else head + tail
  }

  /** create_warning_label. */
  function WarningTemplate(base: LabelData.LabelBase, description: Option<string>, expiresAt: DateTime): (t: Template)
    ensures t.heightMm.None?
  {
    Template(WarningObjects(WarningText(base.createdAt, expiresAt), description, WARNING_TAIL), None)
  }

  /** No object of the sequence is a multi-line text block. */
  predicate NoTextBlock(objects: seq<ObjectSpec>)
  {
    forall i | 0 <= i < |objects| :: !objects[i].TextSpec? || !objects[i].multiline
  }

  lemma WarningTextNonEmpty(createdAt: DateTime, expiresAt: DateTime)
    ensures WarningText(createdAt, expiresAt) != ""
  {
    assert |WarningText(createdAt, expiresAt)| > 0;
  }

  lemma WarningTailShape()
    ensures |WARNING_TAIL| == 3 && NoTextBlock(WARNING_TAIL)
  {
  }

  /** Around a non-empty warning text and a tail without text blocks, the description
      block is present, third, exactly when the description is non-empty. */
  lemma WarningObjectsDescription(warning: string, description: Option<string>, tail: seq<ObjectSpec>)
    requires warning != "" && NoTextBlock(tail)
    ensures var objects := WarningObjects(warning, description, tail);
      |objects| == |tail| + (if Truthy(description) then 3 else 2) &&
      (Truthy(description) ==> objects[2] == Lines(description.value, true)) &&
      (Truthy(description) <==> exists i | 0 <= i < |objects| :: objects[i] == Lines(description.GetOr(""), true))
  {
    var objects := WarningObjects(warning, description, tail);
    if !Truthy(description) {
      assert description.GetOr("") == "";
      forall i | 0 <= i < |objects|
        ensures objects[i] != Lines("", true)
      {
        if i >= 2 {
          assert objects[i] == tail[i - 2];
        }
      }
    } else {
      assert objects[2] == Lines(description.value, true);
    }
  }

  /** The description block of the warning label is present, third of six objects,
      exactly when the description is non-empty; otherwise there are five objects. */
  lemma WarningTemplateDescription(base: LabelData.LabelBase, description: Option<string>, expiresAt: DateTime)
    ensures var t := WarningTemplate(base, description, expiresAt);
      |t.objects| == (if Truthy(description) then 6 else 5) &&
      (Truthy(description) ==> t.objects[2] == Lines(description.value, true)) &&
      (Truthy(description) <==> exists i | 0 <= i < |t.objects| :: t.objects[i] == Lines(description.GetOr(""), true))
  {
    WarningTextNonEmpty(base.createdAt, expiresAt);
    WarningTailShape();
    WarningObjectsDescription(WarningText(base.createdAt, expiresAt), description, WARNING_TAIL);
  }

  /** create_fire_box_storage_label */
  function FireSafetyTemplate(base: LabelData.LabelBase, expiresOn: Date): (t: Template)
    ensures |t.objects| == 7 && t.heightMm.None?
    ensures t.objects[0] == Image(FlammableIcon) && t.objects[6] == Line(IsoDate(expiresOn))
  {
    Template([
      Image(FlammableIcon),
      Line("Store in Fire safety cabinet"),
      Line("This product belongs to"),
      Line(MemberNumberLine(base)),
      Line(base.memberName),
      Line("Any member can use this product from"),
      Line(IsoDate(expiresOn))], None)
  }

  /** The 3D-printer label is 25 mm long. */
  const PRINTER_3D_LABEL_MM: real := 25.0

  /** Two lines share the 25 mm label: the pixel height left after three one-pixel gaps,
      halved and rounded down, times 1.33 rounded down. */
  function Printer3DMaxFontSize(): (s: int)
    ensures s == 146
  {
    var labelHeight := HeightInPx(PRINTER_3D_LABEL_MM);
    var perLine := (labelHeight - 3) / 2;
    perLine * 133 / 100
  }

  /** create_3d_printer_label */
  function Printer3DTemplate(base: LabelData.LabelBase): (t: Template)
    ensures |t.objects| == 2 && t.heightMm == Some(PRINTER_3D_LABEL_MM)
    ensures forall i | 0 <= i < 2 :: t.objects[i].TextSpec? && t.objects[i].maxFontSize == Some(146)
  {
    var size := Printer3DMaxFontSize();
    Template([
      TextSpec(MemberNumberLine(base), false, CANVAS_WIDTH as real, true, Some(size), Center, None, None),
      TextSpec(base.memberName, false, CANVAS_WIDTH as real, true, Some(size), Center, None, None)],
      Some(PRINTER_3D_LABEL_MM))
  }

  /** The membership line of the name tag. */
  function MembershipLine(expiresOn: Option<Date>, today: Date): (s: string)
    ensures s == "No active membership" <==> expiresOn.None? || expiresOn.value < today
  {
    if expiresOn.None? || expiresOn.value < today then "No active membership"
    else
      var s := "Member until " + IsoDate(expiresOn.value);
      assert s[0] == 'M';
      s
  }

  /** create_name_tag; `today` is datetime.now().date(). */
  function NameTagTemplate(base: LabelData.LabelBase, expiresOn: Option<Date>, today: Date): (t: Template)
    ensures |t.objects| == 2 && t.heightMm.None? && t.objects[0] == Line(base.memberName)
    ensures t.objects[1] == Line("No active membership") <==> expiresOn.None? || expiresOn.value < today
  {
    Template([Line(base.memberName), Line(MembershipLine(expiresOn, today))], None)
  }

  /** create_meetup_name_tag */
  function MeetupNameTagTemplate(base: LabelData.LabelBase): (t: Template)
    ensures |t.objects| == 3 && t.heightMm.None? && t.objects[0] == Line(base.memberName)
  {
    Template([Line(base.memberName), Line("Ask me about:"), Line("\n")], None)
  }

  function Verbatim(text: string, multiline: bool): ObjectSpec
  {
    TextSpec(text, multiline, CANVAS_WIDTH as real, false, None, Center, None, None)
  }

  /** create_drying_label */
  function DryingTemplate(base: LabelData.LabelBase, expiresAt: DateTime): (t: Template)
    ensures |t.objects| == 4 && t.heightMm.None?
    ensures forall i | 0 <= i < 4 :: t.objects[i].TextSpec? && !t.objects[i].replaceWhitespace
    ensures t.objects[1].text == IsoMinute(expiresAt)
  {
    Template([
      Verbatim("\nDone drying by\n", true),
      Verbatim(IsoMinute(expiresAt), false),
      Verbatim(MemberNumberLine(base), false),
      Verbatim(base.memberName + "\n", true)], None)
  }

  /** The uploaded label: the record and the public URL its QR code points to. */
  datatype UploadedLabel = UploadedLabel(record: LabelData.Label, publicObservationUrl: string)

  /** The dispatch of create_label over the label variants. */
  function TemplateFor(uploaded: UploadedLabel, today: Date): (t: Template)
    requires uploaded.record.base.id >= 0
    ensures t.heightMm.Some? <==> uploaded.record.Printer3DLabel?
    ensures uploaded.record.BoxLabel? || uploaded.record.TemporaryStorageLabel? ==>
      |t.objects| >= 2 && t.objects[1].ImageSpec? && t.objects[1].source == QrCode(uploaded.publicObservationUrl)
  {
    var url := uploaded.publicObservationUrl;
    match uploaded.record
    case BoxLabel(base) => BoxTemplate(url, base)
    case Printer3DLabel(base) => Printer3DTemplate(base)
    case NameTag(base, expiresOn) => NameTagTemplate(base, expiresOn, today)
    case MeetupNameTag(base) => MeetupNameTagTemplate(base)
    case FireSafetyLabel(base, expiresOn) => FireSafetyTemplate(base, expiresOn)
    case TemporaryStorageLabel(base, description, expiresOn) => TemporaryStorageTemplate(url, base, description, expiresOn)
    case DryingLabel(base, expiresAt) => DryingTemplate(base, expiresAt)
  }

  predicate ShowsText(t: Template, part: string)
  {
    exists i | 0 <= i < |t.objects| :: t.objects[i].TextSpec? && Contains(t.objects[i].text, part)
  }

  lemma ShowsTextAt(t: Template, i: nat, x: string, part: string, y: string)
    requires i < |t.objects| && t.objects[i].TextSpec? && t.objects[i].text == x + part + y
    ensures ShowsText(t, part)
  {
    ContainsConcat(x, part, y);
  }

  /** A text object whose whole text is `part` shows it. */
  lemma ShowsLine(t: Template, i: nat, part: string)
    requires i < |t.objects| && t.objects[i].TextSpec? && t.objects[i].text == part
    ensures ShowsText(t, part)
  {
    assert "" + part + "" == part;
    ShowsTextAt(t, i, "", part, "");
  }

  lemma BoxShowsMember(url: string, base: LabelData.LabelBase)
    ensures ShowsText(BoxTemplate(url, base), base.memberName)
    ensures ShowsText(BoxTemplate(url, base), MemberNumberLine(base))
  {
    ShowsLine(BoxTemplate(url, base), 3, base.memberName);
    ShowsLine(BoxTemplate(url, base), 2, MemberNumberLine(base));
  }

  lemma Printer3DShowsMember(base: LabelData.LabelBase)
    ensures ShowsText(Printer3DTemplate(base), base.memberName)
    ensures ShowsText(Printer3DTemplate(base), MemberNumberLine(base))
  {
    ShowsLine(Printer3DTemplate(base), 1, base.memberName);
    ShowsLine(Printer3DTemplate(base), 0, MemberNumberLine(base));
  }

  lemma FireSafetyShowsMember(base: LabelData.LabelBase, expiresOn: Date)
    ensures ShowsText(FireSafetyTemplate(base, expiresOn), base.memberName)
    ensures ShowsText(FireSafetyTemplate(base, expiresOn), MemberNumberLine(base))
  {
    ShowsLine(FireSafetyTemplate(base, expiresOn), 4, base.memberName);
    ShowsLine(FireSafetyTemplate(base, expiresOn), 3, MemberNumberLine(base));
  }

  lemma TemporaryStorageShowsMember(url: string, base: LabelData.LabelBase, description: string, expiresOn: Date)
    requires base.id >= 0
    ensures ShowsText(TemporaryStorageTemplate(url, base, description, expiresOn), base.memberName)
    ensures ShowsText(TemporaryStorageTemplate(url, base, description, expiresOn), MemberNumberLine(base))
  {
    var t := TemporaryStorageTemplate(url, base, description, expiresOn);
    var name, number := base.memberName, MemberNumberLine(base);
    assert t.objects[3].text == number + "\n" + name + "";
    ShowsTextAt(t, 3, number + "\n", name, "");
    assert t.objects[3].text == "" + number + ("\n" + name);
    ShowsTextAt(t, 3, "", number, "\n" + name);
  }

  lemma DryingShowsMember(base: LabelData.LabelBase, expiresAt: DateTime)
    ensures ShowsText(DryingTemplate(base, expiresAt), base.memberName)
    ensures ShowsText(DryingTemplate(base, expiresAt), MemberNumberLine(base))
  {
    var t := DryingTemplate(base, expiresAt);
    assert t.objects[3].text == "" + base.memberName + "\n";
    ShowsTextAt(t, 3, "", base.memberName, "\n");
    ShowsLine(t, 2, MemberNumberLine(base));
  }

  /** Every label variant prints the member's name, and every variant except the two
      name tags also prints "#" and the member number. */
  lemma TemplatesShowMember(uploaded: UploadedLabel, today: Date)
    requires uploaded.record.base.id >= 0
    ensures ShowsText(TemplateFor(uploaded, today), uploaded.record.base.memberName)
    ensures !uploaded.record.NameTag? && !uploaded.record.MeetupNameTag? ==>
      ShowsText(TemplateFor(uploaded, today), MemberNumberLine(uploaded.record.base))
  {
    var url := uploaded.publicObservationUrl;
    match uploaded.record
    case BoxLabel(base) => BoxShowsMember(url, base);
    case Printer3DLabel(base) => Printer3DShowsMember(base);
    case NameTag(base, expiresOn) => ShowsLine(NameTagTemplate(base, expiresOn, today), 0, base.memberName);
    case MeetupNameTag(base) => ShowsLine(MeetupNameTagTemplate(base), 0, base.memberName);
    case FireSafetyLabel(base, expiresOn) => FireSafetyShowsMember(base, expiresOn);
    case TemporaryStorageLabel(base, description, expiresOn) =>
      TemporaryStorageShowsMember(url, base, description, expiresOn);
    case DryingLabel(base, expiresAt) => DryingShowsMember(base, expiresAt);
  }

  // ---------------------------------------------------------------- construction

  /** The multi-line fitting of a text spec terminates. */
  ghost predicate Buildable(fonts: Fonts, spec: ObjectSpec)
  {
    spec.TextSpec? && spec.multiline ==>
      GrowStops(fonts, fonts.fill(spec.text, spec.replaceWhitespace), spec.labelWidth,
                StartSize(spec.text, true, spec.maxFontSize))
  }

  /** A constructed object is what its spec asked for: a text at its fitted size (the
      largest fitting size from the start down for one line; for several lines a size
      that fits while the next size up does not), an image scaled to the canvas width
      with its height truncated. */
  ghost predicate Realises(fonts: Fonts, imageSize: ImageSource -> (nat, nat), spec: ObjectSpec, o: LabelObject)
  {
    match spec
    case TextSpec(text, multiline, labelWidth, replaceWhitespace, maxFontSize, align, marginTop, marginBottom) =>
      o.LabelString? && o.multiline == multiline && o.align == align &&
      o.marginTop == marginTop && o.marginBottom == marginBottom &&
      o.text == (if multiline then fonts.fill(text, replaceWhitespace) else text) &&
      (if multiline then MultiLineFit(fonts, o.text, labelWidth, o.fontSize)
       else SingleLineFit(fonts, text, labelWidth, StartSize(text, false, maxFontSize), o.fontSize))
    case ImageSpec(source, marginTop, marginBottom) =>
      var (w, h) := imageSize(source);
      o.LabelImage? && o.width == CANVAS_WIDTH &&
      o.height * w <= CANVAS_WIDTH * h < (o.height + 1) * w &&
      o.marginTop == marginTop && o.marginBottom == marginBottom
  }

  /** Constructing the object of this spec raises. */
  ghost predicate SpecFails(fonts: Fonts, imageSize: ImageSource -> (nat, nat), spec: ObjectSpec)
  {
    match spec
    case TextSpec(text, multiline, labelWidth, replaceWhitespace, maxFontSize, _, _, _) =>
      StringFails(fonts, text, multiline, labelWidth, replaceWhitespace, maxFontSize)
    case ImageSpec(source, _, _) =>
      ImageFails(imageSize(source).0, imageSize(source).1, CANVAS_WIDTH)
  }

  /** The height Label.__init__ gives a label of these objects. */
  function LabelHeight(objects: seq<LabelObject>, heightMm: Option<real>): int
  {
    if heightMm.None? then ITEM_MARGIN + Extent(objects, ITEM_MARGIN) else HeightInPx(heightMm.value)
  }

  /** Construct each object of a template in order, then the label; the first object
      that cannot be constructed ends it with that error. */
  method Build(fonts: Fonts, imageSize: ImageSource -> (nat, nat), t: Template) returns (r: Result<Label, LayoutError>)
    requires forall s | s in t.objects :: Buildable(fonts, s)
    ensures r.Err? <==> exists i | 0 <= i < |t.objects| :: SpecFails(fonts, imageSize, t.objects[i])
    ensures r.Ok? ==> fresh(r.value) && r.value.labelWidth == IMG_WIDTH
    ensures r.Ok? ==> |r.value.objects| == |t.objects|
    ensures r.Ok? ==> forall i | 0 <= i < |t.objects| :: Realises(fonts, imageSize, t.objects[i], r.value.objects[i])
    ensures r.Ok? ==> r.value.labelHeight == LabelHeight(r.value.objects, t.heightMm)
  {
    var objects: seq<LabelObject> := [];
    var i := 0;
    while i < |t.objects|
      invariant 0 <= i <= |t.objects| && |objects| == i
      invariant forall j | 0 <= j < i :: Realises(fonts, imageSize, t.objects[j], objects[j])
      invariant forall j | 0 <= j < i :: !SpecFails(fonts, imageSize, t.objects[j])
    {
      var spec := t.objects[i];
      assert spec in t.objects;
      var made: Result<LabelObject, LayoutError>;
      match spec {
        case TextSpec(text, multiline, labelWidth, replaceWhitespace, maxFontSize, align, marginTop, marginBottom) =>
          made := MakeLabelString(fonts, text, multiline, labelWidth, replaceWhitespace, maxFontSize, align, marginTop, marginBottom);
        case ImageSpec(source, marginTop, marginBottom) =>
          var (w, h) := imageSize(source);
          made := MakeLabelImage(w, h, CANVAS_WIDTH, marginTop, marginBottom);
      }
      if made.Err? {
        return Err(made.error);
      }
      objects := objects + [made.value];
      i := i + 1;
    }
    var made := new Label(objects, t.heightMm);
    return Ok(made);
  }

  /** create_label: pick the variant's template and construct it. */
  method CreateLabel(fonts: Fonts, imageSize: ImageSource -> (nat, nat), uploaded: UploadedLabel, today: Date)
    returns (r: Result<Label, LayoutError>)
    requires uploaded.record.base.id >= 0
    requires forall s | s in TemplateFor(uploaded, today).objects :: Buildable(fonts, s)
    ensures r.Err? <==> exists i | 0 <= i < |TemplateFor(uploaded, today).objects| ::
      SpecFails(fonts, imageSize, TemplateFor(uploaded, today).objects[i])
    ensures r.Ok? ==> fresh(r.value)
    ensures r.Ok? ==> |r.value.objects| == |TemplateFor(uploaded, today).objects|
    ensures r.Ok? ==> forall i | 0 <= i < |r.value.objects| ::
      Realises(fonts, imageSize, TemplateFor(uploaded, today).objects[i], r.value.objects[i])
    ensures r.Ok? ==> r.value.labelHeight == LabelHeight(r.value.objects, TemplateFor(uploaded, today).heightMm)
  {
    r := Build(fonts, imageSize, TemplateFor(uploaded, today));
  }
}
