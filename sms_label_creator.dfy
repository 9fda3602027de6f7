/** The first label layout (src/sms_label_creator.py): a fixed 696 px wide canvas with
    texts fitted one by one to the 569 px print width and stacked with 58 px margins.
    Font metrics, text wrapping and QR-code images are library calls and are inputs
    here. */
module SmsLabelCreator {
  import opened Wrappers
  import opened Text
  import opened Clock
  import opened Json

  const IMG_WIDTH: int := 696
  const IMG_MARGIN: int := 58
  const CANVAS_WIDTH: int := 569
  /** Days a temporary-storage item may stay. */
  const TMP_STORAGE_LENGTH: int := 30
  const QR_VERSION: string := "1"

  const JSON_DATE_KEY: string := "date"
  const JSON_MEMBER_ID_KEY: string := "id"
  const JSON_NAME_KEY: string := "name"
  const JSON_VERSION_KEY: string := "version"

  const STORAGE_START_SIZE: int := 200
  const ID_START_SIZE: int := 300
  const NAME_START_SIZE: int := 200
  const DATE_START_SIZE: int := 300
  const DESCRIPTION_START_SIZE: int := 140

  /** Pixel extent of a text, as font.getsize and multiline_textsize report it. */
  datatype Size = Size(width: nat, height: nat)

  /** The font library, applied to the one font file: single-line and multi-line
      extents at a point size, and textwrap.fill(text, 40, break_long_words=False). */
  datatype SmsFonts = SmsFonts(getsize: (string, int) -> Size, multilineSize: (string, int) -> Size, fill: string -> string)

  /** A point size that was chosen and the extent measured at it. */
  datatype Fitted = Fitted(size: int, extent: Size)

  /** ImageFont.truetype refuses a point size below one. */
  datatype SmsError = InvalidFontSize(size: int)

  datatype SmsItem =
    | SmsText(x: int, y: int, text: string, fitted: Fitted, multiline: bool)
    | SmsPaste(x: int, y: int, image: Size)

  datatype SmsCanvas = SmsCanvas(width: int, height: int, items: seq<SmsItem>)

  /** The loop of get_font_size and of the description: from `start`, step the size
      down by one while the measured width exceeds the print width. */
  method ShrinkToWidth(measure: int -> Size, start: int) returns (r: Result<Fitted, SmsError>)
    ensures r.Ok? ==> 1 <= r.value.size <= start && r.value.extent == measure(r.value.size)
    ensures r.Ok? ==> r.value.extent.width <= CANVAS_WIDTH
    ensures r.Ok? ==> forall k | r.value.size < k <= start :: measure(k).width > CANVAS_WIDTH
    ensures r.Err? <==> forall k | 1 <= k <= start :: measure(k).width > CANVAS_WIDTH
  {
    var size := start;
    if size < 1 {
      return Err(InvalidFontSize(size));
    }
    var extent := measure(size);
    while extent.width > CANVAS_WIDTH
      invariant 1 <= size <= start && extent == measure(size)
      invariant forall k | size < k <= start :: measure(k).width > CANVAS_WIDTH
      decreases size
    {
      size := size - 1;
      if size < 1 {
        return Err(InvalidFontSize(size));
      }
      extent := measure(size);
    }
    return Ok(Fitted(size, extent));
  }

  /** `f` is get_font_size's choice for `text`: the largest size from `start` down whose
      measured width fits the print width, with its measured extent. */
  predicate FitsFrom(fonts: SmsFonts, text: string, start: int, f: Fitted)
  {
    1 <= f.size <= start && f.extent == fonts.getsize(text, f.size) && f.extent.width <= CANVAS_WIDTH &&
    forall k | f.size < k <= start :: fonts.getsize(text, k).width > CANVAS_WIDTH
  }

  /** No size from `start` down to 1 fits, so get_font_size reaches size 0 and the font
      library raises. */
  predicate NothingFits(fonts: SmsFonts, text: string, start: int)
  {
    forall k | 1 <= k <= start :: fonts.getsize(text, k).width > CANVAS_WIDTH
  }

  /** get_font_size(estimated_size, text) */
  method GetFontSize(fonts: SmsFonts, estimate: int, text: string) returns (r: Result<Fitted, SmsError>)
    ensures r.Ok? ==> FitsFrom(fonts, text, estimate, r.value)
    ensures r.Err? <==> NothingFits(fonts, text, estimate)
  {
    var measure := k => fonts.getsize(text, k);
    assert forall k :: measure(k) == fonts.getsize(text, k);
    r := ShrinkToWidth(measure, estimate);
  }

  /** `f` is the description's size: the largest from 140 down whose wrapped block fits
      the print width, with the block's extent. */
  predicate DescriptionFits(fonts: SmsFonts, description: string, f: Fitted)
  {
    var wrapped := fonts.fill(description);
    1 <= f.size <= DESCRIPTION_START_SIZE && f.extent == fonts.multilineSize(wrapped, f.size) &&
    f.extent.width <= CANVAS_WIDTH &&
    forall k | f.size < k <= DESCRIPTION_START_SIZE :: fonts.multilineSize(wrapped, k).width > CANVAS_WIDTH
  }

  /** No description size from 140 down to 1 fits. */
  predicate DescriptionNeverFits(fonts: SmsFonts, description: string)
  {
    forall k | 1 <= k <= DESCRIPTION_START_SIZE :: fonts.multilineSize(fonts.fill(description), k).width > CANVAS_WIDTH
  }

  /** The description block: wrapped at 40 columns, sized from 140 down until the
      multi-line extent fits. */
  method DescriptionFontSize(fonts: SmsFonts, description: string) returns (r: Result<Fitted, SmsError>)
    ensures r.Ok? ==> DescriptionFits(fonts, description, r.value)
    ensures r.Err? <==> DescriptionNeverFits(fonts, description)
  {
    var wrapped := fonts.fill(description);
    var measure := k => fonts.multilineSize(wrapped, k);
    assert forall k :: measure(k) == fonts.multilineSize(wrapped, k);
    r := ShrinkToWidth(measure, DESCRIPTION_START_SIZE);
  }

  /** floor((IMG_WIDTH - width) / 2): the x that centres a width on the canvas. */
  function Centre(width: int): (x: int)
    ensures width <= IMG_WIDTH ==> 0 <= x && x + width <= IMG_WIDTH
    ensures 0 <= (IMG_WIDTH - width) - 2 * x <= 1
  {
    (IMG_WIDTH - width) / 2
  }

  /** get_end_date_string: the day TMP_STORAGE_LENGTH days from now. */
  function EndDateString(now: DateTime): string
  {
    IsoDate(DateOf(now) + TMP_STORAGE_LENGTH)
  }

  /** f'#{member_id}': "#" followed by the id as Python's str() shows an int, a str, None
      or a bool. The repr of a list or dict is not modelled; those ids show as "#" alone. */
  function IdText(memberId: Json): string
  {
    match memberId
    case Int(i) => "#" + IntToString(i)
    case Str(s) => "#" + s
    case Null => "#None"
    case Bool(b) => if b then "#True" else "#False"
    case _ => "#"
  }

  function TextHeight(item: SmsItem): int
  {
    if item.SmsText? then item.fitted.extent.height else 0
  }

  /** The canvas of create_temporary_storage_label once the five texts are fitted:
      the title, then the id directly under it, then each later line one margin below
      the previous; the canvas adds five margins to the five text heights. The first
      four lines are centred; the description starts where the date starts, because the
      source centres it by the date's width. */
  function StackTemporaryStorage(idText: string, name: string, dateText: string, descriptionText: string,
                                 storage: Fitted, id: Fitted, nameFit: Fitted, date: Fitted, desc: Fitted): (c: SmsCanvas)
    ensures c.width == IMG_WIDTH && |c.items| == 5
    ensures forall i | 0 <= i < 5 :: c.items[i].SmsText?
    ensures c.items[0].text == "Temporary storage" && c.items[1].text == idText && c.items[2].text == name &&
            c.items[3].text == dateText && c.items[4].text == descriptionText && c.items[4].multiline
    ensures c.items[0].fitted == storage && c.items[1].fitted == id && c.items[2].fitted == nameFit &&
            c.items[3].fitted == date && c.items[4].fitted == desc
    ensures c.height == 5 * IMG_MARGIN + TextHeight(c.items[0]) + TextHeight(c.items[1]) + TextHeight(c.items[2]) +
                        TextHeight(c.items[3]) + TextHeight(c.items[4])
    ensures c.items[0].y == IMG_MARGIN && c.items[1].y == c.items[0].y + TextHeight(c.items[0])
    ensures forall i | 2 <= i < 5 :: c.items[i].y == c.items[i - 1].y + TextHeight(c.items[i - 1]) + IMG_MARGIN
    ensures forall i | 0 <= i < 4 :: c.items[i].x == Centre(c.items[i].fitted.extent.width)
    ensures c.items[4].x == c.items[3].x
  {
    var y0 := IMG_MARGIN;
    var y1 := y0 + storage.extent.height;
    var y2 := y1 + id.extent.height + IMG_MARGIN;
    var y3 := y2 + nameFit.extent.height + IMG_MARGIN;
    var y4 := y3 + date.extent.height + IMG_MARGIN;
    SmsCanvas(IMG_WIDTH,
      5 * IMG_MARGIN + storage.extent.height + id.extent.height + nameFit.extent.height +
        date.extent.height + desc.extent.height,
      [SmsText(Centre(storage.extent.width), y0, "Temporary storage", storage, false),
       SmsText(Centre(id.extent.width), y1, idText, id, false),
       SmsText(Centre(nameFit.extent.width), y2, name, nameFit, false),
       SmsText(Centre(date.extent.width), y3, dateText, date, false),
       SmsText(Centre(date.extent.width), y4, descriptionText, desc, true)])
  }

  /** create_temporary_storage_label: each text is fitted to the canvas width, then
      stacked. */
  method CreateTemporaryStorageLabel(fonts: SmsFonts, memberId: Json, name: string, description: string, now: DateTime)
    returns (r: Result<SmsCanvas, SmsError>)
    ensures r.Ok? ==> var c := r.value;
      |c.items| == 5 && (forall i | 0 <= i < 5 :: c.items[i].SmsText?) &&
      c == StackTemporaryStorage(IdText(memberId), name, EndDateString(now), fonts.fill(description),
                                 c.items[0].fitted, c.items[1].fitted, c.items[2].fitted, c.items[3].fitted, c.items[4].fitted)
    ensures r.Ok? ==> var c := r.value;
      |c.items| == 5
        && FitsFrom(fonts, "Temporary storage", STORAGE_START_SIZE, c.items[0].fitted)
        && FitsFrom(fonts, IdText(memberId), ID_START_SIZE, c.items[1].fitted)
        && FitsFrom(fonts, name, NAME_START_SIZE, c.items[2].fitted)
        && FitsFrom(fonts, EndDateString(now), DATE_START_SIZE, c.items[3].fitted)
        && DescriptionFits(fonts, description, c.items[4].fitted)
    ensures r.Err? <==>
      NothingFits(fonts, "Temporary storage", STORAGE_START_SIZE) || NothingFits(fonts, IdText(memberId), ID_START_SIZE) ||
      NothingFits(fonts, name, NAME_START_SIZE) || NothingFits(fonts, EndDateString(now), DATE_START_SIZE) ||
      DescriptionNeverFits(fonts, description)
  {
    var storage :- GetFontSize(fonts, STORAGE_START_SIZE, "Temporary storage");
    var id :- GetFontSize(fonts, ID_START_SIZE, IdText(memberId));
    var nameFit :- GetFontSize(fonts, NAME_START_SIZE, name);
    var date :- GetFontSize(fonts, DATE_START_SIZE, EndDateString(now));
    var desc :- DescriptionFontSize(fonts, description);
    var c := StackTemporaryStorage(IdText(memberId), name, EndDateString(now), fonts.fill(description),
                                   storage, id, nameFit, date, desc);
    return Ok(c);
  }

  /** The stacked lines leave exactly one margin under the description, and the
      centred lines lie inside the canvas. */
  lemma TemporaryStorageLayoutFits(c: SmsCanvas)
    requires |c.items| == 5 && c.width == IMG_WIDTH
    requires forall i | 0 <= i < 5 :: c.items[i].SmsText? && c.items[i].fitted.extent.width <= CANVAS_WIDTH
    requires c.height == 5 * IMG_MARGIN + TextHeight(c.items[0]) + TextHeight(c.items[1]) + TextHeight(c.items[2]) +
                         TextHeight(c.items[3]) + TextHeight(c.items[4])
    requires c.items[0].y == IMG_MARGIN && c.items[1].y == c.items[0].y + TextHeight(c.items[0])
    requires forall i | 2 <= i < 5 :: c.items[i].y == c.items[i - 1].y + TextHeight(c.items[i - 1]) + IMG_MARGIN
    requires forall i | 0 <= i < 4 :: c.items[i].x == Centre(c.items[i].fitted.extent.width)
    ensures c.items[4].y + TextHeight(c.items[4]) + IMG_MARGIN == c.height
    ensures forall i | 0 <= i < 4 :: 0 <= c.items[i].x && c.items[i].x + c.items[i].fitted.extent.width <= c.width
    ensures forall i | 0 <= i < 4 :: c.items[i].y + TextHeight(c.items[i]) <= c.items[i + 1].y
  {
    assert c.items[2].y == c.items[1].y + TextHeight(c.items[1]) + IMG_MARGIN;
    assert c.items[3].y == c.items[2].y + TextHeight(c.items[2]) + IMG_MARGIN;
    assert c.items[4].y == c.items[3].y + TextHeight(c.items[3]) + IMG_MARGIN;
  }

  /** The QR payload of the box label: a JSON object with the date, the member id,
      the name and the payload version. */
  function BoxPayload(memberId: Json, name: string, now: DateTime): (j: Json)
    ensures j.Object? && j.fields.Keys == {JSON_DATE_KEY, JSON_MEMBER_ID_KEY, JSON_NAME_KEY, JSON_VERSION_KEY}
    ensures j.fields[JSON_VERSION_KEY] == Str("1") && j.fields[JSON_MEMBER_ID_KEY] == memberId
    ensures j.fields[JSON_NAME_KEY] == Str(name) && j.fields[JSON_DATE_KEY] == Str(IsoDate(DateOf(now)))
  {
    Object(map[JSON_DATE_KEY := Str(IsoDate(DateOf(now))), JSON_MEMBER_ID_KEY := memberId,
               JSON_NAME_KEY := Str(name), JSON_VERSION_KEY := Str(QR_VERSION)])
  }

  /** create_box_label. The QR image of the payload and the logotype are given as
      pixel sizes: `qrSize` is the size of the QR code made from the payload. */
  method CreateBoxLabel(fonts: SmsFonts, qrSize: Json -> Size, logo: Size, memberId: Json, name: string, now: DateTime)
    returns (r: Result<SmsCanvas, SmsError>)
    ensures r.Ok? ==> var c := r.value;
      c.width == IMG_WIDTH && |c.items| == 4 &&
      c.items[0] == SmsPaste(IMG_MARGIN, IMG_MARGIN, logo) &&
      c.items[1] == SmsPaste(Centre(qrSize(BoxPayload(memberId, name, now)).width), IMG_MARGIN + logo.height,
                             qrSize(BoxPayload(memberId, name, now))) &&
      c.items[2].SmsText? && c.items[2].text == IdText(memberId) &&
      c.items[3].SmsText? && c.items[3].text == name &&
      FitsFrom(fonts, IdText(memberId), ID_START_SIZE, c.items[2].fitted) &&
      FitsFrom(fonts, name, NAME_START_SIZE, c.items[3].fitted) &&
      c.items[2].x == Centre(c.items[2].fitted.extent.width) &&
      c.items[3].x == Centre(c.items[3].fitted.extent.width)
    // 58 + logo + QR + id + name
    ensures r.Ok? ==> var c := r.value;
      c.height == IMG_MARGIN + logo.height + c.items[1].image.height + TextHeight(c.items[2]) + TextHeight(c.items[3])
    // the id overlaps the QR code's bottom by one margin
    ensures r.Ok? ==> var c := r.value;
      c.items[2].y == c.items[1].y + c.items[1].image.height - IMG_MARGIN
    // the name is centred in the room below the id line: half a margin above and below
    ensures r.Ok? ==> var c := r.value;
      c.items[3].y - (c.items[2].y + TextHeight(c.items[2])) == IMG_MARGIN / 2 &&
      c.height - (c.items[3].y + TextHeight(c.items[3])) == IMG_MARGIN / 2
    ensures r.Err? <==> NothingFits(fonts, IdText(memberId), ID_START_SIZE) || NothingFits(fonts, name, NAME_START_SIZE)
  {
    var payload := BoxPayload(memberId, name, now);
    var qr := qrSize(payload);
    var idText := IdText(memberId);
    var id :- GetFontSize(fonts, ID_START_SIZE, idText);
    var nameFit :- GetFontSize(fonts, NAME_START_SIZE, name);

    var height := IMG_MARGIN + logo.height + qr.height + id.extent.height + nameFit.extent.height;
    var items: seq<SmsItem> := [];

    var x := IMG_MARGIN;
    var y := IMG_MARGIN;
    items := items + [SmsPaste(x, y, logo)];

    x := Centre(qr.width);
    y := y + logo.height;
    items := items + [SmsPaste(x, y, qr)];

    x := Centre(id.extent.width);
    y := y + qr.height - IMG_MARGIN;
    items := items + [SmsText(x, y, idText, id, false)];

    x := Centre(nameFit.extent.width);
    var below := y + id.extent.height;
    // floor(below + (height - below) / 2 - name_height / 2), in exact arithmetic
    y := (below + height - nameFit.extent.height) / 2;
    items := items + [SmsText(x, y, name, nameFit, false)];

    return Ok(SmsCanvas(IMG_WIDTH, height, items));
  }
}
