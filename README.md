# memberbooth in Dafny

A model of the memberbooth kiosk of Stockholm Makerspace. A member scans their key tag at
the kiosk. The kiosk looks the member up in the member database and then prints storage
labels for them. The model covers the following parts:

- **Member records.** Parsing a member record from the database's JSON answer: the current
  parser (`Backend`) and the older one (`LegacyMember`).
- **Label records.** The label records printed labels carry (`LabelData`). This includes
  their "approximately equal" comparison and the rounding of drying times to the hour.
- **Label layout.** The Pillow-based layout engine (`LabelCreator`): font-size search,
  object placement, and canvas height. The per-kind templates it fills
  (`LabelTemplates`), and the older stand-alone label creator (`SmsLabelCreator`).
- **Screens.** The Tk screens (`Design`): the inactivity timer armed on Tk's event loop,
  the tag entry with its digit filter and debounce, the self-clearing error line, and the
  description box with its 256-character cap.
- **State machine.** The kiosk's state machine in three versions:
  - the current one (`States`, src/gui/states.py);
  - the previous one (`EarlyStates`, src/application_states.py);
  - the prototype (`Prototype`, main.py).
- **Key reader.** The EM4100 serial key reader (`KeyReader`): readout matching, the
  Aptus tag id derived from a readout, the echo check, and reader discovery.
- **Command line.** The two argparse actions (`ArgParser`).
- **Login state.** The token-file login state of API clients (`TokenConfig`).

Collaborators enter the model as parameters. These are the database lookup, the
printer, the clock, the random id, the font metrics and the serial devices. Code that
changes state in place is modelled as classes with `modifies` frames:

- the Tk root, whose pending `after` callbacks are a map from handle to job;
- the screens and the states;
- the serial port and the argparse namespace.

Each method states the fields it changes and which of the others it leaves alone;
where a specification function exists, the new state is stated against it. The
properties the kiosk relies on are lemmas over those functions. Three examples:

- The state machine never shows a member screen without a member.
- The timeout logs the member out.
- Every registered `--x` option also registers `--no-x`.

## Model

| member | source | states |
|---|---|---|
| Backend.Render | src/backend/member.py:30-31 | an end date prints as a check mark exactly when it is active, and as a cross otherwise |
| Backend.Datify | src/backend/member.py:55-58 | a null date gives no date; a string the date parser accepts gives exactly that day at 23:59:59; every other value, and a string the parser refuses, is a parse error |
| Backend.Lookup | src/backend/member.py:60-75 | a field lookup succeeds exactly when the value is an object holding the key, and returns that field; otherwise it is a parse error |
| Backend.ParseEndDate | src/backend/member.py:67-72 | the period parses exactly when `<prefix>_active` is a boolean and `<prefix>_end` is null or a parseable date string; the result holds that flag and the datified end; every failure is a parse error |
| Backend.ParseData | src/backend/member.py:60-75 | the record parses exactly when the names are strings, the number an integer and all four periods well formed; a parsed member carries the record's first name, last name, number and four end dates; every failure is a parse error |
| Backend.FromResponse | src/backend/member.py:51-77 | no response or a null `data` gives no member; a non-empty response without `data` is a bare key error; an empty response is a parse error; a non-null `data` gives a member exactly when it is well formed, and that member is the one parsed from `data` |
| Backend.FromMemberNumber | src/backend/member.py:83-89 | NoMatchingMemberNumber for that number exactly when the response has no member; otherwise the member of the response |
| Backend.CompleteRecordParses | src/backend/member.py:51-77 | a response whose `data` holds string names, an integer number and four well-formed periods gives exactly the member with those names, that number and those periods |
| Backend.MissingFieldIsParseError | src/backend/member.py:60-75 | a record lacking any required field is a parse error, not a key error |
| LegacyMember.Get | src/member.py:15-23 | a field lookup succeeds exactly when the key is present, and returns that field |
| LegacyMember.EndDateOf | src/member.py:20-22 | a null end date stays absent; a string the parser accepts gives exactly the parsed date; any other value is an error |
| LegacyMember.CompleteTagInfoParses | src/member.py:13-23 | a tag-info response with string names, an integer number and a null or parseable end date gives exactly the member with those fields |
| LegacyMember.FromTagId | src/member.py:13-23 | a null `data` is the "no member for this tag" error for that tag; the call succeeds exactly when the member record is well formed, and the member carries the names, number and end date of the record |
| LabelData.BaseFromMember | src/backend/label_data.py:32-51 | the base gets a 13-digit id below 10^13, the member's number both as member and as creator, "first last" as name, the current time, and version 3 |
| LabelData.IdMayBeShort | src/backend/label_data.py:42 | a random id with leading zeros becomes a shorter number (42 from "0000000000042") |
| LabelData.BaseApproximatelyEqualReflexive | src/backend/label_data.py:53-54 | every base is approximately equal to itself |
| LabelData.BaseApproximatelyEqualSymmetric | src/backend/label_data.py:53-54 | approximate equality of bases is symmetric |
| LabelData.FiveMinutesApartDiffer | src/backend/label_data.py:53-54 | creation times exactly five minutes apart are not approximately equal; one microsecond less apart they are |
| LabelData.ApproximatelyEqualSameVariant | src/backend/label_data.py:68-147 | approximately equal labels are of the same kind and have approximately equal bases |
| LabelData.ApproximatelyEqualReflexive | src/backend/label_data.py:68-147 | every label is approximately equal to itself |
| LabelData.ApproximatelyEqualSymmetric | src/backend/label_data.py:68-147 | approximate equality of labels is symmetric |
| LabelData.RoundUpHour | src/backend/label_data.py:149-154 | the result is on the hour; with minutes past the hour, it is the next hour; with zero minutes, it is the current hour, less than a minute back |
| LabelData.RoundUpHourIdempotent | src/backend/label_data.py:149-154 | rounding an already rounded time changes nothing |
| LabelData.RoundUpHourMayRoundDown | src/backend/label_data.py:149-154 | 10:00:30 rounds down to 10:00 |
| LabelData.TemporaryStorageFromMember | src/backend/label_data.py:63-66 | a temporary-storage label with the member's base, the description and the expiry date |
| LabelData.BoxFromMember | src/backend/label_data.py:76-78 | a box label with the member's base |
| LabelData.FireSafetyFromMember | src/backend/label_data.py:88-90 | a fire-safety label with the member's base and the expiry date |
| LabelData.Printer3DFromMember | src/backend/label_data.py:99-101 | a 3D-printer label with the member's base |
| LabelData.NameTagFromMember | src/backend/label_data.py:114-116 | a name tag whose membership expiry is absent exactly when the membership has no end date, and is otherwise the date of that end |
| LabelData.MeetupNameTagFromMember | src/backend/label_data.py:125-127 | a meetup name tag with the member's base |
| LabelData.DryingFromMember | src/backend/label_data.py:140-144 | a drying label on the member's base whose expiry is the creation time plus the drying hours rounded by roundUpHour: on the hour, no more than a minute before and less than an hour after that sum |
| LabelData.DryingRoundingCanSeparate | src/backend/label_data.py:146-147 | two drying labels created a minute apart, on the hour and just after it, have approximately equal bases but are not approximately equal, since their expiry times round an hour apart |
| LabelCreator.PrinterWidths | src/label/creator.py:24-37 | the printable image is 685 px wide and the 569 px canvas leaves 58 px on each side |
| LabelCreator.Estimate | src/label/creator.py:270-326 | the lookup-table estimate lies between 30 and 873; strings of 51 or more characters get 30, strings of at most one character 873 |
| LabelCreator.EstimateStep | src/label/creator.py:271-319 | a string one character longer never gets a larger estimate |
| LabelCreator.EstimateNonIncreasing | src/label/creator.py:271-319 | longer strings never get larger estimated font sizes |
| LabelCreator.StartSize | src/label/creator.py:69-76 | fitting starts at the maximum font size if given, and otherwise at the estimate |
| LabelCreator.MultiLineStartSize | src/label/creator.py:74-76 | multi-line text never starts below the estimate for 40 characters |
| LabelCreator.SingleLineFitUnique | src/label/creator.py:80-86 | the single-line fitting size is unique |
| LabelCreator.FitSingleLine | src/label/creator.py:80-86 | the chosen size fits the width, and every larger size up to the start does not; an error exactly when no size from 1 up fits |
| LabelCreator.GetFontSize | src/label/creator.py:260-267 | the same largest fitting size, against the full canvas width |
| LabelCreator.GrowWhileNarrow | src/label/creator.py:94-96 | growing stops at the first size at least as wide as the label |
| LabelCreator.ShrinkWhileWide | src/label/creator.py:97-99 | shrinking stops at the first size narrower than the label |
| LabelCreator.FitMultiLine | src/label/creator.py:88-101 | the wrapped text ends narrower than the label, one size below a size that is not |
| LabelCreator.MakeLabelString | src/label/creator.py:56-104 | a text object has the fitted size of its (wrapped) text and that text's extent, and keeps its alignment and margins; it is an error exactly when no size from the start size down to 1 fits: a single line wider than the label at every such size, or a wrapped block at least as wide at every such size |
| LabelCreator.MakeLabelImage | src/label/creator.py:110-125 | an image is scaled to the label width with its height rounded down; it is an error exactly when the image has zero width, or when a resize is needed and the label width or the rounded height is zero, where Pillow refuses to resize |
| LabelCreator.HeightOf25mm | src/label/creator.py:333-334 | a 25 mm label is 224 px high once the printer margins at both ends are taken off |
| LabelCreator.HorizontalPlacement | src/label/creator.py:179-194 | images and centred text leave equal room on both sides; left-aligned text starts 58 px in and right-aligned text ends 58 px from the right edge |
| LabelCreator.RoundHalfEven | src/label/creator.py:212 | rounding to the nearest integer, with ties to even |
| LabelCreator.PlacementAt | src/label/creator.py:175-216 | each object is drawn at the running height of the objects before it |
| LabelCreator.NoOverlap | src/label/creator.py:175-216 | an object and its bottom margin end above any later object |
| LabelCreator.ExtentWithoutMargins | src/label/creator.py:135-143 | without explicit margins, the extent is the content height plus one margin per object |
| LabelCreator.MarginFitsHeight | src/label/creator.py:146 | with a fixed label length, the content and N + 1 equal gaps fit it, with less than N + 1 pixels left over |
| LabelCreator.Label.constructor | src/label/creator.py:130-149 | without a length, the margin is 48 and the height is the margin plus every object with its margins, so the cursor ends exactly at the bottom; with a length, the height is that length in pixels and the leftover is split into N + 1 gaps; the image is the drawn placements |
| LabelCreator.Label.GenerateLabel | src/label/creator.py:170-218 | the image has the label's size and every object drawn at its placement; the cursor ends one margin plus the content extent down |
| LabelCreator.CanvasHeight | src/label/creator.py:157-168 | the canvas height is the sum of the objects' heights |
| LabelCreator.InsideCanvas | src/label/creator.py:157-216 | every object of a summed-height label starts below the top and ends inside the label |
| LabelTemplates.GroupShape | src/label/creator.py:363 | the separator stands at exactly every fourth position from the right, and there are (n - 1) / 3 of them |
| LabelTemplates.GroupRemoveSeparators | src/label/creator.py:363 | removing the separators gives the digits back |
| LabelTemplates.GroupReplaceSeparator | src/label/creator.py:363 | grouping with `_` and replacing it by a space is grouping with a space |
| LabelTemplates.IdString | src/label/creator.py:363 | the printed id has a space at exactly every fourth position from the right, and without its spaces it is the decimal id |
| LabelTemplates.IdStringGroups | src/label/creator.py:363 | the id string is the decimal id grouped by spaces, and removing the spaces gives the decimal id |
| LabelTemplates.IdStringExample | src/label/creator.py:363 | 1234567 prints as "1 234 567" |
| LabelTemplates.IdLineMargins | src/label/creator.py:361-393 | the id line's top and bottom margins add up to the item margin on temporary and rotating storage labels |
| LabelTemplates.TemporaryStorageTemplate | src/label/creator.py:361-371 | six objects and no fixed length; the QR code of the public URL with no gap below, the grouped id right-aligned under it, the description last as a wrapped block |
| LabelTemplates.RotatingStorageTemplate | src/label/creator.py:374-392 | six objects and no fixed length; the rotating icon carrying the public URL, the grouped id centred under it, the description last as a wrapped block |
| LabelTemplates.BoxTemplate | src/label/creator.py:395-403 | four objects and no fixed length, the second the QR code of the public URL |
| LabelTemplates.FireSafetyTemplate | src/label/creator.py:421-430 | seven objects and no fixed length, opening with the flammable icon and ending with the date from which anyone may use the product |
| LabelTemplates.Printer3DTemplate | src/label/creator.py:433-443 | two lines on a 25 mm label, each capped at font size 146 |
| LabelTemplates.NameTagTemplate | src/label/creator.py:446-455 | the member's name, then "No active membership" exactly when there is no end date or it is before today |
| LabelTemplates.MeetupNameTagTemplate | src/label/creator.py:458-463 | three lines and no fixed length, the first the member's name |
| LabelTemplates.DryingTemplate | src/label/creator.py:466-472 | four texts with their whitespace kept as written, the second the drying deadline to the minute |
| LabelTemplates.TemplateFor | src/label/creator.py:336-359 | only the 3D-printer label has a fixed length; box and temporary-storage labels carry the QR code of the uploaded label's public URL as their second object |
| LabelTemplates.WarningTemplate | src/label/creator.py:406-418 | the warning label carries no fixed height |
| LabelTemplates.WarningTemplateDescription | src/label/creator.py:406-418 | the description block appears, third of six objects, exactly when the description is non-empty; otherwise there are five objects and none is an empty description block |
| LabelTemplates.WarningObjectsDescription | src/label/creator.py:408-415 | around any non-empty warning text and any tail without text blocks, the description block is present, third, exactly when the description is non-empty, and the object count grows by one for it |
| LabelTemplates.Printer3DMaxFontSize | src/label/creator.py:433-443 | the two lines of a 25 mm label are capped at font size 146 |
| LabelTemplates.MembershipLine | src/label/creator.py:446-455 | "No active membership" exactly when there is no end date or it is before today |
| LabelTemplates.BoxShowsMember | src/label/creator.py:395-403 | the box label shows the member number and the member's name |
| LabelTemplates.Printer3DShowsMember | src/label/creator.py:433-443 | the 3D-printer label shows the member number and the member's name |
| LabelTemplates.FireSafetyShowsMember | src/label/creator.py:421-430 | the fire-safety label shows the member number and the member's name |
| LabelTemplates.TemporaryStorageShowsMember | src/label/creator.py:361-371 | the temporary-storage label shows the member number and the member's name |
| LabelTemplates.DryingShowsMember | src/label/creator.py:466-472 | the drying label shows the member number and the member's name |
| LabelTemplates.TemplatesShowMember | src/label/creator.py:336-472 | every label kind shows the member's name, and every kind except name tags shows the member number |
| LabelTemplates.Build | src/label/creator.py:336-359 | the built label has one object per template entry, each realising its entry: a text at the fitted size of its (wrapped) text, an image at the canvas width with its height rounded down; the height is the summed extent or the fixed length in pixels; it is an error exactly when some entry fails to fit or to scale |
| LabelTemplates.CreateLabel | src/label/creator.py:336-359 | the label for an uploaded record is built from that record's template, with the same objects, height and error condition as Build on it |
| SmsLabelCreator.ShrinkToWidth | src/sms_label_creator.py:57-65 | the largest size from the start down whose text fits the 569 px canvas; an error exactly when none does |
| SmsLabelCreator.GetFontSize | src/sms_label_creator.py:57-65 | get_font_size returns the largest size from the estimate down whose text fits the canvas, with its text extent; an error exactly when no size from the estimate down to 1 fits |
| SmsLabelCreator.DescriptionFontSize | src/sms_label_creator.py:82-93 | the wrapped description gets the largest size from 140 down whose multi-line extent fits the canvas; an error exactly when no size from 140 down to 1 fits |
| SmsLabelCreator.Centre | src/sms_label_creator.py:108 | a centred item fits the image and is centred to within one pixel |
| SmsLabelCreator.StackTemporaryStorage | src/sms_label_creator.py:95-152 | five text lines: title, member id, name, end date, wrapped description; the height is five margins plus the five line heights; lines follow one margin apart, the id directly under the title; the first four are centred and the description starts where the date starts |
| SmsLabelCreator.CreateTemporaryStorageLabel | src/sms_label_creator.py:67-152 | the title, id, name and date each get get_font_size's choice from their start size and the description the largest size from 140 down whose wrapped block fits; the canvas is those fitted lines stacked as StackTemporaryStorage states; an error exactly when one of the five texts fits at no size |
| SmsLabelCreator.TemporaryStorageLayoutFits | src/sms_label_creator.py:95-150 | the lines do not overlap, stay inside the image, and the last ends one margin above the bottom |
| SmsLabelCreator.BoxPayload | src/sms_label_creator.py:156-160 | the QR payload holds exactly the date, member id, name and version "1" |
| SmsLabelCreator.CreateBoxLabel | src/sms_label_creator.py:154-210 | logo, QR code of the payload, id and name; the id and name get get_font_size's choice from their start sizes and are centred; the id overlaps the QR code by one margin; the name sits half a margin below the id and half a margin above the bottom; an error exactly when the id or the name fits at no size |
| Design.KeepDigits | src/gui/design.py:153-166 | the filtered tag holds only digits and is no longer than the input |
| Design.Master.After | src/gui/design.py:88 | a job is registered under a fresh handle and nothing else pending changes |
| Design.Master.AfterCancel | src/gui/design.py:81 | the handle is no longer pending, whether or not it was; nothing else changes |
| Design.Master.AfterIdle | src/gui/design.py:91 | the call is appended to the idle queue |
| Design.Master.Run | src/gui/design.py:88 | running a due job removes exactly that job from the pending map |
| Design.KeepDigitsAppend | src/gui/design.py:157-164 | filtering distributes over concatenation |
| Design.KeepDigitsUnchanged | src/gui/design.py:159-160 | filtering leaves the tag unchanged exactly when it is all digits |
| Design.KeepDigitsIdempotent | src/gui/design.py:157-164 | filtering twice is filtering once |
| Design.KeepDigitsCounts | src/gui/design.py:157-164 | each digit keeps its number of occurrences, and every other character is dropped |
| Design.Truncate | src/gui/design.py:214-216 | the description is cut to its first 256 characters |
| Design.TruncateIdempotent | src/gui/design.py:214-216 | cutting twice is cutting once |
| Design.CounterText | src/gui/design.py:222-225 | the counter reads "n / 256", with the decimal digits of n before the suffix |
| Design.Gui.constructor | src/gui/design.py:56-126 | a new screen arms its one-minute timeout on the root and starts with an empty tag entry, no error, the placeholder text and the counter at zero |
| Design.Gui.TimeoutTimerStart | src/gui/design.py:87-88 | a one-minute timeout job for this screen is added under a fresh handle; nothing else changes |
| Design.Gui.TimeoutTimerCancel | src/gui/design.py:84-85 | the screen's timeout job is removed and no timeout remains pending for it |
| Design.Gui.TimeoutTimerReset | src/gui/design.py:79-82 | the old timeout job is replaced by a fresh one |
| Design.Gui.TimeoutTimerExpired | src/gui/design.py:90-92 | a timeout event is queued for the screen's callback and the timer is re-armed |
| Design.Gui.ShowErrorMessage | src/gui/design.py:128-133 | on the start screen the error line shows the message and one clear job is pending, the earlier one cancelled; other screens show a warning dialog |
| Design.Gui.ClearErrorMessage | src/gui/design.py:132 | the error line is emptied |
| Design.Gui.ResetGui | src/gui/design.py:135-138 | the tag entry is emptied and the progress bar stopped |
| Design.Gui.StartProgressBar | src/gui/design.py:145-147 | the progress bar runs |
| Design.Gui.StopProgressBar | src/gui/design.py:149-151 | the progress bar is stopped |
| Design.Gui.TagRead | src/gui/design.py:140-143 | the tag-read event carries the tag entry's text |
| Design.Gui.FilterTagInput | src/gui/design.py:153-166 | the entry keeps only its digits and is left untouched if it had only digits |
| Design.Gui.ClearTagEntry | src/gui/design.py:168-171 | the tag entry is emptied |
| Design.Gui.TouchCleanupTimeout | src/gui/design.py:173-176 | the earlier clear job is cancelled and exactly one new one is pending |
| Design.Gui.Keyup | src/gui/design.py:178-183 | the entry is filtered, the clear job restarted, and a tag-read event is raised exactly when the verifier accepts the filtered tag; the error line, progress bar, warnings, description box, counter, timer and cursor are unchanged |
| Design.Gui.TextBoxFocusIn | src/gui/design.py:227-231 | the first focus removes the placeholder |
| Design.Gui.CharacterLabelUpdate | src/gui/design.py:222-225 | the counter shows the description's length |
| Design.Gui.TextBoxCallbackKey | src/gui/design.py:209-220 | a key press restarts the timeout, caps the description at 256 characters and updates the counter |
| Design.Gui.Press | src/gui/design.py:193-257 | each button raises its event; Print carries the description |
| States.TagVerifierExactly | src/gui/states.py:18 | a tag passes exactly when it is nine digits, optionally followed by one newline |
| States.AptusTagIdAccepted | src/gui/states.py:84-85 | every Aptus id the key reader produces passes the verifier |
| States.FilteredEntryAccepted | src/gui/design.py:178-183 | a filtered entry passes exactly when it has nine digits |
| States.TransitionConsistent | src/gui/states.py:103-227 | every transition keeps a member on the member and label screens |
| States.WaitingTransitions | src/gui/states.py:103-130 | the waiting state moves only on a tag read whose lookup found a member, and then to that member's screen |
| States.MemberIdentifiedTransitions | src/gui/states.py:213-227 | log-out returns to waiting; the temporary-storage request opens the label editor for the same member; anything else stays |
| States.EditTransitions | src/gui/states.py:164-178 | cancel or a successful print returns to the member screen; log-out returns to waiting; a failed print stays |
| States.TimeoutLogsOut | src/gui/states.py:141-227 | a timeout on the member or label screen, or log-out on the member screen, ends in the waiting state with no member |
| States.PrintingOutcomes | src/gui/states.py:38-73 | a print succeeds exactly with no printer or when the printer printed; success on the label screen returns to the member screen |
| States.RunConsistent | src/gui/states.py:253-254 | a whole run of events keeps a member on the member and label screens |
| States.RunMemberOrigin | src/gui/states.py:103-227 | after any run, the member is none, the starting one, or one that a tag-read lookup of the run found |
| States.NoLookupStaysWaiting | src/gui/states.py:103-130 | without a successful lookup the kiosk stays waiting |
| States.State.constructor | src/gui/states.py:22-26 | a new state draws its screen, which arms one timeout |
| States.State.ChangeState | src/gui/states.py:28-30 | the screen's timeout is cancelled and the screen dropped |
| States.State.MoveTo | src/gui/states.py:128-130 | the new state is drawn and the old one changes state |
| States.State.OnEvent | src/gui/states.py:103-227 | the result is this state exactly when the transition stays, and then nothing else changes outside a tag read; otherwise it is a fresh state of the new kind and the old screen's timer is cancelled; a lookup that finds no member or fails shows its message on the error line with a fresh five-second clear job replacing the earlier one, empties the entry and stops the progress bar |
| States.State.RefuseTag | src/gui/states.py:116-125 | a tag with no member shows "could not find" and a failed lookup shows the exception's message on the error line, with one fresh clear job replacing the earlier one; the entry is emptied and the progress bar stopped; the timer, the description box and the warnings are unchanged |
| States.Application.constructor | src/gui/states.py:237-246 | the application starts in the waiting state with no member |
| States.Application.Busy | src/gui/states.py:231-232 | the cursor becomes the watch |
| States.Application.NotBusy | src/gui/states.py:234-235 | the cursor is restored |
| States.Application.OnEvent | src/gui/states.py:253-254 | the installed state is the transition's result |
| States.Application.GuiPrint | src/gui/states.py:38-73 | the printing result is passed on; without a printer the image file is saved; a failed print shows its message |
| States.Application.PrintLabel | src/gui/states.py:153-162 | a print is bracketed by busy and not-busy and requests the label |
| States.Application.GuiCallback | src/gui/states.py:87-211 | each GUI event raises the event of the current state's callback; the print buttons request the member's label |
| EarlyStates.FailedLookupRestarts | src/application_states.py:103-118 | a failed lookup restarts the waiting state with no member, where the current version keeps the same state |
| EarlyStates.AgreesWithCurrent | src/application_states.py:98-217 | apart from failed lookups, the earlier transitions are the current ones |
| EarlyStates.State.constructor | src/application_states.py:20-24 | a new state draws its screen, which arms one timeout |
| EarlyStates.State.ChangeState | src/application_states.py:26-28 | the screen's timeout is cancelled and the screen dropped |
| EarlyStates.State.MoveTo | src/application_states.py:116-118 | the new state is drawn and the old one changes state |
| EarlyStates.State.OnEvent | src/application_states.py:98-217 | the result is this state exactly when the transition stays, and then the member, the screen and the armed timers are unchanged; a failed lookup shows its message and moves to a fresh waiting state |
| EarlyStates.Application.constructor | src/application_states.py:227-237 | the application starts in the waiting state with no member |
| EarlyStates.Application.Busy | src/application_states.py:221-222 | the cursor becomes the watch |
| EarlyStates.Application.NotBusy | src/application_states.py:224-225 | the cursor is restored |
| EarlyStates.Application.OnEvent | src/application_states.py:245-246 | the installed state is the transition's result |
| EarlyStates.Application.GuiPrint | src/application_states.py:36-71 | the printing result is passed on; without a printer the image file is saved; a failed print shows its message |
| EarlyStates.Application.PrintLabel | src/application_states.py:141-150 | a print is bracketed by busy and not-busy and requests the label |
| EarlyStates.Application.GuiCallback | src/application_states.py:82-200 | each GUI event raises the event of the current state's callback; log-in on the start screen raises a tag read |
| Prototype.WaitingTransitions | main.py:49-62 | the prototype leaves waiting only when member information arrives; a tag read stays |
| Prototype.MemberIdentifiedTransitions | main.py:117-130 | only log-out leaves the member screen; the temporary-storage request stays and redraws |
| Prototype.NoInformationStaysWaiting | main.py:49-62 | without member information the prototype stays waiting |
| Prototype.NoLogOutStaysIdentified | main.py:117-130 | without log-out the prototype stays on the member screen |
| Prototype.CancelEntersPrintBranch | main.py:87 | as written, Cancel enters the print branch; the corrected callback ignores it |
| Prototype.TemporaryStorageNeverPrinted | main.py:94-102 | as written, no temporary-storage label is ever made; the corrected callback makes one with the description |
| Prototype.CallbackPrintsExactlyPrintEvents | main.py:81-114 | the corrected callback prints exactly for the two print events, with the label each names |
| Prototype.CallbackAgreesOnOtherEvents | main.py:81-96 | on the draw, log-out and box events the corrected callback is the written one |
| Prototype.State.OnEvent | main.py:49-130 | the result is this state exactly when the transition stays; the progress bar and screen change as the branches say |
| Prototype.Application.constructor | main.py:140-143 | the prototype starts waiting on the start screen |
| Prototype.Application.Busy | main.py:134-135 | the cursor becomes the watch |
| Prototype.Application.NotBusy | main.py:137-138 | the cursor is restored |
| Prototype.Application.OnEvent | main.py:151-152 | the installed state is the transition's result |
| Prototype.Application.RunPrintBranch | main.py:87-114 | the print branch is bracketed by busy and not-busy and prints the label it made, if any |
| Prototype.Application.GuiCallbackAsWritten | main.py:74-114 | the member screen's callback as written |
| Prototype.Application.GuiCallback | main.py:74-114 | the member screen's callback with both defects corrected |
| KeyReader.SerialPort.constructor | src/util/key_reader.py:66 | the port opens with a two-second timeout and nothing received |
| KeyReader.MatchReadout | src/util/key_reader.py:101 | a matched line yields a readout of "0x" and ten hex digits |
| KeyReader.MatchReadoutExactly | src/util/key_reader.py:101 | a line matches exactly when it is the readout prefix followed by such a readout |
| KeyReader.Readouts | src/util/key_reader.py:98-103 | every collected readout is well formed; some readout is collected exactly when some line matches |
| KeyReader.LastReadoutWins | src/util/key_reader.py:98-107 | the last complete readout is the one kept |
| KeyReader.AptusTagId | src/util/key_reader.py:109-112 | the Aptus id is the readout's value modulo 10^9, zero-padded to nine digits |
| KeyReader.EM4100.constructor | src/util/key_reader.py:60-73 | a reader keeps its device and port and has no tag id yet |
| KeyReader.EM4100.CheckEcho | src/util/key_reader.py:114-128 | the echo check succeeds exactly when the reader identifies itself as an EM4100 reader, restoring the timeout; otherwise it is an init error |
| KeyReader.EM4100.TagWasRead | src/util/key_reader.py:92-107 | a disconnected port is a reboot error; no waiting input is no tag; otherwise the input is drained and a tag was read exactly when a complete readout arrived, the last one kept |
| KeyReader.EM4100.GetAptusTagId | src/util/key_reader.py:109-112 | the Aptus id of the last readout, nine digits |
| KeyReader.EM4100.Close | src/util/key_reader.py:89-90 | the port is closed |
| KeyReader.Connect | src/util/key_reader.py:60-73 | a hanging port is a reboot error, a wrong echo an init error, and otherwise a fresh open reader with timeout 0 |
| KeyReader.NonEmpty | src/util/key_reader.py:133 | a line is kept exactly when it is not empty |
| KeyReader.OpenReaders | src/util/key_reader.py:135-141 | readers open for exactly the devices that answer, in order; a hanging device aborts with a reboot error |
| KeyReader.GetDevices | src/util/key_reader.py:130-141 | the same for the device list the helper script prints |
| KeyReader.ChooseReader | src/util/key_reader.py:45-57 | the first reader is chosen and the others are closed; no reader is NoReaderFound |
| KeyReader.GetReader | src/util/key_reader.py:45-57 | the reader of the first accepted device, open and ready |
| ArgParser.Negated | src/util/parser.py:33-35 | "--x" becomes "--no-x" |
| ArgParser.ExpandAppend | src/util/parser.py:29-35 | registering one more option appends its contribution |
| ArgParser.CollapseExpand | src/util/parser.py:29-35 | the given options can be read back from the registered ones, in order |
| ArgParser.ExpandMembers | src/util/parser.py:29-35 | every given option is registered, each long one with its negation, and nothing else |
| ArgParser.PairSetsOppositeFlags | src/util/parser.py:51-53 | a long option sets true and its negation sets false |
| ArgParser.HelpText | src/util/parser.py:37-38 | the default is appended to the help text only when both are present |
| ArgParser.UsageMentionsEach | src/util/parser.py:55-56 | the usage text mentions every registered option |
| ArgParser.BooleanOptionalAction.constructor | src/util/parser.py:18-49 | the registered options are the expansion of the given ones, and the help is the help text |
| ArgParser.BooleanOptionalAction.Call | src/util/parser.py:51-53 | a registered option stores its flag; any other option string changes nothing |
| ArgParser.BooleanOptionalAction.FormatUsage | src/util/parser.py:55-56 | the usage text contains every registered option |
| ArgParser.LastOverride | src/util/parser.py:12-13 | the value found is that of an override for the key that no later override for the key follows; none means the key is never overridden |
| ArgParser.OverridesLastWins | src/util/parser.py:10-13 | after the overrides, each attribute holds its last override or its earlier value, and no other attribute appears |
| ArgParser.DevelopmentOverrideAction.constructor | src/util/parser.py:3-8 | the action keeps its destination and the factory's overrides |
| ArgParser.DevelopmentOverrideAction.Call | src/util/parser.py:10-13 | the destination gets the values and then every override is set, in order |
| TokenConfig.FileStore.IsFile | src/util/token_config.py:28 | a path is a file exactly when the store holds it |
| TokenConfig.FileStore.Remove | src/util/token_config.py:38-41 | removal drops the path; a missing path is no error |
| TokenConfig.ConfiguredIsSticky | src/util/token_config.py:28-44 | a configured client stays configured and touches no file |
| TokenConfig.NoTokenFileNoChange | src/util/token_config.py:28-44 | with no token file, the client stays unconfigured |
| TokenConfig.TokenFileOutcomes | src/util/token_config.py:29-42 | with a token file, the stripped token is handed to the client, and the login is tried only if that returns; a raising configure_client propagates, leaves the client unconfigured and calls nothing more; a good login configures the client and answers true, an expired token answers false and removes exactly the token file, any other error propagates and leaves the files alone |
| TokenConfig.ConfiguredStaysConfigured | src/util/token_config.py:26-44 | once configured, any number of queries changes nothing |
| TokenConfig.NoFileNeverConfigured | src/util/token_config.py:26-44 | with no token file, no number of queries configures the client |
| TokenConfig.TokenConfiguredClient.constructor | src/util/token_config.py:10-12 | a client starts unconfigured |
| TokenConfig.TokenConfiguredClient.IsConfigured | src/util/token_config.py:26-44 | the query is the configured function of the old state |
| TokenConfig.TokenConfiguredClient.RequireConfigured | src/util/token_config.py:46-51 | the wrapped call runs exactly when the client is configured; otherwise the default is returned |

## Left out

- Drawing, images, fonts, QR codes, Tk widgets, message boxes and the label printer. Font
  metrics, image sizes and QR sizes are parameters. Printer outcomes and lookup outcomes
  are inputs.
- The clock, the random label id and the serial devices are parameters. The device list
  is the text the listing script prints. Reading it and decoding bytes as UTF-8 are not
  modelled.
- Floating point. Pixel ratios are real numbers. `math.floor` and Python's `round` are
  written out.
- `\d` in the tag filter is taken as the ASCII digits. Python also accepts other
  Unicode digits.
- The logger, `print` and tracebacks.
- Colours of widgets, including the grey and black of the description box and its
  counter.
- StartGui with an EM4100 reader (design.py:106-107) only flushes the reader. The
  Aptus/Keyboard tag entry is modelled for every start screen. states.py builds StartGui
  without a key reader, which the constructor of design.py would reject; the model
  follows the three-argument form.
- The Aptus and Keyboard `get_devices` (key_reader.py:143-151) return a constant list.
  They are not modelled.
- The KeyReaderNeedsRebootError message's "Reported error" suffix is not kept. Only
  the error kind is.
- key_reader.py imports an ArgparseEnum that parser.py does not define. That import is
  not part of this model.
- create_label's WarningLabel and RotatingStorageLabel cases (creator.py:352-355) name
  classes that label_data.py lacks. Their templates are modelled on a local record. The
  final ValueError case cannot be reached with the seven kinds, so it is not modelled.
- LabelCreator.GrowWhileNarrow requires that some size is at least as wide as the
  label. For text that never gets that wide, such as the empty text, the source loop
  (creator.py:94-96) does not stop; the model does not describe a run that never ends.
- LabelCreator.FitSingleLine: a font size below 1 is an error in the model. There
  Pillow raises.
- Design.Master.AfterIdle: the idle queue of Tk is a list the model never drains. In
  design.py:91 the queued lambda is not cancelled, so a dropped screen's gui_callback
  still runs the timeout event; the model drops that call and does not say when Tk runs
  the queue.
- States.State.OnEvent: states.py:8 imports NoMatchingTagId and states.py:114 calls
  Member.from_tagid, neither of which src/backend/member.py defines. The lookup enters
  as a LookupOutcome: a member, no matching tag, or any other exception with its message.
- States.Application.PrintLabel: states.py:157-159 and states.py:207 call the label
  creator with a member number and a name, which the creator's functions in
  creator.py:361 and creator.py:395 do not accept. The model records the requested label
  (number, name, description) and takes the printer's outcome as an input.
- SmsLabelCreator.IdText: a list or dict member id shows as "#" alone. Python would
  print its repr.
- Clear jobs of a dropped screen are not cancelled by the source. The model leaves them
  pending.
- The printer status in main.py is only printed. The prototype's print branch records
  the label and nothing about the status.
- Prototype.Transition, Prototype.WaitingTransitions and Prototype.State.OnEvent: main.py:5
  imports src/sms_gui.py, whose MemberInformation takes a member (src/sms_gui.py:111), but
  main.py:69 passes only the master and the callback. As written, the Python call raises
  TypeError inside WaitingState.on_event (main.py:60), so Application.on_event
  (main.py:152) never installs the new state and the prototype never leaves waiting. The
  model follows the evidently intended construction, in which member information leads
  to the member screen. The prototype's screens are only named.
- ArgParser.BooleanOptionalAction.constructor: type, choices, required and metavar are
  passed to argparse unchanged. They are not modelled.
- ParseData: the record's names must be strings and its number an integer. The source
  dataclasses check no types, so a record with a null or numeric name, or a string
  number, still gives a member there. The model rejects it as a parse error, because
  the label modules format these fields as text and digits.
- ParseEndDate: the `_active` flag must be a boolean. The source stores any value, and
  `str()` then prints ✓ for every truthy one. The model rejects other values as a parse
  error.
- FromTagId: the first name, last name and member number must be strings and an
  integer. src/member.py:23 passes them unchecked. The model reports other values as
  WrongType.
- Backend: from_member_number_and_pin (member.py:80-81) is FromResponse applied to the
  client's answer. The client call is not part of this model.
- TokenConfig: configure_client and try_log_in are abstract. What they do (configure_client
  raises, or try_log_in returns, reports an expired token or raises) is a parameter of each
  query; what a concrete client does inside them is not part of this model.

## Findings

| source | as written | input that shows it | evidently intended | confidence | as-written member | corrected member |
|---|---|---|---|---|---|---|
| main.py:87 | `event == GuiEvent.PRINT_BOX_LABEL or GuiEvent.PRINT_TEMPORARY_STORAGE_LABEL` is always true, so every other event enters the print branch | the Cancel button of the temporary-storage screen (src/sms_gui.py:171-173), whose event reaches this callback; the screen is reached only with the intended three-argument MemberInformation construction (see "## Left out") | only the two print events enter the print branch | not executed | Prototype.CancelEntersPrintBranch | Prototype.CallbackPrintsExactlyPrintEvents |
| main.py:98 | compares with `GuiEvent.PRINT_TEMPORARY_STIRAGE_LABEL`, which does not exist; the error is swallowed and no temporary-storage label is made | the Print button with the description "drill" | a temporary-storage label with the description is printed | not executed | Prototype.TemporaryStorageNeverPrinted | Prototype.CallbackPrintsExactlyPrintEvents |
