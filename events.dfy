/** The event vocabularies of the kiosk: application events passed to a state's
    `on_event`, and GUI events passed from the screens to a state's `gui_callback`.
    Both carry an optional payload (the tag id, the description text). */
module Events {
  import opened Wrappers

  datatype EventKind =
    | MakerAdminClientConfigured
    | TagRead
    | MemberInformationReceived
    | LogOut
    | PrintStorageBoxLabel
    | PrintTemporaryStorageLabel
    | LabelPrinted
    | Cancel
    | PrintingFailed
    | PrintingSucceeded
    | SerialPortDisconnected
    | KeyReaderConnected

  datatype Event = Event(kind: EventKind, data: Option<string>)

  datatype GuiEventKind =
    | GuiPrintTemporaryStorageLabel
    | GuiPrintBoxLabel
    | GuiPrintChemicalLabel
    | GuiLogOut
    | GuiLogIn
    | GuiTagRead
    | GuiDrawStorageLabelGui
    | GuiCancel
    | GuiTimeoutTimerExpired

  datatype GuiEvent = GuiEvent(kind: GuiEventKind, data: Option<string>)

  /** Event(kind) with no payload. */
  function Plain(kind: EventKind): Event { Event(kind, None) }
}
