/**
 The constant texts the listener sends and compares against (the `Messages`,
 `Commands` and `Buttons` enums). Their literal values are configuration, so
 they are carried in a `Catalog` value rather than fixed here.
 */
module Constants {
  import opened Wrappers
  import opened JavaText
  import opened ButtonTypes

  /** The `messageText` of each `Messages` constant the listener sends. */
  datatype MessageTexts = MessageTexts(
    welcome: string,              // WELCOME_TO_THE_CHATBOT
    wellOneMoreTime: string,      // WELL_ONE_MORE_TIME
    help: string,                 // HELP
    contextMenu: string,          // CONTEXT_MENU
    safety: string,               // SAFETY
    support: string,              // SUPPORT
    noSuchCommand: string,        // THERE_IS_NO_SUCH_COMMAND
    cannotProcessPhotos: string,  // I_CANNOT_PROCESS_PHOTOS
    noResponse: string,           // NO_RESPONSE
    somethingWrong: string,       // OH_SOMETHING_GOT_WRONG
    callSupport: string           // YOU_NEED_TO_CALL_SUPPORT
  )

  /** The `commandText` of each `Commands` constant. */
  datatype CommandTexts = CommandTexts(start: string, help: string, menu: string, safety: string, support: string)

  /** One `Buttons` constant: label, kind, and callback data or URL (either may be null). */
  datatype ButtonSpec = ButtonSpec(text: string, bType: ButtonType, callBack: Option<string>, url: Option<string>)

  /** All constants the listener consults. */
  datatype Catalog = Catalog(
    messages: MessageTexts,
    commands: CommandTexts,
    supportButton: ButtonSpec,
    safetyButton: ButtonSpec,
    helpButton: ButtonSpec
  )

  /** No text matches two commands (case-insensitively), so the router's order among them is immaterial. */
  predicate DistinctCommands(c: CommandTexts) {
    var all := [c.start, c.help, c.menu, c.safety, c.support];
    forall i, j :: 0 <= i < j < |all| ==> !EqualsIgnoreCase(all[i], all[j])
  }

  /** Callback data that is present on the help, safety or support button differs from the
      other two buttons' data; buttons without callback data (null) are unconstrained. */
  predicate DistinctCallbacks(cat: Catalog) {
    && (cat.helpButton.callBack.Some? ==> cat.helpButton.callBack != cat.safetyButton.callBack)
    && (cat.helpButton.callBack.Some? ==> cat.helpButton.callBack != cat.supportButton.callBack)
    && (cat.safetyButton.callBack.Some? ==> cat.safetyButton.callBack != cat.supportButton.callBack)
  }
}
