/**
 * What the bot sends back. The transport is not modelled: a handler returns
 * the sequence of outbound actions it takes, in order.
 */
module Replies {
  import opened Keyboards

  /** The markup attached to a message. */
  datatype Markup =
    | NoMarkup
    | MainMenu                  // the reply keyboard Keyboards.MainKeyboard
    | Inline(keyboard: Keyboard)

  datatype Reply =
    | Message(text: string, markup: Markup)   // sendMessage
    | Typing                                  // sendChatAction 'typing'
    | Progress(text: string)                  // editMessageText of the pressed message, its keyboard removed
    | Notice(text: string, alert: bool)       // answerCallbackQuery with a text
    | Acknowledge                             // answerCallbackQuery without a text
    | RefreshMarkup(keyboard: Keyboard)       // editMessageReplyMarkup of the pressed message
    | HideKeyboard                            // remove the pressed message's keyboard (or the message)
    | DeleteMessage                           // delete the pressed message
}
