/**
 * The messages the bot sends. A `SendMessage` is a chat id, a text and an
 * optional keyboard; `Outbox` stands for the Telegram client's `execute`,
 * recording every message handed to it in order. A delivery failure is only
 * logged by the bot, so sending always returns normally.
 */
module Messaging {
  import opened Keyboards
  import opened InlineKeyboards

  datatype Markup = NoMarkup | ReplyMarkup(reply: ReplyKeyboard) | InlineMarkup(inline: InlineKeyboard)

  datatype SendMessage = SendMessage(chatId: int, text: string, markup: Markup)

  class Outbox {
    var sent: seq<SendMessage>

    constructor ()
      ensures sent == []
    {
      sent := [];
    }

    /** `sendMsg(chatId, text)`. */
    method SendMsg(chatId: int, text: string)
      modifies this
      ensures sent == old(sent) + [SendMessage(chatId, text, NoMarkup)]
    {
      sent := sent + [SendMessage(chatId, text, NoMarkup)];
    }

    /** `sendMsgWithKeyboard(chatId, text, keyboard)`. */
    method SendMsgWithKeyboard(chatId: int, text: string, keyboard: ReplyKeyboard)
      modifies this
      ensures sent == old(sent) + [SendMessage(chatId, text, ReplyMarkup(keyboard))]
    {
      sent := sent + [SendMessage(chatId, text, ReplyMarkup(keyboard))];
    }

    /** Sends a text with the inline keyboard it came with, if any. */
    method SendMsgWithInlineKeyboard(chatId: int, text: string, markup: Markup)
      requires !markup.ReplyMarkup?
      modifies this
      ensures sent == old(sent) + [SendMessage(chatId, text, markup)]
    {
      sent := sent + [SendMessage(chatId, text, markup)];
    }
  }
}
