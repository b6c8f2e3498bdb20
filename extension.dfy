/** The browser state the popup and the background checker share: the alert list in local
    storage, the Telegram settings in synced storage, the alarm registry, and the outbound
    HTTP requests made so far. */
module Extension {
  import opened Alerts

  /** The Telegram settings. A key that was never saved reads as "", which the code treats
      like an empty value (both are falsy). */
  datatype Credentials = Credentials(botToken: string, chatId: string) {
    /** Both values are present, as the checker demands before it makes any request. */
    predicate Configured() {
      botToken != "" && chatId != ""
    }
  }

  /** A registered alarm: its name, first delay and period in minutes. */
  datatype Alarm = Alarm(name: string, delayInMinutes: int, periodInMinutes: int)

  /** What one Telegram message is made from: the credentials it is sent with, the symbol,
      the price just seen, and the alert's type and target. */
  datatype Notice = Notice(botToken: string, chatId: string, symbol: string,
                           price: real, kind: string, target: real)

  /** One outbound HTTP request: a quote from Financial Modeling Prep, a quote from
      Twelve Data, or a Telegram sendMessage. */
  datatype Call =
    | FmpQuote(symbol: string)
    | TwelveDataQuote(symbol: string)
    | TelegramSend(notice: Notice)

  /** The part of the state a check cycle reads and writes. */
  datatype World = World(alerts: seq<Alert>, network: seq<Call>)

  class Browser {
    /** chrome.storage.local `stockAlerts`; an absent key reads as the empty list. */
    var stockAlerts: seq<Alert>
    /** chrome.storage.sync `telegramBotToken` and `telegramChatId`. */
    var credentials: Credentials
    /** The chrome.alarms registry, in creation order. */
    var alarms: seq<Alarm>
    /** Every request sent so far, in order. */
    var network: seq<Call>

    /** A freshly installed extension: nothing stored, no alarm, no request. */
    constructor ()
      ensures stockAlerts == [] && credentials == Credentials("", "")
      ensures alarms == [] && network == []
    {
      stockAlerts := [];
      credentials := Credentials("", "");
      alarms := [];
      network := [];
    }

    function View(): World
      reads this
    {
      World(stockAlerts, network)
    }
  }
}
