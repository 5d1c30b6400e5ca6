/**
 * The chat panel of the risk bot: an append-only message log, an input line,
 * and a reply chosen from a fixed table of command responses. The one-second
 * delay before a reply is not modelled: `SendMessage` hands back the text to
 * answer and `DeliverReply` appends the answer later as a step of its own.
 */
module TelegramBot {
  import opened Wrappers
  import opened Text

  datatype Sender = BotSender | UserSender

  datatype MessageKind = AlertKind | CommandKind | ResponseKind

  /** A chat message; `kind` is optional, as in the source's interface. */
  datatype Message = Message(id: string, text: string, timestamp: string, sender: Sender, kind: Option<MessageKind>)

  /** The response table, keyed by command. */
  const Responses: map<string, string> := map[
    "/help" := "\U{1F916} Available Commands:\n/monitor_risk <asset> - Monitor risk\n/hedge_status - Check status\n/portfolio_risk - Portfolio metrics\n/auto_hedge <on/off> - Toggle auto hedge\n/hedge_now <asset> - Manual hedge",
    "/portfolio_risk" := "\U{1F4CA} Portfolio Risk Metrics:\n\U{2022} VaR (95%): $45,230\n\U{2022} Max Drawdown: 8.5%\n\U{2022} Total Delta: 23.4\n\U{2022} Total Gamma: 2.1\n\U{2022} Active Positions: 4",
    "/hedge_status" := "\U{1F3AF} Hedging Status:\n\U{2022} BTC: Delta-neutral (Active)\n\U{2022} ETH: Protective Put (Inactive)\n\U{2022} SOL: Covered Call (Active)\n\U{2022} Auto-hedging: Enabled",
    "/monitor_risk" := "\U{1F441}\U{FE0F} Risk monitoring activated for all assets. Will alert when thresholds exceeded.",
    "/auto_hedge" := "\U{2699}\U{FE0F} Auto-hedging configuration updated. Threshold: 0.6, Strategy: Delta-neutral",
    "/hedge_now" := "\U{1F6E1}\U{FE0F} Manual hedge executed. Sold 0.3 BTC perpetual. Cost: $76.20. New delta: 0.42",
    "/set_threshold" := "\U{2699}\U{FE0F} Risk threshold updated successfully. New threshold applied to monitoring system.",
    "/hedge_history" := "\U{1F4C8} Hedge History (Last 7 days):\n\U{2022} Total Hedges: 12\n\U{2022} Success Rate: 91.7%\n\U{2022} Avg Cost: $89.50\n\U{2022} Total Savings: $2,340",
    "/alerts" := "\U{1F6A8} Active Alerts (2):\n\U{2022} BTC delta exposure: 0.84 (threshold: 0.7)\n\U{2022} Portfolio VaR: $52,100 (limit: $50,000)",
    "/exchanges" := "\U{1F517} Exchange Status:\n\U{2022} OKX: Connected (15ms)\n\U{2022} Bybit: Connected (22ms)\n\U{2022} Deribit: Connected (28ms)",
    "/pnl" := "\U{1F4B0} P&L Summary:\n\U{2022} Total Unrealized: +$12,450\n\U{2022} Today: +$1,230\n\U{2022} Best Performer: SOL (+$4,200)\n\U{2022} Worst: ETH (-$890)",
    "/config" := "\U{2699}\U{FE0F} Bot Configuration:\n\U{2022} Auto-hedge: Enabled\n\U{2022} Risk Threshold: 0.6\n\U{2022} Rebalance Frequency: 5min\n\U{2022} Max Position Size: $100k"]

  /** The reply to anything the table does not know. */
  const UnknownCommandReply: string := "\U{274C} Unknown command. Type /help for available commands."

  /** The commands the panel advertises; the first three are quick-insert buttons. */
  const BotCommands: seq<string> := ["/monitor_risk", "/hedge_status", "/portfolio_risk", "/auto_hedge", "/hedge_now", "/help"]

  /** JavaScript truthiness of a looked-up entry: present and not the empty string. */
  predicate Truthy(entry: Option<string>) {
    entry.Some? && entry.value != ""
  }

  /** `responses[key]`, None standing for `undefined`. */
  function Lookup(key: string): (r: Option<string>)
    ensures r.Some? <==> key in Responses
    ensures r.Some? ==> r.value == Responses[key]
  {
    if key in Responses then Some(Responses[key]) else None
  }

  /** Every entry of the table is non-empty, so `||` falls through exactly on a missing key. */
  lemma ResponsesNonEmpty()
    ensures forall k :: k in Responses ==> Responses[k] != ""
  {
    forall k | k in Responses
      ensures Responses[k] != ""
    {
      assert |Responses[k]| > 0;
    }
  }

  /** `responses[command] || responses[command.split(' ')[0]] || unknown`. */
  function ReplyText(command: string): (r: string)
    ensures command in Responses ==> r == Responses[command]
    ensures command !in Responses && Split(command, ' ')[0] in Responses ==> r == Responses[Split(command, ' ')[0]]
    ensures command !in Responses && Split(command, ' ')[0] !in Responses ==> r == UnknownCommandReply
    ensures r in Responses.Values || r == UnknownCommandReply
  {
    ResponsesNonEmpty();
    var exact := Lookup(command);
    var first := Lookup(Split(command, ' ')[0]);
    if Truthy(exact) then exact.value
    else if Truthy(first) then first.value
    else UnknownCommandReply
  }

  /** A command followed by arguments gets the command's reply. */
  lemma {:induction false} ReplyToCommandWithArguments(cmd: string, args: string)
    requires cmd in Responses && ' ' !in cmd
    requires cmd + " " + args !in Responses
    ensures ReplyText(cmd + " " + args) == Responses[cmd]
  {
    SplitAfterWord(cmd, args, ' ');
  }

  /** "/set_threshold SOL 0.6" gets the /set_threshold reply. */
  lemma SetThresholdWithArguments()
    ensures ReplyText("/set_threshold SOL 0.6") == Responses["/set_threshold"]
  {
    var cmd, args := "/set_threshold", "SOL 0.6";
    assert cmd + " " + args == "/set_threshold SOL 0.6";
    assert |cmd + " " + args| == 22;
    ReplyToCommandWithArguments(cmd, args);
  }

  /** Every key of the response table starts with '/'. */
  lemma KeysStartWithSlash()
    ensures forall k :: k in Responses ==> |k| > 0 && k[0] == '/'
  {
  }

  /** The input is not trimmed before the lookup: a command after a leading space, such as " /help", is unknown. */
  lemma LeadingSpaceIsUnknown(command: string)
    requires |command| > 0 && command[0] == ' '
    ensures ReplyText(command) == UnknownCommandReply
  {
    KeysStartWithSlash();
    FirstPieceIsPrefix(command, ' ');
    assert Split(command, ' ')[0] == "";
  }

  /** Every advertised command has a table entry of its own. */
  lemma AdvertisedCommandsAnswered()
    ensures forall k :: 0 <= k < |BotCommands| ==> BotCommands[k] in Responses
  {
  }

  /** `generateBotResponse(command)`: a response message from the bot. */
  function BotReply(command: string, id: string, now: string): (m: Message)
    ensures m.sender == BotSender && m.kind == Some(ResponseKind)
    ensures m.text == ReplyText(command) && m.id == id && m.timestamp == now
  {
    Message(id, ReplyText(command), now, BotSender, Some(ResponseKind))
  }

  /** The four class strings of `getMessageStyle`; a response and a message without a kind look the same. */
  datatype MessageStyle = UserBubble | AlertBubble | CommandBubble | PlainBubble

  function StyleOf(m: Message): (s: MessageStyle)
    ensures s == UserBubble <==> m.sender.UserSender?
    ensures s == AlertBubble <==> m.sender.BotSender? && m.kind == Some(AlertKind)
    ensures s == CommandBubble <==> m.sender.BotSender? && m.kind == Some(CommandKind)
    ensures s == PlainBubble <==> m.sender.BotSender? && (m.kind == None || m.kind == Some(ResponseKind))
  {
    if m.sender.UserSender? then UserBubble
    else match m.kind
      case None => PlainBubble
      case Some(k) =>
        match k
        case AlertKind => AlertBubble
        case CommandKind => CommandBubble
        case ResponseKind => PlainBubble
  }

  /** The user has sent `text` as a command: it is in the log as a user message. */
  ghost predicate Sent(messages: seq<Message>, text: string) {
    exists i :: 0 <= i < |messages| && messages[i].sender == UserSender && messages[i].text == text
  }

  /** A sent text stays sent when the log grows. */
  lemma SentKept(messages: seq<Message>, more: seq<Message>, text: string)
    requires Sent(messages, text)
    ensures Sent(messages + more, text)
  {
    var i :| 0 <= i < |messages| && messages[i].sender == UserSender && messages[i].text == text;
    assert (messages + more)[i] == messages[i];
  }

  /**
   * The panel's state: the message log, the input line and, oldest first, the
   * sent texts whose one-second reply timer has not fired yet.
   */
  class Chat {
    var messages: seq<Message>
    var inputText: string
    var awaiting: seq<string>

    /** A text awaits a reply only after the user has sent it. */
    ghost predicate Valid()
      reads this
    {
      forall k :: 0 <= k < |awaiting| ==> Sent(messages, awaiting[k])
    }

    /** The greeting, an alert and a hedge confirmation, all from the bot, stamped `now`. */
    constructor (now: string)
      ensures Valid() && |messages| == 3 && inputText == "" && awaiting == []
      ensures forall i :: 0 <= i < 3 ==> messages[i].sender == BotSender && messages[i].timestamp == now
      ensures messages[0].id == "1" && messages[1].id == "2" && messages[2].id == "3"
      ensures messages[1].kind == Some(AlertKind)
      ensures messages[0].kind == Some(ResponseKind) && messages[2].kind == Some(ResponseKind)
    {
      messages := [
        Message("1", "\U{1F916} GoQuant Risk Bot is now active! Type /help for available commands.", now, BotSender, Some(ResponseKind)),
        Message("2", "\U{1F6A8} Alert: BTC delta exposure exceeded 0.7 threshold. Current delta: 0.84", now, BotSender, Some(AlertKind)),
        Message("3", "\U{2705} Hedge executed: Sold 0.5 BTC perpetual on OKX. Cost: $127.50", now, BotSender, Some(ResponseKind))];
      inputText := "";
      awaiting := [];
    }

    /** Typing into the input line. */
    method SetInputText(text: string)
      requires Valid()
      modifies this
      ensures Valid()
      ensures inputText == text && messages == old(messages) && awaiting == old(awaiting)
    {
      inputText := text;
    }

    /** A quick-command button: puts one of the first three advertised commands into the input line. */
    method PressQuickCommand(k: nat)
      requires Valid() && k < 3
      modifies this
      ensures Valid()
      ensures inputText == BotCommands[k] && messages == old(messages) && awaiting == old(awaiting)
    {
      inputText := BotCommands[k];
    }

    /**
     * `handleSendMessage()`: blank input does nothing; otherwise the untrimmed
     * text is appended as the user's command, the input is cleared, and the
     * text joins the queue of texts awaiting their reply.
     */
    method SendMessage(id: string, now: string) returns (pending: Option<string>)
      requires Valid()
      modifies this
      ensures Valid()
      ensures IsBlank(old(inputText)) ==>
        messages == old(messages) && inputText == old(inputText) && awaiting == old(awaiting) && pending == None
      ensures !IsBlank(old(inputText)) ==>
        && messages == old(messages) + [Message(id, old(inputText), now, UserSender, Some(CommandKind))]
        && inputText == ""
        && awaiting == old(awaiting) + [old(inputText)]
        && pending == Some(old(inputText))
      ensures old(messages) <= messages
    {
      TrimEmptyIffBlank(inputText);
      if Trim(inputText) == [] {
        return None;
      }
      var text := inputText;
      var sent := Message(id, text, now, UserSender, Some(CommandKind));
      forall k | 0 <= k < |awaiting| {
        SentKept(messages, [sent], awaiting[k]);
      }
      assert (messages + [sent])[|messages|] == sent;
      messages := messages + [sent];
      inputText := "";
      awaiting := awaiting + [text];
      pending := Some(text);
    }

    /**
     * The oldest pending timer firing: the bot answers the earliest sent text
     * still awaiting its reply, and that text is answered once only.
     */
    method DeliverReply(id: string, now: string) returns (command: string)
      requires Valid() && awaiting != []
      modifies this
      ensures Valid()
      ensures command == old(awaiting)[0]
      ensures messages == old(messages) + [BotReply(command, id, now)]
      ensures awaiting == old(awaiting)[1..]
      ensures inputText == old(inputText)
    {
      command := awaiting[0];
      var reply := BotReply(command, id, now);
      forall k | 1 <= k < |awaiting| {
        SentKept(messages, [reply], awaiting[k]);
      }
      messages := messages + [reply];
      awaiting := awaiting[1..];
    }
  }
}
