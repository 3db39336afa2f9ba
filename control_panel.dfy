/**
 The web control panel's shared state: the process-wide `bot_settings`
 record, which the start, stop, status and logout requests read and update,
 the OAuth callback fills in, and the background bot thread resets when it
 fails. Beside the record sits whether the process-wide Discord client
 handle exists and is not closed.

 That handle starts empty, and no statement of the panel ever stores a
 client in it: the bot thread builds its client in a variable local to its
 inner coroutine. So starting the bot never opens the handle, and `StopBot`
 after `StartBot` reports that the bot is not running (`StopAfterStart`).
 The handle's state is therefore an input of the constructor.

 Closing an open client is scheduled with `asyncio.create_task`, which
 raises when the requesting thread runs no event loop. Whether scheduling
 succeeds is the `closeScheduled` input; a scheduled close is taken to have
 closed the client by the next request.

 The Flask session of the requesting browser (its Discord token and user)
 is passed to the requests that read it.
 */
module Panel {
  import opened Strings

  /** The Discord user record kept after login. */
  datatype DiscordUser = DiscordUser(id: string, username: string, discriminator: string, avatar: Option<string>)

  /** The JSON reply of a start or stop request. */
  datatype Reply = Reply(success: bool, message: string)

  /** The fields of a start request; `None` is a field the request leaves out. */
  datatype StartForm = StartForm(discordChannelUrl: Option<string>, telegramBotToken: Option<string>,
                                 telegramChatId: Option<string>)

  /** The JSON reply of a status request. */
  datatype StatusReport = StatusReport(isRunning: bool, hasDiscordToken: bool, hasTelegramToken: bool,
                                       discordUser: Option<DiscordUser>)

  const LoginFirst: string := "Please login to Discord first"
  const AllFieldsRequired: string := "All fields are required"
  const BotStarted: string := "Bot started successfully!"
  const BotStopped: string := "Bot stopped successfully!"
  const NotRunning: string := "Bot is not running"
  /** What `asyncio.create_task` raises outside a running event loop. */
  const NoEventLoop: string := "no running event loop"
  const StartErrorPrefix: string := "Error starting bot: "
  const StopErrorPrefix: string := "Error stopping bot: "

  /** Python truthiness of an optional string: present and not empty. */
  predicate Truthy(v: Option<string>)
  {
    v.Some? && v.value != ""
  }

  /** All three start fields are present and not empty. */
  predicate FormComplete(form: StartForm)
  {
    Truthy(form.discordChannelUrl) && Truthy(form.telegramBotToken) && Truthy(form.telegramChatId)
  }

  class ControlPanel {
    var discordToken: string
    var discordChannelUrl: Option<string>
    var telegramBotToken: Option<string>
    var telegramChatId: Option<string>
    var isRunning: bool
    var discordUser: Option<DiscordUser>
    /** The Discord client handle exists and is not closed. */
    var clientOpen: bool

    /** The record as the process starts, beside a client handle in the given state. */
    constructor (clientOpen: bool)
      ensures discordToken == "" && discordUser == None && !isRunning
      ensures discordChannelUrl == Some("") && telegramBotToken == Some("") && telegramChatId == Some("")
      ensures this.clientOpen == clientOpen
    {
      discordToken := "";
      discordChannelUrl := Some("");
      telegramBotToken := Some("");
      telegramChatId := Some("");
      isRunning := false;
      discordUser := None;
      this.clientOpen := clientOpen;
    }

    /** The OAuth callback: a successful token exchange stores the token, and a
        successful user lookup then stores the user. `None` stands for a step
        that failed; a failed exchange writes nothing. */
    method OAuthCallback(token: Option<string>, user: Option<DiscordUser>)
      modifies this`discordToken, this`discordUser
      ensures discordToken == if token.Some? then token.value else old(discordToken)
      ensures discordUser == if token.Some? && user.Some? then user else old(discordUser)
    {
      if token.Some? {
        discordToken := token.value;
        if user.Some? {
          discordUser := user;
        }
      }
    }

    /** A start request. Without a Discord token in the session nothing
        changes. Otherwise the three fields are stored first, and only then
        checked; a request that passes closes an open client and marks the
        bot as running. */
    method StartBot(sessionToken: Option<string>, form: StartForm, closeScheduled: bool) returns (r: Reply)
      modifies this`discordChannelUrl, this`telegramBotToken, this`telegramChatId, this`isRunning, this`clientOpen
      ensures !Truthy(sessionToken) ==> r == Reply(false, LoginFirst)
      ensures Truthy(sessionToken) && !FormComplete(form) ==> r == Reply(false, AllFieldsRequired)
      ensures Truthy(sessionToken) && FormComplete(form) && old(clientOpen) && !closeScheduled ==>
                r == Reply(false, StartErrorPrefix + NoEventLoop)
      ensures r.success <==> Truthy(sessionToken) && FormComplete(form) && (old(clientOpen) ==> closeScheduled)
      ensures r.success ==> r.message == BotStarted
      ensures isRunning == (old(isRunning) || r.success)
      ensures clientOpen == (old(clientOpen) && !r.success)
      ensures Truthy(sessionToken) ==>
                && discordChannelUrl == form.discordChannelUrl
                && telegramBotToken == form.telegramBotToken
                && telegramChatId == form.telegramChatId
      ensures !Truthy(sessionToken) ==>
                && discordChannelUrl == old(discordChannelUrl)
                && telegramBotToken == old(telegramBotToken)
                && telegramChatId == old(telegramChatId)
    {
      if !Truthy(sessionToken) {
        return Reply(false, LoginFirst);
      }
      discordChannelUrl := form.discordChannelUrl;
      telegramBotToken := form.telegramBotToken;
      telegramChatId := form.telegramChatId;
      if !(Truthy(discordChannelUrl) && Truthy(telegramBotToken) && Truthy(telegramChatId)) {
        return Reply(false, AllFieldsRequired);
      }
      if clientOpen {
        if !closeScheduled {
          return Reply(false, StartErrorPrefix + NoEventLoop);
        }
        clientOpen := false;
      }
      isRunning := true;
      r := Reply(true, BotStarted);
    }

    /** A stop request: only an open client can be stopped. */
    method StopBot(closeScheduled: bool) returns (r: Reply)
      modifies this`isRunning, this`clientOpen
      ensures !old(clientOpen) ==> r == Reply(false, NotRunning)
      ensures old(clientOpen) && !closeScheduled ==> r == Reply(false, StopErrorPrefix + NoEventLoop)
      ensures r.success <==> old(clientOpen) && closeScheduled
      ensures r.success ==> r.message == BotStopped
      ensures isRunning == (old(isRunning) && !r.success)
      ensures clientOpen == (old(clientOpen) && !r.success)
    {
      if clientOpen {
        if !closeScheduled {
          return Reply(false, StopErrorPrefix + NoEventLoop);
        }
        clientOpen := false;
        isRunning := false;
        r := Reply(true, BotStopped);
      } else {
        r := Reply(false, NotRunning);
      }
    }

    /** Logout forgets the Discord token and user, and stops an open client;
        a failure to schedule the close is swallowed. */
    method Logout(closeScheduled: bool)
      modifies this`discordToken, this`discordUser, this`isRunning, this`clientOpen
      ensures discordToken == "" && discordUser == None
      ensures isRunning == (old(isRunning) && !(old(clientOpen) && closeScheduled))
      ensures clientOpen == (old(clientOpen) && !closeScheduled)
    {
      discordToken := "";
      discordUser := None;
      if clientOpen && closeScheduled {
        clientOpen := false;
        isRunning := false;
      }
    }

    /** The bot thread failed (bad token, network, Telegram setup): the bot is
        no longer marked as running. */
    method BotThreadFailed()
      modifies this`isRunning
      ensures !isRunning
    {
      isRunning := false;
    }

    /** The status reply: the running flag and the stored Telegram token from
        the record, the Discord login from the requesting session. */
    function Status(sessionToken: Option<string>, sessionUser: Option<DiscordUser>): StatusReport
      reads this
    {
      StatusReport(isRunning, Truthy(sessionToken), Truthy(telegramBotToken), sessionUser)
    }
  }

  /** From the process's initial state, a logged-in user who starts the bot
      with all fields filled in is told it started, but a stop request right
      after is told the bot is not running, while the status request that
      follows still reports the bot as running: starting never opens the
      client handle that stopping checks. */
  method StopAfterStart(token: string, user: DiscordUser, form: StartForm, closeScheduled: bool)
    returns (started: Reply, stopped: Reply, status: StatusReport)
    requires token != "" && FormComplete(form)
    ensures started == Reply(true, BotStarted)
    ensures stopped == Reply(false, NotRunning)
    ensures status == StatusReport(true, true, true, Some(user))
  {
    var panel := new ControlPanel(false);
    panel.OAuthCallback(Some(token), Some(user));
    started := panel.StartBot(Some(token), form, closeScheduled);
    stopped := panel.StopBot(closeScheduled);
    status := panel.Status(Some(token), Some(user));
  }

  /** A second start request with a field missing is refused, yet the bot stays
      marked as running and the record now holds the refused request's fields. */
  method RefusedRestartKeepsRunning(token: string, form: StartForm, refused: StartForm)
    returns (r: Reply, running: bool, stored: StartForm)
    requires token != "" && FormComplete(form) && !FormComplete(refused)
    ensures r == Reply(false, AllFieldsRequired)
    ensures running
    ensures stored == refused
  {
    var panel := new ControlPanel(false);
    var first := panel.StartBot(Some(token), form, false);
    r := panel.StartBot(Some(token), refused, false);
    running := panel.isRunning;
    stored := StartForm(panel.discordChannelUrl, panel.telegramBotToken, panel.telegramChatId);
  }
}
