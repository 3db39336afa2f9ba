/**
 The Discord side of the relay: a bot connection that, once ready, resolves
 its configured channel link to a target channel, and then hands every
 message posted in that channel by someone other than itself to Telegram as
 `**<display name>**: <content>`.

 The Telegram `send_message` call is modelled as appending an `Outgoing`
 record to the bot's `sent` trace: one record per send attempt. An error the
 call raises is caught and printed by the bot and changes nothing else, so
 the trace does not record the outcome.
 */
module Relay {
  import opened Strings
  import opened ChannelLinks

  /** A Discord message as the bot receives it. Authors compare by user id. */
  datatype InboundMessage = InboundMessage(authorId: int, authorDisplayName: string, channelId: int, content: string)

  /** One `send_message` call to Telegram. */
  datatype Outgoing = Outgoing(chatId: string, text: string)

  /** The bot forwards a message when someone else wrote it and it was posted
      in the target channel, if there is one. */
  predicate ShouldForward(botUserId: int, target: Option<Channel>, m: InboundMessage)
  {
    m.authorId != botUserId && target.Some? && m.channelId == target.value.id
  }

  const NameEnd: string := "**: "

  /** The text sent to Telegram for a message. */
  function FormatForward(displayName: string, content: string): string
  {
    "**" + displayName + NameEnd + content
  }

  /** Reads the author's display name and the content back out of a forwarded
      text: the name runs from after the leading `**` to the first `**: `. */
  function ParseForwarded(text: string): Option<(string, string)>
  {
    if |text| < 2 || text[..2] != "**" then None
    else if FindFrom(text, NameEnd, 2).None? then None
    else Some((text[2..FindFrom(text, NameEnd, 2).value], text[FindFrom(text, NameEnd, 2).value + |NameEnd|..]))
  }

  /** The forwarded text keeps the display name and the content apart exactly
      when the name does not itself hold `**: `: then both are read back, and
      otherwise the name read back is cut short. `**: ` cannot straddle the
      end of the name, since no proper prefix of it is also a suffix. */
  lemma FormatForwardRoundTrip(displayName: string, content: string)
    ensures ParseForwarded(FormatForward(displayName, content)) == Some((displayName, content))
        <==> !Contains(displayName, NameEnd)
  {
    if Contains(displayName, NameEnd) {
      ReadBackCutShort(displayName, content);
    } else {
      ReadBackExact(displayName, content);
    }
  }

  /** With no `**: ` in the name, the first `**: ` after the leading `**` is
      the one that ends the name. */
  lemma NameEndAfterName(displayName: string, content: string)
    requires !Contains(displayName, NameEnd)
    ensures FindFrom(FormatForward(displayName, content), NameEnd, 2).Some?
    ensures FindFrom(FormatForward(displayName, content), NameEnd, 2).value == 2 + |displayName|
  {
    var text := FormatForward(displayName, content);
    var i := 2 + |displayName|;
    assert OccursAt(text, NameEnd, i) by {
      assert text[i..i + |NameEnd|] == NameEnd;
    }
    forall j | 2 <= j < i
      ensures !OccursAt(text, NameEnd, j)
    {
      if j + |NameEnd| <= i {
        assert text[j..j + |NameEnd|] == displayName[j - 2..j - 2 + |NameEnd|];
        assert !OccursAt(displayName, NameEnd, j - 2);
      } else if j + |NameEnd| <= |text| {
        assert text[i] == '*' && text[i + 1] == '*';
        assert text[j..j + |NameEnd|][i - j] == text[i];
        assert i - j == 1 ==> text[j..j + |NameEnd|][2] == text[i + 1];
      }
    }
    FirstOccurrence(text, NameEnd, 2, i);
  }

  lemma ReadBackExact(displayName: string, content: string)
    requires !Contains(displayName, NameEnd)
    ensures ParseForwarded(FormatForward(displayName, content)) == Some((displayName, content))
  {
    var text := FormatForward(displayName, content);
    var i := 2 + |displayName|;
    NameEndAfterName(displayName, content);
    assert text[..2] == "**";
    assert text[2..i] == displayName;
    assert text[i + |NameEnd|..] == content;
  }

  /** A `**: ` inside the name ends the name read back early. */
  lemma ReadBackCutShort(displayName: string, content: string)
    requires Contains(displayName, NameEnd)
    ensures ParseForwarded(FormatForward(displayName, content)) != Some((displayName, content))
  {
    var text := FormatForward(displayName, content);
    var j :| 0 <= j <= |displayName| - |NameEnd| && OccursAt(displayName, NameEnd, j);
    assert OccursAt(text, NameEnd, j + 2) by {
      assert text[j + 2..j + 2 + |NameEnd|] == displayName[j..j + |NameEnd|];
    }
    assert FindFrom(text, NameEnd, 2).value <= j + 2;
  }

  /** Every name that holds `**: ` makes the text ambiguous: the name
      `x**: y` with content `c` gives the same text as the name `x` with
      content `y**: c`. */
  lemma FormatForwardAmbiguous(x: string, y: string, c: string)
    ensures FormatForward(x + NameEnd + y, c) == FormatForward(x, y + NameEnd + c)
    ensures (x + NameEnd + y, c) != (x, y + NameEnd + c)
  {
    assert |x + NameEnd + y| > |x|;
  }

  /** A message is forwarded from a freshly resolved bot only if someone other
      than the bot wrote it in the channel the link names, inside a guild the
      connection sees. */
  lemma ForwardedOnlyFromLinkedChannel(url: string, dir: Directory, botUserId: int, m: InboundMessage)
    requires ShouldForward(botUserId, ResolveTarget(url, dir, None), m)
    ensures m.authorId != botUserId
    ensures ParseChannelLink(url).Some? && ParseChannelLink(url).value.1 == m.channelId
    ensures ParseChannelLink(url).value.0 in dir && m.channelId in dir[ParseChannelLink(url).value.0]
  {
    ResolveFromNone(url, dir, ResolveTarget(url, dir, None).value);
  }

  /** The Discord client of the relay, with the channel link and Telegram chat
      it was built with and the user id it logged in as. */
  class DiscordBot {
    const channelUrl: string
    const telegramChatId: string
    const botUserId: int
    var targetChannel: Option<Channel>
    var sent: seq<Outgoing>

    constructor (channelUrl: string, telegramChatId: string, botUserId: int)
      ensures this.channelUrl == channelUrl && this.telegramChatId == telegramChatId
      ensures this.botUserId == botUserId
      ensures targetChannel == None && sent == []
    {
      this.channelUrl := channelUrl;
      this.telegramChatId := telegramChatId;
      this.botUserId := botUserId;
      targetChannel := None;
      sent := [];
    }

    /** Connection ready: resolve the link against the guilds the connection
        sees. May run again on reconnect, starting from the current target. */
    method OnReady(dir: Directory)
      modifies this`targetChannel
      ensures targetChannel == ResolveTarget(channelUrl, dir, old(targetChannel))
    {
      var ids := ParseChannelLink(channelUrl);
      if ids.Some? {
        var guild, channel := ids.value.0, ids.value.1;
        if guild in dir {
          targetChannel := if channel in dir[guild] then Some(Channel(channel, dir[guild][channel])) else None;
        }
      }
    }

    /** A message arrived: forward it to the Telegram chat when it qualifies. */
    method OnMessage(m: InboundMessage)
      modifies this`sent
      ensures ShouldForward(botUserId, targetChannel, m) ==>
                sent == old(sent) + [Outgoing(telegramChatId, FormatForward(m.authorDisplayName, m.content))]
      ensures !ShouldForward(botUserId, targetChannel, m) ==> sent == old(sent)
    {
      if m.authorId == botUserId {
        return;
      }
      if targetChannel.Some? && m.channelId == targetChannel.value.id {
        sent := sent + [Outgoing(telegramChatId, FormatForward(m.authorDisplayName, m.content))];
      }
    }
  }

  /** A bot built for the link `prefix/channels/<guild>/<channel>`, on a
      connection that sees that channel, sends one message to its chat for a
      message someone else posts there, and nothing for its own messages or
      other channels. */
  method RelayOneMessage(prefix: string, guild: int, channel: int, channelName: string, dir: Directory,
                         chatId: string, botUserId: int, m: InboundMessage)
    returns (sent: seq<Outgoing>)
    requires !Contains(Last(Split(prefix, ChannelsMarker)) + "/channels", ChannelsMarker)
    requires Lists(dir, guild, Channel(channel, channelName))
    ensures m.authorId != botUserId && m.channelId == channel ==>
              sent == [Outgoing(chatId, FormatForward(m.authorDisplayName, m.content))]
    ensures m.authorId == botUserId || m.channelId != channel ==> sent == []
  {
    var url := prefix + ChannelsMarker + IntToString(guild) + "/" + IntToString(channel);
    assert ParseChannelLink(url) == Some((guild, channel)) by {
      assert !Contains("", ChannelsMarker);
      ParseChannelLinkOfIds(prefix, guild, channel, "");
      assert url + "" == url;
    }
    var bot := new DiscordBot(url, chatId, botUserId);
    bot.OnReady(dir);
    bot.OnMessage(m);
    sent := bot.sent;
  }
}
