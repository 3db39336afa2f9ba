/**
 How the relay bot turns its configured Discord channel link into a target
 channel when its connection becomes ready: split the link on the
 `/channels/` marker, read a guild id and a channel id from the text after
 it, and look the pair up among the guilds and channels the connection can
 see. A link that does not parse (no marker, too few pieces, a piece that
 is not an integer) or names a guild the connection cannot see leaves the
 target as it was; a visible guild without the channel sets no target. No
 failure escapes.
 */
module ChannelLinks {
  import opened Strings

  const ChannelsMarker: string := "/channels/"

  /** A Discord channel the bot can see. */
  datatype Channel = Channel(id: int, name: string)

  /** The guilds visible to the connection: guild id to (channel id to channel name). */
  type Directory = map<int, map<int, string>>

  /** The ids read from the text after the marker: its first `/`-piece is the
      guild id, its second the channel id, and any further pieces are ignored.
      The guild piece is read first, so a bad guild id fails before a missing
      channel piece is noticed; both end in `None`. A path without `/` has
      no second piece, so it names nothing. The pieces are written out at
      each use rather than bound once, which keeps the lemmas that unfold
      this function cheap to verify (as in `Split`). */
  function ParseIdPath(path: string): (ids: Option<(int, int)>)
    ensures !Contains(path, "/") ==> ids.None?
  {
    SplitSingle(path, "/");
    if ParseInt(Split(path, "/")[0]).None? then None
    else if |Split(path, "/")| < 2 then None
    else if ParseInt(Split(path, "/")[1]).None? then None
    else Some((ParseInt(Split(path, "/")[0]).value, ParseInt(Split(path, "/")[1]).value))
  }

  /** The guild and channel ids named by a channel link, or `None` where the
      bot's parsing ends without a target. */
  function ParseChannelLink(url: string): (ids: Option<(int, int)>)
    ensures !Contains(url, ChannelsMarker) ==> ids.None?
  {
    if !Contains(url, ChannelsMarker) then None
    else ParseIdPath(Last(Split(url, ChannelsMarker)))
  }

  /** `target` after the bot looks the link up in `dir`, starting from `prev`:
      a link that does not parse, or names a guild the connection cannot see,
      leaves `prev`; a visible guild replaces it by the channel looked up
      there, which may be missing. The parse is written out at each use for
      the same reason as in `ParseIdPath`. */
  function ResolveTarget(url: string, dir: Directory, prev: Option<Channel>): (target: Option<Channel>)
    ensures || target == prev
            || target.None?
            || (&& ParseChannelLink(url).Some?
                && target.value.id == ParseChannelLink(url).value.1
                && Lists(dir, ParseChannelLink(url).value.0, target.value))
  {
    if ParseChannelLink(url).None? then prev
    else if ParseChannelLink(url).value.0 !in dir then prev
    else if ParseChannelLink(url).value.1 in dir[ParseChannelLink(url).value.0] then
      Some(Channel(ParseChannelLink(url).value.1,
                   dir[ParseChannelLink(url).value.0][ParseChannelLink(url).value.1]))
    else None
  }

  /** Channel `ch` is listed, under its own id and name, in guild `guild` of `dir`. */
  predicate Lists(dir: Directory, guild: int, ch: Channel)
  {
    guild in dir && ch.id in dir[guild] && dir[guild][ch.id] == ch.name
  }

  /** The text after the marker never holds the marker, so the pieces of a link
      written as guild id, `/`, channel id and any `/`-led rest start with the
      two ids. */
  lemma IdPathOfIds(guild: int, channel: int, rest: string)
    requires rest == [] || rest[0] == '/'
    ensures ParseIdPath(IntToString(guild) + "/" + IntToString(channel) + rest) == Some((guild, channel))
  {
    var g, c := IntToString(guild), IntToString(channel);
    var path := g + "/" + c + rest;
    assert Split(path, "/") == [g] + Split(c + rest, "/") by {
      NoSlashInInt(guild);
      SplitSingle(g, "/");
      assert "/"[..0] == [] && g + [] == g;
      AppendAssoc(g, "/", c + rest);
      assert path == g + "/" + (c + rest);
      SplitAppend(g, "/", c + rest);
    }
    assert Split(c + rest, "/")[0] == c by {
      NoSlashInInt(channel);
      SplitSingle(c, "/");
      if rest == [] {
        assert c + rest == c;
      } else {
        assert c + rest == c + "/" + rest[1..];
        SplitAppend(c, "/", rest[1..]);
      }
    }
    ParseIntRoundTrip(guild);
    ParseIntRoundTrip(channel);
  }

  /** An id path holds no marker unless the part after the two ids does. */
  lemma NoMarkerInIds(guild: int, channel: int, rest: string)
    requires !Contains(rest, ChannelsMarker)
    ensures !Contains(IntToString(guild) + "/" + IntToString(channel) + rest, ChannelsMarker)
  {
    var g, c := IntToString(guild), IntToString(channel);
    var path := g + "/" + c + rest;
    var n := |g| + 1 + |c|;
    forall j | 0 <= j <= |path| - |ChannelsMarker|
      ensures !OccursAt(path, ChannelsMarker, j)
    {
      if j < n {
        if path[j] == '/' {
          assert j == |g|;
          assert path[j + 1] == c[0];
        }
        assert path[j..j + |ChannelsMarker|][0] == path[j];
        assert path[j..j + |ChannelsMarker|][1] == path[j + 1];
      } else {
        assert path[n..] == rest;
        assert path[j..j + |ChannelsMarker|] == rest[j - n..j - n + |ChannelsMarker|];
        assert !OccursAt(rest, ChannelsMarker, j - n);
      }
    }
  }

  /** A link made of any prefix, the marker, a guild id, `/`, a channel id and a
      rest that is empty or starts with `/` and holds no marker, names exactly
      that guild and channel. The prefix may hold earlier markers: only the
      text after the last cut counts. Excluded is a prefix whose last piece
      ends in `/channels`, where the marker would overlap an earlier one. */
  lemma ParseChannelLinkOfIds(prefix: string, guild: int, channel: int, rest: string)
    requires !Contains(Last(Split(prefix, ChannelsMarker)) + "/channels", ChannelsMarker)
    requires !Contains(rest, ChannelsMarker)
    requires rest == [] || rest[0] == '/'
    ensures ParseChannelLink(prefix + ChannelsMarker + IntToString(guild) + "/" + IntToString(channel) + rest)
         == Some((guild, channel))
  {
    var path := IntToString(guild) + "/" + IntToString(channel) + rest;
    var url := prefix + ChannelsMarker + IntToString(guild) + "/" + IntToString(channel) + rest;
    assert url == prefix + ChannelsMarker + path;
    NoMarkerInIds(guild, channel, rest);
    LastPieceAfterMarker(prefix, path);
    IdPathOfIds(guild, channel, rest);
  }

  /** After a last marker that does not overlap the prefix, the last piece of
      the link is all the text that follows the marker. */
  lemma LastPieceAfterMarker(prefix: string, path: string)
    requires !Contains(Last(Split(prefix, ChannelsMarker)) + "/channels", ChannelsMarker)
    requires !Contains(path, ChannelsMarker)
    ensures Contains(prefix + ChannelsMarker + path, ChannelsMarker)
    ensures Last(Split(prefix + ChannelsMarker + path, ChannelsMarker)) == path
  {
    var url := prefix + ChannelsMarker + path;
    assert Last(Split(url, ChannelsMarker)) == path by {
      SplitSingle(path, ChannelsMarker);
      assert ChannelsMarker[..|ChannelsMarker| - 1] == "/channels";
      SplitAppend(prefix, ChannelsMarker, path);
    }
    assert OccursAt(url, ChannelsMarker, |prefix|) by {
      assert url[|prefix|..|prefix| + |ChannelsMarker|] == ChannelsMarker;
    }
  }

  /** A link whose last piece has fewer than two `/`-pieces, or whose first two
      pieces are not both integers, names nothing. */
  lemma ParseChannelLinkFails(url: string)
    requires Contains(url, ChannelsMarker)
    requires || !Contains(Last(Split(url, ChannelsMarker)), "/")
             || ParseInt(Split(Last(Split(url, ChannelsMarker)), "/")[0]).None?
             || (|Split(Last(Split(url, ChannelsMarker)), "/")| >= 2
                 && ParseInt(Split(Last(Split(url, ChannelsMarker)), "/")[1]).None?)
    ensures ParseChannelLink(url).None?
  {
    SplitSingle(Last(Split(url, ChannelsMarker)), "/");
  }

  /** Starting from no target, the bot ends with target `ch` exactly when the
      link names a guild the connection sees and `ch` is the channel of that
      guild with the link's channel id. */
  lemma ResolveFromNone(url: string, dir: Directory, ch: Channel)
    ensures ResolveTarget(url, dir, None) == Some(ch)
        <==> ParseChannelLink(url).Some? && ParseChannelLink(url).value.1 == ch.id
             && Lists(dir, ParseChannelLink(url).value.0, ch)
  {
  }

  /** A link that does not parse, or names a guild the connection does not
      see, leaves the target as it was. */
  lemma ResolveKeepsTarget(url: string, dir: Directory, prev: Option<Channel>)
    requires ParseChannelLink(url).None? || ParseChannelLink(url).value.0 !in dir
    ensures ResolveTarget(url, dir, prev) == prev
  {
  }
}
