/**
 The request bodies and request URLs the Discord webhook client builds:
 one embed describing a live stream (shared by the create and update
 messages), the create, update and finalize bodies, and the two webhook URLs.
 */
module Webhook {
  import opened Wrappers
  import opened Json

  /** The record the Twitch client hands over; only these seven fields are read. */
  datatype StreamInformation = StreamInformation(
    userLogin: string,
    userName: string,
    title: string,
    startedAt: string,
    thumbnailUrl: string,
    gameName: string,
    viewerCount: int)

  const EmbedColor: int := 8388863
  const TwitchChannelBase: string := "https://www.twitch.tv/"
  const CreateUsername: string := "Randy"
  const FinalizeUsername: string := "Oak Tree"
  const FinalizeAvatarUrl: string := "https://i.imgur.com/DBOuwjx.png"
  const StoppedText: string := " stopped the stream. Check out the VOD!\n"
  const NoVod: string := "None available."
  const WaitQuery: string := "?wait=true"
  const MessagesPath: string := "/messages/"

  /** The member names of each object literal, in the order the source writes them. */
  const FieldKeys: seq<string> := ["name", "value", "inline"]
  const AuthorKeys: seq<string> := ["name", "url", "icon_url"]
  const ImageKeys: seq<string> := ["url"]
  const EmbedKeys: seq<string> := ["title", "color", "timestamp", "url", "author", "image", "fields"]
  const MessageKeys: seq<string> := ["username", "avatar_url", "content", "embeds"]
  const EmbedsOnlyKeys: seq<string> := ["embeds"]

  lemma KeysDistinct()
    ensures Distinct(FieldKeys) && Distinct(AuthorKeys) && Distinct(ImageKeys)
    ensures Distinct(EmbedKeys) && Distinct(MessageKeys) && Distinct(EmbedsOnlyKeys)
  {
  }

  /** The member `key` of `j`, or null when `j` has no such member. */
  function At(j: Json, key: string): Json
  {
    match Field(j, key)
    case Some(v) => v
    case None => JNull
  }

  /** An embed field object `{name, value, inline: true}`. */
  predicate IsInlineField(f: Json, name: string, value: Json)
  {
    && Keys(f) == FieldKeys
    && At(f, "name") == JString(name)
    && At(f, "value") == value
    && At(f, "inline") == JBool(true)
  }

  /** The channel page of a Twitch login: the fixed channel base followed by the login. */
  function StreamerUrl(userLogin: string): (u: string)
    ensures |u| == |TwitchChannelBase| + |userLogin|
    ensures u[..|TwitchChannelBase|] == TwitchChannelBase
    ensures u[|TwitchChannelBase|..] == userLogin
  {
    TwitchChannelBase + userLogin
  }

  function InlineField(name: string, value: Json): Json
  {
    Object(FieldKeys, [JString(name), value, JBool(true)])
  }

  /** The author block `{name, url, icon_url}`. */
  function Author(stream: StreamInformation, profileImage: string): Json
  {
    Object(AuthorKeys, [JString(stream.userName), JString(StreamerUrl(stream.userLogin)), JString(profileImage)])
  }

  /** The embed describing a live stream; shared by the create and update bodies. */
  function StreamEmbed(stream: StreamInformation, profileImage: string): Json
  {
    Object(EmbedKeys, [
      JString(stream.title),
      JInt(EmbedColor),
      JString(stream.startedAt),
      JString(StreamerUrl(stream.userLogin)),
      Author(stream, profileImage),
      Object(ImageKeys, [JString(stream.thumbnailUrl)]),
      JArray([InlineField("Game", JString(stream.gameName)),
              InlineField("Viewers", JInt(stream.viewerCount))])])
  }

  /** The body of the create request. */
  function CreatePayload(avatarUrl: string, content: string, stream: StreamInformation, profileImage: string): Json
  {
    Object(MessageKeys, [JString(CreateUsername), JString(avatarUrl), JString(content),
                         JArray([StreamEmbed(stream, profileImage)])])
  }

  /** The body of the update request. */
  function UpdatePayload(stream: StreamInformation, profileImage: string): Json
  {
    Object(EmbedsOnlyKeys, [JArray([StreamEmbed(stream, profileImage)])])
  }

  /** The text after the streamer's name in the finalize notice: the fixed words, a line break, the VOD link. */
  function FinalizeContent(streamerName: string, vod: string): (c: string)
    ensures |c| == |streamerName| + |StoppedText| + |vod|
    ensures c[..|streamerName|] == streamerName
    ensures c[|streamerName|..|streamerName| + |StoppedText|] == StoppedText
    ensures c[|streamerName| + |StoppedText|..] == vod
  {
    var c := streamerName + StoppedText + vod;
    assert c[..|streamerName|] == streamerName;
    assert c[|streamerName|..|streamerName| + |StoppedText|] == StoppedText;
    c
  }

  /** The body of the finalize request. */
  function FinalizePayload(streamerName: string, vod: string): Json
  {
    Object(MessageKeys, [JString(FinalizeUsername), JString(FinalizeAvatarUrl),
                         JString(FinalizeContent(streamerName, vod)), JArray([])])
  }

  /** An embed field is an object `{name, value, inline}` marked inline. */
  lemma InlineFieldShape(name: string, value: Json)
    ensures IsInlineField(InlineField(name, value), name, value)
  {
    KeysDistinct();
    var values := [JString(name), value, JBool(true)];
    ObjectField(FieldKeys, values, 0);
    ObjectField(FieldKeys, values, 1);
    ObjectField(FieldKeys, values, 2);
  }

  /**
   The stream embed: fixed color, the stream's title and start time, the
   channel page as both the embed's url and the author's url, the author's
   name and icon, the thumbnail as image, and exactly two inline fields,
   "Game" with the game name then "Viewers" with the viewer count.
   */
  lemma StreamEmbedShape(stream: StreamInformation, profileImage: string)
    ensures var e := StreamEmbed(stream, profileImage);
      && Keys(e) == EmbedKeys
      && At(e, "title") == JString(stream.title)
      && At(e, "color") == JInt(EmbedColor)
      && At(e, "timestamp") == JString(stream.startedAt)
      && At(e, "url") == JString(StreamerUrl(stream.userLogin))
      && Keys(At(e, "author")) == AuthorKeys
      && At(At(e, "author"), "url") == At(e, "url")
      && At(At(e, "author"), "name") == JString(stream.userName)
      && At(At(e, "author"), "icon_url") == JString(profileImage)
      && Keys(At(e, "image")) == ImageKeys
      && At(At(e, "image"), "url") == JString(stream.thumbnailUrl)
      && At(e, "fields").JArray? && |At(e, "fields").items| == 2
      && IsInlineField(At(e, "fields").items[0], "Game", JString(stream.gameName))
      && IsInlineField(At(e, "fields").items[1], "Viewers", JInt(stream.viewerCount))
  {
    KeysDistinct();
    var author := [JString(stream.userName), JString(StreamerUrl(stream.userLogin)), JString(profileImage)];
    ObjectField(AuthorKeys, author, 0);
    ObjectField(AuthorKeys, author, 1);
    ObjectField(AuthorKeys, author, 2);
    ObjectField(ImageKeys, [JString(stream.thumbnailUrl)], 0);
    InlineFieldShape("Game", JString(stream.gameName));
    InlineFieldShape("Viewers", JInt(stream.viewerCount));
    var values := [
      JString(stream.title),
      JInt(EmbedColor),
      JString(stream.startedAt),
      JString(StreamerUrl(stream.userLogin)),
      Author(stream, profileImage),
      Object(ImageKeys, [JString(stream.thumbnailUrl)]),
      JArray([InlineField("Game", JString(stream.gameName)),
              InlineField("Viewers", JInt(stream.viewerCount))])];
    ObjectField(EmbedKeys, values, 0);
    ObjectField(EmbedKeys, values, 1);
    ObjectField(EmbedKeys, values, 2);
    ObjectField(EmbedKeys, values, 3);
    ObjectField(EmbedKeys, values, 4);
    ObjectField(EmbedKeys, values, 5);
    ObjectField(EmbedKeys, values, 6);
  }

  /** The create body: the fixed bot name, the configured avatar and content, and the one stream embed. */
  lemma CreatePayloadShape(avatarUrl: string, content: string, stream: StreamInformation, profileImage: string)
    ensures var p := CreatePayload(avatarUrl, content, stream, profileImage);
      && Keys(p) == MessageKeys
      && At(p, "username") == JString(CreateUsername)
      && At(p, "avatar_url") == JString(avatarUrl)
      && At(p, "content") == JString(content)
      && At(p, "embeds") == JArray([StreamEmbed(stream, profileImage)])
  {
    KeysDistinct();
    var values := [JString(CreateUsername), JString(avatarUrl), JString(content),
                   JArray([StreamEmbed(stream, profileImage)])];
    ObjectField(MessageKeys, values, 0);
    ObjectField(MessageKeys, values, 1);
    ObjectField(MessageKeys, values, 2);
    ObjectField(MessageKeys, values, 3);
  }

  /**
   The update body carries only the embeds, leaving name, avatar and content
   alone, and its embeds are exactly those of the create body for the same
   stream and profile image.
   */
  lemma UpdatePayloadShape(avatarUrl: string, content: string, stream: StreamInformation, profileImage: string)
    ensures var p := UpdatePayload(stream, profileImage);
      && Keys(p) == EmbedsOnlyKeys
      && Field(p, "username").None? && Field(p, "avatar_url").None? && Field(p, "content").None?
      && At(p, "embeds") == JArray([StreamEmbed(stream, profileImage)])
      && At(p, "embeds") == At(CreatePayload(avatarUrl, content, stream, profileImage), "embeds")
  {
    KeysDistinct();
    ObjectField(EmbedsOnlyKeys, [JArray([StreamEmbed(stream, profileImage)])], 0);
    CreatePayloadShape(avatarUrl, content, stream, profileImage);
  }

  /**
   The finalize body: a different bot name and avatar, the "stopped" notice
   for the streamer followed by the VOD link on its own line, and no embeds.
   */
  lemma FinalizePayloadShape(streamerName: string, vod: string)
    ensures var p := FinalizePayload(streamerName, vod);
      && Keys(p) == MessageKeys
      && At(p, "username") == JString(FinalizeUsername)
      && At(p, "avatar_url") == JString(FinalizeAvatarUrl)
      && At(p, "content") == JString(FinalizeContent(streamerName, vod))
      && At(p, "embeds") == JArray([])
  {
    KeysDistinct();
    var values := [JString(FinalizeUsername), JString(FinalizeAvatarUrl),
                   JString(FinalizeContent(streamerName, vod)), JArray([])];
    ObjectField(MessageKeys, values, 0);
    ObjectField(MessageKeys, values, 1);
    ObjectField(MessageKeys, values, 2);
    ObjectField(MessageKeys, values, 3);
  }

  /** The VOD link shown when finalizing: a placeholder when none (or an empty one) is given. */
  function VodText(vodUrl: Option<string>): (t: string)
    ensures t != ""
    ensures vodUrl.Some? && vodUrl.value != "" ==> t == vodUrl.value
    ensures vodUrl.None? || vodUrl.value == "" ==> t == NoVod
  {
    if vodUrl.None? || vodUrl.value == "" then NoVod else vodUrl.value
  }

  /** The create URL: the webhook itself, asking the server to wait and return the new message. */
  function CreateUrl(webhookUrl: string): (u: string)
    ensures |u| == |webhookUrl| + |WaitQuery|
    ensures u[..|webhookUrl|] == webhookUrl
    ensures u[|webhookUrl|..] == WaitQuery
  {
    webhookUrl + WaitQuery
  }

  /** The URL of one message posted through the webhook. */
  function MessageUrl(webhookUrl: string, msgId: string): (u: string)
    ensures |u| == |webhookUrl| + |MessagesPath| + |msgId|
    ensures u[..|webhookUrl|] == webhookUrl
    ensures u[|webhookUrl|..|webhookUrl| + |MessagesPath|] == MessagesPath
    ensures u[|webhookUrl| + |MessagesPath|..] == msgId
  {
    var u := webhookUrl + MessagesPath + msgId;
    assert u[..|webhookUrl|] == webhookUrl;
    assert u[|webhookUrl|..|webhookUrl| + |MessagesPath|] == MessagesPath;
    u
  }

  /** Message URLs of one webhook name their messages: different ids give different URLs. */
  lemma MessageUrlInjective(webhookUrl: string, a: string, b: string)
    ensures MessageUrl(webhookUrl, a) == MessageUrl(webhookUrl, b) <==> a == b
  {
    if MessageUrl(webhookUrl, a) == MessageUrl(webhookUrl, b) {
      var n := |webhookUrl| + |MessagesPath|;
      assert a == MessageUrl(webhookUrl, a)[n..];
    }
  }

  /** The create URL is never the URL of a message of the same webhook. */
  lemma CreateUrlIsNoMessageUrl(webhookUrl: string, msgId: string)
    ensures CreateUrl(webhookUrl) != MessageUrl(webhookUrl, msgId)
  {
    var n := |webhookUrl|;
    assert CreateUrl(webhookUrl)[n] == WaitQuery[0] == '?';
    assert MessageUrl(webhookUrl, msgId)[n] == MessagesPath[0] == '/';
  }
}
