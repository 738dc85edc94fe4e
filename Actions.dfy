/**
 * The per-action decision logic of DiscordAgent (discord_agent.py):
 * create_group_chat, the validation prefix of invite_member_to_channel,
 * change_bot_avatar, handle_change_avatar, change_bot_name and
 * handle_change_name.
 *
 * Everything the agent does on the platform is an Event appended to the
 * agent's trace. What the platform answers is an input: the user and channel
 * directories behind the id lookups, a Fault saying which platform call of
 * create_group_chat raises, the HTTP fetch result, and the outcome of an edit.
 */
module Actions {
  import opened Wrappers
  import opened Text
  import opened Mentions

  /** A guild member as the agent sees it. */
  datatype User = User(id: nat, displayName: string, isBot: bool)

  datatype Channel = Channel(id: nat, name: string)

  /** `user.mention`: the platform's mention markup around the user's id
      (ResolveOwnMention reads the id back). */
  function UserMention(u: User): (r: string)
    ensures StartsWith(r, "<@") && r[|r| - 1] == '>'
  {
    "<@" + ShowNat(u.id) + ">"
  }

  /** In a directory that files every user under its own id, the mention the
      agent writes for a user resolves back to that user. */
  lemma ResolveOwnMention(directory: map<nat, User>, u: User)
    requires u.id in directory && directory[u.id] == u
    ensures Lookup(directory, UserMention(u)) == Some(u)
  {
    ParseIdOfMention("<@", u.id, ">");
  }

  /** Resolving the agent's own mentions of several users gives back those
      users, in order. */
  lemma {:induction false} ResolveOwnMentions(directory: map<nat, User>, users: seq<User>)
    requires forall k :: 0 <= k < |users| ==> users[k].id in directory && directory[users[k].id] == users[k]
    ensures Resolved(directory, UserMentions(users)) == users
  {
    if users != [] {
      var front := users[..|users| - 1];
      var last := users[|users| - 1];
      assert users == front + [last];
      var mentions := UserMentions(front);
      var mention := UserMention(last);
      assert UserMentions(users) == mentions + [mention];
      ResolveOwnMentions(directory, front);
      ResolveOwnMention(directory, last);
      ResolvedSingle(directory, mention);
      assert Resolved(directory, [mention]) == [last];
      ResolvedConcat(directory, mentions, [mention]);
    }
  }

  /** discord.Forbidden, or any other discord.HTTPException; `text` is `str(e)`. */
  datatype PlatformError = Forbidden(text: string) | HttpError(text: string)

  /** Which platform call of an operation raises, counting from 0: the calls
      before it succeed, the call itself has no effect, the rest never happen. */
  datatype Fault = NoFault | FailAt(call: nat, error: PlatformError)

  /** The fault stops a run of `calls` platform calls before it completes. */
  predicate Interrupts(fault: Fault, calls: nat) {
    fault.FailAt? && fault.call < calls
  }

  /** What the platform observes the agent do. */
  datatype Event =
    | ThreadCreated(name: string)            // a private thread, invitable=False
    | ThreadMemberAdded(user: User)          // thread.add_user
    | ThreadMessage(text: string)            // thread.send
    | ChannelMessage(text: string)           // message.channel.send
    | Replied(text: string)                  // message.reply
    | AvatarFetched(url: string)             // the HTTP GET of the image
    | OwnAvatarEdited                        // message.guild.me.edit(avatar=...)
    | NicknameEdited(bot: User, nick: string) // bot_mention.edit(nick=...)

  /** What the HTTP GET of the avatar URL yields. */
  datatype FetchResult =
    | ClientFailure(text: string)                                        // aiohttp.ClientError
    | Response(status: nat, contentType: string, readFailure: Option<string>)

  /** What invite_member_to_channel does, as far as it is modelled. */
  datatype InviteOutcome =
    | Rejected(text: string)          // returned validation message
    | Announced(text: string)         // the "Adding ..." reply was sent
    | ReplyRaised(error: PlatformError)

  const NoValidUsers := "No valid users found. Please check the user IDs."
  const NoValidChannels := "No valid channels found. Please check the channel IDs."
  const ThreadCreatedReply := "Private thread created!"
  const ThreadForbidden := "I don't have permission to create private threads!"
  const ThreadFailed := "Failed to create the thread. Please try again later."
  const NotABot := "❌ The mentioned user is not a bot."
  const InvalidUrlFormat := "❌ Invalid URL format. URL must start with http:// or https://"
  const NotAnImage := "❌ The URL does not point to a valid image."
  const AvatarChanged := "✅ Bot avatar changed successfully!"
  const AvatarPrompt := "Please mention the bot and provide the image URL to change its avatar."
  const NameMissing := "❌ Please provide a new name for the bot."
  const NoRenamePermission := "❌ I don't have permission to change the bot's name."
  const BothMissing := "❌ Please mention the bot and provide a new name."
  const BotMissing := "❌ Please mention the bot you want to rename."
  const NamePrompt := "Please use the format: 'change the bot @botname name to <new_name>'"

  /** The messages that carry `str(e)` or the status code after a fixed lead-in. */
  const WelcomeLead := "Private thread created! Welcome "
  const AvatarEditLead := "❌ Error changing avatar: "
  const StatusLead := "❌ Failed to fetch image. Status code: "
  const AccessLead := "❌ Error accessing URL: "
  const RenameLead := "❌ Failed to change name: "

  function AvatarEditError(text: string): (r: string)
    ensures StartsWith(r, AvatarEditLead) && r[|AvatarEditLead|..] == text
  {
    AvatarEditLead + text
  }

  function StatusFailure(status: nat): (r: string)
    ensures StartsWith(r, StatusLead) && r[|StatusLead|..] == ShowNat(status)
    ensures ParseId(r[|StatusLead|..]) == Some(status)
  {
    ParseIdOfMention("", status, "");
    assert "" + ShowNat(status) + "" == ShowNat(status);
    StatusLead + ShowNat(status)
  }

  function AccessError(text: string): (r: string)
    ensures StartsWith(r, AccessLead) && r[|AccessLead|..] == text
  {
    AccessLead + text
  }

  function NameChanged(name: string): (r: string)
    ensures StartsWith(r, "✅ Successfully changed bot's name to **")
    ensures |r| == |"✅ Successfully changed bot's name to **"| + |name| + 3 && r[|r| - 3..] == "**!"
    ensures r[|"✅ Successfully changed bot's name to **"|..|r| - 3] == name
  {
    "✅ Successfully changed bot's name to **" + name + "**!"
  }

  function RenameFailed(text: string): (r: string)
    ensures StartsWith(r, RenameLead) && r[|RenameLead|..] == text
  {
    RenameLead + text
  }

  /** Python's falsiness of an optional string argument: None and "" are
      both false, any other string is true. */
  predicate Absent(s: Option<string>)
    ensures !Absent(s) <==> exists c :: s.Some? && c in s.value
  {
    assert s.Some? && s.value != "" ==> s.value[0] in s.value;
    s.None? || s.value == ""
  }

  function DisplayNames(users: seq<User>): (r: seq<string>)
  {
    seq(|users|, i requires 0 <= i < |users| => users[i].displayName)
  }

  function ChannelNames(channels: seq<Channel>): (r: seq<string>)
  {
    seq(|channels|, i requires 0 <= i < |channels| => channels[i].name)
  }

  function UserMentions(users: seq<User>): (r: seq<string>)
  {
    seq(|users|, i requires 0 <= i < |users| => UserMention(users[i]))
  }

  /** The name of the private thread: the display names in resolution order. */
  function ThreadName(users: seq<User>): (r: string)
    ensures StartsWith(r, "Private Chat with ")
    ensures r[|"Private Chat with "|..] == Join(DisplayNames(users), ", ")
  {
    "Private Chat with " + Join(DisplayNames(users), ", ")
  }

  /** The welcome message: every resolved user's mention, in order, between
      the greeting and a closing `!`. */
  function WelcomeText(users: seq<User>): (r: string) {
    WelcomeLead + Join(UserMentions(users), ", ") + "!"
  }

  /** The welcome message holds every resolved user's mention, in order,
      between the greeting and a closing `!`. */
  lemma WelcomeTextParts(users: seq<User>)
    ensures var r := WelcomeText(users);
      var mentions := Join(UserMentions(users), ", ");
      |r| == |WelcomeLead| + |mentions| + 1 && StartsWith(r, WelcomeLead) &&
      OccursAt(r, mentions, |WelcomeLead|) && r[|r| - 1] == '!'
  {
  }

  /** The platform calls of a successful create_group_chat, in order: create
      the thread, add each resolved user once, send one welcome message. */
  function GroupChatSteps(users: seq<User>): (r: seq<Event>)
    ensures |r| == |users| + 2
    ensures r[0] == ThreadCreated(ThreadName(users))
    ensures r[1..|r| - 1] == MemberSteps(users)
    ensures r[|r| - 1] == ThreadMessage(WelcomeText(users))
    ensures forall i :: 0 < i < |r| ==> !r[i].ThreadCreated?
  {
    Framed(ThreadCreated(ThreadName(users)), MemberSteps(users), ThreadMessage(WelcomeText(users)))
  }

  /** One `thread.add_user` per resolved user. */
  function MemberSteps(users: seq<User>): (r: seq<Event>)
    ensures |r| == |users|
  {
    seq(|users|, i requires 0 <= i < |users| => ThreadMemberAdded(users[i]))
  }

  /** The users are added in resolution order, each once. */
  lemma MemberStepsInOrder(users: seq<User>)
    ensures forall i :: 0 <= i < |users| ==> MemberSteps(users)[i] == ThreadMemberAdded(users[i])
  {
  }

  /** `first`, then `middle`, then `last`. */
  function Framed<T>(first: T, middle: seq<T>, last: T): (r: seq<T>)
    ensures |r| == |middle| + 2 && r[0] == first && r[|r| - 1] == last
    ensures forall i :: 0 <= i < |middle| ==> r[i + 1] == middle[i]
  {
    [first] + middle + [last]
  }

  /** The first `k` elements of a framed sequence, for `k` short of the last. */
  lemma FramedPrefix<T>(first: T, middle: seq<T>, last: T, k: nat)
    requires 1 <= k <= |middle| + 1
    ensures Framed(first, middle, last)[..k] == [first] + middle[..k - 1]
  {
    assert Framed(first, middle, last)[..k] == ([first] + middle + [last])[..k];
  }

  /** A run that stops before call `k` leaves the first `k` framed steps. */
  lemma FramedStop<T>(start: seq<T>, first: T, middle: seq<T>, last: T, k: nat)
    requires 1 <= k <= |middle| + 1
    ensures (start + [first]) + middle[..k - 1] == start + Framed(first, middle, last)[..k]
  {
    FramedPrefix(first, middle, last, k);
  }

  /** A run that completes leaves every framed step. */
  lemma FramedRun<T>(start: seq<T>, first: T, middle: seq<T>, last: T)
    ensures (start + [first]) + middle + [last] == start + Framed(first, middle, last)
  {
  }

  lemma PrefixGrows<T>(s: seq<T>, n: nat)
    requires n < |s|
    ensures s[..n + 1] == s[..n] + [s[n]]
  {
  }

  /** The message create_group_chat returns when a platform call raises. */
  function ThreadFailureReply(e: PlatformError): (r: string)
    ensures r == ThreadForbidden <==> e.Forbidden?
    ensures r == ThreadFailed <==> e.HttpError?
  {
    match e
    case Forbidden(_) => ThreadForbidden
    case HttpError(_) => ThreadFailed
  }

  /** invite_member_to_channel's checks: users first, then channels. */
  function InviteRejection(users: seq<User>, channels: seq<Channel>): (r: Option<string>)
    ensures users == [] ==> r == Some(NoValidUsers)
    ensures users != [] && channels == [] ==> r == Some(NoValidChannels)
    ensures r.None? <==> users != [] && channels != []
  {
    if users == [] then Some(NoValidUsers)
    else if channels == [] then Some(NoValidChannels)
    else None
  }

  /** The "Adding ..." reply: the display names, then the channel names. */
  function AddingText(users: seq<User>, channels: seq<Channel>): (r: string)
    ensures var names := Join(DisplayNames(users), ", ");
      |r| == 7 + |names| + 12 + |Join(ChannelNames(channels), ", ")| &&
      StartsWith(r, "Adding ") && r[7..7 + |names|] == names &&
      r[7 + |names|..|r| - |Join(ChannelNames(channels), ", ")|] == " to Channel " &&
      r[|r| - |Join(ChannelNames(channels), ", ")|..] == Join(ChannelNames(channels), ", ")
  {
    "Adding " + Join(DisplayNames(users), ", ") + " to Channel " + Join(ChannelNames(channels), ", ")
  }

  const Quotes: set<char> := {'"', '\''}

  /** `url.strip().strip('"\'')`. */
  function CleanUrl(url: string): (r: string)
    ensures r == [] || (r[0] !in Quotes && r[|r| - 1] !in Quotes)
    ensures |r| <= |url|
  {
    StripChars(Strip(url), Quotes)
  }

  /** `url.startswith(('http://', 'https://'))`. */
  predicate HasWebScheme(url: string)
    ensures HasWebScheme(url) ==> StartsWith(url, "http") && |url| >= 7
  {
    StartsWith(url, "http://") || StartsWith(url, "https://")
  }

  /** A web URL written between quotes is accepted: the quotes are removed
      before the scheme is checked. */
  lemma QuotedUrlAccepted(q: char, u: string)
    requires q in Quotes
    requires HasWebScheme(u) && Trimmed(u) && u[|u| - 1] !in Quotes
    ensures CleanUrl([q] + u + [q]) == u
    ensures HasWebScheme(CleanUrl([q] + u + [q]))
  {
    var s := [q] + u + [q];
    assert Trimmed(s);
    StripTrimmed(s);
    assert s[1..] == u + [q];
    assert u[0] == 'h';
    assert TrimStart(u + [q], Quotes) == u + [q];
    assert TrimStart(s, Quotes) == u + [q];
    assert (u + [q])[..|u|] == u;
    assert TrimEnd(u + [q], Quotes) == TrimEnd(u, Quotes) == u;
  }

  /** Every handler answers with exactly one channel message, and it is the last event. */
  predicate OneMessageLast(r: seq<Event>) {
    |r| >= 1 && r[|r| - 1].ChannelMessage? &&
    forall i :: 0 <= i < |r| - 1 ==> !r[i].ChannelMessage?
  }

  predicate Fetches(r: seq<Event>) {
    exists e :: e in r && e.AvatarFetched?
  }

  predicate Renames(r: seq<Event>) {
    exists e :: e in r && e.NicknameEdited?
  }

  /** What happens once the image URL has been requested: the status is
      checked first, then the content type, then the body is read and the
      agent's own avatar is edited. */
  function FetchOutcome(fetch: FetchResult, edit: Option<PlatformError>): (r: seq<Event>)
    ensures OneMessageLast(r) && !Fetches(r)
    ensures fetch.Response? && fetch.status != 200 ==> r == [ChannelMessage(StatusFailure(fetch.status))]
    ensures fetch.Response? && fetch.status == 200 && !StartsWith(fetch.contentType, "image/") ==>
      r == [ChannelMessage(NotAnImage)]
    ensures OwnAvatarEdited in r <==>
      fetch.Response? && fetch.status == 200 && StartsWith(fetch.contentType, "image/") &&
      fetch.readFailure.None? && edit.None?
    ensures fetch.ClientFailure? ==> r == [ChannelMessage(AccessError(fetch.text))]
    ensures fetch.Response? && fetch.status == 200 && StartsWith(fetch.contentType, "image/") ==>
      match fetch.readFailure
      case Some(text) => r == [ChannelMessage(AccessError(text))]
      case None =>
        match edit
        case Some(e) => r == [ChannelMessage(AvatarEditError(e.text))]
        case None => r == [OwnAvatarEdited, ChannelMessage(AvatarChanged)]
  {
    match fetch
    case ClientFailure(text) => [ChannelMessage(AccessError(text))]
    case Response(status, contentType, readFailure) =>
      if status != 200 then [ChannelMessage(StatusFailure(status))]
      else if !StartsWith(contentType, "image/") then [ChannelMessage(NotAnImage)]
      else if readFailure.Some? then [ChannelMessage(AccessError(readFailure.value))]
      else if edit.Some? then [ChannelMessage(AvatarEditError(edit.value.text))]
      else [OwnAvatarEdited, ChannelMessage(AvatarChanged)]
  }

  /** change_bot_avatar: the bot check comes before the URL is looked at; a
      URL is fetched, once, only when its cleaned form has a web scheme. */
  function AvatarEffects(bot: User, url: string, fetch: FetchResult, edit: Option<PlatformError>): (r: seq<Event>)
    ensures OneMessageLast(r)
    ensures !bot.isBot ==> r == [ChannelMessage(NotABot)]
    ensures bot.isBot && !HasWebScheme(CleanUrl(url)) ==> r == [ChannelMessage(InvalidUrlFormat)]
    ensures Fetches(r) <==> bot.isBot && HasWebScheme(CleanUrl(url))
    ensures Fetches(r) ==> r == [AvatarFetched(CleanUrl(url))] + FetchOutcome(fetch, edit)
    ensures OwnAvatarEdited in r ==> bot.isBot && HasWebScheme(CleanUrl(url))
  {
    if !bot.isBot then [ChannelMessage(NotABot)]
    else
      var clean := CleanUrl(url);
      if !HasWebScheme(clean) then [ChannelMessage(InvalidUrlFormat)]
      else
        var rest := FetchOutcome(fetch, edit);
        var r := [AvatarFetched(clean)] + rest;
        assert r[0] in r;
        assert forall i :: 0 < i < |r| ==> r[i] == rest[i - 1];
        r
  }

  /** handle_change_avatar: a missing argument only prompts. */
  function HandleAvatarEffects(bot: Option<User>, url: Option<string>, fetch: FetchResult, edit: Option<PlatformError>): (r: seq<Event>)
    ensures OneMessageLast(r)
    ensures bot.None? || Absent(url) ==> r == [ChannelMessage(AvatarPrompt)] && !Fetches(r)
    ensures bot.Some? && !Absent(url) ==> r == AvatarEffects(bot.value, url.value, fetch, edit)
  {
    if bot.None? || Absent(url) then [ChannelMessage(AvatarPrompt)]
    else AvatarEffects(bot.value, url.value, fetch, edit)
  }

  /** change_bot_name: bot check, name check, then the nickname edit. */
  function RenameEffects(bot: User, newName: Option<string>, edit: Option<PlatformError>): (r: seq<Event>)
    ensures OneMessageLast(r)
    ensures Renames(r) <==> bot.isBot && !Absent(newName) && edit.None?
    ensures Renames(r) ==> r == [NicknameEdited(bot, newName.value), ChannelMessage(NameChanged(newName.value))]
    ensures !bot.isBot ==> r == [ChannelMessage(NotABot)]
    ensures bot.isBot && Absent(newName) ==> r == [ChannelMessage(NameMissing)]
    ensures bot.isBot && !Absent(newName) && edit.Some? && edit.value.Forbidden? ==>
      r == [ChannelMessage(NoRenamePermission)]
    ensures bot.isBot && !Absent(newName) && edit.Some? && edit.value.HttpError? ==>
      r == [ChannelMessage(RenameFailed(edit.value.text))]
  {
    if !bot.isBot then [ChannelMessage(NotABot)]
    else if Absent(newName) then [ChannelMessage(NameMissing)]
    else match edit
      case None =>
        var r := [NicknameEdited(bot, newName.value), ChannelMessage(NameChanged(newName.value))];
        assert r[0] in r;
        r
      case Some(Forbidden(_)) => [ChannelMessage(NoRenamePermission)]
      case Some(HttpError(text)) => [ChannelMessage(RenameFailed(text))]
  }

  /** handle_change_name: with an argument missing, one of three error
      messages chosen by which is missing, then the format prompt. */
  function HandleRenameEffects(bot: Option<User>, newName: Option<string>, edit: Option<PlatformError>): (r: seq<Event>)
    ensures bot.None? || Absent(newName) ==> |r| == 2 && r[1] == ChannelMessage(NamePrompt) && !Renames(r)
    ensures bot.None? && Absent(newName) ==> r[0] == ChannelMessage(BothMissing)
    ensures bot.None? && !Absent(newName) ==> r[0] == ChannelMessage(BotMissing)
    ensures bot.Some? && Absent(newName) ==> r[0] == ChannelMessage(NameMissing)
    ensures bot.Some? && !Absent(newName) ==> r == RenameEffects(bot.value, newName, edit)
  {
    if bot.None? && Absent(newName) then [ChannelMessage(BothMissing), ChannelMessage(NamePrompt)]
    else if bot.None? then [ChannelMessage(BotMissing), ChannelMessage(NamePrompt)]
    else if Absent(newName) then [ChannelMessage(NameMissing), ChannelMessage(NamePrompt)]
    else RenameEffects(bot.value, newName, edit)
  }

  /**
   * The agent. `userDirectory` and `channelDirectory` stand for what the
   * platform client can look up by id; `trace` is everything the agent has
   * done on the platform so far.
   */
  class DiscordAgent {
    const userDirectory: map<nat, User>
    const channelDirectory: map<nat, Channel>
    var trace: seq<Event>

    constructor (users: map<nat, User>, channels: map<nat, Channel>)
      ensures userDirectory == users && channelDirectory == channels && trace == []
    {
      userDirectory := users;
      channelDirectory := channels;
      trace := [];
    }

    /** The events of create_group_chat: none without a resolved user,
        otherwise the steps that ran before a platform call raised. */
    function GroupChatEffects(tokens: seq<string>, fault: Fault): (r: seq<Event>)
      ensures Resolved(userDirectory, tokens) == [] ==> r == []
      ensures Resolved(userDirectory, tokens) != [] ==> r <= GroupChatSteps(Resolved(userDirectory, tokens))
      ensures Resolved(userDirectory, tokens) != [] && !Interrupts(fault, |Resolved(userDirectory, tokens)| + 2) ==>
        r == GroupChatSteps(Resolved(userDirectory, tokens))
      ensures forall i :: 0 < i < |r| ==> !r[i].ThreadCreated?
      ensures |r| <= |tokens| + 2
    {
      var users := Resolved(userDirectory, tokens);
      if users == [] then []
      else
        var steps := GroupChatSteps(users);
        if Interrupts(fault, |steps|) then steps[..fault.call] else steps
    }

    /** The string create_group_chat returns. */
    function GroupChatReply(tokens: seq<string>, fault: Fault): (r: string)
      ensures r == NoValidUsers <==> Resolved(userDirectory, tokens) == []
      ensures r == ThreadCreatedReply <==>
        Resolved(userDirectory, tokens) != [] && !Interrupts(fault, |Resolved(userDirectory, tokens)| + 2)
      ensures r == ThreadForbidden <==>
        Resolved(userDirectory, tokens) != [] && Interrupts(fault, |Resolved(userDirectory, tokens)| + 2) &&
        fault.error.Forbidden?
      ensures r == ThreadFailed <==>
        Resolved(userDirectory, tokens) != [] && Interrupts(fault, |Resolved(userDirectory, tokens)| + 2) &&
        fault.error.HttpError?
    {
      var users := Resolved(userDirectory, tokens);
      if users == [] then NoValidUsers
      else if Interrupts(fault, |users| + 2) then ThreadFailureReply(fault.error)
      else ThreadCreatedReply
    }

    /** create_group_chat. */
    method CreateGroupChat(tokens: seq<string>, fault: Fault) returns (reply: string)
      modifies this
      ensures trace == old(trace) + GroupChatEffects(tokens, fault)
      ensures reply == GroupChatReply(tokens, fault)
    {
      var users := ResolveTokens(userDirectory, tokens);
      if users == [] {
        assert GroupChatEffects(tokens, fault) == [];
        return NoValidUsers;
      }
      var completed := PerformGroupChat(users, fault);
      if !completed {
        GroupChatInterrupted(tokens, fault);
        return ThreadFailureReply(fault.error);
      }
      GroupChatCompleted(tokens, fault);
      reply := ThreadCreatedReply;
    }

    /** The try block of create_group_chat: create the thread, add each user,
        send the welcome message, stopping at the first call that raises. */
    method PerformGroupChat(users: seq<User>, fault: Fault) returns (completed: bool)
      modifies this
      ensures completed == !Interrupts(fault, |users| + 2)
      ensures completed ==> trace == old(trace) + GroupChatSteps(users)
      ensures !completed ==> trace == old(trace) + GroupChatSteps(users)[..fault.call]
    {
      ghost var start := trace;
      var created := ThreadCreated(ThreadName(users));
      var welcome := ThreadMessage(WelcomeText(users));
      ghost var adds := MemberSteps(users);
      assert GroupChatSteps(users) == Framed(created, adds, welcome);
      if Interrupts(fault, 1) {
        return false;
      }
      trace := trace + [created];
      var added := AddMembers(users, fault);
      if !added {
        FramedStop(start, created, adds, welcome, fault.call);
        return false;
      }
      if Interrupts(fault, |users| + 2) {
        assert adds[..fault.call - 1] == adds;
        FramedStop(start, created, adds, welcome, fault.call);
        return false;
      }
      trace := trace + [welcome];
      FramedRun(start, created, adds, welcome);
      completed := true;
    }

    /** The `for user in discord_users: await thread.add_user(user)` loop,
        stopping at the first call that raises; call number `i + 2` of the
        try block adds `users[i]`. */
    method AddMembers(users: seq<User>, fault: Fault) returns (completed: bool)
      requires !Interrupts(fault, 1)
      modifies this
      ensures completed == !Interrupts(fault, |users| + 1)
      ensures completed ==> trace == old(trace) + MemberSteps(users)
      ensures !completed ==> trace == old(trace) + MemberSteps(users)[..fault.call - 1]
    {
      ghost var adds := MemberSteps(users);
      for i := 0 to |users|
        invariant trace == old(trace) + adds[..i]
        invariant !Interrupts(fault, i + 1)
      {
        if Interrupts(fault, i + 2) {
          return false;
        }
        PrefixGrows(adds, i);
        trace := trace + [ThreadMemberAdded(users[i])];
      }
      assert adds[..|users|] == adds;
      completed := true;
    }

    /** When no platform call of create_group_chat raises, every step happens
        and the reply is the success message. */
    lemma GroupChatCompleted(tokens: seq<string>, fault: Fault)
      requires Resolved(userDirectory, tokens) != []
      requires !Interrupts(fault, |Resolved(userDirectory, tokens)| + 2)
      ensures GroupChatEffects(tokens, fault) == GroupChatSteps(Resolved(userDirectory, tokens))
      ensures GroupChatReply(tokens, fault) == ThreadCreatedReply
    {
      var users := Resolved(userDirectory, tokens);
      var steps := GroupChatSteps(users);
      assert |steps| == |users| + 2;
      assert !Interrupts(fault, |steps|);
    }

    /** When a platform call of create_group_chat raises, the steps before it
        are what happened and the reply names the error. */
    lemma GroupChatInterrupted(tokens: seq<string>, fault: Fault)
      requires Resolved(userDirectory, tokens) != []
      requires Interrupts(fault, |Resolved(userDirectory, tokens)| + 2)
      ensures GroupChatEffects(tokens, fault) == GroupChatSteps(Resolved(userDirectory, tokens))[..fault.call]
      ensures GroupChatReply(tokens, fault) == ThreadFailureReply(fault.error)
    {
    }

    /** The validation prefix of invite_member_to_channel and its "Adding ..." reply. */
    method InviteMemberToChannel(userTokens: seq<string>, channelTokens: seq<string>, replyFault: Option<PlatformError>)
      returns (outcome: InviteOutcome)
      modifies this
      ensures var users := Resolved(userDirectory, userTokens);
              var channels := Resolved(channelDirectory, channelTokens);
              match InviteRejection(users, channels)
              case Some(text) => outcome == Rejected(text) && trace == old(trace)
              case None =>
                match replyFault
                case Some(e) => outcome == ReplyRaised(e) && trace == old(trace)
                case None =>
                  outcome == Announced(AddingText(users, channels)) &&
                  trace == old(trace) + [Replied(AddingText(users, channels))]
    {
      var users := ResolveTokens(userDirectory, userTokens);
      if users == [] {
        return Rejected(NoValidUsers);
      }
      var channels := ResolveTokens(channelDirectory, channelTokens);
      if channels == [] {
        return Rejected(NoValidChannels);
      }
      var text := AddingText(users, channels);
      if replyFault.Some? {
        return ReplyRaised(replyFault.value);
      }
      trace := trace + [Replied(text)];
      outcome := Announced(text);
    }

    /** message.channel.send(text). */
    method Send(text: string)
      modifies this
      ensures trace == old(trace) + [ChannelMessage(text)]
    {
      trace := trace + [ChannelMessage(text)];
    }

    /** change_bot_avatar. */
    method ChangeBotAvatar(bot: User, url: string, fetch: FetchResult, edit: Option<PlatformError>)
      modifies this
      ensures trace == old(trace) + AvatarEffects(bot, url, fetch, edit)
    {
      if !bot.isBot {
        Send(NotABot);
        return;
      }
      var clean := CleanUrl(url);
      if !HasWebScheme(clean) {
        Send(InvalidUrlFormat);
        return;
      }
      trace := trace + [AvatarFetched(clean)];
      ReportFetch(fetch, edit);
    }

    /** The part of change_bot_avatar inside the aiohttp session, once the
        request has been made. */
    method ReportFetch(fetch: FetchResult, edit: Option<PlatformError>)
      modifies this
      ensures trace == old(trace) + FetchOutcome(fetch, edit)
    {
      match fetch {
        case ClientFailure(text) =>
          Send(AccessError(text));
        case Response(status, contentType, readFailure) =>
          if status == 200 {
            if !StartsWith(contentType, "image/") {
              Send(NotAnImage);
              return;
            }
            if readFailure.Some? {
              Send(AccessError(readFailure.value));
              return;
            }
            if edit.None? {
              trace := trace + [OwnAvatarEdited];
              Send(AvatarChanged);
            } else {
              Send(AvatarEditError(edit.value.text));
            }
          } else {
            Send(StatusFailure(status));
          }
      }
    }

    /** prompt_change_avatar. */
    method PromptChangeAvatar()
      modifies this
      ensures trace == old(trace) + [ChannelMessage(AvatarPrompt)]
    {
      Send(AvatarPrompt);
    }

    /** handle_change_avatar. */
    method HandleChangeAvatar(bot: Option<User>, url: Option<string>, fetch: FetchResult, edit: Option<PlatformError>)
      modifies this
      ensures trace == old(trace) + HandleAvatarEffects(bot, url, fetch, edit)
    {
      if bot.None? || Absent(url) {
        PromptChangeAvatar();
        return;
      }
      ChangeBotAvatar(bot.value, url.value, fetch, edit);
    }

    /** change_bot_name. */
    method ChangeBotName(bot: User, newName: Option<string>, edit: Option<PlatformError>)
      modifies this
      ensures trace == old(trace) + RenameEffects(bot, newName, edit)
    {
      if !bot.isBot {
        Send(NotABot);
        return;
      }
      if Absent(newName) {
        Send(NameMissing);
        return;
      }
      match edit {
        case None =>
          trace := trace + [NicknameEdited(bot, newName.value)];
          Send(NameChanged(newName.value));
        case Some(Forbidden(_)) =>
          Send(NoRenamePermission);
        case Some(HttpError(text)) =>
          Send(RenameFailed(text));
      }
    }

    /** prompt_change_name. */
    method PromptChangeName()
      modifies this
      ensures trace == old(trace) + [ChannelMessage(NamePrompt)]
    {
      Send(NamePrompt);
    }

    /** handle_change_name. */
    method HandleChangeName(bot: Option<User>, newName: Option<string>, edit: Option<PlatformError>)
      modifies this
      ensures trace == old(trace) + HandleRenameEffects(bot, newName, edit)
    {
      if bot.None? && Absent(newName) {
        Send(BothMissing);
        PromptChangeName();
        return;
      } else if bot.None? {
        Send(BotMissing);
        PromptChangeName();
        return;
      } else if Absent(newName) {
        Send(NameMissing);
        PromptChangeName();
        return;
      }
      ChangeBotName(bot.value, newName, edit);
    }
  }
}
