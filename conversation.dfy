/**
 * The bot's per-user conversation: a map from user id to the record
 * `{state, ticketData, lastUpdated}`, a sweep that drops idle records, and the
 * handlers for `/newticket`, `/cancel`, photo and video messages, and plain
 * messages, which drive a record through AWAITING_MERCHANT,
 * AWAITING_DESCRIPTION and AWAITING_MEDIA until it is deleted.
 *
 * Each handler is specified by a function from the old map to a `Turn`: the
 * new map, the replies sent to the user (by kind) and the sends made to the
 * destination chat. The class `Bot` holds the map and carries out each turn
 * step by step. Every event and every sweep is one atomic step; the clock,
 * the transport's delivery of replies and the failure of dispatch sends are
 * inputs (`Env`). Logging is a no-op. The sweep's log call names `lconsole`,
 * which is never defined; the turns and `Bot` follow the evidently intended
 * sweep, and `SweepAsWritten` models the code as written.
 */
module Conversation {
  import opened Wrappers
  import opened JsString
  import opened TicketService

  type UserId = int

  /** Milliseconds without an update after which the sweep drops a record. */
  const ExpiryMs: int := 30 * 60 * 1000

  datatype Phase = AwaitingMerchant | AwaitingDescription | AwaitingMedia

  /**
   * The record kept for a user. The record is built by shallow merges over
   * `{}`, so a field no merge has named is absent (`None`).
   */
  datatype Entry = Entry(state: Option<Phase>, ticketData: Option<TicketData>, lastUpdated: int)

  /** The `updates` object of `updateUserState`: the fields it names. */
  datatype Patch = Patch(state: Option<Phase>, ticketData: Option<TicketData>, lastUpdated: Option<int>)

  /** A whole record passed as `updates`, as the handlers do after changing it. */
  function AsPatch(e: Entry): Patch {
    Patch(e.state, e.ticketData, Some(e.lastUpdated))
  }

  function Lookup(m: map<UserId, Entry>, u: UserId): Option<Entry> {
    if u in m then Some(m[u]) else None
  }

  /**
   * `{...currentState, ...updates, lastUpdated: now}`, with `{}` when there is
   * no record: a field the update names wins, any other is kept from the stored
   * record or stays absent, and the time stamp is always `now`.
   */
  function Merge(current: Option<Entry>, updates: Patch, now: int): Entry {
    Entry(
      if updates.state.Some? then updates.state else if current.Some? then current.value.state else None,
      if updates.ticketData.Some? then updates.ticketData else if current.Some? then current.value.ticketData else None,
      now)
  }

  /** The record a sweep at `now` drops: idle for strictly more than 30 minutes. */
  predicate Expired(e: Entry, now: int) {
    now - e.lastUpdated > ExpiryMs
  }

  /** The map after `cleanupExpiredStates` at `now`: the records that are not idle, unchanged. */
  function Sweep(m: map<UserId, Entry>, now: int): map<UserId, Entry> {
    map u | u in m && !Expired(m[u], now) :: m[u]
  }

  /** A run of the sweep as the source writes it: the map it leaves and whether it threw. */
  datatype SweepRun = SweepRun(states: map<UserId, Entry>, threw: bool)

  /**
   * The sweep as written, visiting the records in the map's iteration order
   * `order`: the log call after a deletion names `lconsole`, which is never
   * defined, so the first deletion ends the sweep with a ReferenceError.
   * Nothing catches that error in the timer callback, so the process itself
   * stops and every record is lost; `threw` marks that point, and what the
   * process does afterwards is not part of this model.
   */
  function SweepAsWritten(m: map<UserId, Entry>, now: int, order: seq<UserId>): SweepRun
    decreases |order|
  {
    if order == [] then SweepRun(m, false)
    else if order[0] in m && Expired(m[order[0]], now) then SweepRun(m - {order[0]}, true)
    else SweepAsWritten(m, now, order[1..])
  }

  // ---------------------------------------------------------------------
  // Events, replies and turns

  /** A photo (its sizes' file ids, smallest first) or a video. */
  datatype Media = Photo(sizes: seq<string>) | Video(fileId: string)

  /** A message from a user: a command, a photo or video, or any other message with its text, if any. */
  datatype Event =
    | NewTicket
    | Cancel
    | MediaMessage(media: Media)
    | Text(text: Option<string>, username: Option<string>)

  /** The world's side of one event: the clock, whether the transport delivers the reply, the dispatch time stamp, and which dispatch sends fail. */
  datatype Env = Env(now: int, replyDelivered: bool, createdAt: string, fails: SendStep -> bool)

  /** Why a turn failed, as the error notice reports it. */
  datatype Failure =
    | StartFailed
    | CancelFailed
    | MediaFailed
    | Invalid(error: ValidationError)
    | TicketNotCreated
    | TypeError            // a property read on `undefined`
    | ReplyNotDelivered    // the transport rejected the turn's reply

  /** The replies to the user, by kind. */
  datatype Reply =
    | AskMerchant
    | Cancelled
    | NothingToCancel
    | NoActiveTicket
    | MediaNotExpected
    | MediaAttached
    | AskDescription
    | AskForMedia
    | TicketSubmitted
    | AskMediaOrDone
    | ErrorNotice(cause: Failure)

  /** What one event does: the new map, the replies attempted, the sends to the destination chat. */
  datatype Turn = Turn(states: map<UserId, Entry>, replies: seq<Reply>, dispatched: seq<Outbound>)

  const EmptyDraft: TicketData := TicketData(None, None, None, [])

  /** The error notice that follows a reply the transport did not deliver. */
  function NoticeIfLost(env: Env, cause: Failure): seq<Reply> {
    if env.replyDelivered then [] else [ErrorNotice(cause)]
  }

  /** The message handler's catch: tell the user and drop the record. */
  function Abandon(m: map<UserId, Entry>, u: UserId, cause: Failure): Turn {
    Turn(m - {u}, [ErrorNotice(cause)], [])
  }

  /** The message handler's reply; a reply the transport rejects lands in the catch, which drops the record. */
  function Proceed(m: map<UserId, Entry>, u: UserId, reply: Reply, env: Env): Turn {
    if env.replyDelivered then Turn(m, [reply], [])
    else Turn(m - {u}, [reply, ErrorNotice(ReplyNotDelivered)], [])
  }

  /** `msg.from.username || 'No username'`: a missing or empty username is replaced, any other is kept. */
  function UsernameOrDefault(username: Option<string>): string {
    if username.Some? && username.value != "" then username.value else "No username"
  }

  /** `msg.text.toLowerCase() === 'done'` */
  predicate IsDone(text: string) {
    LowerAscii(text) == "done"
  }

  /**
   * The attachment a photo or video becomes: a photo's largest (last) size,
   * a video's file. It is always of a kind the dispatch sends; `None` only for
   * a photo without sizes, where reading the last size throws.
   */
  function NewMediaItem(media: Media): Option<MediaItem> {
    match media
    case Photo(sizes) => if sizes == [] then None else Some(MediaItem("photo", sizes[|sizes| - 1]))
    case Video(fileId) => Some(MediaItem("video", fileId))
  }

  /** `/newticket` */
  function NewTicketTurn(m: map<UserId, Entry>, u: UserId, env: Env): Turn {
    var e := Merge(Lookup(m, u), Patch(Some(AwaitingMerchant), Some(EmptyDraft), None), env.now);
    Turn(m[u := e], [AskMerchant] + NoticeIfLost(env, StartFailed), [])
  }

  /** `/cancel` */
  function CancelTurn(m: map<UserId, Entry>, u: UserId, env: Env): Turn {
    if u in m then Turn(m - {u}, [Cancelled] + NoticeIfLost(env, CancelFailed), [])
    else Turn(m, [NothingToCancel] + NoticeIfLost(env, CancelFailed), [])
  }

  /** `handleMedia` */
  function MediaTurn(m: map<UserId, Entry>, u: UserId, media: Media, env: Env): Turn {
    if u !in m then Turn(m, [NoActiveTicket], [])
    else if m[u].state != Some(AwaitingMedia) then Turn(m, [MediaNotExpected], [])
    else
      var item, draft := NewMediaItem(media), m[u].ticketData;
      if item.None? || draft.None? then Turn(m, [ErrorNotice(MediaFailed)], [])
      else
        var e := m[u].(ticketData := Some(draft.value.(media := draft.value.media + [item.value])));
        Turn(m[u := Merge(Some(e), AsPatch(e), env.now)], [MediaAttached] + NoticeIfLost(env, MediaFailed), [])
  }

  /** A message while the record awaits the merchant name: the text is stored as it is, even when absent. */
  function MerchantTurn(m: map<UserId, Entry>, u: UserId, text: Option<string>, env: Env): Turn
    requires u in m
  {
    var entry := m[u];
    if entry.ticketData.None? then Abandon(m, u, TypeError)
    else
      var e := Entry(Some(AwaitingDescription), Some(entry.ticketData.value.(merchantName := text)), entry.lastUpdated);
      Proceed(m[u := Merge(Some(e), AsPatch(e), env.now)], u, AskDescription, env)
  }

  /** A message while the record awaits the description: store it and the username, then validate. */
  function DescriptionTurn(m: map<UserId, Entry>, u: UserId, text: Option<string>, username: Option<string>, env: Env): Turn
    requires u in m
  {
    var entry := m[u];
    if entry.ticketData.None? then Abandon(m, u, TypeError)
    else
      var draft := entry.ticketData.value.(description := text, username := Some(UsernameOrDefault(username)));
      var error := ValidateTicketData(draft);
      if error.Some? then Abandon(m, u, Invalid(error.value))
      else
        var e := Entry(Some(AwaitingMedia), Some(draft), entry.lastUpdated);
        Proceed(m[u := Merge(Some(e), AsPatch(e), env.now)], u, AskForMedia, env)
  }

  /** A message while the record awaits media: "done" in any ASCII case submits the ticket, other text re-prompts. */
  function MediaTextTurn(m: map<UserId, Entry>, u: UserId, text: Option<string>, env: Env): Turn
    requires u in m
  {
    var entry := m[u];
    if text.None? then Abandon(m, u, TypeError)
    else if !IsDone(text.value) then Proceed(m, u, AskMediaOrDone, env)
    else if entry.ticketData.None? then Abandon(m, u, TypeError)
    else
      var d := CreateTicketSpec(entry.ticketData.value, env.createdAt, env.fails);
      if !d.created then Turn(m - {u}, [ErrorNotice(TicketNotCreated)], d.log)
      else Turn(m - {u}, [TicketSubmitted] + NoticeIfLost(env, ReplyNotDelivered), d.log)
  }

  /** The `'message'` handler for a message that is neither a photo nor a video. */
  function MessageTurn(m: map<UserId, Entry>, u: UserId, text: Option<string>, username: Option<string>, env: Env): Turn {
    if (text.Some? && HasPrefix("/", text.value)) || u !in m then Turn(m, [], [])
    else
      match m[u].state
      case None => Turn(m, [], [])
      case Some(AwaitingMerchant) => MerchantTurn(m, u, text, env)
      case Some(AwaitingDescription) => DescriptionTurn(m, u, text, username, env)
      case Some(AwaitingMedia) => MediaTextTurn(m, u, text, env)
  }

  /** One event from user `u`, routed to its handler. */
  function HandleEvent(m: map<UserId, Entry>, u: UserId, ev: Event, env: Env): Turn {
    match ev
    case NewTicket => NewTicketTurn(m, u, env)
    case Cancel => CancelTurn(m, u, env)
    case MediaMessage(media) => MediaTurn(m, u, media, env)
    case Text(text, username) => MessageTurn(m, u, text, username, env)
  }

  /** An event from a user, or a run of the periodic sweep. */
  datatype Input = UserEvent(user: UserId, event: Event, env: Env) | SweepTick(now: int)

  function Step(m: map<UserId, Entry>, input: Input): Turn {
    match input
    case UserEvent(u, ev, env) => HandleEvent(m, u, ev, env)
    case SweepTick(now) => Turn(Sweep(m, now), [], [])
  }

  /** A sequence of inputs, one at a time: the final map, all replies and all dispatch sends in order. */
  function Run(m: map<UserId, Entry>, inputs: seq<Input>): Turn
    decreases |inputs|
  {
    if inputs == [] then Turn(m, [], [])
    else
      var first := Step(m, inputs[0]);
      var rest := Run(first.states, inputs[1..]);
      Turn(rest.states, first.replies + rest.replies, first.dispatched + rest.dispatched)
  }

  // ---------------------------------------------------------------------
  // The record store

  lemma NonEmptyHasMember(s: set<UserId>)
    requires s != {}
    ensures exists user :: user in s
  {
    assert (forall user :: user !in s) ==> s == {};
  }

  class Bot {
    var userStates: map<UserId, Entry>

    constructor ()
      ensures userStates == map[]
    {
      userStates := map[];
    }

    /** `updateUserState` */
    method UpdateUserState(u: UserId, updates: Patch, now: int)
      modifies this
      ensures userStates == old(userStates)[u := Merge(Lookup(old(userStates), u), updates, now)]
    {
      var current := if u in userStates then Some(userStates[u]) else None;
      userStates := userStates[u := Merge(current, updates, now)];
    }

    /** `cleanupExpiredStates`: visits every record and deletes the idle ones. */
    method CleanupExpiredStates(now: int)
      modifies this
      ensures userStates == Sweep(old(userStates), now)
    {
      ghost var start := userStates;
      var pending := userStates.Keys;
      while pending != {}
        invariant pending <= start.Keys
        invariant forall u :: u in userStates <==> u in start && (u in pending || !Expired(start[u], now))
        invariant forall u :: u in userStates ==> userStates[u] == start[u]
        decreases pending
      {
        NonEmptyHasMember(pending);
        var user :| user in pending;
        if now - userStates[user].lastUpdated > ExpiryMs {
          userStates := userStates - {user};
        }
        pending := pending - {user};
      }
      assert forall user :: user in userStates <==> user in Sweep(start, now);
      assert forall user :: user in userStates ==> userStates[user] == Sweep(start, now)[user];
    }

    /** The `/newticket` handler. */
    method OnNewTicket(u: UserId, env: Env) returns (replies: seq<Reply>)
      modifies this
      ensures var t := NewTicketTurn(old(userStates), u, env); userStates == t.states && replies == t.replies
    {
      UpdateUserState(u, Patch(Some(AwaitingMerchant), Some(EmptyDraft), None), env.now);
      replies := [AskMerchant];
      if !env.replyDelivered {
        replies := replies + [ErrorNotice(StartFailed)];
      }
    }

    /** The `/cancel` handler. */
    method OnCancel(u: UserId, env: Env) returns (replies: seq<Reply>)
      modifies this
      ensures var t := CancelTurn(old(userStates), u, env); userStates == t.states && replies == t.replies
    {
      if u in userStates {
        userStates := userStates - {u};
        replies := [Cancelled];
      } else {
        replies := [NothingToCancel];
      }
      if !env.replyDelivered {
        replies := replies + [ErrorNotice(CancelFailed)];
      }
    }

    /** `handleMedia` */
    method OnMedia(u: UserId, media: Media, env: Env) returns (replies: seq<Reply>)
      modifies this
      ensures var t := MediaTurn(old(userStates), u, media, env); userStates == t.states && replies == t.replies
    {
      if u !in userStates {
        return [NoActiveTicket];
      }
      var entry := userStates[u];
      if entry.state != Some(AwaitingMedia) {
        return [MediaNotExpected];
      }
      var item := NewMediaItem(media);
      if item.None? || entry.ticketData.None? {
        return [ErrorNotice(MediaFailed)];
      }
      var draft := entry.ticketData.value;
      entry := entry.(ticketData := Some(draft.(media := draft.media + [item.value])));
      userStates := userStates[u := entry];
      UpdateUserState(u, AsPatch(entry), env.now);
      replies := [MediaAttached];
      if !env.replyDelivered {
        replies := replies + [ErrorNotice(MediaFailed)];
      }
    }

    /** The failure path of the message handler: notice to the user, record dropped. */
    method Fail(u: UserId, cause: Failure) returns (replies: seq<Reply>)
      modifies this
      ensures var t := Abandon(old(userStates), u, cause); userStates == t.states && replies == t.replies
    {
      replies := [ErrorNotice(cause)];
      userStates := userStates - {u};
    }

    /** The message handler's reply; an undelivered one sends the error notice and drops the record. */
    method Answer(u: UserId, reply: Reply, env: Env) returns (replies: seq<Reply>)
      modifies this
      ensures var t := Proceed(old(userStates), u, reply, env); userStates == t.states && replies == t.replies
    {
      replies := [reply];
      if !env.replyDelivered {
        replies := replies + [ErrorNotice(ReplyNotDelivered)];
        userStates := userStates - {u};
      }
    }

    /** Stores the changed record `e` of user `u`, then answers. */
    method Advance(u: UserId, e: Entry, reply: Reply, env: Env) returns (replies: seq<Reply>)
      modifies this
      ensures var t := Proceed(old(userStates)[u := Merge(Some(e), AsPatch(e), env.now)], u, reply, env);
        userStates == t.states && replies == t.replies
    {
      userStates := userStates[u := e];
      UpdateUserState(u, AsPatch(e), env.now);
      replies := Answer(u, reply, env);
    }

    /** The AWAITING_MERCHANT case of the message handler. */
    method OnMerchant(u: UserId, text: Option<string>, env: Env) returns (replies: seq<Reply>)
      requires u in userStates
      modifies this
      ensures var t := MerchantTurn(old(userStates), u, text, env); userStates == t.states && replies == t.replies
    {
      var entry := userStates[u];
      if entry.ticketData.None? {
        replies := Fail(u, TypeError);
        return;
      }
      var e := Entry(Some(AwaitingDescription), Some(entry.ticketData.value.(merchantName := text)), entry.lastUpdated);
      replies := Advance(u, e, AskDescription, env);
    }

    /** The AWAITING_DESCRIPTION case of the message handler. */
    method OnDescription(u: UserId, text: Option<string>, username: Option<string>, env: Env) returns (replies: seq<Reply>)
      requires u in userStates
      modifies this
      ensures var t := DescriptionTurn(old(userStates), u, text, username, env); userStates == t.states && replies == t.replies
    {
      var entry := userStates[u];
      if entry.ticketData.None? {
        replies := Fail(u, TypeError);
        return;
      }
      var draft := entry.ticketData.value.(description := text, username := Some(UsernameOrDefault(username)));
      var error := ValidateTicketData(draft);
      if error.Some? {
        replies := Fail(u, Invalid(error.value));
        return;
      }
      replies := Advance(u, Entry(Some(AwaitingMedia), Some(draft), entry.lastUpdated), AskForMedia, env);
    }

    /** The AWAITING_MEDIA case of the message handler. */
    method OnMediaText(u: UserId, text: Option<string>, env: Env) returns (replies: seq<Reply>, dispatched: seq<Outbound>)
      requires u in userStates
      modifies this
      ensures var t := MediaTextTurn(old(userStates), u, text, env);
        userStates == t.states && replies == t.replies && dispatched == t.dispatched
    {
      dispatched := [];
      if text.None? {
        replies := Fail(u, TypeError);
        return;
      }
      if !IsDone(text.value) {
        replies := Answer(u, AskMediaOrDone, env);
        return;
      }
      var draft := userStates[u].ticketData;
      if draft.None? {
        replies := Fail(u, TypeError);
        return;
      }
      var created;
      dispatched, created := CreateTicket(draft.value, env.createdAt, env.fails);
      userStates := userStates - {u};
      if !created {
        replies := [ErrorNotice(TicketNotCreated)];
        return;
      }
      replies := [TicketSubmitted];
      if !env.replyDelivered {
        replies := replies + [ErrorNotice(ReplyNotDelivered)];
      }
    }

    /** The `'message'` handler, for a message that is neither a photo nor a video. */
    method OnMessage(u: UserId, text: Option<string>, username: Option<string>, env: Env)
      returns (replies: seq<Reply>, dispatched: seq<Outbound>)
      modifies this
      ensures var t := MessageTurn(old(userStates), u, text, username, env);
        userStates == t.states && replies == t.replies && dispatched == t.dispatched
    {
      replies, dispatched := [], [];
      if (text.Some? && HasPrefix("/", text.value)) || u !in userStates {
        return;
      }
      match userStates[u].state {
        case None =>
        case Some(AwaitingMerchant) => replies := OnMerchant(u, text, env);
        case Some(AwaitingDescription) => replies := OnDescription(u, text, username, env);
        case Some(AwaitingMedia) => replies, dispatched := OnMediaText(u, text, env);
      }
    }

    /** Routes one event from user `u` to its handler. */
    method Handle(u: UserId, ev: Event, env: Env) returns (replies: seq<Reply>, dispatched: seq<Outbound>)
      modifies this
      ensures var t := HandleEvent(old(userStates), u, ev, env);
        userStates == t.states && replies == t.replies && dispatched == t.dispatched
    {
      dispatched := [];
      match ev {
        case NewTicket => replies := OnNewTicket(u, env);
        case Cancel => replies := OnCancel(u, env);
        case MediaMessage(media) => replies := OnMedia(u, media, env);
        case Text(text, username) => replies, dispatched := OnMessage(u, text, username, env);
      }
    }
  }
}
