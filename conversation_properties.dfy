/**
 * What the conversation guarantees: how a record is merged and swept, what
 * each handler does to the user's record, that no event touches another
 * user's record, an invariant every run keeps (a record ready for `done`
 * always holds a draft that passes validation), and whole conversations.
 */
module ConversationProperties {
  import opened Wrappers
  import opened JsString
  import opened TicketService
  import opened Conversation

  // ---------------------------------------------------------------------
  // Merging and sweeping

  /**
   * A field the update names wins; any other is kept from the stored record,
   * or stays absent when there is none; the time stamp is always `now`.
   */
  lemma MergeFields(current: Option<Entry>, updates: Patch, now: int)
    ensures var r := Merge(current, updates, now);
      && r.lastUpdated == now
      && (updates.state.Some? ==> r.state == updates.state)
      && (updates.state.None? ==> r.state == (if current.Some? then current.value.state else None))
      && (updates.ticketData.Some? ==> r.ticketData == updates.ticketData)
      && (updates.ticketData.None? ==> r.ticketData == (if current.Some? then current.value.ticketData else None))
  {
  }

  /** A whole record passed as the update replaces the stored one; only the time stamp is the merge's own. */
  lemma MergeWholeRecord(current: Option<Entry>, e: Entry, now: int)
    requires e.state.Some? && e.ticketData.Some?
    ensures Merge(current, AsPatch(e), now) == e.(lastUpdated := now)
  {
  }

  /** An update naming no field only refreshes the time stamp, whatever time stamp the caller passes. */
  lemma MergeRefreshesTimestamp(e: Entry, stamp: Option<int>, now: int)
    ensures Merge(Some(e), Patch(None, None, stamp), now) == e.(lastUpdated := now)
  {
  }

  /** Without a stored record, the fields the update does not name stay absent. */
  lemma MergeFromNothing(updates: Patch, now: int)
    ensures Merge(None, updates, now) == Entry(updates.state, updates.ticketData, now)
  {
  }

  /** A sweep keeps exactly the records updated at most 30 minutes ago, unchanged. */
  lemma SweepKeepsRecent(m: map<UserId, Entry>, now: int)
    ensures forall u :: u in Sweep(m, now) <==> u in m && m[u].lastUpdated >= now - ExpiryMs
    ensures forall u :: u in Sweep(m, now) ==> Sweep(m, now)[u] == m[u]
  {
  }

  /** A later sweep subsumes an earlier one; in particular a second sweep at the same time changes nothing. */
  lemma SweepLater(m: map<UserId, Entry>, t1: int, t2: int)
    requires t1 <= t2
    ensures Sweep(Sweep(m, t1), t2) == Sweep(m, t2)
  {
    var a, b := Sweep(Sweep(m, t1), t2), Sweep(m, t2);
    assert forall u :: u in a <==> u in b;
    assert forall u :: u in a ==> a[u] == b[u];
  }

  /**
   * As written, a sweep throws exactly when it reaches an idle record; it has
   * then deleted that one record and nothing else. Without an idle record it
   * changes nothing.
   */
  lemma {:induction false} SweepAsWrittenOutcome(m: map<UserId, Entry>, now: int, order: seq<UserId>)
    ensures var run := SweepAsWritten(m, now, order);
      run.threw <==> exists i :: 0 <= i < |order| && order[i] in m && Expired(m[order[i]], now)
    ensures var run := SweepAsWritten(m, now, order);
      !run.threw ==> run.states == m
    ensures var run := SweepAsWritten(m, now, order);
      run.threw ==> exists u :: u in m && Expired(m[u], now) && run.states == m - {u}
  {
    if order != [] && !(order[0] in m && Expired(m[order[0]], now)) {
      var rest := order[1..];
      SweepAsWrittenOutcome(m, now, rest);
      if exists i :: 0 <= i < |order| && order[i] in m && Expired(m[order[i]], now) {
        var i :| 0 <= i < |order| && order[i] in m && Expired(m[order[i]], now);
        assert rest[i - 1] == order[i];
      }
      if exists i :: 0 <= i < |rest| && rest[i] in m && Expired(m[rest[i]], now) {
        var i :| 0 <= i < |rest| && rest[i] in m && Expired(m[rest[i]], now);
        assert order[i + 1] == rest[i];
      }
    } else if order != [] {
      var u := order[0];
      assert 0 <= 0 < |order| && order[0] in m && Expired(m[order[0]], now);
      assert u in m && Expired(m[u], now) && SweepAsWritten(m, now, order).states == m - {u};
    }
  }

  /** Two idle records: as written the sweep drops the first and throws, leaving the second; the intended sweep drops both. */
  lemma SweepAsWrittenStopsEarly(e: Entry, now: int)
    requires Expired(e, now)
    ensures var m := map[1 := e, 2 := e];
      && SweepAsWritten(m, now, [1, 2]).threw
      && SweepAsWritten(m, now, [1, 2]).states == map[2 := e]
      && Sweep(m, now) == map[]
  {
    var m := map[1 := e, 2 := e];
    assert m - {1} == map[2 := e];
    assert Sweep(m, now).Keys == {};
  }

  // ---------------------------------------------------------------------
  // The command handlers

  /** `/newticket` starts a fresh draft whatever the user was doing; a failed reply leaves it in place. */
  lemma NewTicketStartsOver(m: map<UserId, Entry>, u: UserId, env: Env)
    ensures var t := NewTicketTurn(m, u, env);
      && u in t.states
      && t.states[u] == Entry(Some(AwaitingMerchant), Some(TicketData(None, None, None, [])), env.now)
      && t.replies[0] == AskMerchant
      && (|t.replies| == 1 <==> env.replyDelivered)
      && t.dispatched == []
  {
  }

  /** `/cancel` leaves no record, and its reply says whether there was one. */
  lemma CancelEndsConversation(m: map<UserId, Entry>, u: UserId, env: Env)
    ensures var t := CancelTurn(m, u, env);
      && t.states == m - {u}
      && (t.replies[0] == Cancelled <==> u in m)
      && (t.replies[0] == NothingToCancel <==> u !in m)
      && (|t.replies| == 1 <==> env.replyDelivered)
      && t.dispatched == []
  {
  }

  /**
   * A photo or video is attached only while the record awaits media, and it
   * never ends the conversation: every failure leaves the record as it was.
   */
  lemma MediaOnlyWhileAwaitingMedia(m: map<UserId, Entry>, u: UserId, media: Media, env: Env)
    ensures var t := MediaTurn(m, u, media, env);
      && t.dispatched == []
      && t.states.Keys == m.Keys
      && (u !in m ==> t.states == m && t.replies == [NoActiveTicket])
      && (u in m && m[u].state != Some(AwaitingMedia) ==> t.states == m && t.replies == [MediaNotExpected])
      && (t.states != m ==> u in m && m[u].state == Some(AwaitingMedia) && t.replies[0] == MediaAttached)
  {
  }

  /** The attachment stored is the photo's last (largest) size, or the video, appended after the earlier ones. */
  lemma MediaAppended(m: map<UserId, Entry>, u: UserId, media: Media, env: Env)
    requires u in m && m[u].state == Some(AwaitingMedia) && m[u].ticketData.Some?
    requires media.Photo? ==> media.sizes != []
    ensures var t := MediaTurn(m, u, media, env);
      var before := m[u].ticketData.value.media;
      && u in t.states && t.states[u].state == Some(AwaitingMedia) && t.states[u].lastUpdated == env.now
      && t.states[u].ticketData.Some?
      && var after := t.states[u].ticketData.value.media;
      && |after| == |before| + 1 && after[..|before|] == before
      && after[|before|] == (if media.Photo? then MediaItem("photo", media.sizes[|media.sizes| - 1]) else MediaItem("video", media.fileId))
      && t.states[u].ticketData.value.(media := before) == m[u].ticketData.value
  {
    var after := MediaTurn(m, u, media, env).states[u].ticketData.value.media;
    assert after[..|m[u].ticketData.value.media|] == m[u].ticketData.value.media;
  }

  // ---------------------------------------------------------------------
  // The message handler

  /** Commands, users without a record and records without a phase are ignored. */
  lemma IgnoredMessages(m: map<UserId, Entry>, u: UserId, text: Option<string>, username: Option<string>, env: Env)
    requires (text.Some? && HasPrefix("/", text.value)) || u !in m || m[u].state.None?
    ensures var t := MessageTurn(m, u, text, username, env);
      t.states == m && t.replies == [] && t.dispatched == []
  {
  }

  /** The merchant name is stored as sent, even when absent or too short: it is only checked after the description. */
  lemma MerchantStoredAsSent(m: map<UserId, Entry>, u: UserId, text: Option<string>, username: Option<string>, env: Env)
    requires u in m && m[u].state == Some(AwaitingMerchant) && m[u].ticketData.Some?
    requires text.None? || !HasPrefix("/", text.value)
    requires env.replyDelivered
    ensures var t := MessageTurn(m, u, text, username, env);
      && t.states == m[u := Entry(Some(AwaitingDescription), Some(m[u].ticketData.value.(merchantName := text)), env.now)]
      && t.replies == [AskDescription]
  {
  }

  /**
   * The description step stores the description and the username (or
   * "No username"), then validates the whole draft: the record advances to
   * AWAITING_MEDIA exactly when both fields pass and the reply is delivered;
   * a failed rule ends the conversation with that rule's message.
   */
  lemma DescriptionValidated(m: map<UserId, Entry>, u: UserId, text: Option<string>, username: Option<string>, env: Env)
    requires u in m && m[u].state == Some(AwaitingDescription) && m[u].ticketData.Some?
    requires text.None? || !HasPrefix("/", text.value)
    ensures var t := MessageTurn(m, u, text, username, env);
      var draft := m[u].ticketData.value.(description := text, username := Some(UsernameOrDefault(username)));
      && (u in t.states <==> ValidateTicketData(draft) == None && env.replyDelivered)
      && (u in t.states ==> t.states == m[u := Entry(Some(AwaitingMedia), Some(draft), env.now)] && t.replies == [AskForMedia])
      && (ValidateTicketData(draft).Some? ==> t.states == m - {u} && t.replies == [ErrorNotice(Invalid(ValidateTicketData(draft).value))])
  {
    var t := MessageTurn(m, u, text, username, env);
    var draft := m[u].ticketData.value.(description := text, username := Some(UsernameOrDefault(username)));
    assert t == DescriptionTurn(m, u, text, username, env);
    if ValidateTicketData(draft) == None {
      var e := Entry(Some(AwaitingMedia), Some(draft), m[u].lastUpdated);
      MergeWholeRecord(Some(e), e, env.now);
      assert t == Proceed(m[u := Entry(Some(AwaitingMedia), Some(draft), env.now)], u, AskForMedia, env);
    }
  }

  /** A draft whose merchant name fails its rule is dropped at the description, whatever the description. */
  lemma ShortMerchantAbandoned(m: map<UserId, Entry>, u: UserId, text: Option<string>, username: Option<string>, env: Env)
    requires u in m && m[u].state == Some(AwaitingDescription) && m[u].ticketData.Some?
    requires text.None? || !HasPrefix("/", text.value)
    requires !LongEnough(m[u].ticketData.value.merchantName, MinMerchantLength)
    ensures var t := MessageTurn(m, u, text, username, env);
      t.states == m - {u} && t.replies == [ErrorNotice(Invalid(MerchantTooShort))] && t.dispatched == []
  {
    var draft := m[u].ticketData.value.(description := text, username := Some(UsernameOrDefault(username)));
    assert ValidateTicketData(draft) == Some(MerchantTooShort);
  }

  /** A text counts as `done` exactly when it spells d, o, n, e, each letter in either case, and nothing else. */
  lemma IsDoneSpelling(text: string)
    ensures IsDone(text) <==>
      && |text| == 4
      && (text[0] == 'd' || text[0] == 'D') && (text[1] == 'o' || text[1] == 'O')
      && (text[2] == 'n' || text[2] == 'N') && (text[3] == 'e' || text[3] == 'E')
  {
    var lower := LowerAscii(text);
    assert |lower| == 4 ==> (lower == "done" <==> lower[0] == 'd' && lower[1] == 'o' && lower[2] == 'n' && lower[3] == 'e');
  }

  /** A missing or empty username is replaced by "No username"; any other is kept. */
  lemma UsernameOrDefaultKeeps(username: Option<string>)
    ensures UsernameOrDefault(username) != []
    ensures username.Some? && username.value != [] ==> UsernameOrDefault(username) == username.value
    ensures username.None? || username.value == [] ==> UsernameOrDefault(username) == "No username"
  {
  }

  /**
   * A photo becomes its last (largest) size and a video its file, each of a
   * kind the dispatch sends; only a photo without sizes, where reading the
   * last size throws, yields nothing.
   */
  lemma NewMediaItemKinds(media: Media)
    ensures NewMediaItem(media).None? <==> media.Photo? && media.sizes == []
    ensures media.Photo? && media.sizes != [] ==> NewMediaItem(media) == Some(MediaItem("photo", media.sizes[|media.sizes| - 1]))
    ensures media.Video? ==> NewMediaItem(media) == Some(MediaItem("video", media.fileId))
    ensures NewMediaItem(media).Some? ==> AttachmentSend(NewMediaItem(media).value, "").Some?
  {
  }

  /** `done` can never be mistaken for a command. */
  lemma DoneIsNoCommand(text: string)
    requires IsDone(text)
    ensures !HasPrefix("/", text)
  {
    assert LowerAscii(text)[0] == 'd';
  }

  /** `done` in any mix of ASCII case submits; surrounding spaces or punctuation do not. */
  lemma DoneSpellings()
    ensures IsDone("done") && IsDone("DONE") && IsDone("Done")
    ensures !IsDone(" done") && !IsDone("done.") && !IsDone("")
  {
  }

  /** `done` dispatches the draft and ends the conversation, whether or not the ticket was created. */
  lemma DoneSubmitsDraft(m: map<UserId, Entry>, u: UserId, text: string, username: Option<string>, env: Env)
    requires u in m && m[u].state == Some(AwaitingMedia) && m[u].ticketData.Some?
    requires IsDone(text)
    ensures var t := MessageTurn(m, u, Some(text), username, env);
      var d := CreateTicketSpec(m[u].ticketData.value, env.createdAt, env.fails);
      && t.states == m - {u}
      && t.dispatched == d.log
      && (t.replies[0] == TicketSubmitted <==> d.created)
      && (!d.created ==> t.replies == [ErrorNotice(TicketNotCreated)])
  {
    DoneIsNoCommand(text);
  }

  /** Any other text while awaiting media only repeats the prompt: the record, even its time stamp, is unchanged. */
  lemma OtherTextReprompts(m: map<UserId, Entry>, u: UserId, text: string, username: Option<string>, env: Env)
    requires u in m && m[u].state == Some(AwaitingMedia)
    requires !HasPrefix("/", text) && !IsDone(text)
    requires env.replyDelivered
    ensures var t := MessageTurn(m, u, Some(text), username, env);
      t.states == m && t.replies == [AskMediaOrDone] && t.dispatched == []
  {
  }

  /**
   * In the message handler any failure, including an undelivered reply,
   * ends the conversation; a record that survives got exactly one prompt.
   */
  lemma MessageFailureEndsConversation(m: map<UserId, Entry>, u: UserId, text: Option<string>, username: Option<string>, env: Env)
    requires u in m && m[u].state.Some?
    requires text.None? || !HasPrefix("/", text.value)
    ensures var t := MessageTurn(m, u, text, username, env);
      && (!env.replyDelivered ==> u !in t.states)
      && (u in t.states ==> |t.replies| == 1 && !t.replies[0].ErrorNotice?)
      && (forall i :: 0 <= i < |t.replies| && t.replies[i].ErrorNotice? ==> u !in t.states)
  {
  }

  /** No event changes another user's record. */
  lemma OtherUsersUntouched(m: map<UserId, Entry>, u: UserId, ev: Event, env: Env, v: UserId)
    requires v != u
    ensures var t := HandleEvent(m, u, ev, env);
      (v in t.states <==> v in m) && (v in m ==> t.states[v] == m[v])
  {
  }

  // ---------------------------------------------------------------------
  // The invariant of every run

  predicate KnownKind(item: MediaItem) {
    item.kind == "photo" || item.kind == "video"
  }

  /** A draft `done` can submit: both rules pass and the username is set. */
  predicate ReadyToSubmit(d: TicketData) {
    ValidateTicketData(d) == None && d.username.Some?
  }

  /** Every record has a phase and a draft, holds only photos and videos, and is ready to submit once it awaits media. */
  predicate ValidEntry(e: Entry) {
    && e.state.Some? && e.ticketData.Some?
    && (forall i :: 0 <= i < |e.ticketData.value.media| ==> KnownKind(e.ticketData.value.media[i]))
    && (e.state.value == AwaitingMedia ==> ReadyToSubmit(e.ticketData.value))
  }

  predicate WellFormed(m: map<UserId, Entry>) {
    forall u :: u in m ==> ValidEntry(m[u])
  }

  lemma WellFormedUpdate(m: map<UserId, Entry>, u: UserId, e: Entry)
    requires WellFormed(m) && ValidEntry(e)
    ensures WellFormed(m[u := e])
  {
  }

  lemma WellFormedRemove(m: map<UserId, Entry>, u: UserId)
    requires WellFormed(m)
    ensures WellFormed(m - {u})
  {
  }

  lemma MediaTurnKeepsWellFormed(m: map<UserId, Entry>, u: UserId, media: Media, env: Env)
    requires WellFormed(m)
    ensures WellFormed(MediaTurn(m, u, media, env).states)
  {
    var t := MediaTurn(m, u, media, env);
    if t.states != m {
      var before := m[u].ticketData.value;
      var after := t.states[u].ticketData.value;
      var item := NewMediaItem(media).value;
      assert after == before.(media := before.media + [item]);
      assert ValidEntry(m[u]);
      assert KnownKind(item);
      assert forall i :: 0 <= i < |after.media| ==> KnownKind(after.media[i]) by {
        forall i | 0 <= i < |after.media|
          ensures KnownKind(after.media[i])
        {
          if i < |before.media| {
            assert after.media[i] == before.media[i];
          }
        }
      }
      assert ValidEntry(t.states[u]);
      WellFormedUpdate(m, u, t.states[u]);
    }
  }

  lemma MerchantTurnKeepsWellFormed(m: map<UserId, Entry>, u: UserId, text: Option<string>, env: Env)
    requires WellFormed(m) && u in m && m[u].state == Some(AwaitingMerchant)
    ensures WellFormed(MerchantTurn(m, u, text, env).states)
  {
    assert ValidEntry(m[u]);
    var draft := m[u].ticketData.value;
    var e := Entry(Some(AwaitingDescription), Some(draft.(merchantName := text)), env.now);
    assert ValidEntry(e);
    WellFormedUpdate(m, u, e);
    WellFormedRemove(m[u := e], u);
  }

  lemma DescriptionTurnKeepsWellFormed(m: map<UserId, Entry>, u: UserId, text: Option<string>, username: Option<string>, env: Env)
    requires WellFormed(m) && u in m && m[u].state == Some(AwaitingDescription)
    ensures WellFormed(DescriptionTurn(m, u, text, username, env).states)
  {
    assert ValidEntry(m[u]);
    var draft := m[u].ticketData.value.(description := text, username := Some(UsernameOrDefault(username)));
    WellFormedRemove(m, u);
    if ValidateTicketData(draft) == None {
      var e := Entry(Some(AwaitingMedia), Some(draft), env.now);
      assert ValidEntry(e);
      WellFormedUpdate(m, u, e);
      WellFormedRemove(m[u := e], u);
    }
  }

  lemma MessageTurnKeepsWellFormed(m: map<UserId, Entry>, u: UserId, text: Option<string>, username: Option<string>, env: Env)
    requires WellFormed(m)
    ensures WellFormed(MessageTurn(m, u, text, username, env).states)
  {
    if !((text.Some? && HasPrefix("/", text.value)) || u !in m) && m[u].state.Some? {
      match m[u].state.value
      case AwaitingMerchant => MerchantTurnKeepsWellFormed(m, u, text, env);
      case AwaitingDescription => DescriptionTurnKeepsWellFormed(m, u, text, username, env);
      case AwaitingMedia => WellFormedRemove(m, u);
    }
  }

  lemma HandleEventKeepsWellFormed(m: map<UserId, Entry>, u: UserId, ev: Event, env: Env)
    requires WellFormed(m)
    ensures WellFormed(HandleEvent(m, u, ev, env).states)
  {
    match ev
    case NewTicket =>
      WellFormedUpdate(m, u, Entry(Some(AwaitingMerchant), Some(EmptyDraft), env.now));
    case Cancel =>
      WellFormedRemove(m, u);
    case MediaMessage(media) => MediaTurnKeepsWellFormed(m, u, media, env);
    case Text(text, username) => MessageTurnKeepsWellFormed(m, u, text, username, env);
  }

  lemma SweepKeepsWellFormed(m: map<UserId, Entry>, now: int)
    requires WellFormed(m)
    ensures WellFormed(Sweep(m, now))
  {
  }

  /** From a well-formed map (the empty one the bot starts with, say), every run of events and sweeps keeps the invariant. */
  lemma {:induction false} RunKeepsWellFormed(m: map<UserId, Entry>, inputs: seq<Input>)
    requires WellFormed(m)
    ensures WellFormed(Run(m, inputs).states)
    decreases |inputs|
  {
    if inputs != [] {
      if inputs[0].UserEvent? {
        HandleEventKeepsWellFormed(m, inputs[0].user, inputs[0].event, inputs[0].env);
      } else {
        SweepKeepsWellFormed(m, inputs[0].now);
      }
      RunKeepsWellFormed(Step(m, inputs[0]).states, inputs[1..]);
    }
  }

  // ---------------------------------------------------------------------
  // What a submitted ticket contains

  /** Only photos and videos: one send per attachment, in order, with the attachment's own kind and file id. */
  lemma {:induction false} PlannedSendsOfKnownKinds(media: seq<MediaItem>, caption: string)
    requires forall i :: 0 <= i < |media| ==> KnownKind(media[i])
    ensures |PlannedSends(media, caption)| == |media|
    ensures forall i :: 0 <= i < |media| ==>
      PlannedSends(media, caption)[i] == (if media[i].kind == "photo" then SendPhoto(media[i].fileId, caption) else SendVideo(media[i].fileId, caption))
  {
    if media != [] {
      var init := media[..|media| - 1];
      PlannedSendsOfKnownKinds(init, caption);
      assert forall i :: 0 <= i < |init| ==> init[i] == media[i];
    }
  }

  /** When no attachment fails, the sends are exactly the planned ones and the dispatch is not aborted. */
  lemma {:induction false} NoFailuresSendsPlanned(media: seq<MediaItem>, username: string, fails: SendStep -> bool, n: nat)
    requires n <= |media|
    requires forall i: nat :: !fails(SendOfAttachment(i))
    ensures AttachmentSends(media, username, fails, n).0 == PlannedSends(media[..n], Caption(username))
    ensures !AttachmentSends(media, username, fails, n).1
  {
    if n > 0 {
      NoFailuresSendsPlanned(media, username, fails, n - 1);
      assert media[..n][..n - 1] == media[..n - 1];
    }
  }

  /**
   * In a well-formed map, `done` always sends the ticket text, with the
   * draft's own fields, first; when no send fails the ticket is created and
   * every attachment follows in the order the user sent it.
   */
  lemma SubmittedTicketIsComplete(m: map<UserId, Entry>, u: UserId, text: string, username: Option<string>, env: Env)
    requires WellFormed(m)
    requires u in m && m[u].state == Some(AwaitingMedia) && IsDone(text)
    ensures var t := MessageTurn(m, u, Some(text), username, env);
      var d := m[u].ticketData.value;
      && d.merchantName.Some? && d.description.Some? && d.username.Some?
      && t.dispatched != []
      && t.dispatched[0] == SendMessage(FormatTicketMessage(d.merchantName.value, d.description.value, d.username.value, env.createdAt), true)
      && ((forall s :: !env.fails(s)) ==>
            && t.replies[0] == TicketSubmitted
            && t.dispatched[1..] == PlannedSends(d.media, Caption(d.username.value))
            && |t.dispatched| == |d.media| + 1)
  {
    var d := m[u].ticketData.value;
    assert ValidEntry(m[u]);
    DoneSubmitsDraft(m, u, text, username, env);
    TicketTextFirst(d, env.createdAt, env.fails);
    if forall s :: !env.fails(s) {
      NoFailuresSendsPlanned(d.media, d.username.value, env.fails, |d.media|);
      assert d.media[..|d.media|] == d.media;
      PlannedSendsOfKnownKinds(d.media, Caption(d.username.value));
    }
  }

  // ---------------------------------------------------------------------
  // Whole conversations

  /** Text without surrounding whitespace, inside the Basic Multilingual Plane, passes a length rule exactly when it has enough characters. */
  lemma CoreLongEnough(core: string, min: nat)
    requires IsCore(core)
    ensures LongEnough(Some(core), min) <==> |core| >= min
  {
    TrimKeepsCore(core);
    Utf16LengthInBmp(core);
  }

  /** One input, then the rest of the run. */
  lemma RunFirst(m: map<UserId, Entry>, input: Input, rest: seq<Input>)
    ensures var first := Step(m, input);
      var r := Run(first.states, rest);
      && Run(m, [input] + rest).states == r.states
      && Run(m, [input] + rest).replies == first.replies + r.replies
      && Run(m, [input] + rest).dispatched == first.dispatched + r.dispatched
  {
    assert ([input] + rest)[1..] == rest;
  }

  /** A run that starts with a known step and continues with a known run. */
  lemma RunCons(m: map<UserId, Entry>, input: Input, rest: seq<Input>, first: Turn, r: Turn)
    requires Step(m, input) == first && Run(first.states, rest) == r
    ensures Run(m, [input] + rest) == Turn(r.states, first.replies + r.replies, first.dispatched + r.dispatched)
  {
    assert ([input] + rest)[1..] == rest;
  }

  // Concatenations of short sequences, stated once so that the runs below need not unfold them.

  lemma Prepend1<T>(x: T, a: T)
    ensures [x] + [a] == [x, a]
  {
  }

  lemma Prepend2<T>(x: T, a: T, b: T)
    ensures [x] + [a, b] == [x, a, b]
  {
  }

  lemma Prepend3<T>(x: T, a: T, b: T, c: T)
    ensures [x] + [a, b, c] == [x, a, b, c]
  {
  }

  lemma Prepend4<T>(x: T, a: T, b: T, c: T, d: T)
    ensures [x] + [a, b, c, d] == [x, a, b, c, d]
  {
  }

  lemma RunLast(m: map<UserId, Entry>, input: Input)
    ensures var t := Step(m, input);
      && Run(m, [input]).states == t.states
      && Run(m, [input]).replies == t.replies
      && Run(m, [input]).dispatched == t.dispatched
  {
    RunFirst(m, input, []);
    assert [input] + [] == [input];
  }

  /** `done` on a complete draft with one photo, when nothing fails: the ticket text, then the photo. */
  lemma DoneWithOnePhoto(m: map<UserId, Entry>, u: UserId, draft: TicketData, text: string, username: Option<string>, env: Env)
    requires u in m && m[u] == Entry(Some(AwaitingMedia), Some(draft), m[u].lastUpdated)
    requires draft.merchantName.Some? && draft.description.Some? && draft.username.Some?
    requires |draft.media| == 1 && draft.media[0].kind == "photo"
    requires IsDone(text) && env.replyDelivered && forall s :: !env.fails(s)
    ensures var t := MessageTurn(m, u, Some(text), username, env);
      && t.states == m - {u}
      && t.replies == [TicketSubmitted]
      && t.dispatched == [SendMessage(FormatTicketMessage(draft.merchantName.value, draft.description.value, draft.username.value, env.createdAt), true),
                          SendPhoto(draft.media[0].fileId, Caption(draft.username.value))]
  {
    DoneSubmitsDraft(m, u, text, username, env);
    NoFailuresSendsPlanned(draft.media, draft.username.value, env.fails, 1);
    assert draft.media[..1] == draft.media;
    assert draft.media[..0] == [];
  }

  /** The record of user `u` in phase `phase` with draft `draft`, stamped `now`. */
  function At(m: map<UserId, Entry>, u: UserId, phase: Phase, draft: TicketData, now: int): map<UserId, Entry> {
    m[u := Entry(Some(phase), Some(draft), now)]
  }

  lemma AtThenRemove(m: map<UserId, Entry>, u: UserId, phase: Phase, draft: TicketData, now: int)
    requires u !in m
    ensures At(m, u, phase, draft, now) - {u} == m
  {
    var a := At(m, u, phase, draft, now) - {u};
    assert a.Keys == m.Keys;
  }

  lemma AtReplace(m: map<UserId, Entry>, u: UserId, phase: Phase, draft: TicketData, now: int, e: Entry)
    ensures At(m, u, phase, draft, now)[u := e] == m[u := e]
  {
  }

  /** `/newticket` from a user with no record. */
  lemma TicketOpened(m: map<UserId, Entry>, u: UserId, env: Env)
    requires env.replyDelivered
    ensures var t := Step(m, UserEvent(u, NewTicket, env));
      t.states == At(m, u, AwaitingMerchant, EmptyDraft, env.now) && t.replies == [AskMerchant] && t.dispatched == []
  {
    NewTicketStartsOver(m, u, env);
  }

  /** A merchant name: the draft holds it and awaits the description. */
  lemma MerchantGiven(m: map<UserId, Entry>, u: UserId, merchant: string, username: Option<string>, env: Env)
    requires !HasPrefix("/", merchant) && env.replyDelivered
    ensures var t := Step(At(m, u, AwaitingMerchant, EmptyDraft, env.now), UserEvent(u, Text(Some(merchant), username), env));
      && t.states == At(m, u, AwaitingDescription, EmptyDraft.(merchantName := Some(merchant)), env.now)
      && t.replies == [AskDescription] && t.dispatched == []
  {
    var s1 := At(m, u, AwaitingMerchant, EmptyDraft, env.now);
    MerchantStoredAsSent(s1, u, Some(merchant), username, env);
    AtReplace(m, u, AwaitingMerchant, EmptyDraft, env.now, Entry(Some(AwaitingDescription), Some(EmptyDraft.(merchantName := Some(merchant))), env.now));
  }

  /** A description for a draft whose merchant name and description pass: the draft awaits media. */
  lemma DescriptionAccepted(m: map<UserId, Entry>, u: UserId, merchant: string, description: string, name: string, env: Env)
    requires LongEnough(Some(merchant), MinMerchantLength) && LongEnough(Some(description), MinDescriptionLength)
    requires !HasPrefix("/", description) && name != ""
    requires env.replyDelivered
    ensures var t := Step(At(m, u, AwaitingDescription, EmptyDraft.(merchantName := Some(merchant)), env.now),
                          UserEvent(u, Text(Some(description), Some(name)), env));
      && t.states == At(m, u, AwaitingMedia, TicketData(Some(merchant), Some(description), Some(name), []), env.now)
      && t.replies == [AskForMedia] && t.dispatched == []
  {
    var d2 := TicketData(Some(merchant), Some(description), Some(name), []);
    assert ValidateTicketData(d2) == None;
    var s2 := At(m, u, AwaitingDescription, EmptyDraft.(merchantName := Some(merchant)), env.now);
    DescriptionValidated(s2, u, Some(description), Some(name), env);
    AtReplace(m, u, AwaitingDescription, EmptyDraft.(merchantName := Some(merchant)), env.now, Entry(Some(AwaitingMedia), Some(d2), env.now));
  }

  /** A description for a draft whose merchant name is one character: the draft is dropped with the merchant rule's message. */
  lemma DescriptionRejected(m: map<UserId, Entry>, u: UserId, merchant: string, description: string, env: Env)
    requires u !in m
    requires !LongEnough(Some(merchant), MinMerchantLength) && !HasPrefix("/", description)
    ensures var t := Step(At(m, u, AwaitingDescription, EmptyDraft.(merchantName := Some(merchant)), env.now),
                          UserEvent(u, Text(Some(description), None), env));
      && t.states == m && t.replies == [ErrorNotice(Invalid(MerchantTooShort))] && t.dispatched == []
  {
    var s2 := At(m, u, AwaitingDescription, EmptyDraft.(merchantName := Some(merchant)), env.now);
    ShortMerchantAbandoned(s2, u, Some(description), None, env);
    AtThenRemove(m, u, AwaitingDescription, EmptyDraft.(merchantName := Some(merchant)), env.now);
  }

  /** A photo for a draft awaiting media: its largest size is attached. */
  lemma PhotoAttached(m: map<UserId, Entry>, u: UserId, draft: TicketData, small: string, large: string, env: Env)
    requires env.replyDelivered
    ensures var t := Step(At(m, u, AwaitingMedia, draft, env.now), UserEvent(u, MediaMessage(Photo([small, large])), env));
      && t.states == At(m, u, AwaitingMedia, draft.(media := draft.media + [MediaItem("photo", large)]), env.now)
      && t.replies == [MediaAttached] && t.dispatched == []
  {
    var s3 := At(m, u, AwaitingMedia, draft, env.now);
    MediaAppended(s3, u, Photo([small, large]), env);
    MediaOnlyWhileAwaitingMedia(s3, u, Photo([small, large]), env);
    var t := MediaTurn(s3, u, Photo([small, large]), env);
    assert t.states[u].ticketData.value.media == draft.media + [MediaItem("photo", large)];
    AtReplace(m, u, AwaitingMedia, draft, env.now, t.states[u]);
  }

  /** "Done" for a complete draft with one photo, when nothing fails: the ticket text, then the photo. */
  lemma DoneSubmitted(m: map<UserId, Entry>, u: UserId, draft: TicketData, name: string, large: string, env: Env)
    requires u !in m
    requires draft.merchantName.Some? && draft.description.Some? && draft.username == Some(name)
    requires draft.media == [MediaItem("photo", large)]
    requires env.replyDelivered && forall s :: !env.fails(s)
    ensures var t := Step(At(m, u, AwaitingMedia, draft, env.now), UserEvent(u, Text(Some("Done"), Some(name)), env));
      && t.states == m && t.replies == [TicketSubmitted]
      && t.dispatched == [SendMessage(FormatTicketMessage(draft.merchantName.value, draft.description.value, name, env.createdAt), true),
                          SendPhoto(large, Caption(name))]
  {
    assert IsDone("Done");
    DoneWithOnePhoto(At(m, u, AwaitingMedia, draft, env.now), u, draft, "Done", Some(name), env);
    AtThenRemove(m, u, AwaitingMedia, draft, env.now);
  }

  /** The inputs of the happy path from the photo on: one photo in two sizes, then "Done". */
  function MediaInputs(u: UserId, name: string, small: string, large: string, env: Env): seq<Input> {
    [UserEvent(u, MediaMessage(Photo([small, large])), env), UserEvent(u, Text(Some("Done"), Some(name)), env)]
  }

  /** The inputs of the happy path from the description on. */
  function DescriptionInputs(u: UserId, description: string, name: string, small: string, large: string, env: Env): seq<Input> {
    [UserEvent(u, Text(Some(description), Some(name)), env)] + MediaInputs(u, name, small, large, env)
  }

  /** The inputs of the happy path from the merchant name on. */
  function MerchantInputs(u: UserId, merchant: string, description: string, name: string, small: string, large: string, env: Env): seq<Input> {
    [UserEvent(u, Text(Some(merchant), Some(name)), env)] + DescriptionInputs(u, description, name, small, large, env)
  }

  /** The inputs of the happy path: `/newticket`, a merchant name, a description, one photo in two sizes, then "Done". */
  function HappyInputs(u: UserId, merchant: string, description: string, name: string, small: string, large: string, env: Env): seq<Input> {
    [UserEvent(u, NewTicket, env)] + MerchantInputs(u, merchant, description, name, small, large, env)
  }

  /** The happy path below from the record awaiting media: a photo, then "Done". */
  lemma HappyPathFromMedia(m: map<UserId, Entry>, u: UserId, draft: TicketData, name: string, small: string, large: string, env: Env)
    requires u !in m
    requires draft.merchantName.Some? && draft.description.Some? && draft.username == Some(name) && draft.media == []
    requires env.replyDelivered && forall s :: !env.fails(s)
    ensures var r := Run(At(m, u, AwaitingMedia, draft, env.now), MediaInputs(u, name, small, large, env));
      && r.states == m && r.replies == [MediaAttached, TicketSubmitted]
      && r.dispatched == [SendMessage(FormatTicketMessage(draft.merchantName.value, draft.description.value, name, env.createdAt), true),
                          SendPhoto(large, Caption(name))]
  {
    var e4, e5 := UserEvent(u, MediaMessage(Photo([small, large])), env), UserEvent(u, Text(Some("Done"), Some(name)), env);
    var d3 := draft.(media := draft.media + [MediaItem("photo", large)]);
    var s3, s4 := At(m, u, AwaitingMedia, draft, env.now), At(m, u, AwaitingMedia, d3, env.now);
    var sent := [SendMessage(FormatTicketMessage(draft.merchantName.value, draft.description.value, name, env.createdAt), true),
                 SendPhoto(large, Caption(name))];
    PhotoAttached(m, u, draft, small, large, env);
    DoneSubmitted(m, u, d3, name, large, env);
    RunLast(s4, e5);
    RunCons(s3, e4, [e5], Turn(s4, [MediaAttached], []), Turn(m, [TicketSubmitted], sent));
    Prepend1(e4, e5);
    Prepend1(MediaAttached, TicketSubmitted);
  }

  /** The happy path below from the record awaiting the description. */
  lemma HappyPathFromDescription(m: map<UserId, Entry>, u: UserId, merchant: string, description: string, name: string,
                                 small: string, large: string, env: Env)
    requires u !in m
    requires LongEnough(Some(merchant), MinMerchantLength) && LongEnough(Some(description), MinDescriptionLength)
    requires !HasPrefix("/", description) && name != ""
    requires env.replyDelivered && forall s :: !env.fails(s)
    ensures var r := Run(At(m, u, AwaitingDescription, EmptyDraft.(merchantName := Some(merchant)), env.now),
                         DescriptionInputs(u, description, name, small, large, env));
      && r.states == m && r.replies == [AskForMedia, MediaAttached, TicketSubmitted]
      && r.dispatched == [SendMessage(FormatTicketMessage(merchant, description, name, env.createdAt), true),
                          SendPhoto(large, Caption(name))]
  {
    var d2 := TicketData(Some(merchant), Some(description), Some(name), []);
    var s2, s3 := At(m, u, AwaitingDescription, EmptyDraft.(merchantName := Some(merchant)), env.now), At(m, u, AwaitingMedia, d2, env.now);
    var rest := MediaInputs(u, name, small, large, env);
    DescriptionAccepted(m, u, merchant, description, name, env);
    HappyPathFromMedia(m, u, d2, name, small, large, env);
    RunCons(s2, UserEvent(u, Text(Some(description), Some(name)), env), rest, Turn(s3, [AskForMedia], []), Run(s3, rest));
    Prepend2(AskForMedia, MediaAttached, TicketSubmitted);
  }

  /** The happy path below from the record awaiting the merchant name. */
  lemma HappyPathFromMerchant(m: map<UserId, Entry>, u: UserId, merchant: string, description: string, name: string,
                              small: string, large: string, env: Env)
    requires u !in m
    requires LongEnough(Some(merchant), MinMerchantLength) && LongEnough(Some(description), MinDescriptionLength)
    requires !HasPrefix("/", merchant) && !HasPrefix("/", description) && name != ""
    requires env.replyDelivered && forall s :: !env.fails(s)
    ensures var r := Run(At(m, u, AwaitingMerchant, EmptyDraft, env.now), MerchantInputs(u, merchant, description, name, small, large, env));
      && r.states == m && r.replies == [AskDescription, AskForMedia, MediaAttached, TicketSubmitted]
      && r.dispatched == [SendMessage(FormatTicketMessage(merchant, description, name, env.createdAt), true),
                          SendPhoto(large, Caption(name))]
  {
    var s1, s2 := At(m, u, AwaitingMerchant, EmptyDraft, env.now), At(m, u, AwaitingDescription, EmptyDraft.(merchantName := Some(merchant)), env.now);
    var rest := DescriptionInputs(u, description, name, small, large, env);
    MerchantGiven(m, u, merchant, Some(name), env);
    HappyPathFromDescription(m, u, merchant, description, name, small, large, env);
    RunCons(s1, UserEvent(u, Text(Some(merchant), Some(name)), env), rest, Turn(s2, [AskDescription], []), Run(s2, rest));
    Prepend3(AskDescription, AskForMedia, MediaAttached, TicketSubmitted);
  }

  /**
   * A user with no record runs the happy path: `/newticket`, a merchant
   * name, a description, one photo, then "Done". Every reply is the
   * expected prompt, the record is gone at the end, and the destination
   * chat receives the ticket text and then the photo's largest size.
   */
  lemma HappyPath(m: map<UserId, Entry>, u: UserId, merchant: string, description: string, name: string,
                  small: string, large: string, env: Env)
    requires u !in m
    requires IsCore(merchant) && |merchant| >= 2 && IsCore(description) && |description| >= 10
    requires !HasPrefix("/", merchant) && !HasPrefix("/", description) && name != ""
    requires env.replyDelivered && forall s :: !env.fails(s)
    ensures var r := Run(m, HappyInputs(u, merchant, description, name, small, large, env));
      && r.states == m
      && r.replies == [AskMerchant, AskDescription, AskForMedia, MediaAttached, TicketSubmitted]
      && r.dispatched == [SendMessage(FormatTicketMessage(merchant, description, name, env.createdAt), true),
                          SendPhoto(large, Caption(name))]
  {
    CoreLongEnough(merchant, MinMerchantLength);
    CoreLongEnough(description, MinDescriptionLength);
    var s1 := At(m, u, AwaitingMerchant, EmptyDraft, env.now);
    var rest := MerchantInputs(u, merchant, description, name, small, large, env);
    TicketOpened(m, u, env);
    HappyPathFromMerchant(m, u, merchant, description, name, small, large, env);
    RunCons(m, UserEvent(u, NewTicket, env), rest, Turn(s1, [AskMerchant], []), Run(s1, rest));
    Prepend4(AskMerchant, AskDescription, AskForMedia, MediaAttached, TicketSubmitted);
  }

  /**
   * A one-character merchant name is accepted when sent and only rejected
   * after the description: the user then gets the merchant rule's message
   * and loses the draft.
   */
  lemma ShortMerchantRejectedLate(m: map<UserId, Entry>, u: UserId, merchant: string, description: string, env: Env)
    requires u !in m
    requires IsCore(merchant) && |merchant| == 1
    requires !HasPrefix("/", merchant) && !HasPrefix("/", description)
    requires env.replyDelivered
    ensures var r := Run(m, [UserEvent(u, NewTicket, env),
                             UserEvent(u, Text(Some(merchant), None), env),
                             UserEvent(u, Text(Some(description), None), env)]);
      && r.states == m
      && r.replies == [AskMerchant, AskDescription, ErrorNotice(Invalid(MerchantTooShort))]
      && r.dispatched == []
  {
    CoreLongEnough(merchant, MinMerchantLength);
    ShortMerchantRun(m, u, merchant, description, env);
  }

  lemma ShortMerchantRun(m: map<UserId, Entry>, u: UserId, merchant: string, description: string, env: Env)
    requires u !in m
    requires !LongEnough(Some(merchant), MinMerchantLength)
    requires !HasPrefix("/", merchant) && !HasPrefix("/", description)
    requires env.replyDelivered
    ensures var r := Run(m, [UserEvent(u, NewTicket, env),
                             UserEvent(u, Text(Some(merchant), None), env),
                             UserEvent(u, Text(Some(description), None), env)]);
      && r.states == m
      && r.replies == [AskMerchant, AskDescription, ErrorNotice(Invalid(MerchantTooShort))]
      && r.dispatched == []
  {
    var e1, e2, e3 := UserEvent(u, NewTicket, env), UserEvent(u, Text(Some(merchant), None), env),
                      UserEvent(u, Text(Some(description), None), env);
    var s1 := At(m, u, AwaitingMerchant, EmptyDraft, env.now);
    var rejected := [AskDescription, ErrorNotice(Invalid(MerchantTooShort))];
    TicketOpened(m, u, env);
    ShortMerchantFromMerchant(m, u, merchant, description, env);
    RunCons(m, e1, [e2, e3], Turn(s1, [AskMerchant], []), Turn(m, rejected, []));
    Prepend2(e1, e2, e3);
    Prepend2(AskMerchant, AskDescription, ErrorNotice(Invalid(MerchantTooShort)));
  }

  /** The short merchant name's run from the record awaiting it. */
  lemma ShortMerchantFromMerchant(m: map<UserId, Entry>, u: UserId, merchant: string, description: string, env: Env)
    requires u !in m
    requires !LongEnough(Some(merchant), MinMerchantLength)
    requires !HasPrefix("/", merchant) && !HasPrefix("/", description)
    requires env.replyDelivered
    ensures Run(At(m, u, AwaitingMerchant, EmptyDraft, env.now),
                [UserEvent(u, Text(Some(merchant), None), env), UserEvent(u, Text(Some(description), None), env)])
         == Turn(m, [AskDescription, ErrorNotice(Invalid(MerchantTooShort))], [])
  {
    var e2, e3 := UserEvent(u, Text(Some(merchant), None), env), UserEvent(u, Text(Some(description), None), env);
    var s1 := At(m, u, AwaitingMerchant, EmptyDraft, env.now);
    var s2 := At(m, u, AwaitingDescription, EmptyDraft.(merchantName := Some(merchant)), env.now);
    MerchantGiven(m, u, merchant, None, env);
    DescriptionRejected(m, u, merchant, description, env);
    RunLast(s2, e3);
    RunCons(s1, e2, [e3], Turn(s2, [AskDescription], []), Turn(m, [ErrorNotice(Invalid(MerchantTooShort))], []));
    Prepend1(e2, e3);
    Prepend1(AskDescription, ErrorNotice(Invalid(MerchantTooShort)));
  }

  /** A record idle for more than 30 minutes is swept away, and the user's next message is ignored: only `/newticket` was answered. */
  lemma IdleConversationExpires(u: UserId, merchant: string, t0: int, env: Env)
    requires !HasPrefix("/", merchant)
    ensures var r := Run(map[], [UserEvent(u, NewTicket, env.(now := t0)),
                                 SweepTick(t0 + ExpiryMs + 1),
                                 UserEvent(u, Text(Some(merchant), None), env)]);
      && r.states == map[]
      && r.replies == [AskMerchant] + NoticeIfLost(env.(now := t0), StartFailed)
      && r.dispatched == []
  {
    var e1, e2, e3 := UserEvent(u, NewTicket, env.(now := t0)), SweepTick(t0 + ExpiryMs + 1),
                      UserEvent(u, Text(Some(merchant), None), env);
    var s1 := map[u := Entry(Some(AwaitingMerchant), Some(EmptyDraft), t0)];
    assert Step(map[], e1).states == s1;
    assert u !in Sweep(s1, t0 + ExpiryMs + 1);
    assert Sweep(s1, t0 + ExpiryMs + 1) == map[];
    RunLast(map[], e3);
    RunFirst(s1, e2, [e3]);
    Prepend1(e2, e3);
    RunFirst(map[], e1, [e2, e3]);
    Prepend2(e1, e2, e3);
  }
}
