/** The rest booking dialogue (`plugins/rests/handler.py`). One
    `RestDialogue` object is one FSM context: the form state and the
    `new_rest` record stored for one user in one chat. Each handler is a
    method; its inputs are the incoming update's fields, the member's
    current rests as fetched (or the error fetching them raised) and today's
    day number in the application's time zone. Replies are values, and the
    rests the dialogue asks the rests service to store are logged in
    `puts`. */
module RestHandler {
  import opened Wrappers
  import opened RestDomain
  import opened RestKeyboards

  datatype FormState = Idle | TakingRest

  /** The `new_rest` record; a key that was never set reads as None. */
  datatype NewRest = NewRest(userId: Option<int>, chatId: Option<int>, startWeek: Option<int>, durationWeeks: Option<int>)

  const Cleared := NewRest(None, None, None, None)

  /** A call to the rests service's `put`. */
  datatype RestPut = RestPut(userTgId: int, chatTgId: int, state: RestState, startsAt: int, endsAt: int, revoked: bool)

  /** What the bot answers. */
  datatype Reply =
    | Unhandled                                   // no handler takes the update in this state
    | NoStartAvailable                            // "no possibility to take a rest yet"
    | ChooseStart(keyboard: Keyboard)
    | Shoo                                        // "Кыш": the callback is not the owner's
    | Rejected(keyboard: Keyboard)
    | ChooseDuration(startWeek: int, keyboard: Keyboard)
    | ConfirmChoice(startWeek: int, durationWeeks: int, keyboard: Keyboard)
    | Booked(shownStart: int, shownEnd: int)
    | Cancelled
    | LongerRestInfo
    | NeedReply                                   // the admin command must answer a message
    | NotAMember
    | NotEnoughRights
    | DurationTooShort
    | Given(userTgId: int, shownStart: int, shownEnd: int)
    | Raised(error: string)

  const NoStartWeek := "KeyError: 'start_week'"
  const NoDurationWeeks := "KeyError: 'duration_weeks'"

  /** The ownership check of the option, confirm, back and cancel
      handlers: it fails when the user or the chat differs. */
  predicate Foreign(r: NewRest, userId: int, chatId: int)
  {
    r.userId != Some(userId) || r.chatId != Some(chatId)
  }

  /** The longer-rest handler's check joins the two tests with `and`: it
      fails only when both the user and the chat differ. */
  predicate ForeignBoth(r: NewRest, userId: int, chatId: int)
  {
    r.userId != Some(userId) && r.chatId != Some(chatId)
  }

  /** Another user in the same chat passes the longer-rest check but not
      the others. */
  lemma LongerRestCheckIsWeaker(r: NewRest, userId: int, chatId: int)
    requires r.chatId == Some(chatId) && r.userId != Some(userId)
    ensures Foreign(r, userId, chatId) && !ForeignBoth(r, userId, chatId)
  {
  }

  /** The dates the confirm handler stores against the dates it shows: the
      stored start lies `Weekday(today)` days after the shown Monday, and
      the stored end one day more after the shown Sunday, so the starts
      agree only on a Monday and the stored end always lies past the shown
      one. */
  lemma StoredVersusShown(today: int, startWeek: int, durationWeeks: int)
    ensures var shown := CalculateRestDates(today + 7 * startWeek, durationWeeks);
            var storedStart := today + 7 * startWeek;
            var storedEnd := today + 7 * (startWeek + durationWeeks);
            storedStart - shown.startsAt.value == Weekday(today) &&
            storedEnd - shown.endsAt.value == Weekday(today) + 1 &&
            (storedStart == shown.startsAt.value <==> Weekday(today) == 0) &&
            storedEnd > shown.endsAt.value
  {
    var d := today + 7 * startWeek;
    WeekdayShift(today, startWeek);
    var m := CalculateRestDates(d, durationWeeks).startsAt.value;
    assert d - m == Weekday(d) by {
      var q := (d + 6) / 7;
      var q' := (m + 6) / 7;
      assert d + 6 == 7 * q + Weekday(d);
      assert m + 6 == 7 * q' + Weekday(m);
    }
  }

  class RestDialogue {
    var state: FormState
    var newRest: NewRest
    var puts: seq<RestPut>

    constructor ()
      ensures state == Idle && newRest == Cleared && puts == []
    {
      state := Idle;
      newRest := Cleared;
      puts := [];
    }

    /** "!взять рест" in a group: offer the start weeks, or say that none
        is available and change nothing. The handler runs in any state. */
    method TakeRest(userId: int, chatId: int, chatType: string, current: Result<seq<Rest>, string>, today: int)
      returns (reply: Reply)
      modifies this
      ensures puts == old(puts)
      ensures chatType != "group" && chatType != "supergroup" ==>
                reply == Unhandled && state == old(state) && newRest == old(newRest)
      ensures (chatType == "group" || chatType == "supergroup") ==>
                (current.Err? ==> reply == Raised(current.error) && state == old(state) && newRest == old(newRest)) &&
                (current.Ok? ==>
                   var flags := PossibleStarts(current.value, today);
                   (flags.Err? ==> reply == Raised(flags.error) && state == old(state) && newRest == old(newRest)) &&
                   (flags.Ok? && !(true in flags.value) ==>
                      reply == NoStartAvailable && state == old(state) && newRest == old(newRest)) &&
                   (flags.Ok? && true in flags.value ==>
                      reply == ChooseStart(FirstIkbm(flags.value).value) && state == TakingRest &&
                      newRest == NewRest(Some(userId), Some(chatId), None, None)))
    {
      if chatType != "group" && chatType != "supergroup" {
        return Unhandled;
      }
      if current.Err? {
        return Raised(current.error);
      }
      var flags := DefinePossibleRestStarts(current.value, today);
      if flags.Err? {
        return Raised(flags.error);
      }
      if !(true in flags.value) {
        return NoStartAvailable;
      }
      var keyboard := FirstIkbm(flags.value).value;
      state := TakingRest;
      newRest := NewRest(Some(userId), Some(chatId), None, None);
      reply := ChooseStart(keyboard);
    }

    /** A start-week or duration option ("rest:" + kind + number + 's'/'f').
        A foreign or unavailable choice changes nothing; choosing a start
        week stores it before the durations are computed, choosing a
        duration stores it before the start week is read. */
    method ChooseOption(userId: int, chatId: int, data: string, current: Result<seq<Rest>, string>, today: int)
      returns (reply: Reply)
      modifies this
      ensures puts == old(puts) && state == old(state)
      ensures old(state) != TakingRest || DecodeChoice(data).None? ==> reply == Unhandled && newRest == old(newRest)
      ensures old(state) == TakingRest && DecodeChoice(data).Some? ==>
                var c := DecodeChoice(data).value;
                (Foreign(old(newRest), userId, chatId) ==> reply == Shoo && newRest == old(newRest)) &&
                (!Foreign(old(newRest), userId, chatId) && !c.available ==>
                   reply == Rejected(RejectIkbm()) && newRest == old(newRest)) &&
                (!Foreign(old(newRest), userId, chatId) && c.available && c.kind == 's' ==>
                   newRest == old(newRest).(startWeek := Some(c.number)) &&
                   reply == DurationsReply(c.number, current, today)) &&
                (!Foreign(old(newRest), userId, chatId) && c.available && c.kind == 'd' ==>
                   newRest == old(newRest).(durationWeeks := Some(c.number)) &&
                   (old(newRest).startWeek.None? ==> reply == Raised(NoStartWeek)) &&
                   (old(newRest).startWeek.Some? ==>
                      reply == ConfirmChoice(old(newRest).startWeek.value, c.number,
                                             ConfirmIkbm(old(newRest).startWeek.value))))
    {
      if state != TakingRest {
        return Unhandled;
      }
      var choice := DecodeChoice(data);
      if choice.None? {
        return Unhandled;
      }
      if Foreign(newRest, userId, chatId) {
        return Shoo;
      }
      var c := choice.value;
      if !c.available {
        return Rejected(RejectIkbm());
      }
      if c.kind == 's' {
        newRest := newRest.(startWeek := Some(c.number));
        return DurationsReply(c.number, current, today);
      }
      newRest := newRest.(durationWeeks := Some(c.number));
      if newRest.startWeek.None? {
        return Raised(NoStartWeek);
      }
      reply := ConfirmChoice(newRest.startWeek.value, c.number, ConfirmIkbm(newRest.startWeek.value));
    }

    /** "rest:confirm": store an active rest from today plus the start
        weeks to today plus start and duration weeks, show the
        Monday-to-Sunday dates `calculate_rest_dates` gives, and clear the
        context. */
    method ConfirmRest(userId: int, chatId: int, today: int) returns (reply: Reply)
      modifies this
      ensures old(state) != TakingRest ==> reply == Unhandled && state == old(state) && newRest == old(newRest) && puts == old(puts)
      ensures old(state) == TakingRest && Foreign(old(newRest), userId, chatId) ==>
                reply == Shoo && state == old(state) && newRest == old(newRest) && puts == old(puts)
      ensures old(state) == TakingRest && !Foreign(old(newRest), userId, chatId) ==>
                var r := old(newRest);
                (r.startWeek.None? ==> reply == Raised(NoStartWeek) && state == old(state) && newRest == r && puts == old(puts)) &&
                (r.startWeek.Some? && r.durationWeeks.None? ==>
                   reply == Raised(NoDurationWeeks) && state == old(state) && newRest == r && puts == old(puts)) &&
                (r.startWeek.Some? && r.durationWeeks.Some? ==>
                   var sw, dw := r.startWeek.value, r.durationWeeks.value;
                   var shown := CalculateRestDates(today + 7 * sw, dw);
                   reply == Booked(shown.startsAt.value, shown.endsAt.value) &&
                   puts == old(puts) + [RestPut(userId, chatId, Active, today + 7 * sw, today + 7 * (sw + dw), false)] &&
                   state == Idle && newRest == Cleared)
    {
      if state != TakingRest {
        return Unhandled;
      }
      if Foreign(newRest, userId, chatId) {
        return Shoo;
      }
      if newRest.startWeek.None? {
        return Raised(NoStartWeek);
      }
      if newRest.durationWeeks.None? {
        return Raised(NoDurationWeeks);
      }
      var sw, dw := newRest.startWeek.value, newRest.durationWeeks.value;
      var shown := CalculateRestDates(today + 7 * sw, dw);
      puts := puts + [RestPut(newRest.userId.value, newRest.chatId.value, Active, today + 7 * sw, today + 7 * (sw + dw), false)];
      state := Idle;
      newRest := Cleared;
      reply := Booked(shown.startsAt.value, shown.endsAt.value);
    }

    /** "rest:start" (Back): offer the start weeks again; the context is
        kept. */
    method Restart(userId: int, chatId: int, current: Result<seq<Rest>, string>, today: int) returns (reply: Reply)
      ensures state != TakingRest ==> reply == Unhandled
      ensures state == TakingRest && Foreign(newRest, userId, chatId) ==> reply == Shoo
      ensures state == TakingRest && !Foreign(newRest, userId, chatId) ==>
                (current.Err? ==> reply == Raised(current.error)) &&
                (current.Ok? && PossibleStarts(current.value, today).Err? ==>
                   reply == Raised(PossibleStarts(current.value, today).error)) &&
                (current.Ok? && PossibleStarts(current.value, today).Ok? ==>
                   reply == ChooseStart(FirstIkbm(PossibleStarts(current.value, today).value).value))
    {
      if state != TakingRest {
        return Unhandled;
      }
      if Foreign(newRest, userId, chatId) {
        return Shoo;
      }
      if current.Err? {
        return Raised(current.error);
      }
      var flags := DefinePossibleRestStarts(current.value, today);
      if flags.Err? {
        return Raised(flags.error);
      }
      reply := ChooseStart(FirstIkbm(flags.value).value);
    }

    /** "rest:cancel": clear the context. */
    method Cancel(userId: int, chatId: int) returns (reply: Reply)
      modifies this
      ensures puts == old(puts)
      ensures old(state) != TakingRest ==> reply == Unhandled && state == old(state) && newRest == old(newRest)
      ensures old(state) == TakingRest && Foreign(old(newRest), userId, chatId) ==>
                reply == Shoo && state == old(state) && newRest == old(newRest)
      ensures old(state) == TakingRest && !Foreign(old(newRest), userId, chatId) ==>
                reply == Cancelled && state == Idle && newRest == Cleared
    {
      if state != TakingRest {
        return Unhandled;
      }
      if Foreign(newRest, userId, chatId) {
        return Shoo;
      }
      state := Idle;
      newRest := Cleared;
      reply := Cancelled;
    }

    /** "rest:longer_rest": explain how to get a longer rest; the context
        is kept. */
    method LongerRest(userId: int, chatId: int) returns (reply: Reply)
      ensures state != TakingRest ==> reply == Unhandled
      ensures state == TakingRest ==> (reply == Shoo <==> ForeignBoth(newRest, userId, chatId))
      ensures state == TakingRest && !ForeignBoth(newRest, userId, chatId) ==> reply == LongerRestInfo
    {
      if state != TakingRest {
        return Unhandled;
      }
      if ForeignBoth(newRest, userId, chatId) {
        return Shoo;
      }
      reply := LongerRestInfo;
    }
  }

  /** The reply after a start week is chosen: the duration keyboard for a
      rest starting `startWeek` weeks from today. */
  function DurationsReply(startWeek: int, current: Result<seq<Rest>, string>, today: int): (r: Reply)
    ensures current.Err? ==> r == Raised(current.error)
    ensures current.Ok? && PossibleDurations(today + 7 * startWeek, current.value).Ok? ==>
              r.ChooseDuration? && r.startWeek == startWeek
  {
    if current.Err? then Raised(current.error)
    else
      match PossibleDurations(today + 7 * startWeek, current.value)
      case Err(e) => Raised(e)
      case Ok(flags) => ChooseDuration(startWeek, SecondIkbm(flags).value)
  }

  /** The replied-to member as the admin command finds it. */
  datatype Target = UnknownMember | NoRole | RoleLevel(level: int)

  const NoneHasNoRoleLevel := "AttributeError: 'NoneType' object has no attribute 'level'"

  /** "!выдать рест N M" answering a message: the replied-to user must be a
      member whose role level is at least 6 and the duration must be at
      least a week; then an active rest for the Monday-aligned weeks and a
      blocked rest `M` weeks later are stored, both for the sender. */
  function AdminGive(senderId: int, chatId: int, replyTo: Option<int>, target: Target,
                     startsFromWeek: nat, durationWeeks: nat, today: int): (r: (Reply, seq<RestPut>))
    ensures replyTo.None? ==> r == (NeedReply, [])
    ensures r.1 != [] <==> r.0.Given?
    ensures r.0.Given? ==> replyTo == Some(r.0.userTgId) && |r.1| == 2 &&
                           r.1[0].startsAt == r.0.shownStart && r.1[0].endsAt == r.0.shownEnd
  {
    if replyTo.None? then (NeedReply, [])
    else if target.UnknownMember? then (NotAMember, [])
    else if target.NoRole? then (Raised(NoneHasNoRoleLevel), [])
    else if target.level < 6 then (NotEnoughRights, [])
    else if durationWeeks == 0 then (DurationTooShort, [])
    else
      var rest := CalculateRestDates(today + 7 * startsFromWeek, durationWeeks);
      var s, e := rest.startsAt.value, rest.endsAt.value;
      (Given(replyTo.value, s, e),
       [RestPut(senderId, chatId, Active, s, e, false),
        RestPut(senderId, chatId, Blocked, s + 7 * durationWeeks, e + 7 * durationWeeks, false)])
  }

  /** The admin command writes nothing unless the target's role level is
      at least 6 and the duration positive; then it writes an active rest
      of whole Monday-to-Sunday weeks and a blocked rest of the same length
      right after it, both keyed to the sender. */
  lemma AdminGiveEffect(senderId: int, chatId: int, replyTo: Option<int>, target: Target,
                        startsFromWeek: nat, durationWeeks: nat, today: int)
    ensures var (reply, puts) := AdminGive(senderId, chatId, replyTo, target, startsFromWeek, durationWeeks, today);
            (puts != [] <==> replyTo.Some? && target.RoleLevel? && target.level >= 6 && durationWeeks >= 1) &&
            (replyTo.Some? && target.RoleLevel? && target.level < 6 ==> reply == NotEnoughRights) &&
            (replyTo.Some? && target.RoleLevel? && target.level >= 6 && durationWeeks == 0 ==> reply == DurationTooShort) &&
            (puts != [] ==>
               |puts| == 2 && puts[0].userTgId == senderId && puts[1].userTgId == senderId &&
               puts[0].state == Active && puts[1].state == Blocked &&
               Weekday(puts[0].startsAt) == 0 && Weekday(puts[0].endsAt) == 6 &&
               puts[0].startsAt <= today + 7 * startsFromWeek < puts[0].startsAt + 7 &&
               puts[1].startsAt == puts[0].endsAt + 1 &&
               puts[1].endsAt - puts[1].startsAt == puts[0].endsAt - puts[0].startsAt)
  {
    if replyTo.Some? && target.RoleLevel? && target.level >= 6 && durationWeeks >= 1 {
      RestEndsOnSunday(today + 7 * startsFromWeek, durationWeeks);
    }
  }
}
