/** The leave ("rest") booking rules of the rests plugin
    (`ChatMemberRestDomain`). Dates are day numbers in the proleptic
    Gregorian ordinal count that `date.toordinal()` uses, where day 1 is
    Monday 1 January of year 1; the clock and time zones are parameters. */
module RestDomain {
  import opened Wrappers

  /** `date.weekday()` on a day number: Monday is 0 and Sunday is 6. */
  function Weekday(d: int): (w: int)
    ensures 0 <= w < 7
  {
    (d + 6) % 7
  }

  /** The two states a stored rest can have (`RestStateEnum`). */
  datatype RestState = Blocked | Active

  /** A `ChatMemberRest`. A row read from the table has every field set;
      a rest built by `calculate_rest_dates` only has its two dates. */
  datatype Rest = Rest(
    chatMemberId: Option<int>,
    state: Option<RestState>,
    startsAt: Option<int>,
    endsAt: Option<int>,
    revoked: bool)

  const DatesNotSet := "ValueError: Rest start and end dates must be set"
  const NoAstimezone := "AttributeError: 'NoneType' object has no attribute 'astimezone'"

  predicate HasDates(r: Rest)
  {
    r.startsAt.Some? && r.endsAt.Some?
  }

  /** `rests_interceps`: both rests must have both dates; they overlap when
      neither ends before the other starts, i.e. as closed intervals. */
  function Interceps(r1: Rest, r2: Rest): (r: Result<bool, string>)
    ensures r.Err? <==> !HasDates(r1) || !HasDates(r2)
    ensures r.Err? ==> r.error == DatesNotSet
  {
    if !HasDates(r1) || !HasDates(r2) then Err(DatesNotSet)
    else Ok(!(r1.endsAt.value < r2.startsAt.value || r2.endsAt.value < r1.startsAt.value))
  }

  /** Overlap does not depend on the order of the two rests, errors included. */
  lemma IntercepsSymmetric(r1: Rest, r2: Rest)
    ensures Interceps(r1, r2) == Interceps(r2, r1)
  {
  }

  /** Day `d` lies in the closed interval of `r`. */
  predicate Covers(r: Rest, d: int)
  {
    HasDates(r) && r.startsAt.value <= d <= r.endsAt.value
  }

  /** Two well-formed rests overlap exactly when some day lies in both
      closed intervals. */
  lemma IntercepsSharedDay(r1: Rest, r2: Rest)
    requires HasDates(r1) && HasDates(r2)
    requires r1.startsAt.value <= r1.endsAt.value && r2.startsAt.value <= r2.endsAt.value
    ensures Interceps(r1, r2) == Ok(true) <==> exists d :: Covers(r1, d) && Covers(r2, d)
  {
    var s1, s2 := r1.startsAt.value, r2.startsAt.value;
    if Interceps(r1, r2) == Ok(true) {
      var d := if s1 < s2 then s2 else s1;
      assert Covers(r1, d) && Covers(r2, d);
    }
  }

  /** A rest ending on the day another starts overlaps it. */
  lemma TouchingRestsOverlap(r1: Rest, r2: Rest)
    requires HasDates(r1) && HasDates(r2)
    requires r1.startsAt.value <= r1.endsAt.value && r2.startsAt.value <= r2.endsAt.value
    requires r1.endsAt.value == r2.startsAt.value
    ensures Interceps(r1, r2) == Ok(true)
  {
  }

  /** `check_all_rests_interceps`: the other rests are tried in order; the
      first overlap answers true, the first rest without dates raises, and
      an exhausted list answers false. */
  function CheckAll(rest: Rest, others: seq<Rest>): (r: Result<bool, string>)
    ensures r == Ok(false) <==> forall k :: 0 <= k < |others| ==> Interceps(rest, others[k]) == Ok(false)
    ensures r == Ok(true) ==> exists k :: 0 <= k < |others| && Interceps(rest, others[k]) == Ok(true)
    ensures r.Err? ==> exists k :: 0 <= k < |others| && Interceps(rest, others[k]).Err?
  {
    if others == [] then Ok(false)
    else
      var init := others[..|others| - 1];
      assert forall k :: 0 <= k < |init| ==> init[k] == others[k];
      var p := CheckAll(rest, init);
      if p != Ok(false) then p else Interceps(rest, others[|others| - 1])
  }

  /** An empty list of other rests never overlaps. */
  lemma CheckAllEmpty(rest: Rest)
    ensures CheckAll(rest, []) == Ok(false)
  {
  }

  method CheckAllRestsInterceps(rest: Rest, others: seq<Rest>) returns (r: Result<bool, string>)
    ensures r == CheckAll(rest, others)
  {
    var i := 0;
    while i < |others|
      invariant 0 <= i <= |others|
      invariant CheckAll(rest, others[..i]) == Ok(false)
    {
      assert others[..i + 1][..i] == others[..i];
      var hit := Interceps(rest, others[i]);
      if hit.Err? {
        CheckAllPrefix(rest, others, i + 1);
        return Err(hit.error);
      }
      if hit.value {
        CheckAllPrefix(rest, others, i + 1);
        return Ok(true);
      }
      i := i + 1;
    }
    assert others[..i] == others;
    r := Ok(false);
  }

  /** Once a prefix of the list decides the answer, the rest of the list
      is not looked at. */
  lemma {:induction false} CheckAllPrefix(rest: Rest, others: seq<Rest>, n: nat)
    requires n <= |others| && CheckAll(rest, others[..n]) != Ok(false)
    ensures CheckAll(rest, others) == CheckAll(rest, others[..n])
    decreases |others| - n
  {
    if n < |others| {
      assert others[..n + 1][..n] == others[..n];
      CheckAllPrefix(rest, others, n + 1);
      assert others[..|others|] == others;
    } else {
      assert others[..n] == others;
    }
  }

  /** `can_take_rest_starts_from_date`: not on a Saturday or a Sunday. */
  function CanTake(d: int): (ok: bool)
    ensures ok <==> Weekday(d) < 5
  {
    Weekday(d) != 5 && Weekday(d) != 6
  }

  /** The Monday of the week holding `d`. */
  function WeekStart(d: int): (m: int)
    ensures Weekday(m) == 0 && m <= d < m + 7
  {
    var w := Weekday(d);
    var q := (d + 6) / 7;
    assert d + 6 == 7 * q + w;
    assert d - w + 6 == 7 * q;
    d - w
  }

  /** Seven days later is the same weekday. */
  lemma WeekdayShift(d: int, weeks: int)
    ensures Weekday(d + 7 * weeks) == Weekday(d)
  {
    var q := (d + 6) / 7;
    assert d + 7 * weeks + 6 == 7 * (q + weeks) + Weekday(d);
  }

  /** `calculate_rest_dates`: from the Monday of the given day's week to
      the day before the Monday `weeks` weeks later. */
  function CalculateRestDates(startsAt: int, weeks: int): (r: Rest)
    ensures HasDates(r) && r.chatMemberId.None? && r.state.None? && !r.revoked
    ensures Weekday(r.startsAt.value) == 0
    ensures r.startsAt.value <= startsAt < r.startsAt.value + 7
    ensures r.endsAt.value == r.startsAt.value + 7 * weeks - 1
  {
    var monday := WeekStart(startsAt);
    Rest(None, None, Some(monday), Some(monday + 7 * weeks - 1), false)
  }

  /** A rest of at least one week ends on a Sunday. */
  lemma RestEndsOnSunday(startsAt: int, weeks: int)
    requires weeks >= 1
    ensures Weekday(CalculateRestDates(startsAt, weeks).endsAt.value) == 6
  {
    var m := CalculateRestDates(startsAt, weeks).startsAt.value;
    WeekdayShift(m + 6, weeks - 1);
    assert m + 7 * weeks - 1 == m + 6 + 7 * (weeks - 1);
    WeekdayShift(m, 0);
    assert Weekday(m + 6) == 6 by {
      var q := (m + 6) / 7;
      assert m + 6 == 7 * q;
      assert m + 12 == 7 * q + 6;
    }
  }

  /** Two flags, or the first error met while computing them. */
  function Flags(first: Result<bool, string>, second: Result<bool, string>): (r: Result<seq<bool>, string>)
    ensures r.Ok? <==> first.Ok? && second.Ok?
    ensures r.Ok? ==> r.value == [first.value, second.value]
    ensures first.Err? ==> r == Err(first.error)
    ensures first.Ok? && second.Err? ==> r == Err(second.error)
  {
    if first.Err? then Err(first.error)
    else if second.Err? then Err(second.error)
    else Ok([first.value, second.value])
  }

  lemma FlagsOk(first: Result<bool, string>, second: Result<bool, string>, both: seq<bool>)
    requires |both| == 2 && first == Ok(both[0]) && second == Ok(both[1])
    ensures Flags(first, second) == Ok(both)
  {
    assert both == [both[0], both[1]];
  }

  /** Free of overlaps: the negation of `CheckAll`, errors passed on. */
  function Free(rest: Rest, others: seq<Rest>): (r: Result<bool, string>)
    ensures r == Ok(true) <==> forall k :: 0 <= k < |others| ==> Interceps(rest, others[k]) == Ok(false)
    ensures r.Err? <==> CheckAll(rest, others).Err?
  {
    match CheckAll(rest, others)
    case Err(e) => Err(e)
    case Ok(b) => Ok(!b)
  }

  /** Whether a one-week rest can start `i` weeks after this one: this
      week is ruled out on weekends without looking at other rests. */
  function StartFlag(rests: seq<Rest>, today: int, i: int): (r: Result<bool, string>)
  {
    if i == 0 && !CanTake(today) then Ok(false)
    else Free(CalculateRestDates(WeekStart(today) + 7 * i, 1), rests)
  }

  /** `define_possible_rest_starts` as a value. */
  function PossibleStarts(rests: seq<Rest>, today: int): (r: Result<seq<bool>, string>)
  {
    Flags(StartFlag(rests, today, 0), StartFlag(rests, today, 1))
  }

  /** The this-week flag is false on a Saturday or Sunday; every flag that
      is set means the week's Monday-to-Sunday rest overlaps no other rest. */
  lemma PossibleStartsMeaning(rests: seq<Rest>, today: int)
    requires PossibleStarts(rests, today).Ok?
    ensures |PossibleStarts(rests, today).value| == 2
    ensures Weekday(today) >= 5 ==> !PossibleStarts(rests, today).value[0]
    ensures forall i :: 0 <= i < 2 && PossibleStarts(rests, today).value[i] ==>
              forall k :: 0 <= k < |rests| ==>
                Interceps(CalculateRestDates(WeekStart(today) + 7 * i, 1), rests[k]) == Ok(false)
  {
  }

  method DefinePossibleRestStarts(rests: seq<Rest>, today: int) returns (r: Result<seq<bool>, string>)
    ensures r == PossibleStarts(rests, today)
  {
    var available := [false, false];
    var monday := WeekStart(today);
    for i := 0 to 2
      invariant |available| == 2
      invariant i >= 1 ==> StartFlag(rests, today, 0) == Ok(available[0])
      invariant i == 2 ==> StartFlag(rests, today, 1) == Ok(available[1])
      invariant i == 0 ==> !available[0]
      invariant i <= 1 ==> !available[1]
    {
      if i == 0 && !CanTake(today) {
        continue;
      }
      var flag := WeekFree(rests, monday + 7 * i, 1);
      if flag.Err? {
        return Err(flag.error);
      }
      available := available[i := flag.value];
    }
    FlagsOk(StartFlag(rests, today, 0), StartFlag(rests, today, 1), available);
    r := Ok(available);
  }

  /** The body of both loops: whether the rest given by `rest` misses every
      other rest, or the error met on the way. */
  method WeekFree(rests: seq<Rest>, startsAt: int, weeks: int) returns (r: Result<bool, string>)
    ensures r == Free(CalculateRestDates(startsAt, weeks), rests)
  {
    var rest := CalculateRestDates(startsAt, weeks);
    var overlap := CheckAllRestsInterceps(rest, rests);
    if overlap.Err? {
      return Err(overlap.error);
    }
    r := Ok(!overlap.value);
  }

  /** Whether a rest of `i + 1` weeks can start in the week of `startsAt`. */
  function DurationFlag(startsAt: int, others: seq<Rest>, i: int): (r: Result<bool, string>)
  {
    Free(CalculateRestDates(startsAt, i + 1), others)
  }

  /** `define_possible_rest_durations` as a value. */
  function PossibleDurations(startsAt: int, others: seq<Rest>): (r: Result<seq<bool>, string>)
  {
    Flags(DurationFlag(startsAt, others, 0), DurationFlag(startsAt, others, 1))
  }

  method DefinePossibleRestDurations(startsAt: int, others: seq<Rest>) returns (r: Result<seq<bool>, string>)
    ensures r == PossibleDurations(startsAt, others)
  {
    var available := [false, false];
    for i := 0 to 2
      invariant |available| == 2
      invariant i >= 1 ==> DurationFlag(startsAt, others, 0) == Ok(available[0])
      invariant i == 2 ==> DurationFlag(startsAt, others, 1) == Ok(available[1])
    {
      var flag := WeekFree(others, startsAt, i + 1);
      if flag.Err? {
        return Err(flag.error);
      }
      available := available[i := flag.value];
    }
    FlagsOk(DurationFlag(startsAt, others, 0), DurationFlag(startsAt, others, 1), available);
    r := Ok(available);
  }

  /** A rest that misses another still misses it when cut shorter. */
  lemma ShorterStillFree(s: int, e1: int, e2: int, other: Rest)
    requires e1 <= e2
    requires Interceps(Rest(None, None, Some(s), Some(e2), false), other) == Ok(false)
    ensures Interceps(Rest(None, None, Some(s), Some(e1), false), other) == Ok(false)
  {
  }

  /** The one-week rest lies inside the two-week one, so offering two weeks
      implies offering one. */
  lemma TwoWeeksImpliesOneWeek(startsAt: int, others: seq<Rest>)
    requires PossibleDurations(startsAt, others).Ok?
    ensures |PossibleDurations(startsAt, others).value| == 2
    ensures PossibleDurations(startsAt, others).value[1] ==> PossibleDurations(startsAt, others).value[0]
  {
    var one := CalculateRestDates(startsAt, 1);
    var two := CalculateRestDates(startsAt, 2);
    if PossibleDurations(startsAt, others).value[1] {
      forall k | 0 <= k < |others|
        ensures Interceps(one, others[k]) == Ok(false)
      {
        ShorterStillFree(one.startsAt.value, one.endsAt.value, two.endsAt.value, others[k]);
      }
    }
  }

  /** The filter compares an enum member with the string "revoked"; in
      Python an enum member never equals a string. */
  function StateEqualsText(state: Option<RestState>, text: string): (eq: bool)
  {
    false
  }

  /** A stored rest with its two instants turned into local days. */
  function Formatted(r: Rest, localDay: int -> int): (f: Rest)
    requires HasDates(r)
    ensures HasDates(f) && f.chatMemberId == r.chatMemberId && f.state == r.state && f.revoked == r.revoked
    ensures f.startsAt.value == localDay(r.startsAt.value) && f.endsAt.value == localDay(r.endsAt.value)
  {
    r.(startsAt := Some(localDay(r.startsAt.value)), endsAt := Some(localDay(r.endsAt.value)))
  }

  /** `filter_and_format_rests` as a value: rests are kept in order, those
      whose state equals "revoked" skipped, and a rest without a date raises
      when it is converted. */
  function FilterAndFormat(rests: seq<Rest>, localDay: int -> int): (r: Result<seq<Rest>, string>)
  {
    if rests == [] then Ok([])
    else
      var last := rests[|rests| - 1];
      match FilterAndFormat(rests[..|rests| - 1], localDay)
      case Err(e) => Err(e)
      case Ok(kept) =>
        if StateEqualsText(last.state, "revoked") then Ok(kept)
        else if !HasDates(last) then Err(NoAstimezone)
        else Ok(kept + [Formatted(last, localDay)])
  }

  /** No rest is dropped: the state check never succeeds, so the result is
      every rest in its original order with its dates converted, and it
      fails exactly when some rest lacks a date. */
  lemma {:induction false} FilterDropsNothing(rests: seq<Rest>, localDay: int -> int)
    ensures FilterAndFormat(rests, localDay).Err? <==> exists k :: 0 <= k < |rests| && !HasDates(rests[k])
    ensures FilterAndFormat(rests, localDay).Ok? ==>
              |FilterAndFormat(rests, localDay).value| == |rests| &&
              forall k :: 0 <= k < |rests| ==>
                HasDates(rests[k]) && FilterAndFormat(rests, localDay).value[k] == Formatted(rests[k], localDay)
  {
    if rests != [] {
      var init := rests[..|rests| - 1];
      FilterDropsNothing(init, localDay);
      assert forall k :: 0 <= k < |init| ==> init[k] == rests[k];
    }
  }

  method FilterAndFormatRests(rests: seq<Rest>, localDay: int -> int) returns (r: Result<seq<Rest>, string>)
    ensures r == FilterAndFormat(rests, localDay)
  {
    var kept := [];
    for i := 0 to |rests|
      invariant FilterAndFormat(rests[..i], localDay) == Ok(kept)
    {
      var rest := rests[i];
      assert rests[..i + 1][..i] == rests[..i];
      if StateEqualsText(rest.state, "revoked") {
        continue;
      }
      if !HasDates(rest) {
        FilterPrefixErr(rests, localDay, i + 1);
        return Err(NoAstimezone);
      }
      kept := kept + [Formatted(rest, localDay)];
    }
    assert rests[..|rests|] == rests;
    r := Ok(kept);
  }

  /** An error in a prefix is the error of the whole list. */
  lemma {:induction false} FilterPrefixErr(rests: seq<Rest>, localDay: int -> int, n: nat)
    requires n <= |rests| && FilterAndFormat(rests[..n], localDay).Err?
    ensures FilterAndFormat(rests, localDay) == FilterAndFormat(rests[..n], localDay)
    decreases |rests| - n
  {
    if n < |rests| {
      assert rests[..n + 1][..n] == rests[..n];
      FilterPrefixErr(rests, localDay, n + 1);
      assert rests[..|rests|] == rests;
    } else {
      assert rests[..n] == rests;
    }
  }
}
