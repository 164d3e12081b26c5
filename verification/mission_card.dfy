/**
 * The mission card: a countdown to the mission's expiry and one action button
 * that completes the mission, or claims its reward once it is completed. The
 * missions store is not part of this model: the card's calls into it are
 * returned as `MissionCall` values, and whether the call throws is a parameter.
 */
module MissionCard {
  import opened JsText
  import opened Wrappers

  /** The mission fields the card reads; `expires` is in epoch milliseconds. */
  datatype Mission = Mission(
    id: string,
    title: string,
    description: string,
    expires: int,
    completed: bool)

  /** A call into the missions store. */
  datatype MissionCall = CompleteMission(id: string) | ClaimMissionReward(id: string)

  /** The button claims the reward of a completed mission and completes any other. */
  function Dispatch(m: Mission): (c: MissionCall)
    ensures c.id == m.id
    ensures c.ClaimMissionReward? <==> m.completed
    ensures c.CompleteMission? <==> !m.completed
  {
    if m.completed then ClaimMissionReward(m.id) else CompleteMission(m.id)
  }

  const MsPerHour: nat := 1000 * 60 * 60
  const MsPerMinute: nat := 1000 * 60

  /**
   * Whole hours and the whole minutes left over. For a positive `remaining`,
   * JavaScript's `Math.floor(x / y)` and `%` agree with Dafny's `/` and `%`.
   */
  function HoursMinutes(remaining: int): (hm: (nat, nat))
    requires remaining > 0
    ensures hm.1 < 60
    ensures hm.0 * MsPerHour + hm.1 * MsPerMinute <= remaining
    ensures remaining < hm.0 * MsPerHour + (hm.1 + 1) * MsPerMinute
  {
    var hours := remaining / MsPerHour;
    var rest := remaining % MsPerHour;
    var minutes := rest / MsPerMinute;
    assert remaining == hours * MsPerHour + rest;
    assert rest == minutes * MsPerMinute + rest % MsPerMinute;
    (hours, minutes)
  }

  /**
   * The bounds of HoursMinutes determine it: its result is the only pair of
   * hours and minutes below 60 that does not over-report the time left and
   * misses it by less than a minute.
   */
  lemma HoursMinutesUnique(remaining: int, h: nat, m: nat)
    requires remaining > 0 && m < 60
    requires h * MsPerHour + m * MsPerMinute <= remaining < h * MsPerHour + (m + 1) * MsPerMinute
    ensures HoursMinutes(remaining) == (h, m)
  {
    var (h', m') := HoursMinutes(remaining);
    WholeMinutes(remaining, h, m);
    WholeMinutes(remaining, h', m');
    MinuteCountUnique(remaining, h * 60 + m, h' * 60 + m');
  }

  /** Hours and minutes as one count of whole minutes. */
  lemma WholeMinutes(remaining: int, h: nat, m: nat)
    requires h * MsPerHour + m * MsPerMinute <= remaining < h * MsPerHour + (m + 1) * MsPerMinute
    ensures (h * 60 + m) * 60000 <= remaining < (h * 60 + m + 1) * 60000
  {
    assert h * MsPerHour == h * 3600000 == (h * 60) * 60000;
    assert m * MsPerMinute == m * 60000;
  }

  /** At most one count of whole minutes brackets a duration. */
  lemma MinuteCountUnique(remaining: int, t: int, t': int)
    requires t * 60000 <= remaining < (t + 1) * 60000
    requires t' * 60000 <= remaining < (t' + 1) * 60000
    ensures t == t'
  {
  }

  /** The text shown for time left: "<hours>h <minutes>m remaining". */
  function Display(hours: nat, minutes: nat): string
  {
    NumberToString(hours) + "h " + NumberToString(minutes) + "m remaining"
  }

  /** Different hours or minutes give different texts. */
  lemma DisplayInjective(h: nat, m: nat, h': nat, m': nat)
    requires Display(h, m) == Display(h', m')
    ensures h == h' && m == m'
  {
    var a, a' := NumberToString(h), NumberToString(h');
    var b, b' := NumberToString(m), NumberToString(m');
    DisplayShape(a, b);
    DisplayShape(a', b');
    SplitAtMarker(a, " " + b + "m remaining", a', " " + b' + "m remaining", 'h');
    MinutesShape(b);
    MinutesShape(b');
    SplitAtMarker(b, " remaining", b', " remaining", 'm');
    NumberToStringInjective(h, h');
    NumberToStringInjective(m, m');
  }

  lemma DisplayShape(a: string, b: string)
    ensures a + "h " + b + "m remaining" == a + ['h'] + (" " + b + "m remaining")
  {
  }

  lemma MinutesShape(b: string)
    ensures (" " + b + "m remaining")[1..] == b + ['m'] + " remaining"
  {
  }

  /** The countdown text for a mission expiring at `expires`, seen at time `now`. */
  function GetTimeRemaining(expires: int, now: int): (r: string)
    ensures r == "Expired" <==> expires - now <= 0
    ensures expires - now > 0 ==>
      exists h: nat, m: nat ::
        && m < 60
        && h * MsPerHour + m * MsPerMinute <= expires - now < h * MsPerHour + (m + 1) * MsPerMinute
        && r == NumberToString(h) + "h " + NumberToString(m) + "m remaining"
  {
    var remaining := expires - now;
    if remaining <= 0 then "Expired"
    else
      var (hours, minutes) := HoursMinutes(remaining);
      var r := Display(hours, minutes);
      assert IsDigit(r[0]);
      assert r == NumberToString(hours) + "h " + NumberToString(minutes) + "m remaining";
      r
  }

  /**
   * Two unexpired countdowns read the same exactly when the same number of
   * whole minutes is left: the text is the time left rounded down to the minute.
   */
  lemma TimeRemainingIsWholeMinutes(expires: int, now: int, expires': int, now': int)
    requires expires - now > 0 && expires' - now' > 0
    ensures GetTimeRemaining(expires, now) == GetTimeRemaining(expires', now')
        <==> (expires - now) / MsPerMinute == (expires' - now') / MsPerMinute
  {
    var r, r' := expires - now, expires' - now';
    var (h, m) := HoursMinutes(r);
    var (h', m') := HoursMinutes(r');
    var t, t' := h * 60 + m, h' * 60 + m';
    assert t * MsPerMinute <= r < (t + 1) * MsPerMinute;
    assert t' * MsPerMinute <= r' < (t' + 1) * MsPerMinute;
    assert r / MsPerMinute == t;
    assert r' / MsPerMinute == t';
    if GetTimeRemaining(expires, now) == GetTimeRemaining(expires', now') {
      DisplayInjective(h, m, h', m');
    }
    if t == t' {
      assert h == h' && m == m';
    }
  }

  /** One card: a mission and the busy flag that guards its button. */
  class Card {
    const mission: Mission
    var isLoading: bool

    constructor (mission: Mission)
      ensures this.mission == mission && !isLoading
    {
      this.mission := mission;
      isLoading := false;
    }

    /**
     * The press up to the awaited call: while busy nothing happens; otherwise
     * the card becomes busy and issues the call Dispatch chooses.
     */
    method Start() returns (call: Option<MissionCall>)
      modifies this
      ensures isLoading
      ensures old(isLoading) ==> call == None
      ensures !old(isLoading) ==> call == Some(Dispatch(mission))
    {
      if isLoading {
        return None;
      }
      isLoading := true;
      if mission.completed {
        call := Some(ClaimMissionReward(mission.id));
      } else {
        call := Some(CompleteMission(mission.id));
      }
    }

    /** The `finally` after the awaited call: the card is no longer busy, and an exception propagates. */
    method Finish(threw: bool) returns (rethrown: bool)
      modifies this
      ensures !isLoading
      ensures rethrown == threw
    {
      isLoading := false;
      rethrown := threw;
    }

    /** A whole press when the awaited call completes before the next event. */
    method HandleAction(threw: bool) returns (call: Option<MissionCall>, rethrown: bool)
      modifies this
      ensures old(isLoading) ==> call == None && isLoading && !rethrown
      ensures !old(isLoading) ==> call == Some(Dispatch(mission)) && !isLoading && rethrown == threw
    {
      call := Start();
      if call == None {
        return call, false;
      }
      rethrown := Finish(threw);
    }
  }

  /** A second press while the first call is in flight issues nothing. */
  method DoublePressDispatchesOnce(m: Mission) returns (first: Option<MissionCall>, second: Option<MissionCall>)
    ensures first == Some(Dispatch(m))
    ensures second == None
  {
    var card := new Card(m);
    first := card.Start();
    second := card.Start();
  }

  /** Once the call has settled, even by throwing, the button works again. */
  method PressAfterFailureDispatchesAgain(m: Mission) returns (first: Option<MissionCall>, second: Option<MissionCall>, rethrown: bool)
    ensures first == Some(Dispatch(m)) && second == Some(Dispatch(m))
    ensures rethrown
  {
    var card := new Card(m);
    first, rethrown := card.HandleAction(true);
    second := card.Start();
  }
}
