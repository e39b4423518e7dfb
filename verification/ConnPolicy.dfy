/** The connection-parameter policy: which profile to ask the central for, and when to ask again. */
module ConnPolicy {
  import opened Wire
  import opened Millis

  datatype Profile = SessionProfile | IdleProfile

  datatype ParamRequest = ParamRequest(
    profile: Profile, intervalUnits: nat, intervalMaxUnits: nat, latencyUnits: nat, timeoutUnits: nat)

  const GRACE_MS := 3000
  const IDLE_HOLDOFF_MS := 10000
  function ParamsFor(profile: Profile): ParamRequest {
    match profile
    case SessionProfile => ParamRequest(profile, 12, 12, 0, 400)
    case IdleProfile => ParamRequest(profile, 12, 24, 30, 400)
  }

  /** A grant is anywhere inside the range that was asked for. */
  predicate Fits(interval: nat, latency: nat, timeout: nat, r: ParamRequest) {
    r.intervalUnits <= interval <= r.intervalMaxUnits && latency == r.latencyUnits && timeout == r.timeoutUnits
  }

  /**
    What is asked for. Any Session grant has the link answer every 15 ms, with nothing skipped, and any Idle grant
    every 465 to 930 ms, below the ceiling of 2 s; so no grant is of both kinds. Either way the supervision timeout
    (in units of 10 ms) is over three times what may be skipped.
  */
  lemma ProfilesAskForWhatTheyAreFor(interval: nat, latency: nat, timeout: nat)
    ensures ParamsFor(SessionProfile).profile == SessionProfile && ParamsFor(IdleProfile).profile == IdleProfile
    ensures Fits(interval, latency, timeout, ParamsFor(SessionProfile)) ==> interval * (latency + 1) * 5 == 15 * 4
    ensures Fits(interval, latency, timeout, ParamsFor(IdleProfile)) ==>
            465 * 4 <= interval * (latency + 1) * 5 <= 930 * 4
    ensures !(Fits(interval, latency, timeout, ParamsFor(SessionProfile)) &&
              Fits(interval, latency, timeout, ParamsFor(IdleProfile)))
    ensures forall profile: Profile :: Fits(interval, latency, timeout, ParamsFor(profile)) ==>
              timeout * 10 * 4 > interval * (latency + 1) * 5 * 3
  {
  }

  /** The fields of the class below. `asked` is None while nothing was requested (interval 0 there). */
  datatype Policy = Policy(
    desired: Profile,
    current: Profile,
    requested: Profile,
    inFlight: bool,
    asked: Option<ParamRequest>,
    requestedMs: Clock,
    noForegroundSinceMs: Clock)

  const FRESH := Policy(IdleProfile, IdleProfile, IdleProfile, false, None, 0, 0)

  function Pump(p: Policy, now: Clock): (Policy, Option<ParamRequest>) {
    if p.inFlight && Elapsed(now, p.requestedMs) <= GRACE_MS then (p, None)
    else if p.desired == p.current then (p.(inFlight := false), None)
    else
      var r := ParamsFor(p.desired);
      (p.(requested := p.desired, inFlight := true, asked := Some(r), requestedMs := now), Some(r))
  }

  function OnConnect(p: Policy, now: Clock): (Policy, Option<ParamRequest>) {
    Pump(p.(noForegroundSinceMs := now, desired := SessionProfile), now)
  }

  function OnDisconnect(p: Policy): Policy {
    p.(asked := None, current := IdleProfile, desired := IdleProfile, requested := IdleProfile, inFlight := false)
  }

  /** With nothing asked for, any update counts as a match. */
  function OnGrant(p: Policy, interval: nat, latency: nat, timeout: nat): Policy {
    if p.asked.None? || Fits(interval, latency, timeout, p.asked.value) then
        p.(current := p.requested, inFlight := false)
    else p
  }

  /** A noForegroundSinceMs of 0 stands for "none", so a clock that reads 0 starts nothing. */
  function SetForegroundActive(p: Policy, active: bool, now: Clock): Policy {
    if active then p.(noForegroundSinceMs := 0, desired := SessionProfile)
    else
      var since := if p.noForegroundSinceMs == 0 then now else p.noForegroundSinceMs;
      p.(noForegroundSinceMs := since,
         desired := if Elapsed(now, since) >= IDLE_HOLDOFF_MS then IdleProfile else SessionProfile)
  }

  // ----- The class -----

  class CompanionConnPolicy {
    var desiredProfile: Profile
    var currentProfile: Profile
    var requestedProfile: Profile
    var inFlight: bool
    var reqIntervalUnits: nat
    var reqIntervalMaxUnits: nat
    var reqLatencyUnits: nat
    var reqTimeoutUnits: nat
    var requestedMs: Clock
    var noForegroundSinceMs: Clock

    ghost function View(): Policy
      reads this
    {
      Policy(desiredProfile, currentProfile, requestedProfile, inFlight,
             if reqIntervalUnits == 0 then None
             else Some(ParamRequest(requestedProfile, reqIntervalUnits, reqIntervalMaxUnits, reqLatencyUnits,
                                    reqTimeoutUnits)),
             requestedMs, noForegroundSinceMs)
    }

    constructor ()
      ensures View() == FRESH
    {
      desiredProfile, currentProfile, requestedProfile := IdleProfile, IdleProfile, IdleProfile;
      inFlight := false;
      reqIntervalUnits, reqIntervalMaxUnits, reqLatencyUnits, reqTimeoutUnits := 0, 0, 0, 0;
      requestedMs, noForegroundSinceMs := 0, 0;
    }

    method PumpNow(nowMs: Clock) returns (request: Option<ParamRequest>)
      modifies this
      ensures (View(), request) == Pump(old(View()), nowMs)
    {
      if inFlight {
        if Elapsed(nowMs, requestedMs) <= GRACE_MS {
          return None;
        }
        inFlight := false;
      }
      if desiredProfile == currentProfile {
        return None;
      }
      var req := ParamsFor(desiredProfile);
      requestedProfile := desiredProfile;
      inFlight := true;
      reqIntervalUnits, reqIntervalMaxUnits := req.intervalUnits, req.intervalMaxUnits;
      reqLatencyUnits, reqTimeoutUnits := req.latencyUnits, req.timeoutUnits;
      requestedMs := nowMs;
      return Some(req);
    }

    method Connected(nowMs: Clock) returns (request: Option<ParamRequest>)
      modifies this
      ensures (View(), request) == OnConnect(old(View()), nowMs)
    {
      noForegroundSinceMs := nowMs;
      desiredProfile := SessionProfile;
      request := PumpNow(nowMs);
    }

    method Disconnected()
      modifies this
      ensures View() == OnDisconnect(old(View()))
    {
      reqIntervalUnits, reqIntervalMaxUnits := 0, 0;
      currentProfile, desiredProfile, requestedProfile := IdleProfile, IdleProfile, IdleProfile;
      inFlight := false;
    }

    method Granted(intervalUnits: nat, latencyUnits: nat, timeoutUnits: nat)
      modifies this
      ensures View() == OnGrant(old(View()), intervalUnits, latencyUnits, timeoutUnits)
    {
      var matched := reqIntervalUnits == 0 ||
                     (reqIntervalUnits <= intervalUnits <= reqIntervalMaxUnits && latencyUnits == reqLatencyUnits &&
                      timeoutUnits == reqTimeoutUnits);
      if matched {
        currentProfile := requestedProfile;
        inFlight := false;
      }
    }

    method ForegroundActive(active: bool, nowMs: Clock)
      modifies this
      ensures View() == SetForegroundActive(old(View()), active, nowMs)
    {
      if active {
        noForegroundSinceMs := 0;
        desiredProfile := SessionProfile;
        return;
      }
      if noForegroundSinceMs == 0 {
        noForegroundSinceMs := nowMs;
      }
      var unattended := Elapsed(nowMs, noForegroundSinceMs) >= IDLE_HOLDOFF_MS;
      desiredProfile := if unattended then IdleProfile else SessionProfile;
    }
  }

  // ----- Runs over a link that comes and goes -----

  /** What happens, and the millisecond it happens in, counted without wrapping. */
  datatype Event =
    | Connect(at: nat)
    | Disconnect(at: nat)
    | Grant(at: nat, interval: nat, latency: nat, timeout: nat)
    | Report(at: nat, active: bool)
    | Tick(at: nat)

  datatype Entry = Happened(e: Event) | Requested(at: nat, profile: Profile)

  /** `log` is the history: every event that reached the policy, and every request it made. */
  datatype Link = Link(policy: Policy, up: bool, log: seq<Entry>)

  const NO_LINK := Link(FRESH, false, [])

  function Note(l: Link, e: Event, p: Policy): Link {
    l.(policy := p, log := l.log + [Happened(e)])
  }

  function Issue(l: Link, e: Event, outcome: (Policy, Option<ParamRequest>)): Link {
    var noted := Note(l, e, outcome.0);
    if outcome.1.Some? then noted.(log := noted.log + [Requested(e.at, outcome.1.value.profile)]) else noted
  }

  /** Only a live link has grants and ticks, and there is one link at a time. */
  function Advance(l: Link, e: Event): Link {
    if e.Connect? == l.up then l
    else
      match e
      case Connect(at) => Issue(l, e, OnConnect(l.policy, ClockAt(at))).(up := true)
      case Disconnect(at) => Note(l, e, OnDisconnect(l.policy)).(up := false)
      case Grant(at, interval, latency, timeout) => Note(l, e, OnGrant(l.policy, interval, latency, timeout))
      case Report(at, active) => Note(l, e, SetForegroundActive(l.policy, active, ClockAt(at)))
      case Tick(at) => Issue(l, e, Pump(l.policy, ClockAt(at)))
  }

  function Run(events: seq<Event>): Link {
    if events == [] then NO_LINK else Advance(Run(events[..|events| - 1]), events[|events| - 1])
  }

  /** Time does not run backwards. */
  predicate Timed(events: seq<Event>) {
    forall i, j :: 0 <= i < j < |events| ==> events[i].at <= events[j].at
  }

  // ----- What a log says, without looking at the policy -----

  predicate LinkChanges(e: Entry) {
    e.Happened? && (e.e.Connect? || e.e.Disconnect?)
  }

  /** The profile last asked for on this link. */
  function LastAsked(log: seq<Entry>): Option<Profile> {
    if log == [] || LinkChanges(log[|log| - 1]) then None
    else
      match log[|log| - 1]
      case Requested(_, profile) => Some(profile)
      case Happened(_) => LastAsked(log[..|log| - 1])
  }

  /** The entry is a grant inside the range last asked for. */
  predicate Answers(before: seq<Entry>, e: Entry) {
    && e.Happened? && e.e.Grant? && LastAsked(before).Some?
    && Fits(e.e.interval, e.e.latency, e.e.timeout, ParamsFor(LastAsked(before).value))
  }

  /** The profile last confirmed by the central on this link; a link begins in Idle. */
  function Confirmed(log: seq<Entry>): Profile {
    if log == [] || LinkChanges(log[|log| - 1]) then IdleProfile
    else
      var before := log[..|log| - 1];
      if Answers(before, log[|log| - 1]) then LastAsked(before).value else Confirmed(before)
  }

  /** When the request was made that no grant has answered yet. */
  function Unanswered(log: seq<Entry>): Option<nat> {
    if log == [] || LinkChanges(log[|log| - 1]) then None
    else
      var before, e := log[..|log| - 1], log[|log| - 1];
      if e.Requested? then Some(e.at) else if Answers(before, e) then None else Unanswered(before)
  }

  /** No request comes while an earlier one may still be under negotiation. */
  predicate OneAtATime(log: seq<Entry>) {
    log == [] ||
    var before, e := log[..|log| - 1], log[|log| - 1];
    && OneAtATime(before)
    && (e.Requested? && Unanswered(before).Some? ==> e.at > Unanswered(before).value + GRACE_MS)
  }

  /** The last moment on this link that speaks against Idle: its start, or somebody holding the screen. */
  function LastAttended(log: seq<Entry>): Option<nat> {
    if log == [] then None
    else
      var e := log[|log| - 1];
      if e.Happened? && (e.e.Connect? || (e.e.Report? && e.e.active)) then Some(e.e.at)
      else if e.Happened? && e.e.Disconnect? then None
      else LastAttended(log[..|log| - 1])
  }

  /** Idle is only ever asked for on a link that was left alone for the whole holdoff. */
  predicate IdleIsEarned(log: seq<Entry>) {
    log == [] ||
    var before, e := log[..|log| - 1], log[|log| - 1];
    && IdleIsEarned(before)
    && (e.Requested? && e.profile == IdleProfile ==>
          LastAttended(before).Some? && e.at >= LastAttended(before).value + IDLE_HOLDOFF_MS)
  }

  // ----- The invariant -----

  /** A clock reading of `since` at or after the last attended moment. */
  ghost predicate CountsFrom(p: Policy, attended: nat, since: nat, now: nat) {
    attended <= since <= now && p.noForegroundSinceMs == ClockAt(since)
  }

  ghost predicate Inv(l: Link, now: nat) {
    var p := l.policy;
    && OneAtATime(l.log) && IdleIsEarned(l.log)
    && p.current == Confirmed(l.log)
    && (p.asked.Some? <==> LastAsked(l.log).Some?)
    && (p.asked.Some? ==> p.requested == LastAsked(l.log).value && p.asked.value == ParamsFor(p.requested))
    && (p.asked.None? ==> p.requested == p.current == IdleProfile)
    && (l.up <==> LastAttended(l.log).Some?)
    && (!l.up ==> !p.inFlight && p.asked.None? && p.desired == IdleProfile)
    && (Unanswered(l.log).Some? ==>
          && p.asked.Some? && Unanswered(l.log).value <= now
          && (p.inFlight ==> p.requestedMs == ClockAt(Unanswered(l.log).value))
          && (!p.inFlight ==> now > Unanswered(l.log).value + GRACE_MS))
    && (p.inFlight ==> Unanswered(l.log).Some?)
    && (l.up ==>
          var attended := LastAttended(l.log).value;
          && attended <= now
          && (p.noForegroundSinceMs != 0 ==> exists since :: CountsFrom(p, attended, since, now))
          && (p.desired == IdleProfile ==> now >= attended + IDLE_HOLDOFF_MS))
  }

  lemma Snoc(log: seq<Entry>, e: Entry)
    ensures (log + [e])[..|log + [e]| - 1] == log && (log + [e])[|log + [e]| - 1] == e
  {
  }

  /** A log entry of a live link that neither asks, answers, nor attends. */
  lemma Unremarkable(log: seq<Entry>, e: Entry)
    requires e.Happened? && !LinkChanges(e) && !Answers(log, e) && !(e.e.Report? && e.e.active)
    ensures var after := log + [e];
            && LastAsked(after) == LastAsked(log) && Confirmed(after) == Confirmed(log) &&
               Unanswered(after) == Unanswered(log)
            && LastAttended(after) == LastAttended(log)
            && OneAtATime(after) == OneAtATime(log) && IdleIsEarned(after) == IdleIsEarned(log)
  {
    Snoc(log, e);
  }

  lemma Asked(log: seq<Entry>, at: nat, profile: Profile)
    ensures var after := log + [Requested(at, profile)];
            && LastAsked(after) == Some(profile) && Confirmed(after) == Confirmed(log) && Unanswered(after) == Some(at)
            && LastAttended(after) == LastAttended(log)
            && (OneAtATime(after) <==>
                  OneAtATime(log) && (Unanswered(log).Some? ==> at > Unanswered(log).value + GRACE_MS))
            && (IdleIsEarned(after) <==>
                  IdleIsEarned(log) && (profile == IdleProfile ==>
                    LastAttended(log).Some? && at >= LastAttended(log).value + IDLE_HOLDOFF_MS))
  {
    Snoc(log, Requested(at, profile));
  }

  lemma InvLater(l: Link, now: nat, later: nat)
    requires Inv(l, now) && now <= later
    ensures Inv(l, later)
  {
    var p := l.policy;
    if l.up && p.noForegroundSinceMs != 0 {
      var attended := LastAttended(l.log).value;
      var since :| CountsFrom(p, attended, since, now);
      assert CountsFrom(p, attended, since, later);
    }
  }

  /** Pumping a live link at `now`, its event noted already. */
  lemma PumpKeepsInv(l: Link, e: Event, now: nat)
    requires Inv(l, now) && l.up && e.at == now && e.Tick?
    ensures Inv(Issue(l, e, Pump(l.policy, ClockAt(now))), now)
  {
    var p, log := l.policy, l.log + [Happened(e)];
    var (after, request) := Pump(p, ClockAt(now));
    Unremarkable(l.log, Happened(e));
    if p.inFlight {
      ElapsedIsAtMostReal(now, Unanswered(l.log).value);
    }
    if request.Some? {
      Asked(log, now, request.value.profile);
    }
    if p.noForegroundSinceMs != 0 {
      var attended := LastAttended(l.log).value;
      var since :| CountsFrom(p, attended, since, now);
      assert CountsFrom(after, attended, since, now);
    }
  }

  lemma ConnectKeepsInv(l: Link, now: nat)
    requires Inv(l, now) && !l.up
    ensures Inv(Advance(l, Connect(now)), now)
  {
    var e := Happened(Connect(now));
    Snoc(l.log, e);
    var log := l.log + [e];
    assert LastAsked(log) == None && Unanswered(log) == None && Confirmed(log) == IdleProfile &&
        LastAttended(log) == Some(now);
    assert OneAtATime(log) && IdleIsEarned(log);
    Asked(log, now, SessionProfile);
    var after := Advance(l, Connect(now));
    assert after.log == log + [Requested(now, SessionProfile)];
    assert CountsFrom(after.policy, now, now, now);
  }

  lemma DisconnectKeepsInv(l: Link, now: nat)
    requires Inv(l, now) && l.up
    ensures Inv(Advance(l, Disconnect(now)), now)
  {
    Snoc(l.log, Happened(Disconnect(now)));
  }

  lemma GrantKeepsInv(l: Link, now: nat, interval: nat, latency: nat, timeout: nat)
    requires Inv(l, now) && l.up
    ensures Inv(Advance(l, Grant(now, interval, latency, timeout)), now)
  {
    var e := Grant(now, interval, latency, timeout);
    var p, after := l.policy, Advance(l, e).policy;
    Snoc(l.log, Happened(e));
    if !Answers(l.log, Happened(e)) {
      Unremarkable(l.log, Happened(e));
    }
    if p.noForegroundSinceMs != 0 {
      var attended := LastAttended(l.log).value;
      var since :| CountsFrom(p, attended, since, now);
      assert CountsFrom(after, attended, since, now);
    }
  }

  lemma ReportKeepsInv(l: Link, now: nat, active: bool)
    requires Inv(l, now) && l.up
    ensures Inv(Advance(l, Report(now, active)), now)
  {
    var e := Report(now, active);
    var p, after := l.policy, Advance(l, e).policy;
    Snoc(l.log, Happened(e));
    if !active {
      Unremarkable(l.log, Happened(e));
      var attended := LastAttended(l.log).value;
      if p.noForegroundSinceMs != 0 {
        var since :| CountsFrom(p, attended, since, now);
        assert CountsFrom(after, attended, since, now);
        ElapsedIsAtMostReal(now, since);
      } else {
        assert CountsFrom(after, attended, now, now);
      }
    }
  }

  lemma AdvanceKeepsInv(l: Link, e: Event, now: nat)
    requires Inv(l, now) && now <= e.at
    ensures Inv(Advance(l, e), e.at)
  {
    InvLater(l, now, e.at);
    if e.Connect? == l.up {
    } else {
      match e
      case Connect(at) => ConnectKeepsInv(l, at);
      case Disconnect(at) => DisconnectKeepsInv(l, at);
      case Grant(at, interval, latency, timeout) => GrantKeepsInv(l, at, interval, latency, timeout);
      case Report(at, active) => ReportKeepsInv(l, at, active);
      case Tick(at) => PumpKeepsInv(l, e, at);
    }
  }

  lemma {:induction false} RunKeepsInv(events: seq<Event>, now: nat)
    requires Timed(events) && (events != [] ==> events[|events| - 1].at == now)
    ensures Inv(Run(events), now)
    decreases |events|
  {
    if events != [] {
      var before, e := events[..|events| - 1], events[|events| - 1];
      var then0 := if before == [] then 0 else before[|before| - 1].at;
      RunKeepsInv(before, then0);
      AdvanceKeepsInv(Run(before), e, then0);
    }
  }

  /**
    Over every run: a request waits for the last one to be answered by a grant in its range or for more
    than 3000 ms; the profile the link is taken to be in is the one last confirmed by such a grant; and
    Idle is asked for only once the link is 10000 ms old with nobody on the screen for as long.
  */
  lemma RunsAreOrderly(events: seq<Event>)
    requires Timed(events)
    ensures var l := Run(events);
            OneAtATime(l.log) && l.policy.current == Confirmed(l.log) && IdleIsEarned(l.log)
  {
    RunKeepsInv(events, if events == [] then 0 else events[|events| - 1].at);
  }

  /**
    A link that comes up is asked for Session at once, whatever was before. One that is up is asked at any tick for
    the profile wished for, if that is not the one confirmed, and the last request was answered, or more than
    3000 ms and less than a clock wrap ago.
  */
  lemma {:induction false} WhatIsWishedForIsAskedFor(events: seq<Event>, at: nat)
    requires Timed(events) && (events != [] ==> events[|events| - 1].at <= at)
    ensures var l := Run(events);
            !l.up ==> Advance(l, Connect(at)).log == l.log + [Happened(Connect(at))] + [Requested(at, SessionProfile)]
    ensures var l := Run(events);
            var overdue := match Unanswered(l.log) case None => true case Some(t) => t + GRACE_MS < at < t + CLOCK_WRAP;
            l.up && l.policy.desired != Confirmed(l.log) && overdue ==>
              Advance(l, Tick(at)).log == l.log + [Happened(Tick(at))] + [Requested(at, l.policy.desired)]
  {
    var l := Run(events);
    RunKeepsInv(events, if events == [] then 0 else events[|events| - 1].at);
    InvLater(l, if events == [] then 0 else events[|events| - 1].at, at);
    if Unanswered(l.log).Some? && Unanswered(l.log).value + GRACE_MS < at < Unanswered(l.log).value + CLOCK_WRAP {
      ElapsedWithinOneWrap(at, Unanswered(l.log).value);
    }
  }

  // ----- A link left in peace -----

  /** One step of a link whose foreground stays as it is, and whose requests are answered in time. */
  predicate Peaceful(l: Link, e: Event, active: bool) {
    && l.up && !e.Connect? && !e.Disconnect?
    && (e.Report? ==> e.active == active)
    && (e.Tick? && l.policy.inFlight ==> Elapsed(ClockAt(e.at), l.policy.requestedMs) <= GRACE_MS)
  }

  predicate PeacefulRun(l: Link, events: seq<Event>, active: bool)
    decreases |events|
  {
    events == [] || (Peaceful(l, events[0], active) && PeacefulRun(Advance(l, events[0]), events[1..], active))
  }

  function RunFrom(l: Link, events: seq<Event>): Link
    decreases |events|
  {
    if events == [] then l else RunFrom(Advance(l, events[0]), events[1..])
  }

  function Requests(log: seq<Entry>): nat {
    if log == [] then 0 else Requests(log[..|log| - 1]) + if log[|log| - 1].Requested? then 1 else 0
  }

  /** The link may yet be found in `profile`: it is there, or an earlier request for it may still be granted. */
  predicate MayBeIn(p: Policy, profile: Profile) {
    p.requested == profile || (!p.inFlight && p.current == profile)
  }

  /** At most how many requests are still to come. */
  function ToCome(p: Policy, active: bool): (n: nat)
    ensures n <= 2
  {
    if active then if MayBeIn(p, IdleProfile) then 1 else 0
    else if p.desired == IdleProfile then if MayBeIn(p, SessionProfile) then 1 else 0
    else if MayBeIn(p, IdleProfile) then 2 else 1
  }

  /**
    The last report was of this foreground state, and the holdoff it began at `since` is less than a clock wrap
    old.
  */
  ghost predicate Reported(p: Policy, active: bool, since: nat, now: nat) {
    if active then p.desired == SessionProfile
    else
      && since <= now < since + CLOCK_WRAP
      && (p.noForegroundSinceMs != 0 ==> p.noForegroundSinceMs == ClockAt(since))
      && (p.desired == IdleProfile ==> p.noForegroundSinceMs != 0 && now >= since + IDLE_HOLDOFF_MS)
  }

  /** Time goes on, and a screen that is empty has been so for less than a clock wrap. */
  predicate InTime(at: nat, active: bool, since: nat, now: nat) {
    now <= at && (!active ==> at < since + CLOCK_WRAP)
  }

  predicate AllInTime(events: seq<Event>, active: bool, since: nat, now: nat) {
    forall i :: 0 <= i < |events| ==> InTime(events[i].at, active, since, now)
  }

  lemma RequestsSnoc(log: seq<Entry>, e: Entry)
    ensures Requests(log + [e]) == Requests(log) + if e.Requested? then 1 else 0
  {
    Snoc(log, e);
  }

  lemma PeacefulStep(l: Link, e: Event, active: bool, since: nat, now: nat) returns (from: nat)
    requires Peaceful(l, e, active) && Reported(l.policy, active, since, now) && InTime(e.at, active, since, now)
    ensures since <= from && Reported(Advance(l, e).policy, active, from, e.at)
    ensures active || l.policy.noForegroundSinceMs != 0 ==> from == since
    ensures Requests(Advance(l, e).log) + ToCome(Advance(l, e).policy, active) <=
            Requests(l.log) + ToCome(l.policy, active)
  {
    from := if e.Report? && !active && l.policy.noForegroundSinceMs == 0 then e.at else since;
    CountStep(l, e, active, since, now);
    if e.Report? {
      ReportStep(l, e, active, since, from, now);
    } else {
      WishStays(l, e, active);
    }
  }

  /** Only a report changes what is wished for, or the holdoff. */
  lemma WishStays(l: Link, e: Event, active: bool)
    requires Peaceful(l, e, active) && !e.Report?
    ensures var p := Advance(l, e).policy;
            p.desired == l.policy.desired && p.noForegroundSinceMs == l.policy.noForegroundSinceMs
  {
  }

  lemma ReportStep(l: Link, e: Event, active: bool, since: nat, from: nat, now: nat)
    requires Peaceful(l, e, active) && Reported(l.policy, active, since, now) && InTime(e.at, active, since, now) &&
             e.Report?
    requires from == if !active && l.policy.noForegroundSinceMs == 0 then e.at else since
    ensures Reported(Advance(l, e).policy, active, from, e.at)
  {
    if !active {
      ElapsedWithinOneWrap(e.at, from);
    }
  }

  /** Of the requests to come, a step makes at most one, and adds none to them. */
  lemma CountStep(l: Link, e: Event, active: bool, since: nat, now: nat)
    requires Peaceful(l, e, active) && Reported(l.policy, active, since, now) && InTime(e.at, active, since, now)
    ensures Requests(Advance(l, e).log) + ToCome(Advance(l, e).policy, active) <=
            Requests(l.log) + ToCome(l.policy, active)
  {
    RequestsSnoc(l.log, Happened(e));
    if e.Tick? {
      RequestsSnoc(l.log + [Happened(e)], Requested(e.at, l.policy.desired));
      PumpCounts(l.policy, ClockAt(e.at), active);
    } else if e.Report? {
      ReportCounts(l.policy, active, since, now, e.at);
    }
  }

  lemma PumpCounts(p: Policy, now: Clock, active: bool)
    requires p.inFlight ==> Elapsed(now, p.requestedMs) <= GRACE_MS
    requires active ==> p.desired == SessionProfile
    ensures var (after, request) := Pump(p, now);
            ToCome(after, active) + (if request.Some? then 1 else 0) <= ToCome(p, active)
  {
  }

  lemma ReportCounts(p: Policy, active: bool, since: nat, now: nat, at: nat)
    requires Reported(p, active, since, now) && InTime(at, active, since, now)
    ensures ToCome(SetForegroundActive(p, active, ClockAt(at)), active) <= ToCome(p, active)
  {
    if !active && p.noForegroundSinceMs != 0 {
      ElapsedWithinOneWrap(at, since);
    }
  }

  function Latest(events: seq<Event>, now: nat): nat {
    if events == [] then now else events[|events| - 1].at
  }

  /** The rest of a timed run begins at its first event. */
  lemma RestInTime(events: seq<Event>, active: bool, since: nat, now: nat)
    requires events != [] && Timed(events) && AllInTime(events, active, since, now)
    ensures Timed(events[1..]) && AllInTime(events[1..], active, since, events[0].at)
    ensures Latest(events[1..], events[0].at) == Latest(events, now)
  {
  }

  lemma LaterHoldoff(events: seq<Event>, active: bool, since: nat, from: nat, now: nat)
    requires AllInTime(events, active, since, now) && since <= from
    ensures AllInTime(events, active, from, now)
  {
  }

  /**
    A link whose foreground state stays the same and whose requests are all answered in time asks at most
    twice more, as long as the holdoff it is in is less than one clock wrap old.
  */
  lemma {:induction false} PeacefulLinkGoesQuiet(l: Link, events: seq<Event>, active: bool, since: nat, now: nat)
    requires PeacefulRun(l, events, active) && Timed(events) && Reported(l.policy, active, since, now)
    requires AllInTime(events, active, since, now)
    ensures Requests(RunFrom(l, events).log) + ToCome(RunFrom(l, events).policy, active) <=
            Requests(l.log) + ToCome(l.policy, active) <= Requests(l.log) + 2
    decreases |events|
  {
    if events != [] {
      RestInTime(events, active, since, now);
      var from := PeacefulStep(l, events[0], active, since, now);
      LaterHoldoff(events[1..], active, since, from, events[0].at);
      PeacefulLinkGoesQuiet(Advance(l, events[0]), events[1..], active, from, events[0].at);
    }
  }

  // ----- Where it ends up -----

  lemma {:induction false} RunFromConcat(l: Link, a: seq<Event>, b: seq<Event>)
    ensures RunFrom(l, a + b) == RunFrom(RunFrom(l, a), b)
    decreases |a|
  {
    if a == [] {
      assert a + b == b;
    } else {
      RunFromConcat(Advance(l, a[0]), a[1..], b);
      assert (a + b)[0] == a[0] && (a + b)[1..] == a[1..] + b;
    }
  }

  lemma {:induction false} PeacefulConcat(l: Link, a: seq<Event>, b: seq<Event>, active: bool)
    ensures PeacefulRun(l, a + b, active) <==> PeacefulRun(l, a, active) && PeacefulRun(RunFrom(l, a), b, active)
    decreases |a|
  {
    if a == [] {
      assert a + b == b;
    } else {
      PeacefulConcat(Advance(l, a[0]), a[1..], b, active);
      assert (a + b)[0] == a[0] && (a + b)[1..] == a[1..] + b;
    }
  }

  lemma {:induction false} ConfirmedIsAsked(log: seq<Entry>)
    requires Unanswered(log).None? && LastAsked(log).Some?
    ensures Confirmed(log) == LastAsked(log).value
  {
    var before, e := log[..|log| - 1], log[|log| - 1];
    if !Answers(before, e) {
      ConfirmedIsAsked(before);
    }
  }

  /** With no request open, the link is taken to be in the profile last asked for. */
  lemma AnsweredMeansGranted(l: Link, now: nat)
    requires Inv(l, now) && Unanswered(l.log).None?
    ensures !l.policy.inFlight && l.policy.current == l.policy.requested
  {
    if LastAsked(l.log).Some? {
      ConfirmedIsAsked(l.log);
    }
  }

  /** Reported as such, the screen empty since a reading the clock tells from "none". */
  ghost predicate HeldSince(p: Policy, active: bool, since: nat, now: nat) {
    Reported(p, active, since, now) && (!active ==> p.noForegroundSinceMs == ClockAt(since) != 0)
  }

  lemma HeldStep(l: Link, e: Event, active: bool, since: nat, now: nat)
    requires Peaceful(l, e, active) && HeldSince(l.policy, active, since, now) && InTime(e.at, active, since, now)
    ensures HeldSince(Advance(l, e).policy, active, since, e.at) && Advance(l, e).up
  {
    var from := PeacefulStep(l, e, active, since, now);
    HoldoffGoesOn(l, e, active);
  }

  lemma HoldoffGoesOn(l: Link, e: Event, active: bool)
    requires Peaceful(l, e, active)
    ensures Advance(l, e).up
    ensures !active && l.policy.noForegroundSinceMs != 0 ==>
              Advance(l, e).policy.noForegroundSinceMs == l.policy.noForegroundSinceMs
  {
  }

  /** The invariant holds on, and so does what was reported. */
  lemma {:induction false} PeacefulRunKeeps(l: Link, events: seq<Event>, active: bool, since: nat, now: nat)
    requires Inv(l, now) && PeacefulRun(l, events, active) && HeldSince(l.policy, active, since, now) && l.up
    requires Timed(events) && AllInTime(events, active, since, now)
    ensures var end := RunFrom(l, events);
            Inv(end, Latest(events, now)) && HeldSince(end.policy, active, since, Latest(events, now)) && end.up
    decreases |events|
  {
    if events != [] {
      RestInTime(events, active, since, now);
      HeldStep(l, events[0], active, since, now);
      AdvanceKeepsInv(l, events[0], now);
      PeacefulRunKeeps(Advance(l, events[0]), events[1..], active, since, events[0].at);
    }
  }

  function Called(active: bool): Profile {
    if active then SessionProfile else IdleProfile
  }

  /** Bound for the profile its foreground calls for, and no other. */
  predicate Bound(p: Policy, active: bool) {
    p.desired == p.requested == Called(active) && (!p.inFlight ==> p.current == p.requested)
  }

  lemma BoundStep(l: Link, e: Event, active: bool, since: nat, now: nat)
    requires Peaceful(l, e, active) && HeldSince(l.policy, active, since, now) && InTime(e.at, active, since, now)
    requires Bound(l.policy, active)
    ensures Bound(Advance(l, e).policy, active) && Requests(Advance(l, e).log) == Requests(l.log)
    ensures !l.policy.inFlight ==> !Advance(l, e).policy.inFlight
  {
    RequestsSnoc(l.log, Happened(e));
    if e.Report? && !active {
      ElapsedWithinOneWrap(e.at, since);
    }
  }

  lemma {:induction false} BoundRun(l: Link, events: seq<Event>, active: bool, since: nat, now: nat)
    requires PeacefulRun(l, events, active) && HeldSince(l.policy, active, since, now) && l.up &&
             Bound(l.policy, active)
    requires Timed(events) && AllInTime(events, active, since, now)
    ensures var end := RunFrom(l, events);
            && Bound(end.policy, active) && Requests(end.log) == Requests(l.log)
            && (!l.policy.inFlight ==> !end.policy.inFlight)
    decreases |events|
  {
    if events != [] {
      RestInTime(events, active, since, now);
      HeldStep(l, events[0], active, since, now);
      BoundStep(l, events[0], active, since, now);
      BoundRun(Advance(l, events[0]), events[1..], active, since, events[0].at);
    }
  }

  /** A tick that finds no request open leaves the link bound for where it is wished. */
  lemma TickBinds(l: Link, at: nat, active: bool)
    requires l.up && !l.policy.inFlight && l.policy.current == l.policy.requested && l.policy.desired == Called(active)
    ensures Bound(Advance(l, Tick(at)).policy, active)
  {
  }

  /** A report past the holdoff wishes for what the foreground calls for. */
  lemma ReportWishes(l: Link, at: nat, active: bool, since: nat, now: nat)
    requires l.up && HeldSince(l.policy, active, since, now) && InTime(at, active, since, now)
    requires !active ==> at >= since + IDLE_HOLDOFF_MS
    ensures Advance(l, Report(at, active)).policy.desired == Called(active)
  {
    if !active {
      ElapsedWithinOneWrap(at, since);
    }
  }

  lemma TwoMore(l: Link, at: nat, active: bool, t: nat)
    ensures RunFrom(l, [Report(at, active)] + [Tick(t)]) == Advance(Advance(l, Report(at, active)), Tick(t))
  {
    var two := [Report(at, active)] + [Tick(t)];
    assert two[1..] == [Tick(t)] && two[1..][1..] == [];
    assert RunFrom(Advance(l, Report(at, active)), [Tick(t)]) == Advance(Advance(l, Report(at, active)), Tick(t));
  }

  /** How long the policy takes the screen to have been empty. */
  function EmptySince(l: Link, now: nat): int {
    now - Elapsed(ClockAt(now), l.policy.noForegroundSinceMs)
  }

  lemma ReportIsHeld(start: seq<Event>, now: nat, active: bool) returns (since: nat)
    requires Timed(start + [Report(now, active)]) && Run(start).up
    requires !active ==> Run(start + [Report(now, active)]).policy.noForegroundSinceMs != 0
    ensures var l := Run(start + [Report(now, active)]);
            && Inv(l, now) && l.up && HeldSince(l.policy, active, since, now)
            && (!active ==> since == EmptySince(l, now))
  {
    var events := start + [Report(now, active)];
    RunSnoc(start, Report(now, active));
    RunKeepsInv(events, now);
    var p := Run(events).policy;
    since := now;
    if !active {
      var begun :| CountsFrom(p, LastAttended(Run(events).log).value, begun, now);
      ElapsedIsModular(now, begun);
      since := now - (now - begun) % CLOCK_WRAP;
      SameReading(begun, now);
      HeldByClock(Run(start), now, p.noForegroundSinceMs);
    }
  }

  /** The last time the clock read what it read at `begun`. */
  lemma {:induction false} SameReading(begun: nat, now: nat)
    requires begun <= now
    ensures now - (now - begun) % CLOCK_WRAP >= 0 && ClockAt(now - (now - begun) % CLOCK_WRAP) == ClockAt(begun)
    decreases now - begun
  {
    if now - begun >= CLOCK_WRAP {
      SameReading(begun + CLOCK_WRAP, now);
    }
  }

  lemma HeldByClock(l: Link, now: nat, reading: Clock)
    requires l.up && Advance(l, Report(now, false)).policy.noForegroundSinceMs == reading
    ensures Advance(l, Report(now, false)).policy.desired == IdleProfile <==>
            Elapsed(ClockAt(now), reading) >= IDLE_HOLDOFF_MS
  {
  }

  lemma SliceInTime(a: seq<Event>, b: seq<Event>, active: bool, since: nat, now: nat)
    requires Timed(a + b) && AllInTime(a + b, active, since, now)
    ensures Timed(a) && Timed(b) && AllInTime(a, active, since, now) && AllInTime(b, active, since, Latest(a, now))
  {
    var all := a + b;
    forall i, j | 0 <= i < j < |a| ensures a[i].at <= a[j].at {
      assert all[i] == a[i] && all[j] == a[j];
    }
    forall i, j | 0 <= i < j < |b| ensures b[i].at <= b[j].at {
      assert all[|a| + i] == b[i] && all[|a| + j] == b[j];
    }
    forall i | 0 <= i < |a| ensures InTime(a[i].at, active, since, now) {
      assert all[i] == a[i];
    }
    forall i | 0 <= i < |b| ensures InTime(b[i].at, active, since, Latest(a, now)) {
      assert all[|a| + i] == b[i];
      assert a != [] ==> all[|a| - 1].at <= all[|a| + i].at;
    }
  }

  /** Up to the tick that finds nothing open. */
  lemma LinkIsBound(l: Link, now: nat, active: bool, since: nat, before: seq<Event>, t0: nat, t1: nat)
    requires Inv(l, now) && l.up && HeldSince(l.policy, active, since, now) &&
             (!active ==> t0 >= since + IDLE_HOLDOFF_MS)
    requires var rest := before + ([Report(t0, active)] + [Tick(t1)]);
             PeacefulRun(l, rest, active) && Timed(rest) && AllInTime(rest, active, since, now)
    requires Unanswered(RunFrom(l, before + [Report(t0, active)]).log).None?
    ensures var bound := RunFrom(l, before + ([Report(t0, active)] + [Tick(t1)]));
            Bound(bound.policy, active) && HeldSince(bound.policy, active, since, t1) && bound.up
  {
    var two := [Report(t0, active)] + [Tick(t1)];
    var rest := before + two;
    SliceInTime(before, two, active, since, now);
    PeacefulConcat(l, before, two, active);
    RunFromConcat(l, before, two);
    RunFromConcat(l, before, [Report(t0, active)]);
    var m := RunFrom(l, before);
    PeacefulRunKeeps(l, before, active, since, now);
    TwoMore(m, t0, active, t1);
    assert two[0] == Report(t0, active) && two[1] == Tick(t1) && two[1..] == [Tick(t1)];
    var reported := Advance(m, Report(t0, active));
    assert RunFrom(m, [Report(t0, active)]) == reported;
    AdvanceKeepsInv(m, Report(t0, active), Latest(before, now));
    ReportWishes(m, t0, active, since, Latest(before, now));
    AnsweredMeansGranted(reported, t0);
    TickBinds(reported, t1, active);
    PeacefulRunKeeps(l, rest, active, since, now);
  }

  lemma LinkArrives(l: Link, now: nat, active: bool, since: nat, before: seq<Event>, t0: nat, t1: nat,
                    after: seq<Event>, more: seq<Event>)
    requires Inv(l, now) && l.up && HeldSince(l.policy, active, since, now) &&
             (!active ==> t0 >= since + IDLE_HOLDOFF_MS)
    requires var rest := before + ([Report(t0, active)] + [Tick(t1)]) + after + more;
             PeacefulRun(l, rest, active) && Timed(rest) && AllInTime(rest, active, since, now)
    requires Unanswered(RunFrom(l, before + [Report(t0, active)]).log).None?
    requires Unanswered(RunFrom(l, before + ([Report(t0, active)] + [Tick(t1)]) + after).log).None?
    ensures var end := RunFrom(l, before + ([Report(t0, active)] + [Tick(t1)]) + after);
            && end.policy.current == end.policy.desired == Called(active)
            && Requests(end.log) <= Requests(l.log) + 2
            && Requests(RunFrom(end, more).log) == Requests(end.log)
            && RunFrom(end, more).policy.current == Called(active)
  {
    var first := before + ([Report(t0, active)] + [Tick(t1)]);
    SliceInTime(first + after, more, active, since, now);
    SliceInTime(first, after, active, since, now);
    PeacefulConcat(l, first + after, more, active);
    PeacefulConcat(l, first, after, active);
    RunFromConcat(l, first, after);
    LinkIsBound(l, now, active, since, before, t0, t1);
    var bound := RunFrom(l, first);
    var end := RunFrom(bound, after);
    BoundRun(bound, after, active, since, t1);
    PeacefulRunKeeps(l, first + after, active, since, now);
    AnsweredMeansGranted(end, Latest(first + after, now));
    PeacefulLinkGoesQuiet(l, first + after, active, since, now);
    BoundRun(end, more, active, since, Latest(first + after, now));
  }

  /**
    Take any link, and from a report on let the foreground stay as reported, every tick come while no
    request is overdue, and some tick, after a report past the holdoff if the screen is empty, find every
    request answered. Once the requests are answered again the link is, and is wished, where its foreground
    calls for; at most two were made on the way; and however the peace goes on, there will be no other.
  */
  lemma LinkSettles(start: seq<Event>, now: nat, active: bool, before: seq<Event>, t0: nat, t1: nat, after: seq<Event>,
                    more: seq<Event>)
    requires var l := Run(start + [Report(now, active)]);
             var rest := before + ([Report(t0, active)] + [Tick(t1)]) + after + more;
             && Timed(start + [Report(now, active)]) && Timed(rest) && Run(start).up && PeacefulRun(l, rest, active)
             && (!active ==>
                   && l.policy.noForegroundSinceMs != 0
                   && t0 >= EmptySince(l, now) + IDLE_HOLDOFF_MS
                   && forall i :: 0 <= i < |rest| ==> rest[i].at < EmptySince(l, now) + CLOCK_WRAP)
             && (forall i :: 0 <= i < |rest| ==> now <= rest[i].at)
             && Unanswered(RunFrom(l, before + [Report(t0, active)]).log).None?
             && Unanswered(RunFrom(l, before + ([Report(t0, active)] + [Tick(t1)]) + after).log).None?
    ensures var l := Run(start + [Report(now, active)]);
            var end := RunFrom(l, before + ([Report(t0, active)] + [Tick(t1)]) + after);
            && end.policy.current == end.policy.desired == Called(active)
            && Requests(end.log) <= Requests(l.log) + 2
            && Requests(RunFrom(end, more).log) == Requests(end.log)
            && RunFrom(end, more).policy.current == Called(active)
  {
    var since := ReportIsHeld(start, now, active);
    LinkArrives(Run(start + [Report(now, active)]), now, active, since, before, t0, t1, after, more);
  }

  /**
    What a report of an empty screen makes of the time since `since`: it is counted modulo the clock, so
    the wish for Idle lapses for 10000 ms at every wrap.
  */
  lemma IdleIsWishedFor(p: Policy, since: nat, now: nat)
    requires since <= now && p.noForegroundSinceMs == ClockAt(since) != 0
    ensures SetForegroundActive(p, false, ClockAt(now)).desired == IdleProfile <==>
            (now - since) % CLOCK_WRAP >= IDLE_HOLDOFF_MS
  {
    ElapsedIsModular(now, since);
  }

  lemma RunSnoc(events: seq<Event>, e: Event)
    ensures Run(events + [e]) == Advance(Run(events), e)
  {
    assert (events + [e])[..|events|] == events;
  }

  /** A link whose Session request is never answered, and on which nobody ever takes the screen. */
  function UnansweredLink(): seq<Event> {
    [Connect(1)] + [Tick(4000)] + [Report(10001, false)] + [Tick(10001)]
  }

  /**
    So a link nobody has ever used asks for Session once more when its holdoff is a whole wrap old: this
    one has sat in Idle all the time.
  */
  lemma QuietLinkAsksAfterAWrap()
    ensures var quiet := Run(UnansweredLink());
            var asking := Run(UnansweredLink() + [Report(1 + CLOCK_WRAP, false)] + [Tick(1 + CLOCK_WRAP)]);
            && quiet.up && quiet.policy.desired == quiet.policy.current == IdleProfile && !quiet.policy.inFlight
            && asking.log == quiet.log + [Happened(Report(1 + CLOCK_WRAP, false))] + [Happened(Tick(1 + CLOCK_WRAP))] +
                             [Requested(1 + CLOCK_WRAP, SessionProfile)]
  {
    RunSnoc([], Connect(1));
    RunSnoc([Connect(1)], Tick(4000));
    RunSnoc([Connect(1)] + [Tick(4000)], Report(10001, false));
    RunSnoc([Connect(1)] + [Tick(4000)] + [Report(10001, false)], Tick(10001));
    assert [] + [Connect(1)] == [Connect(1)];
    var first := Pump(FRESH.(noForegroundSinceMs := 1, desired := SessionProfile), 1).0;
    assert Run([Connect(1)]).policy == first;
    RunSnoc(UnansweredLink(), Report(1 + CLOCK_WRAP, false));
    RunSnoc(UnansweredLink() + [Report(1 + CLOCK_WRAP, false)], Tick(1 + CLOCK_WRAP));
    ElapsedIsModular(1 + CLOCK_WRAP, 1);
  }
}
