/** Session metering and runway warnings (swarm/tracker.rs, swarm/costs.rs). Prices, balances and times are exact reals;
    the clock is a parameter, in seconds. */
module Tracker {
  import opened Prelude

  type SessionId = string

  datatype Action = TextMessage | FileTransfer | VoiceCall | VideoCall | Inference | Compute | Storage

  // ----- costs -----

  /** The default cost table. */
  function Rate(a: Action): (r: real)
    ensures r > 0.0
  {
    match a
    case TextMessage => 0.001
    case FileTransfer => 0.01
    case VoiceCall => 0.05
    case VideoCall => 0.5
    case Inference => 0.01
    case Compute => 1.0
    case Storage => 0.001
  }

  function Cost(a: Action, units: real): real { Rate(a) * units }

  /** How many units of the action a balance pays for. */
  function EstimateRunway(a: Action, balance: real): real { balance / Rate(a) }

  // ----- sessions and warnings -----

  datatype Level = Yellow | Orange | Red

  function Threshold(l: Level): real {
    match l
    case Yellow => 120.0
    case Orange => 60.0
    case Red => 10.0
  }

  function Severity(l: Level): nat {
    match l
    case Yellow => 0
    case Orange => 1
    case Red => 2
  }

  datatype Session = Session(
    action: Action, startedAt: real, bytesSent: nat, bytesReceived: nat, units: real, sent: seq<Level>)

  datatype Suggestion = NoSuggestion | SwitchToVoice | TopUp

  datatype Warning = Warning(session: SessionId, action: Action, level: Level, runway: real, suggestion: Suggestion)

  predicate IsCall(a: Action) { a.VoiceCall? || a.VideoCall? }

  function QiConsumed(s: Session, now: real): real {
    match s.action
    case TextMessage => Cost(s.action, (s.bytesSent + s.bytesReceived) as real / (1024.0 * 1024.0))
    case FileTransfer => Cost(s.action, (s.bytesSent + s.bytesReceived) as real / (1024.0 * 1024.0))
    case VoiceCall => Cost(s.action, (now - s.startedAt) / 60.0)
    case VideoCall => Cost(s.action, (now - s.startedAt) / 60.0)
    case _ => Cost(s.action, s.units)
  }

  function RatePerSecond(s: Session, now: real): real {
    if IsCall(s.action) then Rate(s.action) / 60.0
    else if now - s.startedAt > 0.0 then QiConsumed(s, now) / (now - s.startedAt)
    else 0.0
  }

  /** Seconds left at the current rate; None if the session burns nothing. */
  function Runway(s: Session, balance: real, now: real): Option<real> {
    if RatePerSecond(s, now) <= 0.0 then None else Some((balance - QiConsumed(s, now)) / RatePerSecond(s, now))
  }

  function LevelOf(runway: real): Option<Level> {
    if runway <= Threshold(Red) then Some(Red)
    else if runway <= Threshold(Orange) then Some(Orange)
    else if runway <= Threshold(Yellow) then Some(Yellow)
    else None
  }

  function Suggest(a: Action, l: Level): Suggestion {
    if a.VideoCall? && (l.Orange? || l.Red?) then SwitchToVoice
    else if l.Red? then TopUp
    else NoSuggestion
  }

  /** The warning a check finds for a session, whether or not it has been given before. */
  function Due(id: SessionId, s: Session, balance: real, now: real): Option<Warning> {
    match Runway(s, balance, now)
    case None => None
    case Some(runway) =>
      match LevelOf(runway)
      case None => None
      case Some(level) => Some(Warning(id, s.action, level, runway, Suggest(s.action, level)))
  }

  /** The warning a check gives: only a level not given before. */
  function Given(id: SessionId, s: Session, balance: real, now: real): Option<Warning> {
    var due := Due(id, s, balance, now);
    if due.Some? && due.value.level !in s.sent then due else None
  }

  function Checked(id: SessionId, s: Session, balance: real, now: real): Session {
    var given := Given(id, s, balance, now);
    if given.Some? then s.(sent := s.sent + [given.value.level]) else s
  }

  function CheckAll(sessions: map<SessionId, Session>, balance: real, now: real): map<SessionId, Session> {
    map id | id in sessions :: Checked(id, sessions[id], balance, now)
  }

  function Begun(sessions: map<SessionId, Session>, id: SessionId, action: Action, now: real): map<SessionId, Session> {
    sessions[id := Session(action, now, 0, 0, 0.0, [])]
  }

  /** Bytes for an unknown session are ignored. */
  function SentMore(sessions: map<SessionId, Session>, id: SessionId, bytes: nat): map<SessionId, Session> {
    if id in sessions then sessions[id := sessions[id].(bytesSent := sessions[id].bytesSent + bytes)] else sessions
  }

  function ReceivedMore(sessions: map<SessionId, Session>, id: SessionId, bytes: nat): map<SessionId, Session> {
    if id in sessions then sessions[id := sessions[id].(bytesReceived := sessions[id].bytesReceived + bytes)]
    else sessions
  }

  class UsageTracker {
    var sessions: map<SessionId, Session>
    var balance: real

    constructor (balance: real)
      ensures sessions == map[] && this.balance == balance
    {
      this.sessions, this.balance := map[], balance;
    }

    method StartSession(id: SessionId, action: Action, now: real)
      modifies this`sessions
      ensures sessions == Begun(old(sessions), id, action, now)
      ensures id in sessions && QiConsumed(sessions[id], now) == 0.0 && sessions[id].sent == []
      ensures sessions[id].action == action && sessions[id].startedAt == now
    {
      sessions := sessions[id := Session(action, now, 0, 0, 0.0, [])];
    }

    method EndSession(id: SessionId, now: real) returns (consumed: Option<real>)
      modifies this`sessions
      ensures sessions == old(sessions) - {id}
      ensures consumed == if id in old(sessions) then Some(QiConsumed(old(sessions)[id], now)) else None
    {
      consumed := None;
      if id in sessions {
        consumed := Some(QiConsumed(sessions[id], now));
        sessions := sessions - {id};
      }
    }

    method RecordBytesSent(id: SessionId, bytes: nat)
      modifies this`sessions
      ensures sessions == SentMore(old(sessions), id, bytes)
      ensures id in old(sessions) ==>
        sessions == old(sessions)[id := old(sessions)[id].(bytesSent := old(sessions)[id].bytesSent + bytes)]
    {
      if id in sessions {
        var session := sessions[id];
        sessions := sessions[id := session.(bytesSent := session.bytesSent + bytes)];
      }
    }

    method RecordBytesReceived(id: SessionId, bytes: nat)
      modifies this`sessions
      ensures sessions == ReceivedMore(old(sessions), id, bytes)
      ensures id in old(sessions) ==>
        sessions == old(sessions)[id := old(sessions)[id].(bytesReceived := old(sessions)[id].bytesReceived + bytes)]
    {
      if id in sessions {
        var session := sessions[id];
        sessions := sessions[id := session.(bytesReceived := session.bytesReceived + bytes)];
      }
    }

    /** Every session is checked once; the warnings are exactly those given, one per session at most. */
    method CheckWarnings(now: real) returns (warnings: seq<Warning>)
      modifies this`sessions
      ensures sessions == CheckAll(old(sessions), balance, now)
      ensures forall w :: w in warnings <==>
        w.session in old(sessions) && Given(w.session, old(sessions)[w.session], balance, now) == Some(w)
      ensures forall i, j :: 0 <= i < j < |warnings| ==> warnings[i].session != warnings[j].session
    {
      warnings := [];
      var left := sessions.Keys;
      while left != {}
        invariant left <= sessions.Keys == old(sessions).Keys
        invariant forall id :: id in left ==> sessions[id] == old(sessions)[id]
        invariant forall id :: id in sessions && id !in left ==>
          sessions[id] == Checked(id, old(sessions)[id], balance, now)
        invariant forall w :: w in warnings <==>
          w.session in old(sessions) && w.session !in left
          && Given(w.session, old(sessions)[w.session], balance, now) == Some(w)
        invariant forall i, j :: 0 <= i < j < |warnings| ==> warnings[i].session != warnings[j].session
        decreases left
      {
        var id :| id in left;
        var session := sessions[id];
        var due := Due(id, session, balance, now);
        if due.Some? && due.value.level !in session.sent {
          sessions := sessions[id := session.(sent := session.sent + [due.value.level])];
          assert forall w :: w in warnings ==> w.session != id;
          warnings := warnings + [due.value];
        }
        left := left - {id};
      }
    }
  }

  /** Every byte of a data session costs the same, in either direction: the rate per 2^20 bytes. */
  lemma BytesCostAlike(sessions: map<SessionId, Session>, id: SessionId, bytes: nat, now: real)
    requires id in sessions && (sessions[id].action.TextMessage? || sessions[id].action.FileTransfer?)
    ensures QiConsumed(SentMore(sessions, id, bytes)[id], now) == QiConsumed(ReceivedMore(sessions, id, bytes)[id], now)
    ensures QiConsumed(SentMore(sessions, id, bytes)[id], now) - QiConsumed(sessions[id], now)
         == Cost(sessions[id].action, bytes as real / 1048576.0)
  {
    var before, r := (sessions[id].bytesSent + sessions[id].bytesReceived) as real, Rate(sessions[id].action);
    assert (before + bytes as real) / 1048576.0 == before / 1048576.0 + bytes as real / 1048576.0;
    assert r * (before / 1048576.0 + bytes as real / 1048576.0)
        == r * (before / 1048576.0) + r * (bytes as real / 1048576.0);
  }

  /** The level found is the worst whose threshold the runway has reached, and there is one from 120 seconds down. */
  lemma LevelIsWorstReached(runway: real, l: Level)
    ensures LevelOf(runway) == Some(l) <==>
      runway <= Threshold(l) && forall worse :: Severity(l) < Severity(worse) ==> Threshold(worse) < runway
    ensures LevelOf(runway).Some? <==> runway <= 120.0
  {
    assert Severity(Yellow) < Severity(Orange) < Severity(Red);
  }

  /** A warning about a video call says to switch to voice from a minute down, any other to top up from ten seconds
      down; and there is none above two minutes. */
  lemma SuggestionFollowsRunway(id: SessionId, s: Session, balance: real, now: real)
    requires Due(id, s, balance, now).Some?
    ensures var w := Due(id, s, balance, now).value;
      && Runway(s, balance, now) == Some(w.runway) && w.runway <= 120.0 && w.session == id && w.action == s.action
      && (w.suggestion == SwitchToVoice <==> s.action == VideoCall && w.runway <= 60.0)
      && (w.suggestion == TopUp <==> s.action != VideoCall && w.runway <= 10.0)
  {
    LevelIsWorstReached(Runway(s, balance, now).value, Due(id, s, balance, now).value.level);
  }

  // ----- runs -----

  datatype State = State(sessions: map<SessionId, Session>, balance: real, clock: real)

  datatype Event =
    | Started(id: SessionId, action: Action, now: real)
    | Ended(id: SessionId)
    | Sent(id: SessionId, bytes: nat)
    | Received(id: SessionId, bytes: nat)
    | BalanceSet(balance: real)
    | WarningsChecked(now: real)

  function Next(t: State, e: Event): State {
    match e
    case Started(id, action, now) => t.(sessions := Begun(t.sessions, id, action, now), clock := now)
    case Ended(id) => t.(sessions := t.sessions - {id})
    case Sent(id, bytes) => t.(sessions := SentMore(t.sessions, id, bytes))
    case Received(id, bytes) => t.(sessions := ReceivedMore(t.sessions, id, bytes))
    case BalanceSet(balance) => t.(balance := balance)
    case WarningsChecked(now) => t.(sessions := CheckAll(t.sessions, t.balance, now), clock := now)
  }

  function Run(t: State, events: seq<Event>): State
    decreases |events|
  {
    if events == [] then t else Run(Next(t, events[0]), events[1..])
  }

  ghost predicate NoLevelTwice(t: State) {
    forall id :: id in t.sessions ==>
      forall i, j :: 0 <= i < j < |t.sessions[id].sent| ==> t.sessions[id].sent[i] != t.sessions[id].sent[j]
  }

  /** In every run, of whatever sessions, balances and clock, a session is given each level at most once. */
  lemma {:induction false} EachLevelOnce(t: State, events: seq<Event>)
    requires NoLevelTwice(t)
    ensures NoLevelTwice(Run(t, events))
    decreases |events|
  {
    if events == [] {
    } else {
      StepGivesLevelOnce(t, events[0]);
      EachLevelOnce(Next(t, events[0]), events[1..]);
    }
  }

  lemma StepGivesLevelOnce(t: State, e: Event)
    requires NoLevelTwice(t)
    ensures NoLevelTwice(Next(t, e))
  {
  }

  /** For a call the runway is what the balance pays for, less the time elapsed. */
  lemma CallRunway(s: Session, balance: real, now: real)
    requires IsCall(s.action)
    ensures Runway(s, balance, now) == Some(60.0 * EstimateRunway(s.action, balance) - (now - s.startedAt))
  {
    var r, e := Rate(s.action), now - s.startedAt;
    DivideByRate(balance, r, e);
    assert RatePerSecond(s, now) == r / 60.0 && QiConsumed(s, now) == r * (e / 60.0);
  }

  lemma DivideByRate(balance: real, r: real, e: real)
    requires r > 0.0
    ensures r / 60.0 > 0.0 && (balance - r * (e / 60.0)) / (r / 60.0) == 60.0 * (balance / r) - e
  {
  }

  /** Any other session is taken to go on burning at its average rate so far: what is left of the balance lasts as many
      times its age as it is times what has been consumed; and without age or consumption there is no runway. */
  lemma DataRunway(s: Session, balance: real, now: real)
    requires !IsCall(s.action)
    ensures Runway(s, balance, now).Some? <==> now > s.startedAt && QiConsumed(s, now) > 0.0
    ensures Runway(s, balance, now).Some? ==>
      Runway(s, balance, now).value * QiConsumed(s, now) == (balance - QiConsumed(s, now)) * (now - s.startedAt)
  {
    var consumed, age := QiConsumed(s, now), now - s.startedAt;
    if age > 0.0 {
      AverageRate(consumed, age, balance - consumed);
    }
  }

  lemma AverageRate(consumed: real, age: real, left: real)
    requires age > 0.0
    ensures consumed / age > 0.0 <==> consumed > 0.0
    ensures consumed > 0.0 ==> left / (consumed / age) * consumed == left * age
  {
    var rate := consumed / age;
    assert rate * age == consumed;
    if consumed > 0.0 {
      assert left / rate * rate == left;
      assert left / rate * (rate * age) == left / rate * rate * age;
    }
  }

  /** It falls second for second, and with the balance. */
  lemma CallRunwayFalls(s: Session, balance: real, now: real, balance': real, now': real)
    requires IsCall(s.action) && now <= now' && balance' <= balance
    ensures Runway(s, balance', now').value <= Runway(s, balance, now).value - (now' - now)
    ensures Runway(s, balance, now').value == Runway(s, balance, now).value - (now' - now)
  {
  }

  /** A call has used up the balance exactly when it has lasted as long as the estimate for its action said. */
  lemma CallLastsAsEstimated(s: Session, balance: real, now: real)
    requires IsCall(s.action)
    ensures Runway(s, balance, now).value <= 0.0 <==> now - s.startedAt >= 60.0 * EstimateRunway(s.action, balance)
    ensures now - s.startedAt == 60.0 * EstimateRunway(s.action, balance) ==> QiConsumed(s, now) == balance
  {
    CallRunway(s, balance, now);
    if now - s.startedAt == 60.0 * EstimateRunway(s.action, balance) {
      var r := Rate(s.action);
      assert (now - s.startedAt) / 60.0 == balance / r;
      assert r * (balance / r) == balance;
    }
  }

  /** Voice instead of video is suggested only with a minute or less left, and the call would then last ten times as
      long and nine times its age more. */
  lemma SwitchingHelps(id: SessionId, s: Session, balance: real, now: real)
    requires Due(id, s, balance, now).Some? && Due(id, s, balance, now).value.suggestion == SwitchToVoice
    ensures var left := Due(id, s, balance, now).value.runway;
      && s.action == VideoCall && left <= 60.0
      && Runway(s.(action := VoiceCall), balance, now) == Some(10.0 * left + 9.0 * (now - s.startedAt))
  {
    assert s.action == VideoCall;
    VoiceIsTenfold(balance);
    CallRunway(s, balance, now);
    CallRunway(s.(action := VoiceCall), balance, now);
  }

  lemma VoiceIsTenfold(balance: real)
    ensures EstimateRunway(VoiceCall, balance) == 10.0 * EstimateRunway(VideoCall, balance)
  {
    assert balance / 0.05 == 20.0 * balance && balance / 0.5 == 2.0 * balance;
  }

  // ----- when levels escalate -----

  predicate Rising(sent: seq<Level>) {
    forall i, j :: 0 <= i < j < |sent| ==> Severity(sent[i]) < Severity(sent[j])
  }

  /** What a check needs to keep the levels of a session rising: none given yet, nothing burnt, a runway within the
      threshold of the last level or beyond all of them, or a level that has been given before. */
  predicate Harmless(s: Session, balance: real, now: real) {
    match Runway(s, balance, now)
    case None => true
    case Some(r) => s.sent == [] || r <= Threshold(s.sent[|s.sent| - 1]) || r > 120.0 || LevelOf(r).value in s.sent
  }

  lemma RisingAppend(sent: seq<Level>, l: Level)
    requires Rising(sent)
    ensures Rising(sent + [l]) <==> sent == [] || Severity(sent[|sent| - 1]) < Severity(l)
  {
    var more := sent + [l];
    if sent != [] {
      assert more[|sent| - 1] == sent[|sent| - 1] && more[|sent|] == l;
    }
  }

  /** Among the levels given so far the last is the worst, so only a runway within its threshold makes a new one worse.
      */
  lemma WorseThanLast(sent: seq<Level>, r: real, l: Level)
    requires Rising(sent) && sent != [] && LevelOf(r) == Some(l) && l !in sent
    ensures Severity(sent[|sent| - 1]) < Severity(l) <==> r <= Threshold(sent[|sent| - 1])
  {
    assert sent[|sent| - 1] in sent;
  }

  /** A check keeps the levels given to a session rising if and only if it is harmless. */
  lemma CheckRisesIff(id: SessionId, s: Session, balance: real, now: real)
    requires Rising(s.sent)
    ensures Rising(Checked(id, s, balance, now).sent) <==> Harmless(s, balance, now)
  {
    match Runway(s, balance, now)
    case None =>
    case Some(r) =>
      if LevelOf(r).Some? && LevelOf(r).value !in s.sent {
        var l := LevelOf(r).value;
        assert Checked(id, s, balance, now).sent == s.sent + [l] && r <= 120.0;
        RisingAppend(s.sent, l);
        if s.sent != [] {
          WorseThanLast(s.sent, r, l);
        }
      } else {
        assert Checked(id, s, balance, now) == s;
        assert LevelOf(r).None? ==> r > 120.0;
      }
  }

  /** For a call that has been warned: with `last` the last level, and the seconds left being what the balance pays for
      less the time elapsed. */
  lemma CallRisesIff(id: SessionId, s: Session, balance: real, now: real)
    requires IsCall(s.action) && Rising(s.sent) && s.sent != []
    ensures var last, left := s.sent[|s.sent| - 1], 60.0 * EstimateRunway(s.action, balance) - (now - s.startedAt);
      Rising(Checked(id, s, balance, now).sent)
      <==> left <= Threshold(last) || left > 120.0 || LevelOf(left).value in s.sent
  {
    CallRunway(s, balance, now);
    CheckRisesIff(id, s, balance, now);
  }

  ghost predicate AllRising(t: State) {
    forall id :: id in t.sessions ==> Rising(t.sessions[id].sent)
  }

  ghost predicate HarmlessStep(t: State, e: Event) {
    e.WarningsChecked? ==> forall id :: id in t.sessions ==> Harmless(t.sessions[id], t.balance, e.now)
  }

  lemma StepRisesIff(t: State, e: Event)
    requires AllRising(t)
    ensures AllRising(Next(t, e)) <==> HarmlessStep(t, e)
  {
    if e.WarningsChecked? {
      var t' := Next(t, e);
      forall id | id in t.sessions
        ensures id in t'.sessions && (Rising(t'.sessions[id].sent) <==> Harmless(t.sessions[id], t.balance, e.now))
      {
        CheckRisesIff(id, t.sessions[id], t.balance, e.now);
      }
    }
  }

  ghost predicate HarmlessRun(t: State, events: seq<Event>)
    decreases |events|
  {
    events != [] ==> HarmlessStep(t, events[0]) && HarmlessRun(Next(t, events[0]), events[1..])
  }

  ghost predicate AlwaysRising(t: State, events: seq<Event>)
    decreases |events|
  {
    AllRising(t) && (events != [] ==> AlwaysRising(Next(t, events[0]), events[1..]))
  }

  /** In a run of whatever sessions, balances and clock, the levels of all sessions rise throughout if and only if every
      check is harmless to every session. */
  lemma {:induction false} RunRisesIff(t: State, events: seq<Event>)
    requires AllRising(t)
    ensures AlwaysRising(t, events) <==> HarmlessRun(t, events)
    decreases |events|
  {
    if events == [] {
    } else {
      var t' := Next(t, events[0]);
      StepRisesIff(t, events[0]);
      if AllRising(t') {
        RunRisesIff(t', events[1..]);
      } else {
        assert !AlwaysRising(t', events[1..]);
      }
    }
  }

  // ----- calls with a balance that does not rise -----

  /** The levels given so far escalate strictly, and each is still due. */
  ghost predicate Escalating(s: Session, balance: real, now: real) {
    IsCall(s.action) ==>
      && Rising(s.sent)
      && (forall l :: l in s.sent ==> Runway(s, balance, now).value <= Threshold(l))
  }

  /** The clock does not go back, the balance does not rise, and session ids are fresh. */
  predicate Sober(t: State, e: Event) {
    match e
    case Started(id, _, now) => t.clock <= now && id !in t.sessions
    case BalanceSet(balance) => balance <= t.balance
    case WarningsChecked(now) => t.clock <= now
    case _ => true
  }

  predicate SoberRun(t: State, events: seq<Event>)
    decreases |events|
  {
    events != [] ==> Sober(t, events[0]) && SoberRun(Next(t, events[0]), events[1..])
  }

  ghost predicate AllEscalating(t: State) {
    forall id :: id in t.sessions ==> Escalating(t.sessions[id], t.balance, t.clock)
  }

  lemma LaterStillEscalating(s: Session, balance: real, now: real, balance': real, now': real)
    requires Escalating(s, balance, now) && now <= now' && balance' <= balance
    ensures Escalating(s, balance', now')
  {
  }

  lemma CheckKeepsEscalating(id: SessionId, s: Session, balance: real, now: real)
    requires Escalating(s, balance, now)
    ensures Escalating(Checked(id, s, balance, now), balance, now)
  {
    if IsCall(s.action) && Given(id, s, balance, now).Some? {
      var level := Given(id, s, balance, now).value.level;
      var s' := Checked(id, s, balance, now);
      CallRunway(s, balance, now);
      CallRunway(s', balance, now);
      forall l | l in s.sent ensures Severity(l) < Severity(level) {
        assert l != level;
      }
    }
  }

  lemma StepKeepsEscalating(t: State, e: Event)
    requires AllEscalating(t) && Sober(t, e)
    ensures AllEscalating(Next(t, e))
  {
    var t' := Next(t, e);
    forall id | id in t'.sessions ensures Escalating(t'.sessions[id], t'.balance, t'.clock) {
      if id in t.sessions {
        LaterStillEscalating(t.sessions[id], t.balance, t.clock, t'.balance, t'.clock);
        match e
        case WarningsChecked(now) => CheckKeepsEscalating(id, t.sessions[id], t.balance, now);
        case Sent(_, _) => SameRunway(t.sessions[id], t'.sessions[id], t'.balance, t'.clock);
        case Received(_, _) => SameRunway(t.sessions[id], t'.sessions[id], t'.balance, t'.clock);
        case _ =>
      }
    }
  }

  lemma SameRunway(s: Session, s': Session, balance: real, now: real)
    requires s'.action == s.action && s'.startedAt == s.startedAt && s'.sent == s.sent && Escalating(s, balance, now)
    ensures Escalating(s', balance, now)
  {
  }

  /** In every run with a forward clock and a balance that never rises, the levels given to a voice or video call
      escalate strictly from Yellow over Orange to Red; so nothing follows Red. */
  lemma {:induction false} CallWarningsEscalate(t: State, events: seq<Event>)
    requires AllEscalating(t) && SoberRun(t, events)
    ensures AllEscalating(Run(t, events))
    decreases |events|
  {
    if events == [] {
    } else {
      StepKeepsEscalating(t, events[0]);
      CallWarningsEscalate(Next(t, events[0]), events[1..]);
    }
  }

  lemma RedIsLast(t: State, id: SessionId, i: nat)
    requires AllEscalating(t) && id in t.sessions && IsCall(t.sessions[id].action)
    requires i < |t.sessions[id].sent| && t.sessions[id].sent[i] == Red
    ensures i == |t.sessions[id].sent| - 1
  {
    var sent := t.sessions[id].sent;
    if i + 1 < |sent| {
      NextIsWorse(sent, i);
      assert false;
    }
  }

  lemma NextIsWorse(sent: seq<Level>, i: nat)
    requires i + 1 < |sent| && Rising(sent)
    ensures sent[i] != Red
  {
    assert Severity(sent[i]) < Severity(sent[i + 1]);
  }

  lemma RunFour(t: State, a: Event, b: Event, c: Event, d: Event)
    ensures Run(t, [a, b, c, d]) == Next(Next(Next(Next(t, a), b), c), d)
  {
    var t1 := Next(t, a);
    var t2 := Next(t1, b);
    var t3 := Next(t2, c);
    assert [a, b, c, d][1..] == [b, c, d] && [b, c, d][1..] == [c, d] && [c, d][1..] == [d] && [d][1..] == [];
    assert Run(Next(t3, d), []) == Next(t3, d);
    assert Run(t3, [d]) == Next(t3, d);
    assert Run(t2, [c, d]) == Next(t3, d);
    assert Run(t1, [b, c, d]) == Next(t3, d);
  }

  /** A run in which a balance that rises takes a call back from Red to Yellow. */
  lemma RisingBalanceDeescalates(id: SessionId, start: real)
    ensures var t := Run(State(map[], 0.05, start),
                         [Started(id, VideoCall, start), WarningsChecked(start), BalanceSet(0.8),
                          WarningsChecked(start)]);
      id in t.sessions && t.sessions[id].sent == [Red, Yellow]
  {
    var t0 := State(map[], 0.05, start);
    RunFour(t0, Started(id, VideoCall, start), WarningsChecked(start), BalanceSet(0.8), WarningsChecked(start));
    var s := Session(VideoCall, start, 0, 0, 0.0, []);
    CallRunway(s, 0.05, start);
    assert Checked(id, s, 0.05, start) == s.(sent := [Red]);
    CallRunway(s.(sent := [Red]), 0.8, start);
    assert Checked(id, s.(sent := [Red]), 0.8, start).sent == [Red, Yellow];
  }

  lemma IdleRunways(s: Session, start: real)
    requires s.action == FileTransfer && s.startedAt == start && s.bytesSent == 1048576 && s.bytesReceived == 0
    ensures Runway(s, 0.06, start + 1.0) == Some(5.0)
    ensures Runway(s, 0.06, start + 20.0) == Some(100.0)
  {
    assert QiConsumed(s, start + 1.0) == 0.01 && QiConsumed(s, start + 20.0) == 0.01;
    assert RatePerSecond(s, start + 1.0) == 0.01 && RatePerSecond(s, start + 20.0) == 0.0005;
  }

  /** For data sessions escalation fails even with a constant balance: a run in which a file transfer goes idle and so
      lowers its own average rate. */
  lemma IdleTransferDeescalates(id: SessionId, start: real)
    ensures var t := Run(State(map[], 0.06, start), [Started(id, FileTransfer, start), Sent(id, 1048576),
                                                     WarningsChecked(start + 1.0), WarningsChecked(start + 20.0)]);
      id in t.sessions && t.sessions[id].sent == [Red, Yellow]
  {
    var t0 := State(map[], 0.06, start);
    RunFour(t0, Started(id, FileTransfer, start), Sent(id, 1048576), WarningsChecked(start + 1.0),
            WarningsChecked(start + 20.0));
    var s := Session(FileTransfer, start, 1048576, 0, 0.0, []);
    IdleRunways(s, start);
    IdleRunways(s.(sent := [Red]), start);
    assert Checked(id, s, 0.06, start + 1.0) == s.(sent := [Red]);
    assert Checked(id, s.(sent := [Red]), 0.06, start + 20.0).sent == [Red, Yellow];
  }
}
