/**
 The names shared by the mission runner and the cloud: mission states, failure reasons,
 the cloud's own table of legal transitions (`apps/realtime/src/link/store.ts`), and what
 it means for a history of events to follow that table.
 */
module Missions {
  datatype State =
    | Scheduled | Preparing | Slewing | Verifying | Centering | Observing | Capturing | Processing
    | Complete | Failed | Cancelled | HardwareError | WeatherHold | NotVisible

  predicate Terminal(s: State) {
    s in {Complete, Failed, Cancelled, HardwareError, WeatherHold, NotVisible}
  }

  datatype Reason =
    | SafetyRefused | SafetyUnmeasured | SlewTimeout | PlateSolveFailed | CenteringExhausted
    | SessionExpired | DeviceFault | OperatorAbort | CustomerCancelled | LinkLost | WeatherUnsafe

  /** Reasons only the runner itself gives. */
  predicate RunnersOwn(r: Reason) {
    r in {SafetyRefused, SafetyUnmeasured, SlewTimeout, PlateSolveFailed, CenteringExhausted,
          SessionExpired}
  }

  predicate Live(s: State) {
    s in {Preparing, Slewing, Verifying, Centering, Observing, Capturing, Processing}
  }

  /** The states the cloud accepts an event from, per the state it reports. Re-reporting a
      state is also legal to the cloud; the runner never needs it. */
  predicate LegalPredecessor(to: State, from: State) {
    match to
    case Scheduled => false
    case Preparing => from in {Scheduled, WeatherHold, NotVisible, HardwareError}
    case Slewing => from in {Preparing, Centering, Observing}
    case Verifying => from == Slewing
    case Centering => from == Verifying
    case Observing => from in {Verifying, Processing}
    case Capturing => from == Observing
    case Processing => from == Capturing
    case Complete => from in {Processing, Observing}
    case _ => Live(from) || from == Scheduled
  }

  /** One transition, and which offered mission (counting offers) it belongs to. */
  datatype Event = Event(mission: nat, state: State)

  /** A new mission starts at PREPARING once the one before it has ended; within a mission
      every step is one the cloud's table allows, and none follows the ending. (The cloud
      would also let a hold be lifted; the agent starts a new mission instead.) */
  predicate Follows(a: Event, b: Event) {
    if a.mission == b.mission then !Terminal(a.state) && LegalPredecessor(b.state, a.state)
    else b.mission == a.mission + 1 && b.state == Preparing && Terminal(a.state)
  }

  ghost predicate LegalHistory(h: seq<Event>) {
    && (h != [] ==> h[0] == Event(1, Preparing))
    && forall i, j :: 0 <= i && i + 1 == j < |h| ==> Follows(h[i], h[j])
  }

  lemma LegalAppend(h: seq<Event>, e: Event)
    requires LegalHistory(h)
    requires if h == [] then e == Event(1, Preparing) else Follows(h[|h| - 1], e)
    ensures LegalHistory(h + [e])
  {
  }

  ghost predicate MissionsInOrder(h: seq<Event>) {
    forall i, j :: 0 <= i <= j < |h| ==> h[i].mission <= h[j].mission
  }

  lemma {:induction false} LegalHistoryInOrder(h: seq<Event>)
    requires LegalHistory(h)
    ensures MissionsInOrder(h)
  {
    if |h| > 1 {
      var n := |h| - 1;
      LegalHistoryInOrder(h[..n]);
      assert Follows(h[n - 1], h[n]);
      forall i | 0 <= i < n ensures h[i].mission <= h[n].mission {
        assert h[..n][i].mission <= h[..n][n - 1].mission;
      }
    }
  }

  /** Two missions are never active together: by the time a later one has an event, the
      earlier one has ended, and it has no event after its ending. */
  lemma {:induction false} OneMissionAtATime(h: seq<Event>, i: nat, j: nat)
    requires LegalHistory(h) && i < j < |h| && h[i].mission < h[j].mission
    ensures exists k :: i <= k < j && h[k].mission == h[i].mission && Terminal(h[k].state)
    decreases j - i
  {
    assert Follows(h[i], h[i + 1]);
    if h[i + 1].mission == h[i].mission {
      OneMissionAtATime(h, i + 1, j);
    }
  }

  /** A terminal state is left only by a new offer. */
  lemma {:induction false} EndedStaysEnded(h: seq<Event>, i: nat, j: nat)
    requires LegalHistory(h) && i < j < |h| && Terminal(h[i].state)
    ensures h[j].mission > h[i].mission
  {
    LegalHistoryInOrder(h);
    assert Follows(h[i], h[i + 1]);
  }
}
