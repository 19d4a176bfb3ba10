/**
 The agent's link to the cloud: the outbound queue (`agent/darkview_agent/link/queue.py`)
 and the session that survives any number of sockets (`agent/darkview_agent/link/session.py`).

 The transport is not modelled beyond this: any call on it may raise. Seconds are monotonic.
 */
module Link {
  import opened Common

  const INITIAL_BACKOFF_SECONDS := 1.0
  const BACKOFF_MULTIPLIER := 2.0
  const MAX_BACKOFF_SECONDS := 60.0
  const DEFAULT_HEARTBEAT_SECONDS := 5.0

  // ------------------------------------------------------------------
  // The queue
  // ------------------------------------------------------------------

  /** Everything appended is sent, queued or dropped; the queue is the recent end of what
      was appended; and what was sent is an in-order part of the rest, all of it when
      nothing was dropped. `sent` holds positions in `appended`. */
  ghost predicate Accounted(messages: seq<string>, dropped: nat, appended: seq<string>, sent: seq<nat>) {
    && |messages| <= |appended|
    && messages == appended[|appended| - |messages|..]
    && |appended| == |sent| + |messages| + dropped
    && (forall i, j :: 0 <= i < j < |sent| ==> sent[i] < sent[j])
    && (forall i :: 0 <= i < |sent| ==> sent[i] < |appended| - |messages|)
    && (dropped == 0 ==> forall i :: 0 <= i < |sent| ==> sent[i] == i)
  }

  class OutboundQueue {
    const capacity: nat
    var messages: seq<string>
    var dropped: nat
    ghost var appended: seq<string>
    ghost var sent: seq<nat>

    ghost predicate Valid()
      reads this
    {
      0 < capacity && |messages| <= capacity && Accounted(messages, dropped, appended, sent)
    }

    constructor (capacity: nat)
      requires capacity > 0
      ensures Valid() && messages == [] && appended == [] && this.capacity == capacity
    {
      this.capacity, messages, dropped, appended, sent := capacity, [], 0, [], [];
    }

    /** A full queue drops its oldest message, and counts it. */
    method Append(payload: string)
      requires Valid()
      modifies this
      ensures Valid() && appended == old(appended) + [payload] && sent == old(sent)
      ensures dropped == old(dropped) + if old(|messages|) >= capacity then 1 else 0
    {
      if |messages| >= capacity {
        messages, dropped := messages[1..], dropped + 1;
      }
      messages, appended := messages + [payload], appended + [payload];
    }

    /** Remove the front message, which has been sent. */
    method Pop() returns (payload: string)
      requires Valid() && messages != []
      modifies this
      ensures Valid() && payload == old(messages)[0] && messages == old(messages)[1..]
      ensures appended == old(appended) && dropped == old(dropped)
      ensures sent == old(sent) + [|appended| - old(|messages|)]
      ensures appended[sent[|sent| - 1]] == payload
    {
      payload := messages[0];
      sent := sent + [|appended| - |messages|];
      messages := messages[1..];
    }
  }

  // ------------------------------------------------------------------
  // What goes over the wire
  // ------------------------------------------------------------------

  /** One socket after another: dialled, greeted, welcomed, used, and failed at last, to be
      dialled again after a wait. `Queued` names a message by its position in what was
      appended. */
  datatype Wire =
    | Dialled(at: real)
    | Hello
    | Welcomed
    | Queued(position: nat)
    | Beat(number: nat)
    | Unqueued
    | Failed(at: real, wait: real)

  /** The socket last dialled has been welcomed. */
  predicate Open(wire: seq<Wire>) {
    wire != [] &&
      var last := wire[|wire| - 1];
      last.Welcomed? || (!last.Dialled? && Open(wire[..|wire| - 1]))
  }

  /** Nothing but a hello goes out before its socket's welcome. */
  predicate Ordered(wire: seq<Wire>) {
    wire != [] ==>
      var (before, last) := (wire[..|wire| - 1], wire[|wire| - 1]);
      Ordered(before) && (last.Queued? || last.Beat? || last.Unqueued? ==> Open(before))
  }

  function Beats(wire: seq<Wire>): seq<nat> {
    if wire == [] then []
    else Beats(wire[..|wire| - 1]) + if wire[|wire| - 1].Beat? then [wire[|wire| - 1].number] else []
  }

  /** 0, 1, 2 and so on, with no gaps. */
  function Counting(n: nat): seq<nat> { seq(n, i requires 0 <= i < n => i) }

  function QueuedOut(wire: seq<Wire>): seq<nat> {
    if wire == [] then []
    else QueuedOut(wire[..|wire| - 1]) + if wire[|wire| - 1].Queued? then [wire[|wire| - 1].position] else []
  }

  lemma WirePush(wire: seq<Wire>, w: Wire)
    ensures Open(wire + [w]) == (w.Welcomed? || (!w.Dialled? && Open(wire)))
    ensures Ordered(wire + [w]) == (Ordered(wire) && (w.Queued? || w.Beat? || w.Unqueued? ==> Open(wire)))
    ensures Beats(wire + [w]) == Beats(wire) + if w.Beat? then [w.number] else []
    ensures QueuedOut(wire + [w]) == QueuedOut(wire) + if w.Queued? then [w.position] else []
  {
    assert (wire + [w])[..|wire|] == wire;
  }

  /** What `Ordered` means at each place: the welcome comes after the last dialling. */
  lemma {:induction false} WelcomeComesFirst(wire: seq<Wire>, i: nat)
    requires Ordered(wire) && i < |wire| && (wire[i].Queued? || wire[i].Beat? || wire[i].Unqueued?)
    ensures exists j :: 0 <= j < i && wire[j].Welcomed? && forall k :: j < k < i ==> !wire[k].Dialled?
  {
    if i == |wire| - 1 {
      OpenMeans(wire[..i]);
    } else {
      var before := wire[..|wire| - 1];
      WelcomeComesFirst(before, i);
      var j :| 0 <= j < i && before[j].Welcomed? && forall k :: j < k < i ==> !before[k].Dialled?;
      assert wire[j].Welcomed? && forall k :: j < k < i ==> wire[k] == before[k];
    }
  }

  lemma {:induction false} OpenMeans(wire: seq<Wire>)
    requires Open(wire)
    ensures exists j :: 0 <= j < |wire| && wire[j].Welcomed? && forall k :: j < k < |wire| ==> !wire[k].Dialled?
  {
    var n := |wire| - 1;
    if !wire[n].Welcomed? {
      OpenMeans(wire[..n]);
      var j :| 0 <= j < n && wire[..n][j].Welcomed? && forall k :: j < k < n ==> !wire[..n][k].Dialled?;
      assert forall k :: j < k < n ==> wire[k] == wire[..n][k];
    }
  }

  // ------------------------------------------------------------------
  // Backing off
  // ------------------------------------------------------------------

  function Power2(k: nat): (r: real)
    ensures r >= 1.0
  {
    if k == 0 then 1.0 else 2.0 * Power2(k - 1)
  }

  /** How long the `k`-th failure in a row waits. */
  function Wait(k: nat): real
    requires k >= 1
  {
    if Power2(k - 1) <= MAX_BACKOFF_SECONDS then Power2(k - 1) else MAX_BACKOFF_SECONDS
  }

  function Doubled(backoff: real): real {
    if backoff * BACKOFF_MULTIPLIER <= MAX_BACKOFF_SECONDS then backoff * BACKOFF_MULTIPLIER else MAX_BACKOFF_SECONDS
  }

  lemma WaitDoubles(k: nat)
    requires k >= 1
    ensures Doubled(Wait(k)) == Wait(k + 1)
  {
  }

  /** Failures since the last welcome. */
  function InARow(wire: seq<Wire>): nat {
    if wire == [] || wire[|wire| - 1].Welcomed? then 0
    else InARow(wire[..|wire| - 1]) + if wire[|wire| - 1].Failed? then 1 else 0
  }

  /** The wait after the last failure is over. */
  predicate WaitedOut(wire: seq<Wire>, now: real) {
    wire != [] ==>
      var last := wire[|wire| - 1];
      if last.Failed? then now >= last.at + last.wait else WaitedOut(wire[..|wire| - 1], now)
  }

  /** Each failure waits for as long as its place in the row says, and nothing is dialled
      before that. */
  predicate Patient(wire: seq<Wire>) {
    wire != [] ==>
      var (before, last) := (wire[..|wire| - 1], wire[|wire| - 1]);
      && Patient(before)
      && (last.Failed? ==> last.wait == Wait(InARow(before) + 1))
      && (last.Dialled? ==> WaitedOut(before, last.at))
  }

  lemma PatientPush(wire: seq<Wire>, w: Wire)
    ensures InARow(wire + [w]) == if w.Welcomed? then 0 else InARow(wire) + if w.Failed? then 1 else 0
    ensures forall now :: WaitedOut(wire + [w], now) == if w.Failed? then now >= w.at + w.wait else WaitedOut(wire, now)
    ensures Patient(wire + [w]) == (&& Patient(wire)
                                    && (w.Failed? ==> w.wait == Wait(InARow(wire) + 1))
                                    && (w.Dialled? ==> WaitedOut(wire, w.at)))
  {
    assert (wire + [w])[..|wire|] == wire;
  }

  lemma {:induction false} WaitedOutLater(wire: seq<Wire>, now: real, later: real)
    requires WaitedOut(wire, now) && now <= later
    ensures WaitedOut(wire, later)
  {
    if wire != [] && !wire[|wire| - 1].Failed? {
      WaitedOutLater(wire[..|wire| - 1], now, later);
    }
  }

  /** What `Patient` means at each place. */
  lemma {:induction false} PatientMeans(wire: seq<Wire>, i: nat)
    requires Patient(wire) && i < |wire|
    ensures wire[i].Failed? ==> wire[i].wait == Wait(InARow(wire[..i]) + 1)
    ensures wire[i].Dialled? ==> forall j :: 0 <= j < i && wire[j].Failed? && (forall k :: j < k < i ==> !wire[k].Failed?) ==>
                                   wire[i].at >= wire[j].at + wire[j].wait
  {
    var before := wire[..|wire| - 1];
    if i < |wire| - 1 {
      PatientMeans(before, i);
      assert before[..i] == wire[..i];
    } else if wire[i].Dialled? {
      forall j | 0 <= j < i && wire[j].Failed? && (forall k :: j < k < i ==> !wire[k].Failed?)
        ensures wire[i].at >= wire[j].at + wire[j].wait
      {
        WaitedOutMeans(before, wire[i].at, j);
      }
    }
  }

  lemma {:induction false} WaitedOutMeans(wire: seq<Wire>, now: real, j: nat)
    requires WaitedOut(wire, now) && j < |wire| && wire[j].Failed? && forall k :: j < k < |wire| ==> !wire[k].Failed?
    ensures now >= wire[j].at + wire[j].wait
  {
    if j < |wire| - 1 {
      WaitedOutMeans(wire[..|wire| - 1], now, j);
    }
  }

  // ------------------------------------------------------------------
  // The session
  // ------------------------------------------------------------------

  datatype State = Disconnected | AwaitingWelcome | Online | Refused

  datatype Event =
    | SendOf(payload: string)
    | PumpAt
    | DropNow
    | SendUnqueuedNow

  class LinkSession {
    const queue: OutboundQueue
    var state: State
    var sequence: nat
    var interval: real
    var lastBeat: Option<real>
    var backoff: real
    var nextAttempt: real
    ghost var wire: seq<Wire>

    ghost predicate Valid()
      reads this, queue
    {
      && queue.Valid()
      && Ordered(wire) && (state == Online ==> Open(wire))
      && Beats(wire) == Counting(sequence)
      && QueuedOut(wire) == queue.sent
      && Patient(wire) && backoff == Wait(InARow(wire) + 1)
      && (state == Disconnected ==> WaitedOut(wire, nextAttempt))
    }

    constructor (queue: OutboundQueue, now: real)
      requires queue.Valid() && queue.sent == []
      ensures Valid() && this.queue == queue && state == Disconnected && wire == []
    {
      this.queue, state, sequence := queue, Disconnected, 0;
      interval, lastBeat, backoff, nextAttempt := DEFAULT_HEARTBEAT_SECONDS, None, INITIAL_BACKOFF_SECONDS, now;
      wire := [];
    }

    /** The `k`-th failure in a row waits min(2^(k-1), 60) seconds. */
    method ScheduleRetry(now: real)
      requires Valid()
      modifies this`state, this`nextAttempt, this`backoff, this`wire
      ensures Valid() && state == Disconnected
      ensures old(wire) <= wire
      ensures InARow(wire) == InARow(old(wire)) + 1 && wire == old(wire) + [Failed(now, Wait(InARow(wire)))]
      ensures nextAttempt == now + Wait(InARow(wire))
    {
      WaitDoubles(InARow(wire) + 1);
      Note(Failed(now, backoff));
      state, nextAttempt := Disconnected, now + backoff;
      backoff := Doubled(backoff);
    }

    /** One thing more on the wire. */
    ghost method Note(w: Wire)
      modifies this`wire
      ensures wire == old(wire) + [w]
      ensures Open(wire) == (w.Welcomed? || (!w.Dialled? && Open(old(wire))))
      ensures Ordered(wire) == (Ordered(old(wire)) && (w.Queued? || w.Beat? || w.Unqueued? ==> Open(old(wire))))
      ensures Beats(wire) == Beats(old(wire)) + if w.Beat? then [w.number] else []
      ensures QueuedOut(wire) == QueuedOut(old(wire)) + if w.Queued? then [w.position] else []
      ensures InARow(wire) == if w.Welcomed? then 0 else InARow(old(wire)) + if w.Failed? then 1 else 0
      ensures forall now :: WaitedOut(wire, now) == if w.Failed? then now >= w.at + w.wait else WaitedOut(old(wire), now)
      ensures Patient(wire) == (&& Patient(old(wire))
                                && (w.Failed? ==> w.wait == Wait(InARow(old(wire)) + 1))
                                && (w.Dialled? ==> WaitedOut(old(wire), w.at)))
    {
      WirePush(wire, w);
      PatientPush(wire, w);
      wire := wire + [w];
    }

    /** Empty the queue from the front until it is empty or a send raises. */
    method Drain() returns (raised: bool)
      requires Valid() && state == Online
      modifies this`wire, queue
      ensures Valid()
      ensures queue.appended == old(queue.appended) && queue.dropped == old(queue.dropped)
      ensures old(wire) <= wire && InARow(wire) == InARow(old(wire))
      ensures !raised ==> queue.messages == []
    {
      raised := false;
      while queue.messages != []
        invariant Valid()
        invariant queue.appended == old(queue.appended) && queue.dropped == old(queue.dropped)
        invariant old(wire) <= wire && InARow(wire) == InARow(old(wire))
        decreases |queue.messages|
      {
        raised := *;
        if raised { return; }
        SendFront();
      }
    }

    method SendFront()
      requires Valid() && state == Online && queue.messages != []
      modifies this`wire, queue
      ensures Valid() && |queue.messages| < old(|queue.messages|)
      ensures queue.appended == old(queue.appended) && queue.dropped == old(queue.dropped)
      ensures old(wire) <= wire && InARow(wire) == InARow(old(wire))
    {
      Note(Queued(|queue.appended| - |queue.messages|));
      var _ := queue.Pop();
    }

    /** Queue a message, then drain if online. It never raises. */
    method Send(payload: string, now: real)
      requires Valid()
      modifies this, queue
      ensures Valid() && queue.appended == old(queue.appended) + [payload] && old(wire) <= wire
      ensures if old(state) == Online then state == Disconnected || (state == Online && queue.messages == [])
              else state == old(state) && wire == old(wire)
    {
      queue.Append(payload);
      if state == Online {
        var raised := Drain();
        if raised {
          ScheduleRetry(now);
        }
      }
    }

    /** A live frame or a telemetry sample: sent now or not at all. */
    method SendUnqueued(now: real) returns (went: bool)
      requires Valid()
      modifies this
      ensures Valid() && queue.sent == old(queue.sent) && old(wire) <= wire
      ensures went ==> old(state) == state == Online && wire == old(wire) + [Unqueued]
      ensures !went ==> if old(state) == Online then state == Disconnected && wire[|wire| - 1].Failed?
                        else state == old(state) && wire == old(wire)
    {
      if state != Online { return false; }
      var raised: bool := *;
      if raised {
        ScheduleRetry(now);
        return false;
      }
      Note(Unqueued);
      return true;
    }

    method Drop(now: real)
      requires Valid()
      modifies this
      ensures Valid() && old(wire) <= wire && state == Disconnected
      ensures old(state) == Disconnected ==> wire == old(wire)
      ensures old(state) != Disconnected ==> wire == old(wire) + [Failed(now, Wait(InARow(old(wire)) + 1))]
    {
      if state != Disconnected {
        ScheduleRetry(now);
      }
    }

    method AttemptConnect(now: real)
      requires Valid() && state == Disconnected
      modifies this
      ensures Valid() && (state == AwaitingWelcome || state == Disconnected)
      ensures now < old(nextAttempt) ==> state == Disconnected && wire == old(wire)
      ensures now >= old(nextAttempt) ==>
                wire == old(wire) + [Dialled(now)]
                        + [if state == AwaitingWelcome then Hello else Failed(now, Wait(InARow(old(wire)) + 1))]
      ensures sequence == old(sequence) && queue.sent == old(queue.sent)
    {
      if now < nextAttempt { return; }
      WaitedOutLater(wire, nextAttempt, now);
      Note(Dialled(now));
      Connect(now);
    }

    /** The socket opens and the hello goes out, or one of them fails. */
    method Connect(now: real)
      requires Valid() && state == Disconnected
      modifies this`state, this`nextAttempt, this`backoff, this`wire
      ensures Valid() && (state == AwaitingWelcome || state == Disconnected)
      ensures wire == old(wire) + [if state == AwaitingWelcome then Hello else Failed(now, Wait(InARow(old(wire)) + 1))]
    {
      var raised: bool := *;
      if raised {
        ScheduleRetry(now);
      } else {
        state := AwaitingWelcome;
        Greet(now);
      }
    }

    method Greet(now: real)
      requires Valid() && state == AwaitingWelcome
      modifies this`state, this`nextAttempt, this`backoff, this`wire
      ensures Valid() && (state == AwaitingWelcome || state == Disconnected)
      ensures wire == old(wire) + [if state == AwaitingWelcome then Hello else Failed(now, Wait(InARow(old(wire)) + 1))]
    {
      var raised: bool := *;
      if raised {
        ScheduleRetry(now);
      } else {
        Note(Hello);
      }
    }

    /** The welcome brings the link online, unless the cloud speaks another version: then
        the session is over. */
    method HandleWelcome(sameVersion: bool, interval: Option<real>) returns (raised: bool)
      requires Valid() && state in {AwaitingWelcome, Online}
      modifies this, queue
      ensures Valid() && queue.appended == old(queue.appended)
      ensures state == (if sameVersion then Online else Refused) && old(wire) <= wire
      ensures sequence == old(sequence)
      ensures sameVersion ==> InARow(wire) == 0 && lastBeat.None? && (!raised ==> queue.messages == [])
      ensures sameVersion ==>
                this.interval == if interval in {None, Some(0.0)} then DEFAULT_HEARTBEAT_SECONDS else interval.value
      ensures !sameVersion ==> !raised && wire == old(wire) && queue.messages == old(queue.messages)
    {
      if !sameVersion {
        state := State.Refused;
        return false;
      }
      ComeOnline(interval);
      raised := Drain();
    }

    method ComeOnline(interval: Option<real>)
      requires Valid() && state in {AwaitingWelcome, Online}
      modifies this`wire, this`interval, this`state, this`backoff, this`lastBeat
      ensures Valid() && state == Online && wire == old(wire) + [Welcomed] && InARow(wire) == 0 && lastBeat.None?
      ensures this.interval == if interval in {None, Some(0.0)} then DEFAULT_HEARTBEAT_SECONDS else interval.value
    {
      Note(Welcomed);
      this.interval := if interval in {None, Some(0.0)} then DEFAULT_HEARTBEAT_SECONDS else interval.value;
      state, backoff, lastBeat := Online, INITIAL_BACKOFF_SECONDS, None;
    }

    method ReadAvailable() returns (raised: bool)
      requires Valid() && state in {AwaitingWelcome, Online}
      modifies this, queue
      ensures Valid() && queue.appended == old(queue.appended) && state in {AwaitingWelcome, Online, Refused}
      ensures sequence == old(sequence) && old(wire) <= wire && (raised ==> state != Refused)
    {
      var arriving: nat := *;
      raised := false;
      while arriving > 0
        invariant Valid() && queue.appended == old(queue.appended) && state in {AwaitingWelcome, Online}
        invariant sequence == old(sequence) && old(wire) <= wire
      {
        raised := *;
        if raised { return; }
        var welcome: bool := *;
        if welcome {
          var sameVersion: bool, every: Option<real> := *, *;
          raised := HandleWelcome(sameVersion, every);
          if raised || state == State.Refused { return; }
        }
        arriving := arriving - 1;
      }
    }

    method SendHeartbeatIfDue(now: real) returns (raised: bool)
      requires Valid() && state == Online
      modifies this`wire, this`sequence, this`lastBeat
      ensures Valid() && state == Online && old(wire) <= wire
      ensures raised ==> sequence == old(sequence)
      ensures !raised ==> sequence == old(sequence) + if old(lastBeat.Some? && now - lastBeat.value < interval) then 0 else 1
      ensures !raised ==> if sequence == old(sequence) then wire == old(wire) && lastBeat == old(lastBeat)
                          else wire == old(wire) + [Beat(old(sequence))] && lastBeat == Some(now)
    {
      raised := false;
      if lastBeat.Some? && now - lastBeat.value < interval { return; }
      raised := *;
      if raised { return; }
      Note(Beat(sequence));
      sequence, lastBeat := sequence + 1, Some(now);
    }

    /** The last heartbeat went out now, or less than an interval ago. */
    predicate BeatIsCurrent(now: real)
      reads this
    {
      lastBeat.Some? && (lastBeat.value == now || now - lastBeat.value < interval)
    }

    /** One poll of the session. A refused one does nothing; a disconnected one dials when its
        wait is over; a closed socket is a failure, and so is whatever raises; and one that is
        online afterwards has beaten in time and sent everything it had. `open`: the socket was. */
    method Pump(now: real) returns (open: bool, raised: bool)
      requires Valid()
      modifies this, queue
      ensures Valid() && queue.appended == old(queue.appended) && old(wire) <= wire
      ensures old(state) == Refused ==> state == Refused && wire == old(wire) && queue.messages == old(queue.messages)
      ensures old(state) == Disconnected ==>
                if now < old(nextAttempt) then wire == old(wire) && state == Disconnected
                else wire == old(wire) + [Dialled(now)]
                             + [if state == AwaitingWelcome then Hello else Failed(now, Wait(InARow(old(wire)) + 1))]
      ensures old(state) in {AwaitingWelcome, Online} ==>
                && (!open ==> state == Disconnected && wire == old(wire) + [Failed(now, Wait(InARow(old(wire)) + 1))])
                && (open && raised ==> state == Disconnected && wire != [] && wire[|wire| - 1].Failed?)
                && (open && !raised && state == Online ==> queue.messages == [] && BeatIsCurrent(now))
                && (open && !raised ==> state != Disconnected)
    {
      open, raised := true, false;
      if state == State.Refused { return; }
      if state == Disconnected {
        AttemptConnect(now);
        return;
      }
      open := *;
      if !open {
        ScheduleRetry(now);
        return;
      }
      raised := ReadAvailable();
      if !raised && state == Online {
        raised := Attend(now);
      }
      if raised {
        ScheduleRetry(now);
      }
    }

    /** A heartbeat if one is due, then the queue. */
    method Attend(now: real) returns (raised: bool)
      requires Valid() && state == Online
      modifies this`wire, this`sequence, this`lastBeat, queue
      ensures Valid() && queue.appended == old(queue.appended) && old(wire) <= wire
      ensures !raised ==> queue.messages == [] && BeatIsCurrent(now)
    {
      raised := SendHeartbeatIfDue(now);
      if !raised {
        raised := Drain();
      }
    }

    /** Across any number of sockets and failures. */
    method Run(events: seq<Event>)
      requires Valid()
      modifies this, queue
      ensures Valid()
      ensures Accounted(queue.messages, queue.dropped, queue.appended, queue.sent)
      ensures Ordered(wire) && QueuedOut(wire) == queue.sent && Beats(wire) == Counting(sequence)
      ensures Patient(wire) && old(wire) <= wire
    {
      for i := 0 to |events|
        invariant Valid() && old(wire) <= wire
      {
        var now: real := *;
        match events[i] {
          case SendOf(payload) => Send(payload, now);
          case PumpAt => var _, _ := Pump(now);
          case DropNow => Drop(now);
          case SendUnqueuedNow => var _ := SendUnqueued(now);
        }
      }
    }
  }
}
