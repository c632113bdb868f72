/**
 * Time on chain. Events carry no clock, so a run's timeline pairs each logged
 * event with the clock at the action that logged it; the deadlines the
 * contract keeps are then statements about clock values alone.
 */
module Timing {
  import opened Base
  import opened ChannelSpec
  import opened ChannelHistory
  import opened Protocol
  import opened Safety
  import opened Theorems

  datatype Stamped = Stamped(event: Event, at: nat)

  /** The event an action logs, if any, and when. */
  function StampOf(p: Params, w: World, a: Action): seq<Stamped> {
    var log := Step(p, w, a).ch.log;
    if |log| > |w.ch.log| then [Stamped(log[|log| - 1], w.now)] else []
  }

  function TimelineFrom(p: Params, w: World, before: seq<Stamped>, acts: seq<Action>): seq<Stamped>
    decreases |acts|
  {
    if acts == [] then before
    else TimelineFrom(p, Step(p, w, acts[0]), before + StampOf(p, w, acts[0]), acts[1..])
  }

  function Timeline(p: Params, w0: World, acts: seq<Action>): seq<Stamped> { TimelineFrom(p, w0, [], acts) }

  predicate Opens(s: Stamped, id: ChannelId) { s.event.ChannelOpened? && s.event.id == id }

  predicate Reclaims(s: Stamped, id: ChannelId) { s.event.ChannelReclaimed? && s.event.id == id }

  predicate Challenges(s: Stamped, id: ChannelId) { IsChallenge(s.event, id) }

  /** The challenge that opens the window. */
  predicate FirstChallenge(tl: seq<Stamped>, k: nat, id: ChannelId) {
    k < |tl| && Challenges(tl[k], id) && forall j :: 0 <= j < k ==> !Challenges(tl[j], id)
  }

  // ---- The invariant ----

  predicate IsTimeline(w: World, tl: seq<Stamped>) {
    && |tl| == |w.ch.log|
    && (forall k :: 0 <= k < |tl| ==> tl[k].event == w.ch.log[k] && tl[k].at <= w.now)
    && (forall j, k :: 0 <= j < k < |tl| ==> tl[j].at <= tl[k].at)
  }

  /** What the contract recorded when it was opened is the clock. */
  ghost predicate OpenedOnTime(w: World, tl: seq<Stamped>, id: ChannelId) {
    forall k :: 0 <= k < |tl| && Opens(tl[k], id) && tl[k].at < U64_LIMIT ==> Chan(w, id).openedAt == tl[k].at
  }

  ghost predicate DeadlineOnTime(p: Params, tl: seq<Stamped>, id: ChannelId) {
    forall k: nat :: FirstChallenge(tl, k, id) && tl[k].at < U64_LIMIT ==>
      tl[k].event.deadline == tl[k].at + p.cfg.challengeWindow
  }

  predicate NotBefore(p: Params, o: Stamped, r: Stamped) {
    o.at < U64_LIMIT ==> r.at >= o.at + p.cfg.reclaimTimeout
  }

  ghost predicate ReclaimedOnTime(p: Params, tl: seq<Stamped>, id: ChannelId) {
    forall j :: 0 <= j < |tl| && Reclaims(tl[j], id) ==> ReclaimedAt(p, tl, id, j)
  }

  /** There is an opening before, and the timeout has passed since. */
  ghost predicate ReclaimedAt(p: Params, tl: seq<Stamped>, id: ChannelId, j: nat)
    requires j < |tl|
  {
    && (exists k :: 0 <= k < j && Opens(tl[k], id))
    && (forall k :: 0 <= k < |tl| && Opens(tl[k], id) ==> NotBefore(p, tl[k], tl[j]))
  }

  ghost predicate OnTime(p: Params, w: World, tl: seq<Stamped>, id: ChannelId) {
    OpenedOnTime(w, tl, id) && DeadlineOnTime(p, tl, id) && ReclaimedOnTime(p, tl, id)
  }

  ghost predicate TimeInv(p: Params, w: World, tl: seq<Stamped>) {
    IsTimeline(w, tl) && forall id :: OnTime(p, w, tl, id)
  }

  // ---- What the calls record ----

  lemma OpenRecordsClock(p: Params, w: World, sender: Address, cc: ChannelCall)
    requires cc.CallOpen? && ChannelOutcome(p, w, sender, cc).Success? && w.now < U64_LIMIT
    ensures ChannelAt(ChannelOutcome(p, w, sender, cc).value.channels, IdOf(sender, cc)).openedAt == w.now
  {
  }

  lemma ChallengeRecordsDeadline(p: Params, w: World, sender: Address, cc: ChannelCall)
    requires cc.CallChallengeClose? && ChannelOutcome(p, w, sender, cc).Success? && w.now < U64_LIMIT
    ensures ChannelAt(ChannelOutcome(p, w, sender, cc).value.channels, cc.u.id).challengeDeadline
         == w.now + p.cfg.challengeWindow
  {
  }

  lemma {:induction false} OpeningOf(log: seq<Event>, id: ChannelId) returns (k: nat)
    requires TallyOf(log, id).openings > 0
    ensures k < |log| && log[k].ChannelOpened? && log[k].id == id
  {
    k := |log| - 1;
    if !log[k].ChannelOpened? || log[k].id != id { k := OpeningOf(log[..k], id); }
  }

  // ---- Every action keeps it ----

  lemma CallKeepsTime(p: Params, w: World, sender: Address, cc: ChannelCall, tl: seq<Stamped>, id: ChannelId, e: Event)
    requires SafetyInv(p, w) && TimeInv(p, w, tl) && Enabled(p, w, OnChannel(sender, cc))
    requires ChannelOutcome(p, w, sender, cc).Success? && id == IdOf(sender, cc) && e == EventOf(p, w, sender, cc)
    requires Moves(p.cfg, w.ch, ChannelOutcome(p, w, sender, cc).value, sender, id, e)
    ensures TimeInv(p, Step(p, w, OnChannel(sender, cc)), tl + [Stamped(e, w.now)])
  {
    var w1, tl1 := Step(p, w, OnChannel(sender, cc)), tl + [Stamped(e, w.now)];
    assert IdInv(w.ch, id);
    forall other ensures OnTime(p, w1, tl1, other) {
      assert OnTime(p, w, tl, other);
      OpenedKept(p, w, sender, cc, tl, id, e, other);
      DeadlineKept(p, w, sender, cc, tl, id, e, other);
      ReclaimedKept(p, w, sender, cc, tl, id, e, other);
    }
  }

  lemma OpenedKept(p: Params, w: World, sender: Address, cc: ChannelCall, tl: seq<Stamped>, id: ChannelId, e: Event,
                   other: ChannelId)
    requires IdInv(w.ch, id) && IsTimeline(w, tl) && OpenedOnTime(w, tl, other)
    requires ChannelOutcome(p, w, sender, cc).Success? && id == IdOf(sender, cc) && e == EventOf(p, w, sender, cc)
    requires Moves(p.cfg, w.ch, ChannelOutcome(p, w, sender, cc).value, sender, id, e)
    ensures OpenedOnTime(Step(p, w, OnChannel(sender, cc)), tl + [Stamped(e, w.now)], other)
  {
    var w1, tl1 := Step(p, w, OnChannel(sender, cc)), tl + [Stamped(e, w.now)];
    var c, t := ChannelAt(w.ch.channels, id), TallyOf(w.ch.log, id);
    if cc.CallOpen? && w.now < U64_LIMIT { OpenRecordsClock(p, w, sender, cc); }
    forall k | 0 <= k < |tl1| && Opens(tl1[k], other) && tl1[k].at < U64_LIMIT
      ensures Chan(w1, other).openedAt == tl1[k].at
    {
      if k < |tl| && other == id {
        assert tl[k].event in w.ch.log && EventInv(c, t, tl[k].event);
      }
    }
  }

  lemma DeadlineKept(p: Params, w: World, sender: Address, cc: ChannelCall, tl: seq<Stamped>, id: ChannelId, e: Event,
                     other: ChannelId)
    requires IdInv(w.ch, id) && IsTimeline(w, tl) && DeadlineOnTime(p, tl, other)
    requires ChannelOutcome(p, w, sender, cc).Success? && id == IdOf(sender, cc) && e == EventOf(p, w, sender, cc)
    requires Moves(p.cfg, w.ch, ChannelOutcome(p, w, sender, cc).value, sender, id, e)
    ensures DeadlineOnTime(p, tl + [Stamped(e, w.now)], other)
  {
    var tl1, c := tl + [Stamped(e, w.now)], ChannelAt(w.ch.channels, id);
    forall k: nat | FirstChallenge(tl1, k, other) && tl1[k].at < U64_LIMIT
      ensures tl1[k].event.deadline == tl1[k].at + p.cfg.challengeWindow
    {
      if k < |tl| {
        assert forall j :: 0 <= j < k ==> tl1[j] == tl[j];
        assert FirstChallenge(tl, k, other);
      } else if cc.CallSubmitChallenge? {
        var f := ChannelChallenged(id, c.latestNonce, c.latestCumOwed, c.challengeDeadline);
        var j :| 0 <= j < |w.ch.log| && w.ch.log[j] == f;
        assert Challenges(tl1[j], other);
      } else {
        ChallengeRecordsDeadline(p, w, sender, cc);
      }
    }
  }

  lemma ReclaimedIsClosed(w: World, tl: seq<Stamped>, j: nat, id: ChannelId)
    requires IdInv(w.ch, id) && IsTimeline(w, tl) && j < |tl| && Reclaims(tl[j], id)
    ensures Chan(w, id).status == Closed
  {
    assert tl[j].event in w.ch.log && EventInv(Chan(w, id), TallyOf(w.ch.log, id), tl[j].event);
  }

  lemma ReclaimedKept(p: Params, w: World, sender: Address, cc: ChannelCall, tl: seq<Stamped>, id: ChannelId, e: Event,
                      other: ChannelId)
    requires IdInv(w.ch, id) && IsTimeline(w, tl) && OpenedOnTime(w, tl, other) && ReclaimedOnTime(p, tl, other)
    requires ChannelOutcome(p, w, sender, cc).Success? && id == IdOf(sender, cc) && e == EventOf(p, w, sender, cc)
    requires Moves(p.cfg, w.ch, ChannelOutcome(p, w, sender, cc).value, sender, id, e)
    ensures ReclaimedOnTime(p, tl + [Stamped(e, w.now)], other)
  {
    var tl1 := tl + [Stamped(e, w.now)];
    forall j | 0 <= j < |tl1| && Reclaims(tl1[j], other) ensures ReclaimedAt(p, tl1, other, j) {
      if j < |tl| {
        assert ReclaimedAt(p, tl, other, j);
        if id == other { ReclaimedIsClosed(w, tl, j, id); }
        StillReclaimed(p, tl, Stamped(e, w.now), other, j);
      } else {
        var k := OpeningOf(w.ch.log, id);
        assert Opens(tl1[k], other);
      }
    }
  }

  lemma StillReclaimed(p: Params, tl: seq<Stamped>, s: Stamped, id: ChannelId, j: nat)
    requires j < |tl| && ReclaimedAt(p, tl, id, j) && !Opens(s, id)
    ensures ReclaimedAt(p, tl + [s], id, j)
  {
    var k :| 0 <= k < j && Opens(tl[k], id);
    assert Opens((tl + [s])[k], id);
  }

  lemma StepKeepsTime(p: Params, w: World, a: Action, tl: seq<Stamped>)
    requires SafetyInv(p, w) && TimeInv(p, w, tl) && Enabled(p, w, a)
    ensures TimeInv(p, Step(p, w, a), tl + StampOf(p, w, a))
  {
    if a.OnChannel? && ChannelOutcome(p, w, a.sender, a.cc).Success? {
      CallMoves(p, w, a.sender, a.cc);
      CallKeepsTime(p, w, a.sender, a.cc, tl, IdOf(a.sender, a.cc), EventOf(p, w, a.sender, a.cc));
    } else {
      var w1 := Step(p, w, a);
      assert w1.ch.log == w.ch.log && w1.ch.channels == w.ch.channels && w1.now >= w.now;
      assert tl + [] == tl;
      forall id ensures OnTime(p, w1, tl, id) { assert OnTime(p, w, tl, id); }
    }
  }

  lemma {:induction false} TimeRun(p: Params, w: World, tl: seq<Stamped>, acts: seq<Action>)
    requires SafetyInv(p, w) && TimeInv(p, w, tl) && Legal(p, w, acts)
    ensures TimeInv(p, Run(p, w, acts), TimelineFrom(p, w, tl, acts))
    decreases |acts|
  {
    if acts != [] {
      StepKeepsTime(p, w, acts[0], tl);
      SafetyStep(p, w, acts[0]);
      TimeRun(p, Step(p, w, acts[0]), tl + StampOf(p, w, acts[0]), acts[1..]);
    }
  }

  lemma ReachedTime(p: Params, w0: World, acts: seq<Action>, w: World)
    requires Reaches(p, w0, acts, w)
    ensures SafetyInv(p, w) && TimeInv(p, w, Timeline(p, w0, acts))
  {
    InitSafety(p, w0);
    forall id ensures OnTime(p, w0, [], id) {}
    TimeRun(p, w0, [], acts);
    SafetyRun(p, w0, acts);
  }

  // ---- Reclaiming ----

  /**
   * No early reclaim. In every run, an event that reclaims a channel comes after
   * the one that opened it, and not before the reclaim timeout has passed since.
   */
  lemma ReclaimNeverEarly(p: Params, w0: World, acts: seq<Action>, w: World, id: ChannelId, j: nat)
    requires Reaches(p, w0, acts, w)
    requires j < |Timeline(p, w0, acts)| && Reclaims(Timeline(p, w0, acts)[j], id)
    ensures var tl := Timeline(p, w0, acts);
            && IsTimeline(w, tl)
            && (exists k :: 0 <= k < j && Opens(tl[k], id))
            && (forall k :: 0 <= k < |tl| && Opens(tl[k], id) && tl[k].at < U64_LIMIT ==>
                  tl[k].at + p.cfg.reclaimTimeout <= tl[j].at)
  {
    ReachedTime(p, w0, acts, w);
    var tl := Timeline(p, w0, acts);
    assert OnTime(p, w, tl, id) && ReclaimedAt(p, tl, id, j);
    forall k | 0 <= k < |tl| && Opens(tl[k], id) && tl[k].at < U64_LIMIT
      ensures tl[k].at + p.cfg.reclaimTimeout <= tl[j].at
    {
      assert NotBefore(p, tl[k], tl[j]);
    }
  }

  /**
   * And exactly then: while a channel is open, a call to reclaim it succeeds if
   * and only if the client makes it, the timeout has passed since the opening
   * event, and that moment fits the contract's clock.
   */
  lemma ReclaimSucceedsIff(p: Params, w0: World, acts: seq<Action>, w: World, id: ChannelId, k: nat, sender: Address)
    requires Reaches(p, w0, acts, w) && Chan(w, id).status == Open
    requires k < |Timeline(p, w0, acts)| && Opens(Timeline(p, w0, acts)[k], id)
    requires Timeline(p, w0, acts)[k].at < U64_LIMIT
    ensures var opening := Timeline(p, w0, acts)[k];
            ChannelOutcome(p, w, sender, CallReclaim(id)).Success?
            <==> sender == opening.event.client
                 && opening.at + p.cfg.reclaimTimeout <= w.now && opening.at + p.cfg.reclaimTimeout < U64_LIMIT
  {
    ReachedTime(p, w0, acts, w);
    var tl := Timeline(p, w0, acts);
    assert OnTime(p, w, tl, id) && IdInv(w.ch, id);
    assert tl[k].event in w.ch.log && EventInv(Chan(w, id), TallyOf(w.ch.log, id), tl[k].event);
    PayoutSucceeds(p, w, sender, CallReclaim(id));
  }

  // ---- The challenge window ----

  /** While a channel is challenged its deadline is the clock at its first challenge plus the window. */
  lemma DeadlineIsFirstChallengePlusWindow(p: Params, w0: World, acts: seq<Action>, w: World, id: ChannelId)
    returns (k: nat)
    requires Reaches(p, w0, acts, w) && Chan(w, id).status == Challenged
    ensures var tl := Timeline(p, w0, acts);
            && IsTimeline(w, tl) && FirstChallenge(tl, k, id)
            && (tl[k].at < U64_LIMIT ==> Chan(w, id).challengeDeadline == tl[k].at + p.cfg.challengeWindow)
  {
    ReachedTime(p, w0, acts, w);
    var tl, c := Timeline(p, w0, acts), Chan(w, id);
    assert OnTime(p, w, tl, id) && IdInv(w.ch, id);
    var f := ChannelChallenged(id, c.latestNonce, c.latestCumOwed, c.challengeDeadline);
    var j :| 0 <= j < |w.ch.log| && w.ch.log[j] == f;
    k := FirstAmong(tl, id, j);
    assert tl[k].event in w.ch.log && EventInv(c, TallyOf(w.ch.log, id), tl[k].event);
  }

  lemma {:induction false} FirstAmong(tl: seq<Stamped>, id: ChannelId, j: nat) returns (k: nat)
    requires j < |tl| && Challenges(tl[j], id)
    ensures FirstChallenge(tl, k, id)
    decreases j
  {
    if i :| 0 <= i < j && Challenges(tl[i], id) { k := FirstAmong(tl, id, i); } else { k := j; }
  }

  /**
   * The window in clock values: a challenged channel can be finalized, by
   * anyone, exactly once the window has passed since its first challenge; and
   * until then, and no longer, a strictly newer state both parties have signed
   * is accepted.
   */
  lemma WindowByTheClock(p: Params, w0: World, acts: seq<Action>, w: World, k: nat, u: Update, cs: Signature,
                         ns: Signature, sender: Address)
    requires Reaches(p, w0, acts, w) && Chan(w, u.id).status == Challenged
    requires FirstChallenge(Timeline(p, w0, acts), k, u.id) && Timeline(p, w0, acts)[k].at < U64_LIMIT
    ensures var closes, c := Timeline(p, w0, acts)[k].at + p.cfg.challengeWindow, Chan(w, u.id);
            && (ChannelOutcome(p, w, sender, CallFinalize(u.id)).Success? <==> w.now >= closes)
            && (ChannelOutcome(p, w, sender, CallSubmitChallenge(u, cs, ns)).Success?
                <==> w.now < closes && u.nonce > c.latestNonce
                     && cs == Genuine(c.client, u) && ns == Genuine(c.node, u))
  {
    ReachedSafety(p, w0, acts, w);
    var first := DeadlineIsFirstChallengePlusWindow(p, w0, acts, w, u.id);
    assert first == k;
    PayoutSucceeds(p, w, sender, CallFinalize(u.id));
  }

  /** A challenge opens the window now, unless it would close past the contract's clock. */
  lemma ChallengeSucceedsIff(p: Params, w: World, u: Update, cs: Signature, ns: Signature, sender: Address)
    requires w.now < U64_LIMIT
    ensures var c := Chan(w, u.id);
            ChannelOutcome(p, w, sender, CallChallengeClose(u, cs, ns)).Success?
            <==> c.status == Open && cs == Genuine(c.client, u) && ns == Genuine(c.node, u)
                 && w.now + p.cfg.challengeWindow < U64_LIMIT
  {
  }
}
