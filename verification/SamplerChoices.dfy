/** What choosing and pruning A0 candidates amounts to over whole runs of the sampler: the choice is made as if no
    candidate were ever dropped. */
module SamplerChoices {
  import opened Common
  import opened SamplerModel
  import opened SamplerProofs
  import AckHeights

  // ---------- What happens to the candidates ----------

  /** A send out of quiescence starts the candidates afresh. */
  predicate Restarts(s: Sampler, e: Event) {
    e.Sent? && e.isRetransmittable && e.bytesInFlight == 0 && s.overestimateAvoidance
  }

  /** An ack that takes its earlier point from the candidates. */
  predicate Chooses(s: Sampler, e: Event) {
    && e.Acknowledged? && e.number in s.packets
    && s.packets[e.number].lastAckedSentTime != NO_TIME && ChoosesA0(s)
  }

  function Target(s: Sampler, e: Event): nat
    requires Chooses(s, e)
  {
    s.packets[e.number].state.totalBytesAcked
  }

  /** The end of an ack event that saves a candidate. */
  predicate Saves(s: Sampler, e: Event) { e.AckEventEnd? && Step(s, e).candidates != s.candidates }

  lemma StepOnCandidates(s: Sampler, e: Event)
    requires Inv(s)
    ensures Step(s, e).candidates ==
              if Restarts(s, e) then [AckPoint(e.time, s.totalBytesAcked)]
              else if Chooses(s, e) then PrunedA0(s.candidates, Target(s, e))
              else if Saves(s, e) then s.candidates + [s.recent.LessRecent()]
              else s.candidates
  {
    hide PrunedA0;
    hide ChosenA0;
    hide BandwidthFromDelta;
    hide Inv;
    if e.AckEventEnd? {
      hide AckHeights.UpdatedTracker;
      if s.overestimateAvoidance {
        EpochsSaveCandidates(s, e.bandwidth, e.isNewMaxBandwidth, e.round);
      }
    }
  }

  // ---------- All candidates since the last restart ----------

  function NextSaved(s: Sampler, e: Event, saved: seq<AckPoint>): seq<AckPoint> {
    if Restarts(s, e) then [AckPoint(e.time, s.totalBytesAcked)]
    else if Saves(s, e) then saved + [s.recent.LessRecent()]
    else saved
  }

  /** All candidates saved since the last restart, none of them dropped. */
  ghost function Saved(window: nat, events: seq<Event>): seq<AckPoint> {
    if events == [] then []
    else
      var past, e := events[..|events| - 1], events[|events| - 1];
      NextSaved(After(window, past), e, Saved(window, past))
  }

  function NextTarget(s: Sampler, e: Event, latest: nat): nat {
    if Restarts(s, e) then 0 else if Chooses(s, e) then Target(s, e) else latest
  }

  /** The latest target since the last restart. */
  ghost function LatestTarget(window: nat, events: seq<Event>): nat {
    if events == [] then 0
    else
      var past, e := events[..|events| - 1], events[|events| - 1];
      NextTarget(After(window, past), e, LatestTarget(window, past))
  }

  /** Between restarts the targets do not fall. */
  ghost predicate TargetsRise(window: nat, events: seq<Event>) {
    forall i :: 0 <= i < |events| && Chooses(After(window, events[..i]), events[i]) ==>
                  LatestTarget(window, events[..i]) <= Target(After(window, events[..i]), events[i])
  }

  /** The kept candidates are all saved ones but a prefix, which ends before a point not above the latest target. */
  ghost predicate IsHarmless(kept: seq<AckPoint>, saved: seq<AckPoint>, latest: nat, dropped: nat) {
    && Sorted(saved) && dropped <= |saved| && kept == saved[dropped..]
    && (dropped == 0 || (dropped < |saved| && saved[dropped].bytes <= latest))
  }

  lemma PruningStaysHarmless(kept: seq<AckPoint>, saved: seq<AckPoint>, latest: nat, target: nat, dropped: nat)
    returns (dropped': nat)
    requires IsHarmless(kept, saved, latest, dropped) && kept != [] && latest <= target
    ensures IsHarmless(PrunedA0(kept, target), saved, target, dropped')
  {
    var more := PrunedIsSuffix(kept, target);
    hide PrunedA0;
    var first := FirstAbove(kept, 1, target) - 1;
    dropped' := dropped + more;
    assert saved[dropped..][more..] == saved[dropped'..];
    assert saved[dropped'] == kept[more] && saved[dropped + first] == kept[first];
    assert first > 0 ==> kept[first].bytes <= target;
  }

  lemma SavingStaysHarmless(s: Sampler, saved: seq<AckPoint>, latest: nat, dropped: nat)
    requires Inv(s) && IsHarmless(s.candidates, saved, latest, dropped)
    ensures IsHarmless(s.candidates + [s.recent.LessRecent()], saved + [s.recent.LessRecent()], latest, dropped)
  {
    var point := s.recent.LessRecent();
    assert saved != [] ==> saved[|saved| - 1] == s.candidates[|s.candidates| - 1];
    assert (saved + [point])[dropped..] == saved[dropped..] + [point];
  }

  lemma StepStaysHarmless(s: Sampler, e: Event, saved: seq<AckPoint>, latest: nat, dropped: nat) returns (dropped': nat)
    requires Inv(s) && IsHarmless(s.candidates, saved, latest, dropped)
    requires Chooses(s, e) ==> latest <= Target(s, e)
    ensures IsHarmless(Step(s, e).candidates, NextSaved(s, e, saved), NextTarget(s, e, latest), dropped')
  {
    StepOnCandidates(s, e);
    hide Inv;
    hide Step;
    hide Restarts;
    hide PrunedA0;
    dropped' := dropped;
    if Restarts(s, e) {
      dropped' := 0;
    } else if Chooses(s, e) {
      dropped' := PruningStaysHarmless(s.candidates, saved, latest, Target(s, e), dropped);
    } else if Saves(s, e) {
      SavingStaysHarmless(s, saved, latest, dropped);
    }
  }

  lemma {:induction false} AlwaysHarmless(window: nat, events: seq<Event>) returns (dropped: nat)
    requires Admissible(window, events) && TargetsRise(window, events)
    ensures IsHarmless(After(window, events).candidates, Saved(window, events), LatestTarget(window, events), dropped)
  {
    hide Inv;
    hide Step;
    hide Allowed;
    hide Chooses;
    hide NextSaved;
    hide NextTarget;
    if events == [] {
      return 0;
    }
    var n := |events| - 1;
    var past := events[..n];
    assert forall i :: 0 <= i < n ==> past[i] == events[i] && past[..i] == events[..i];
    dropped := AlwaysHarmless(window, past);
    AlwaysInv(window, past);
    dropped := StepStaysHarmless(After(window, past), events[n], Saved(window, past), LatestTarget(window, past), dropped);
  }

  /** On every run whose targets do not fall between restarts, every ack that takes its earlier point from the candidates
      takes the latest not above its target, or the oldest if there is none, among all candidates saved since the last
      restart: dropping candidates, partial as it is, never shows. */
  lemma ChoicesIgnorePruning(window: nat, events: seq<Event>, e: Event) returns (j: nat)
    requires Admissible(window, events) && TargetsRise(window, events + [e]) && Chooses(After(window, events), e)
    ensures var s, saved := After(window, events), Saved(window, events);
            && IsLatestBelow(saved, Target(s, e), j)
            && A0(Credited(s, e.time, e.number), s.packets[e.number]) == saved[j]
  {
    hide Chooses;
    hide Target;
    hide After;
    hide IsLatestBelow;
    var all, n := events + [e], |events|;
    assert forall i :: 0 <= i <= n ==> all[..i] == events[..i];
    assert events[..n] == events && all[n] == e && forall i :: 0 <= i < n ==> all[i] == events[i];
    var dropped := AlwaysHarmless(window, events);
    var s, saved := After(window, events), Saved(window, events);
    assert LatestTarget(window, all[..n]) <= Target(After(window, all[..n]), all[n]);
    j := ChoiceFromAll(s, e, saved, LatestTarget(window, events), dropped);
  }

  lemma ChoiceFromAll(s: Sampler, e: Event, saved: seq<AckPoint>, latest: nat, dropped: nat) returns (j: nat)
    requires Chooses(s, e) && IsHarmless(s.candidates, saved, latest, dropped) && latest <= Target(s, e)
    ensures IsLatestBelow(saved, Target(s, e), j)
    ensures A0(Credited(s, e.time, e.number), s.packets[e.number]) == saved[j]
  {
    var target := Target(s, e);
    DroppingIsHarmless(saved, dropped, dropped, target);
    ChoiceIsLatestBelow(saved, target);
    j := FirstAbove(saved, 1, target) - 1;
  }

  /** With a falling target it can show: after a choice for 15 bytes, a target of 5 no longer finds the point at 0. */
  lemma FallingTargetsMatter()
    ensures var saved := [AckPoint(1, 0), AckPoint(2, 10), AckPoint(3, 20)];
            ChosenA0(PrunedA0(saved, 15), 5).bytes == 10 && ChosenA0(saved, 5).bytes == 0
  {
    var saved := [AckPoint(1, 0), AckPoint(2, 10), AckPoint(3, 20)];
    assert FirstAbove(saved, 1, 15) == 2 && FirstAbove(saved, 1, 5) == 1;
    assert PrunedA0(saved, 15) == [AckPoint(2, 10), AckPoint(3, 20)];
  }
}
