/**
 * The collision debounce gate: a collision causes a reaction only when more
 * than `EdgeCooldownMs` milliseconds have passed since the last one that did.
 */
module Debounce {

  const EdgeCooldownMs: real := 220.0

  /** Whether a tick at time `now` reacts to its contact, given the last reaction at `lastEdgeAt`. */
  function Admits(collided: bool, now: real, lastEdgeAt: real): (admit: bool)
    ensures admit ==> collided && now > lastEdgeAt + EdgeCooldownMs
    ensures collided && now - lastEdgeAt > EdgeCooldownMs ==> admit
  {
    collided && now - lastEdgeAt > EdgeCooldownMs
  }

  /**
   * The gate only opens on a contact, and once it is open for a contact it
   * stays open as time goes on: waiting longer never blocks a reaction.
   */
  lemma GateStaysArmed(collided: bool, now: real, later: real, lastEdgeAt: real)
    ensures !Admits(false, now, lastEdgeAt)
    ensures Admits(collided, now, lastEdgeAt) && now <= later ==> Admits(collided, later, lastEdgeAt)
  {
  }

  /** The cooldown is strict: a contact exactly `EdgeCooldownMs` after the last reaction is dropped. */
  lemma CooldownIsStrict(lastEdgeAt: real)
    ensures !Admits(true, lastEdgeAt + EdgeCooldownMs, lastEdgeAt)
    ensures Admits(true, lastEdgeAt + EdgeCooldownMs + 1.0, lastEdgeAt)
  {
  }

  /**
   * The times, among the contact times `times`, at which the gate admits a
   * reaction, starting from a last reaction at `last`.
   */
  function AdmittedTimes(last: real, times: seq<real>): (admitted: seq<real>)
    decreases |times|
  {
    if times == [] then []
    else if Admits(true, times[0], last) then [times[0]] + AdmittedTimes(times[0], times[1..])
    else AdmittedTimes(last, times[1..])
  }

  /** The time of the last reaction after a sequence of contacts. */
  function LastAdmitted(last: real, times: seq<real>): (t: real)
    decreases |times|
  {
    if times == [] then last
    else if Admits(true, times[0], last) then LastAdmitted(times[0], times[1..])
    else LastAdmitted(last, times[1..])
  }

  /**
   * A contact appended to a run is admitted exactly when it comes more than
   * the cooldown after the run's last reaction.
   */
  lemma {:induction false} AdmittedTimesSnoc(last: real, times: seq<real>, t: real)
    ensures AdmittedTimes(last, times + [t]) ==
              AdmittedTimes(last, times) + (if t - LastAdmitted(last, times) > EdgeCooldownMs then [t] else [])
    decreases |times|
  {
    if times == [] {
      assert [] + [t] == [t];
      assert [t][1..] == [];
    } else {
      assert (times + [t])[0] == times[0];
      assert (times + [t])[1..] == times[1..] + [t];
      if Admits(true, times[0], last) {
        AdmittedTimesSnoc(times[0], times[1..], t);
      } else {
        AdmittedTimesSnoc(last, times[1..], t);
      }
    }
  }

  /**
   * Admitted reactions are drawn from the contacts, the first comes more than
   * the cooldown after `last`, and consecutive ones are more than the cooldown
   * apart. Conversely the gate re-arms: each contact of the run is admitted
   * exactly when it comes more than the cooldown after the latest admission
   * before it.
   */
  lemma {:induction false} AdmittedTimesSpaced(last: real, times: seq<real>)
    ensures |AdmittedTimes(last, times)| <= |times|
    ensures forall t :: t in AdmittedTimes(last, times) ==> t in times
    ensures AdmittedTimes(last, times) != [] ==> AdmittedTimes(last, times)[0] - last > EdgeCooldownMs
    ensures forall i :: 0 < i < |AdmittedTimes(last, times)| ==>
              AdmittedTimes(last, times)[i] - AdmittedTimes(last, times)[i - 1] > EdgeCooldownMs
    ensures forall i :: 0 <= i < |times| ==>
              AdmittedTimes(last, times[..i + 1]) ==
                AdmittedTimes(last, times[..i]) +
                  (if times[i] - LastAdmitted(last, times[..i]) > EdgeCooldownMs then [times[i]] else [])
    decreases |times|
  {
    forall i | 0 <= i < |times|
      ensures AdmittedTimes(last, times[..i + 1]) ==
                AdmittedTimes(last, times[..i]) +
                  (if times[i] - LastAdmitted(last, times[..i]) > EdgeCooldownMs then [times[i]] else [])
    {
      assert times[..i + 1] == times[..i] + [times[i]];
      AdmittedTimesSnoc(last, times[..i], times[i]);
    }
    if times != [] {
      var rest := times[1..];
      if Admits(true, times[0], last) {
        AdmittedTimesSpaced(times[0], rest);
        var tail := AdmittedTimes(times[0], rest);
        assert AdmittedTimes(last, times) == [times[0]] + tail;
        forall i | 0 < i < |AdmittedTimes(last, times)|
          ensures AdmittedTimes(last, times)[i] - AdmittedTimes(last, times)[i - 1] > EdgeCooldownMs
        {
          if i > 1 {
            assert AdmittedTimes(last, times)[i] == tail[i - 1];
            assert AdmittedTimes(last, times)[i - 1] == tail[i - 2];
          }
        }
      } else {
        AdmittedTimesSpaced(last, rest);
      }
    }
  }

  /** After contacts, the last reaction time is the last admitted time, or unchanged if none was admitted. */
  lemma {:induction false} LastAdmittedIsLastReaction(last: real, times: seq<real>)
    ensures var r := AdmittedTimes(last, times);
            LastAdmitted(last, times) == if r == [] then last else r[|r| - 1]
    decreases |times|
  {
    if times != [] {
      if Admits(true, times[0], last) {
        LastAdmittedIsLastReaction(times[0], times[1..]);
      } else {
        LastAdmittedIsLastReaction(last, times[1..]);
      }
    }
  }

  /** Contacts at T, T+100 and T+221, the first admitted, give exactly two reactions: at T and T+221. */
  lemma CooldownScenario(last: real, t: real)
    requires t - last > EdgeCooldownMs
    ensures AdmittedTimes(last, [t, t + 100.0, t + 221.0]) == [t, t + 221.0]
  {
    var s := [t, t + 100.0, t + 221.0];
    assert s[1..] == [t + 100.0, t + 221.0];
    assert s[1..][1..] == [t + 221.0];
    assert s[1..][1..][1..] == [];
    assert AdmittedTimes(t + 221.0, []) == [];
    assert AdmittedTimes(t, [t + 221.0]) == [t + 221.0];
    assert AdmittedTimes(t, [t + 100.0, t + 221.0]) == [t + 221.0];
  }
}
