/**
 * The decision logic of AlphaVideoView's event handlers, as pure functions: how a status
 * notification, a buffer notification and an end-of-item notification change the player
 * state and the loop counter. The class in module View applies them to its fields.
 */
module Playback {
  import opened Wrappers

  /** AlphaVedioPlayerState */
  datatype PlayerState = Failed | Buffering | ReadyToPlay | Playing | Stopped | Finished | Unknown

  /** The states the view ever assigns; `Stopped` and `Finished` are declared but never set. */
  predicate Assignable(s: PlayerState) {
    s != Stopped && s != Finished
  }

  /** AVPlayer.Status. It is an imported, non-frozen enumeration: besides its three named
      cases it can hold any other raw value, which a `switch` reaches as `@unknown default`. */
  datatype EngineStatus = StatusUnknown | StatusReadyToPlay | StatusFailed | StatusOther(raw: int)

  /** `NSKeyValueChange.setting.rawValue`: the kind every change of an observed property
      reports when the observer was registered with no options. */
  const KindSetting: int := 1

  /** `AVPlayer.Status(rawValue:)`. For an imported non-frozen enumeration the initialiser
      checks nothing and yields a status for every raw value: 0, 1 and 2 are the named
      cases and every other value is an unnamed status carrying that raw value. */
  function StatusFromRaw(raw: int): (s: EngineStatus)
    ensures s == StatusUnknown <==> raw == 0
    ensures s == StatusReadyToPlay <==> raw == 1
    ensures s == StatusFailed <==> raw == 2
    ensures s.StatusOther? <==> raw < 0 || raw > 2
    ensures s.StatusOther? ==> s.raw == raw
  {
    if raw == 0 then StatusUnknown
    else if raw == 1 then StatusReadyToPlay
    else if raw == 2 then StatusFailed
    else StatusOther(raw)
  }

  /** The status the handler decides on. `kindEntry` is the change dictionary's kind entry
      read as an Int (None when it is missing or not an Int, which reads as 0). Since the
      initialiser never fails, the fallback to `.unknown` is never taken. */
  function DecodeStatus(kindEntry: Option<int>): (s: EngineStatus)
    ensures s == StatusUnknown <==> kindEntry == None || kindEntry == Some(0)
    ensures s == StatusReadyToPlay <==> kindEntry == Some(1)
    ensures s == StatusFailed <==> kindEntry == Some(2)
    ensures s.StatusOther? <==> kindEntry.Some? && (kindEntry.value < 0 || kindEntry.value > 2)
  {
    StatusFromRaw(kindEntry.GetOr(0))
  }

  /** What a status notification does: the new state, and the state carried by the
      `vedioPlayerReady` delegate call when one is made. */
  datatype StatusEffect = StatusEffect(state: PlayerState, readyPayload: Option<PlayerState>)

  /** A status notification arriving in state `current`: a missing entry or 0 means
      buffering with no delegate call; 1 means ready (state and one ready call carrying
      readyToPlay); 2 means failed (state and one ready call carrying failed; the failure
      delegate method is never called); any other value falls to `@unknown default`, which
      keeps the state and calls nothing. */
  function OnStatus(current: PlayerState, kindEntry: Option<int>): (e: StatusEffect)
    ensures kindEntry == None || kindEntry == Some(0) ==> e == StatusEffect(Buffering, None)
    ensures kindEntry == Some(1) ==> e == StatusEffect(ReadyToPlay, Some(ReadyToPlay))
    ensures kindEntry == Some(2) ==> e == StatusEffect(Failed, Some(Failed))
    ensures kindEntry.Some? && (kindEntry.value < 0 || kindEntry.value > 2) ==> e == StatusEffect(current, None)
    ensures Assignable(current) ==> Assignable(e.state)
  {
    match DecodeStatus(kindEntry)
    case StatusUnknown => StatusEffect(Buffering, None)
    case StatusReadyToPlay => StatusEffect(ReadyToPlay, Some(ReadyToPlay))
    case StatusFailed => StatusEffect(Failed, Some(Failed))
    case StatusOther(_) => StatusEffect(current, None)
  }

  /** The observer is registered without the `.new` option, so the only entry the change
      dictionary carries is the kind, and a property change always has kind `.setting`:
      every status notification, a failure included, reads as ready to play. */
  lemma SettingKindReadsAsReady(current: PlayerState)
    ensures OnStatus(current, Some(KindSetting)) == StatusEffect(ReadyToPlay, Some(ReadyToPlay))
  {
  }

  /** A playbackBufferEmpty notification: the flag read is `playerItem?.isPlaybackBufferEmpty
      ?? false`. Buffering results exactly when the flag reads true or the view was already
      buffering; every other outcome leaves the state as it was. */
  function OnBufferEmpty(s: PlayerState, hasItem: bool, empty: bool): (r: PlayerState)
    ensures r == Buffering <==> (hasItem && empty) || s == Buffering
    ensures r != Buffering ==> r == s
    ensures Assignable(s) ==> Assignable(r)
  {
    if hasItem && empty then Buffering else s
  }

  /** A playbackLikelyToKeepUp notification: the only change it makes is from buffering to
      playing, and it makes it exactly when the flag, read as `playerItem?.
      isPlaybackLikelyToKeepUp ?? false`, is true. */
  function OnLikelyToKeepUp(s: PlayerState, hasItem: bool, likely: bool): (r: PlayerState)
    ensures r != s ==> s == Buffering && r == Playing
    ensures s == Buffering ==> (r == Playing <==> hasItem && likely)
    ensures Assignable(s) ==> Assignable(r)
  {
    if hasItem && likely && s == Buffering then Playing else s
  }

  /** What `moviePlayDidEnd` decides. */
  datatype EndAction =
    | Restart         // loops == 0: play again forever
    | RestartCounted  // play again and count one more completed loop
    | Finish          // clear the item and tell the delegate playback finished

  /** The loop decision for the `loops` target and the current `loopCount`: zero loops
      forever, a positive target restarts while another play-through is still owed, and
      anything else (a negative target included) finishes. */
  function OnEndOfStream(loops: int, loopCount: int): (a: EndAction)
    ensures a == Restart <==> loops == 0
    ensures a == RestartCounted <==> loops > 0 && loopCount + 1 < loops
    ensures a == Finish <==> loops < 0 || (loops > 0 && loopCount + 1 >= loops)
  {
    if loops == 0 then Restart
    else if loops > 0 && loops > loopCount + 1 then RestartCounted
    else Finish
  }

  /** The part of the view an end-of-item notification touches: the loop counter, whether
      an item is installed, and how many restarts and finish notifications it has made. */
  datatype LoopView = LoopView(loopCount: int, hasItem: bool, restarts: nat, finishes: nat)

  /** One end-of-item notification. Finishing clears the item through the item setter,
      which resets the counter only when an item was installed. A plain restart keeps the
      counter and the item, a counted restart adds exactly one to the counter, and exactly
      one of a restart and a finish happens; a counter below a positive target stays
      below it. */
  function EndStep(loops: int, v: LoopView): (w: LoopView)
    ensures OnEndOfStream(loops, v.loopCount) == Restart ==> w == v.(restarts := v.restarts + 1)
    ensures OnEndOfStream(loops, v.loopCount) == RestartCounted ==>
      w == v.(loopCount := v.loopCount + 1, restarts := v.restarts + 1)
    ensures OnEndOfStream(loops, v.loopCount) == Finish ==>
      !w.hasItem && w.loopCount == (if v.hasItem then 0 else v.loopCount) &&
      w.restarts == v.restarts && w.finishes == v.finishes + 1
    ensures w.restarts + w.finishes == v.restarts + v.finishes + 1
    ensures loops > 0 && 0 <= v.loopCount < loops ==> 0 <= w.loopCount < loops
    ensures w.finishes == v.finishes + 1 <==> OnEndOfStream(loops, v.loopCount) == Finish
  {
    match OnEndOfStream(loops, v.loopCount)
    case Restart => v.(restarts := v.restarts + 1)
    case RestartCounted => v.(loopCount := v.loopCount + 1, restarts := v.restarts + 1)
    case Finish =>
      v.(loopCount := if v.hasItem then 0 else v.loopCount, hasItem := false, finishes := v.finishes + 1)
  }

  /** `k` end-of-item notifications in a row, with no other event in between. */
  function EndSteps(loops: int, v: LoopView, k: nat): LoopView
    decreases k
  {
    if k == 0 then v else EndStep(loops, EndSteps(loops, v, k - 1))
  }

  /** With `loops == 0` every notification restarts: the counter and the item stay, and the
      view never finishes. */
  lemma {:induction false} EndlessLoopNeverFinishes(v: LoopView, k: nat)
    ensures EndSteps(0, v, k) == v.(restarts := v.restarts + k)
    decreases k
  {
    if k > 0 {
      EndlessLoopNeverFinishes(v, k - 1);
    }
  }

  /** With a positive target `n` and a counter starting at 0, the first `k < n`
      notifications each restart and count one loop. */
  lemma {:induction false} CountedLoopPrefix(n: int, v: LoopView, k: nat)
    requires n > 0 && v.loopCount == 0
    requires k < n
    ensures EndSteps(n, v, k) == v.(loopCount := k, restarts := v.restarts + k)
    decreases k
  {
    if k > 0 {
      CountedLoopPrefix(n, v, k - 1);
    }
  }

  /** With a positive target `n`, a freshly installed item plays exactly `n` times: the
      counter never goes above `n - 1` and nothing finishes during the first `n - 1`
      notifications, and the `n`-th finishes once, clears the item and resets the counter
      after `n - 1` restarts. */
  lemma CountedLoopFinishesAfterTarget(n: int, v: LoopView)
    requires n > 0 && v.loopCount == 0 && v.hasItem
    ensures forall k: nat :: k < n ==>
      EndSteps(n, v, k).finishes == v.finishes && EndSteps(n, v, k).hasItem &&
      0 <= EndSteps(n, v, k).loopCount <= n - 1
    ensures EndSteps(n, v, n) == LoopView(0, false, v.restarts + n - 1, v.finishes + 1)
  {
    forall k: nat | k < n
      ensures EndSteps(n, v, k).finishes == v.finishes && EndSteps(n, v, k).hasItem &&
        0 <= EndSteps(n, v, k).loopCount <= n - 1
    {
      CountedLoopPrefix(n, v, k);
    }
    CountedLoopPrefix(n, v, n - 1);
  }

  /** A negative target finishes at the first notification. */
  lemma NegativeTargetFinishesAtOnce(loops: int, v: LoopView)
    requires loops < 0
    ensures EndStep(loops, v).finishes == v.finishes + 1 && !EndStep(loops, v).hasItem
  {
  }
}
