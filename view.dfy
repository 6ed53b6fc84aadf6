/**
 * AlphaVideoView's own state: the player state, the loop counter and target, the current
 * player item and the asset it is built from, with the event handlers that update them.
 * Calls into AVFoundation (seek, play, pause) and delegate calls are recorded in ghost
 * counters; the per-item video composition is kept as a map from item to composition.
 */
module View {
  import opened Wrappers
  import opened Geometry
  import opened Playback

  /** AVURLAsset: the natural sizes of its tracks, first track first. */
  datatype Asset = Asset(tracks: seq<Size>)

  /** AVPlayerItem: `id` stands for the object's identity; `==` on items is identity. */
  datatype PlayerItem = PlayerItem(id: nat, asset: Asset)

  class AlphaVideoView {
    var axis: Axis
    var state: PlayerState
    var loopCount: int
    var loops: int
    var asset: Option<Asset>
    var playerItem: Option<PlayerItem>
    /** `videoComposition` of every item the view has set up. */
    var compositions: map<PlayerItem, Composition>
    /** Player items created so far; the next one gets this as its identity. */
    var itemsCreated: nat

    /** `resetPlay` requests: seek to zero, then play. */
    ghost var restarts: nat
    /** `player?.pause()` requests. */
    ghost var pauses: nat
    /** `player?.play()` requests. */
    ghost var plays: nat
    /** The state carried by each `delegate?.vedioPlayerReady` call, in order. */
    ghost var readyCalls: seq<PlayerState>
    /** `delegate?.playerFinished` calls. */
    ghost var finishedCalls: nat

    /** The loop counter never goes negative, `stopped` and `finished` are never assigned,
        and every item the view knows was created by it. */
    ghost predicate Valid()
      reads this
    {
      loopCount >= 0 &&
      Assignable(state) &&
      (playerItem.Some? ==> playerItem.value.id < itemsCreated) &&
      (forall it :: it in compositions ==> it.id < itemsCreated)
    }

    /** What an end-of-item notification reads and changes. */
    ghost function Loop(): LoopView
      reads this
    {
      LoopView(loopCount, playerItem.Some?, restarts, finishedCalls)
    }

    /** The composition installed on the current item, if any. */
    ghost function CurrentComposition(): Option<Composition>
      reads this
    {
      if playerItem.Some? && playerItem.value in compositions then Some(compositions[playerItem.value])
      else None
    }

    constructor ()
      ensures Valid()
      ensures axis == Vertical && state == Unknown && loopCount == 0 && loops == 0
      ensures asset == None && playerItem == None && compositions == map[] && itemsCreated == 0
      ensures restarts == 0 && pauses == 0 && plays == 0 && readyCalls == [] && finishedCalls == 0
    {
      axis := Vertical;
      state := Unknown;
      loopCount := 0;
      loops := 0;
      asset := None;
      playerItem := None;
      compositions := map[];
      itemsCreated := 0;
      restarts := 0;
      pauses := 0;
      plays := 0;
      readyCalls := [];
      finishedCalls := 0;
    }

    /** `play()`: forwarded to the player; the state is not touched. */
    method Play()
      requires Valid()
      modifies this`plays
      ensures Valid()
      ensures plays == old(plays) + 1
    {
      plays := plays + 1;
    }

    /** `pause()`: forwarded to the player; the state is not touched (it never becomes
        `stopped`). */
    method Pause()
      requires Valid()
      modifies this`pauses
      ensures Valid()
      ensures pauses == old(pauses) + 1
    {
      pauses := pauses + 1;
    }

    /** `resetPlay()`: seek to zero, then play. */
    method ResetPlay()
      requires Valid()
      modifies this`restarts
      ensures Valid()
      ensures restarts == old(restarts) + 1
    {
      restarts := restarts + 1;
    }

    /** `setupPlayerItem()`: sets up the current item's composition from its first track and
        the axis read now; the early returns leave every composition as it was. */
    method SetupPlayerItem()
      requires Valid()
      modifies this`compositions
      ensures Valid()
      ensures playerItem.Some? && SetupComposition(playerItem.value.asset.tracks, axis).Some? ==>
        compositions == old(compositions)[playerItem.value := SetupComposition(playerItem.value.asset.tracks, axis).value]
      ensures playerItem.None? || SetupComposition(playerItem.value.asset.tracks, axis).None? ==>
        compositions == old(compositions)
    {
      if playerItem.Some? {
        var composition := SetupComposition(playerItem.value.asset.tracks, axis);
        if composition.Some? {
          compositions := compositions[playerItem.value := composition.value];
        }
      }
    }

    /** Assigning `playerItem` (its willSet and didSet). Assigning a different item resets
        the loop counter and pauses the player; assigning the item already there skips
        both. The new item, if any, gets its composition; the state is not touched. */
    method SetPlayerItem(newValue: Option<PlayerItem>)
      requires Valid()
      requires newValue.Some? ==> newValue.value.id < itemsCreated
      modifies this
      ensures Valid()
      ensures playerItem == newValue
      ensures loopCount == if old(playerItem) == newValue then old(loopCount) else 0
      ensures pauses == if old(playerItem) == newValue then old(pauses) else old(pauses) + 1
      ensures newValue.Some? && SetupComposition(newValue.value.asset.tracks, axis).Some? ==>
        compositions == old(compositions)[newValue.value := SetupComposition(newValue.value.asset.tracks, axis).value]
      ensures newValue.None? || SetupComposition(newValue.value.asset.tracks, axis).None? ==>
        compositions == old(compositions)
      ensures state == old(state) && loops == old(loops) && axis == old(axis) && asset == old(asset)
      ensures itemsCreated == old(itemsCreated)
      ensures restarts == old(restarts) && plays == old(plays)
      ensures readyCalls == old(readyCalls) && finishedCalls == old(finishedCalls)
    {
      // willSet: observers of the old item are removed; that plumbing is not modelled.
      if playerItem != newValue {
        loopCount := 0;
        Pause();
      }
      playerItem := newValue;
      // didSet: observers are added, the player seeks to zero and gets the new item.
      SetupPlayerItem();
    }

    /** Setting `urlStr`: when the string resolves to a URL (`resolved` is the asset built
        from it) the asset is replaced and its loading starts; otherwise nothing happens. */
    method LoadVideo(resolved: Option<Asset>)
      requires Valid()
      modifies this`asset
      ensures Valid()
      ensures asset == if resolved.Some? then resolved else old(asset)
    {
      if resolved.Some? {
        asset := resolved;
      }
    }

    /** The asset's loading finishes: a new item is built from whatever asset the view holds
        now, not necessarily the one whose loading finished, and installed. */
    method LoadCompleted()
      requires Valid()
      modifies this
      ensures Valid()
      ensures old(asset).None? ==> unchanged(this)
      ensures old(asset).Some? ==>
        playerItem == Some(PlayerItem(old(itemsCreated), old(asset).value)) &&
        itemsCreated == old(itemsCreated) + 1 &&
        loopCount == 0 && pauses == old(pauses) + 1 &&
        CurrentComposition() == SetupComposition(old(asset).value.tracks, axis) &&
        (SetupComposition(old(asset).value.tracks, axis).Some? ==>
          compositions == old(compositions)[playerItem.value := SetupComposition(old(asset).value.tracks, axis).value]) &&
        (SetupComposition(old(asset).value.tracks, axis).None? ==> compositions == old(compositions)) &&
        state == old(state) && loops == old(loops) && axis == old(axis) && asset == old(asset) &&
        restarts == old(restarts) && plays == old(plays) &&
        readyCalls == old(readyCalls) && finishedCalls == old(finishedCalls)
    {
      if asset.Some? {
        var item := PlayerItem(itemsCreated, asset.value);
        itemsCreated := itemsCreated + 1;
        SetPlayerItem(Some(item));
      }
    }

    /** `moviePlayDidEnd`: restart, restart and count, or clear the item and tell the
        delegate playback finished, as the loop controller decides. The state is never
        touched, so it never becomes `finished`. */
    method EndOfStream()
      requires Valid()
      modifies this
      ensures Valid()
      ensures Loop() == EndStep(old(loops), old(Loop()))
      ensures OnEndOfStream(old(loops), old(loopCount)) == Finish ==>
        playerItem == None && pauses == old(pauses) + (if old(playerItem).Some? then 1 else 0)
      ensures OnEndOfStream(old(loops), old(loopCount)) != Finish ==>
        playerItem == old(playerItem) && pauses == old(pauses)
      ensures state == old(state) && loops == old(loops) && axis == old(axis) && asset == old(asset)
      ensures compositions == old(compositions) && itemsCreated == old(itemsCreated)
      ensures plays == old(plays) && readyCalls == old(readyCalls)
    {
      if loops == 0 {
        ResetPlay();
      } else if loops > 0 && loops > loopCount + 1 {
        ResetPlay();
        loopCount := loopCount + 1;
      } else {
        SetPlayerItem(None);
        finishedCalls := finishedCalls + 1;
      }
    }

    /** A `status` notification with the change dictionary's kind entry. */
    method StatusChanged(kindEntry: Option<int>)
      requires Valid()
      modifies this`state, this`readyCalls
      ensures Valid()
      ensures state == OnStatus(old(state), kindEntry).state
      ensures readyCalls == old(readyCalls) +
        (if OnStatus(old(state), kindEntry).readyPayload.Some?
         then [OnStatus(old(state), kindEntry).readyPayload.value] else [])
    {
      var status := DecodeStatus(kindEntry);
      match status
      case StatusUnknown =>
        state := Buffering;
      case StatusReadyToPlay =>
        state := ReadyToPlay;
        readyCalls := readyCalls + [ReadyToPlay];
      case StatusFailed =>
        state := Failed;
        readyCalls := readyCalls + [Failed];
      case StatusOther(_) =>
        // `@unknown default`: nothing happens.
    }

    /** A `playbackBufferEmpty` notification; `empty` is what the item reports. */
    method BufferEmptyChanged(empty: bool)
      requires Valid()
      modifies this`state
      ensures Valid()
      ensures state == OnBufferEmpty(old(state), playerItem.Some?, empty)
    {
      if playerItem.Some? && empty {
        state := Buffering;
      }
    }

    /** A `playbackLikelyToKeepUp` notification; `likely` is what the item reports. */
    method LikelyToKeepUpChanged(likely: bool)
      requires Valid()
      modifies this`state
      ensures Valid()
      ensures state == OnLikelyToKeepUp(old(state), playerItem.Some?, likely)
    {
      if playerItem.Some? && likely && state == Buffering {
        state := Playing;
      }
    }

    /** `deinit`: the item is cleared through its setter, which resets the counter and
        pauses the player when an item was installed. */
    method Teardown()
      requires Valid()
      modifies this
      ensures Valid()
      ensures playerItem == None
      ensures loopCount == if old(playerItem).Some? then 0 else old(loopCount)
      ensures pauses == old(pauses) + (if old(playerItem).Some? then 1 else 0)
      ensures state == old(state) && loops == old(loops) && axis == old(axis) && asset == old(asset)
      ensures compositions == old(compositions) && itemsCreated == old(itemsCreated)
      ensures restarts == old(restarts) && plays == old(plays)
      ensures finishedCalls == old(finishedCalls) && readyCalls == old(readyCalls)
    {
      SetPlayerItem(None);
    }
  }

  /** Two loops: the first end of the item restarts with the counter at 1, the second clears
      the item and makes exactly one finished call; the state is left as it was. */
  method TwoLoopsScenario(clip: Asset)
  {
    var view := new AlphaVideoView();
    view.loops := 2;
    view.LoadVideo(Some(clip));
    view.LoadCompleted();
    view.StatusChanged(Some(KindSetting));
    assert view.state == ReadyToPlay && view.readyCalls == [ReadyToPlay];
    view.EndOfStream();
    assert view.loopCount == 1 && view.restarts == 1 && view.playerItem.Some?;
    view.EndOfStream();
    assert view.playerItem == None && view.finishedCalls == 1 && view.loopCount == 0;
    assert view.state == ReadyToPlay;
  }

  /** Loading completes late, after the source changed twice: the item built holds the
      asset of the latest source, because the completion reads the view's asset when it
      runs. */
  method LateLoadScenario(second: Asset, third: Asset)
  {
    var view := new AlphaVideoView();
    view.LoadVideo(Some(second));
    view.LoadVideo(Some(third));
    view.LoadCompleted();
    assert view.playerItem.Some? && view.playerItem.value.asset == third;
    view.LoadCompleted();
    assert view.playerItem.Some? && view.playerItem.value.asset == third && view.playerItem.value.id == 1;
  }

  /** A failed status is not terminal: a later unknown status or an empty buffer moves the
      view back to buffering. A kind entry outside 0...2 (here `.removal`, 3) changes
      nothing. */
  method FailedIsNotTerminalScenario(clip: Asset)
  {
    var view := new AlphaVideoView();
    view.LoadVideo(Some(clip));
    view.LoadCompleted();
    view.StatusChanged(Some(2));
    assert view.state == Failed && view.readyCalls == [Failed];
    view.StatusChanged(Some(3));
    assert view.state == Failed && view.readyCalls == [Failed];
    view.BufferEmptyChanged(true);
    assert view.state == Buffering;
    view.LikelyToKeepUpChanged(true);
    assert view.state == Playing;
  }
}
