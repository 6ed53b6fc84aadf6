# AlphaVideoView, modelled in Dafny

AlphaVideoSwift plays videos whose frames pack a colour image and an alpha mask as two equal
halves, one above the other (vertical axis) or side by side (horizontal axis). Its one class,
`AlphaVideoView`, loads an asset, builds a player item with a video composition that splits
every frame into its two halves for an alpha filter, follows the item's status and buffer
notifications in a `state` field, and loops the item `loops` times (0 = forever) before
clearing it and telling its delegate that playback finished.

This project models three pieces of that class:

- `geometry.dfy` (module `Geometry`): the size and rectangle arithmetic of `setupPlayerItem`,
  over exact reals. The render size is one half of the first track's natural size; the
  per-frame handler crops the half at the origin (the filter's mask image) and the other half
  (the filter's input image), then translates the other half onto the origin.
- `playback.dfy` (module `Playback`): the decisions of the event handlers as pure functions.
  These cover the status notification, the two buffer notifications and the loop decision of
  `moviePlayDidEnd`. Lemmas cover runs of several end-of-item notifications.
- `view.dfy` (module `View`): the class `AlphaVideoView` with the fields the source updates
  in place: `axis`, `state`, `loopCount`, `loops`, `asset`, `playerItem` and the per-item
  video composition. Each event handler is a method whose postcondition ties the new fields
  to the functions of `Playback`. Calls into AVFoundation and to the delegate are ghost
  counters: restarts, pauses, plays, ready calls with their payload, and finished calls.
  `Valid()` keeps `loopCount >= 0` and keeps `state` away from `stopped` and `finished`.
  Three client methods replay short scenarios.
- `option.dfy` (module `Wrappers`): `Option`, for Swift optionals.

The model follows the code as written, including these quirks of the code:

- The status handler reads the change dictionary's kind entry, not the new value. The raw
  value is 0 (or a missing entry) for unknown, 1 for ready and 2 for failed.
  `AVPlayer.Status` is an imported, non-frozen enumeration, so `Status(rawValue:)` never
  fails and the `?? .unknown` fallback is never taken. Any other raw value reaches
  `@unknown default`, which leaves the state alone and calls nothing. The observers are
  registered without options, so in practice the kind is always `.setting` (1), and every
  status notification reads as ready (`SettingKindReadsAsReady`).
- A failed status calls the delegate's `vedioPlayerReady` with `.failed`.
  `vedioPlayerFailed` is never called.
- `state` is never set to `finished` or `stopped`. Finishing a loop clears the item and calls
  `playerFinished`, but leaves `state` as it was. Pausing does not change `state`.
- `failed` is not terminal. A later unknown status or a buffer-empty notification moves the
  view to `buffering`, and likely-to-keep-up then moves it to `playing`.
- A negative `loops` finishes at the first end of the item.
- The frame size comes from the asset's first track, whatever its media type. An asset whose
  first track is audio (natural size 0 x 0) gets no composition, even if a later track is video.
- When the frame size is not positive, or the asset has no track, the item is still installed;
  it just gets no composition.
- Loading has no staleness guard. When a load completes, it builds an item from whatever asset
  the view holds at that moment. A late completion therefore installs the newest asset, and
  every completion installs a fresh item.
- The origin half goes to the filter as its mask image, and the offset half as its input
  image. The filter is not part of this model, so which half carries colour is not decided
  here.
- `axis` is public. The setup reads it once to fix the render size, but the frame handler
  reads it again at every frame. If the axis changes after setup, the input crop lies
  entirely outside the decoded frame (`AxisChangedAfterSetupMissesFrame`).
- The frame handler holds the view weakly, and `self?.axis == .vertical` is false once the
  view is released. A frame rendered after that takes the horizontal branch
  (`AxisSeenByHandler`). For an item set up vertically, that is the axis-change case above
  (`ReleasedViewMissesFrame`).

## Model

| member | source | states |
|---|---|---|
| `Geometry.RenderSize` | AlphaVideoSwift/Classes/AlphaVideoView.swift:196-201 | the half-frame size is positive exactly when the natural size is, and two halves packed along the same axis give back the natural size |
| `Geometry.SetupComposition` | AlphaVideoSwift/Classes/AlphaVideoView.swift:191-206 | a composition is produced exactly when the asset has a first track and that track's natural size is positive; its render size is then positive and is one half of the first track along the axis |
| `Geometry.FrameHandler` | AlphaVideoSwift/Classes/AlphaVideoView.swift:207-221 | the mask crop is the origin rectangle of the captured size; the input crop translated by the shift is exactly the mask crop; the crops are congruent, do not overlap, and their bounding box is two halves packed along the axis read at that frame |
| `Geometry.ConsistentAxisSplitsFrame` | AlphaVideoSwift/Classes/AlphaVideoView.swift:196-221 | with the same axis at setup and at the frame, both crops lie in the decoded frame and together cover it |
| `Geometry.AxisChangedAfterSetupMissesFrame` | AlphaVideoSwift/Classes/AlphaVideoView.swift:197-218 | if the axis changes after setup, the input crop does not overlap the decoded frame |
| `Geometry.AxisSeenByHandler` | AlphaVideoSwift/Classes/AlphaVideoView.swift:207-211 | the handler takes the vertical branch exactly when the view is still alive and its axis is vertical |
| `Geometry.ReleasedViewMissesFrame` | AlphaVideoSwift/Classes/AlphaVideoView.swift:207-218 | after the view is released, a frame of an item set up vertically has its input crop outside the decoded frame |
| `Geometry.VerticalExample` | AlphaVideoSwift/Classes/AlphaVideoView.swift:196-221 | a 200 x 400 vertical frame gives render size 200 x 200, mask crop (0,0,200,200), input crop (0,200,200,200) and shift (0,-200) |
| `Playback.StatusFromRaw` | AlphaVideoSwift/Classes/AlphaVideoView.swift:154 | every raw value gives a status: 0 unknown, 1 ready, 2 failed, and any other value an unnamed status carrying that raw value |
| `Playback.DecodeStatus` | AlphaVideoSwift/Classes/AlphaVideoView.swift:154 | a missing kind entry or 0 decodes as unknown, 1 as ready, 2 as failed, and any other value as an unnamed status |
| `Playback.OnStatus` | AlphaVideoSwift/Classes/AlphaVideoView.swift:154-169 | a missing entry or 0 gives buffering and no call; 1 gives readyToPlay and one ready call carrying readyToPlay; 2 gives failed and one ready call carrying failed; any other value keeps the current state and makes no call |
| `Playback.SettingKindReadsAsReady` | AlphaVideoSwift/Classes/AlphaVideoView.swift:151-162 | a notification of kind `.setting` reads as ready to play |
| `Playback.OnBufferEmpty` | AlphaVideoSwift/Classes/AlphaVideoView.swift:175-179 | the result is buffering exactly when an item reports an empty buffer or the view was buffering; otherwise the state is unchanged; an assignable state stays assignable |
| `Playback.OnLikelyToKeepUp` | AlphaVideoSwift/Classes/AlphaVideoView.swift:180-184 | the only change is buffering to playing, and from buffering it happens exactly when an item reports likely to keep up |
| `Playback.OnEndOfStream` | AlphaVideoSwift/Classes/AlphaVideoView.swift:139-149 | restart exactly when loops is 0; restart and count exactly when loops is positive and above loopCount + 1; finish in every other case, a negative loops included |
| `Playback.EndStep` | AlphaVideoSwift/Classes/AlphaVideoView.swift:139-149 | a plain restart keeps counter and item; a counted restart adds exactly 1 to the counter; a finish clears the item and resets the counter if an item was present; exactly one restart or finish per end; a counter below a positive target stays below it |
| `Playback.EndlessLoopNeverFinishes` | AlphaVideoSwift/Classes/AlphaVideoView.swift:140-141 | with loops 0, any number of ends of item only restart, and the counter and item are kept |
| `Playback.CountedLoopPrefix` | AlphaVideoSwift/Classes/AlphaVideoView.swift:142-144 | with a positive target n and counter 0, after k < n ends of item the counter is k and k restarts were made |
| `Playback.CountedLoopFinishesAfterTarget` | AlphaVideoSwift/Classes/AlphaVideoView.swift:142-147 | with target n > 0 and a fresh item, nothing finishes and the counter stays at most n - 1 through n - 1 ends; the n-th end finishes once, after n - 1 restarts, clears the item and resets the counter |
| `Playback.NegativeTargetFinishesAtOnce` | AlphaVideoSwift/Classes/AlphaVideoView.swift:145-148 | a negative loops finishes and clears the item at the first end |
| `View.AlphaVideoView.constructor` | AlphaVideoSwift/Classes/AlphaVideoView.swift:40-44 | initial state unknown, vertical axis, counter and target 0, no asset and no item |
| `View.AlphaVideoView.Play` | AlphaVideoSwift/Classes/AlphaVideoView.swift:76-78 | one play request; the state is untouched |
| `View.AlphaVideoView.Pause` | AlphaVideoSwift/Classes/AlphaVideoView.swift:80-82 | one pause request; the state is untouched |
| `View.AlphaVideoView.ResetPlay` | AlphaVideoSwift/Classes/AlphaVideoView.swift:132-136 | one restart request |
| `View.AlphaVideoView.SetupPlayerItem` | AlphaVideoSwift/Classes/AlphaVideoView.swift:189-228 | the current item gets the composition for its first track and the axis read now; the early returns change nothing |
| `View.AlphaVideoView.SetPlayerItem` | AlphaVideoSwift/Classes/AlphaVideoView.swift:103-130 | a different item resets loopCount to 0 and pauses once; the same item keeps loopCount and makes no pause; the new item gets its composition; the state is untouched |
| `View.AlphaVideoView.LoadVideo` | AlphaVideoSwift/Classes/AlphaVideoView.swift:92-94 | a resolved source replaces the asset; an unresolved one changes nothing |
| `View.AlphaVideoView.LoadCompleted` | AlphaVideoSwift/Classes/AlphaVideoView.swift:95-100 | with an asset, a fresh item built from the asset held now is installed with counter 0; only that item's composition entry is added, when setup succeeds, and every other entry is kept; without an asset nothing changes |
| `View.AlphaVideoView.EndOfStream` | AlphaVideoSwift/Classes/AlphaVideoView.swift:139-149 | counter, item, restarts and finished calls change as `EndStep` says; a finish clears the item; state, compositions and ready calls are untouched |
| `View.AlphaVideoView.StatusChanged` | AlphaVideoSwift/Classes/AlphaVideoView.swift:151-169 | the state and the ready calls change as `OnStatus` says for the state before the notification, and nothing else |
| `View.AlphaVideoView.BufferEmptyChanged` | AlphaVideoSwift/Classes/AlphaVideoView.swift:175-179 | the state changes as `OnBufferEmpty` says for the current item, and nothing else |
| `View.AlphaVideoView.LikelyToKeepUpChanged` | AlphaVideoSwift/Classes/AlphaVideoView.swift:180-184 | the state changes as `OnLikelyToKeepUp` says for the current item, and nothing else |
| `View.AlphaVideoView.Teardown` | AlphaVideoSwift/Classes/AlphaVideoView.swift:48-50 | the item is cleared through its setter; if an item was installed the counter resets and one pause is requested; every other field, the state and the delegate calls included, is untouched |

## Left out

- AVFoundation and UIKit plumbing is not modelled: `layerClass`, the player and its
  pixel-buffer format, `replaceCurrentItem`, `seekingWaitsForVideoCompositionRendering`, the
  seek to zero in the item setter, and adding and removing the KVO and NotificationCenter
  observers. Play, pause and restart requests survive only as ghost counters.
- `View.AlphaVideoView.LoadVideo`: URL and bundle resolution of `urlStr` is a parameter. The
  method takes the resolved asset, or None when no URL results.
- `View.AlphaVideoView.LoadCompleted`: the asynchronous load and the hop to the main queue are
  one event. The source reads `self.asset` in the load callback and installs it later on the
  main queue; a source change between those two moments is not modelled.
- The `loadedTimeRanges` notification, `availableDuration` and the buffer-progress print are
  not modelled. They are Float64 telemetry that changes no state.
- `AlphaFrameFilter` and Core Image pixel compositing are not modelled; their source is not
  part of this model. The frame handler is modelled down to the rectangles it crops and the
  translation it applies.
- `Geometry.FrameHandler`: the view's lifetime is not a parameter. The handler is given the
  axis it reads. A view that has been released reads as `FrameHandler(videoSize, Horizontal)`
  (see `AxisSeenByHandler`).
- The delegate may be nil. The ghost call counters record that a `delegate?.` call site was
  reached, and such a call does nothing when no delegate is set.
- `init(coder:)` and `commonInit` are not modelled. They differ from the constructor only in
  UIKit setup.
- CGFloat rounding is not modelled, because sizes are exact reals.
- `View.AlphaVideoView.SetPlayerItem`: item identity is the `id` of the item value. A fresh
  item's `id` is the count of items created so far. `Valid()` requires every item the view
  holds to have been created this way.
