/** The screen controller of the lava lamp: which screen is showing, the
    fade flag, the chosen hue and the current blob batch, with the actions the
    three screens' buttons trigger. The 500 ms fade timers and the 100 ms
    drift interval are explicit steps: an action schedules its commit, and
    `Commit` and `Tick` are the timers firing. */
module Screens {
  import opened Hues
  import opened Blobs

  datatype Screen = Landing | Picker | Lamp

  /** Hue selected before the user picks one. */
  const InitialHue: real := 30.0

  class Home {
    var appState: Screen
    var selectedHue: real
    var blobs: seq<Blob>
    var isTransitioning: bool
    /** Targets of the fade timers that have been started and have not fired
        yet, oldest first; all share one delay, so they fire in this order. */
    var pending: seq<Screen>

    /** The selected hue and every blob are in their documented ranges, and a
        fade in progress always has a commit still to come. */
    ghost predicate Valid()
      reads this
    {
      && 0.0 <= selectedHue < 360.0
      && (forall i :: 0 <= i < |blobs| ==> WellFormed(blobs[i]))
      && (isTransitioning ==> pending != [])
    }

    /** The first render: landing screen, hue 30, no blobs, no fade. */
    constructor ()
      ensures Valid()
      ensures appState == Landing && selectedHue == InitialHue
      ensures blobs == [] && !isTransitioning && pending == []
    {
      appState := Landing;
      selectedHue := InitialHue;
      blobs := [];
      isTransitioning := false;
      pending := [];
    }

    /** A click on the colour wheel at clockwise angle `deg` (degrees from
        the top, as `atan2` yields it) selects the hue `(deg + 360) % 360`. */
    method SelectHue(deg: real)
      requires Valid()
      requires -180.0 <= deg <= 180.0
      modifies this`selectedHue
      ensures Valid()
      ensures selectedHue == NormalizeAngle(deg)
      ensures WholeTurns(selectedHue - deg)
    {
      selectedHue := NormalizeAngle(deg);
    }

    /** Starts the fade towards `target` and schedules its commit. */
    method BeginTransition(target: Screen)
      requires Valid()
      modifies this`isTransitioning, this`pending
      ensures Valid()
      ensures isTransitioning && pending == old(pending) + [target]
    {
      isTransitioning := true;
      pending := pending + [target];
    }

    /** "Start" on the landing screen, and any click on the lamp. */
    method GoToPicker()
      requires Valid()
      modifies this`isTransitioning, this`pending
      ensures Valid()
      ensures isTransitioning && pending == old(pending) + [Picker]
    {
      BeginTransition(Picker);
    }

    /** "Back" on the picker. */
    method ResetToLanding()
      requires Valid()
      modifies this`isTransitioning, this`pending
      ensures Valid()
      ensures isTransitioning && pending == old(pending) + [Landing]
    {
      BeginTransition(Landing);
    }

    /** "Confirm" on the picker: a fresh batch of the default size seeded from
        the selected hue replaces the blobs at once, and the lamp screen is
        scheduled. `draws` are the batch's results of `Math.random()`. */
    method StartLamp(draws: seq<real>)
      requires Valid()
      requires |draws| >= DrawsPerBlob * DefaultBlobCount
      requires AllDraws(draws)
      modifies this`isTransitioning, this`pending, this`blobs
      ensures Valid()
      ensures isTransitioning && pending == old(pending) + [Lamp]
      ensures blobs == GenerateBlobs(selectedHue, DefaultBlobCount, draws)
      ensures |blobs| == DefaultBlobCount
    {
      BeginTransition(Lamp);
      BatchWellFormed(selectedHue, DefaultBlobCount, draws);
      blobs := GenerateBlobs(selectedHue, DefaultBlobCount, draws);
    }

    /** The fade flag is only ever set together with a timer, so a fade in
        progress can always be committed. */
    lemma FadeHasPendingCommit()
      requires Valid()
      requires isTransitioning
      ensures pending != []
    {
    }

    /** The oldest fade timer fires: its target screen shows and the fade
        flag clears, even when a later fade is still scheduled. */
    method Commit()
      requires Valid()
      requires pending != []
      modifies this`appState, this`isTransitioning, this`pending
      ensures Valid()
      ensures appState == old(pending[0]) && !isTransitioning
      ensures pending == old(pending[1..])
    {
      appState := pending[0];
      isTransitioning := false;
      pending := pending[1..];
    }

    /** The drift interval fires: while the lamp shows, every blob's hue
        moves on by 0.1 degree modulo 360; on any other screen the interval
        is not running and nothing changes. */
    method Tick()
      requires Valid()
      modifies this`blobs
      ensures Valid()
      ensures appState == Lamp ==> blobs == DriftAll(old(blobs))
      ensures appState != Lamp ==> blobs == old(blobs)
    {
      if appState == Lamp {
        blobs := DriftAll(blobs);
      }
    }
  }
}
