/**
 * The ducking marker of src/tbw/core/audio.js. The module variable
 * `currentDuck` is the field of one `AudioDuck` object; `Date.now()` is the
 * parameter `now`.
 */
module Audio {
  import opened Wrappers

  class AudioDuck {
    /** `currentDuck`: the time ducking started, `None` for `null`. */
    var currentDuck: Option<int>

    constructor ()
      ensures currentDuck == None
      ensures !IsDucking()
    {
      currentDuck := None;
    }

    /** `isDucking()`: `!!currentDuck`, so a start time of 0 reads as not ducking. */
    predicate IsDucking()
      reads this
    {
      currentDuck.Some? && currentDuck.value != 0
    }

    /** `duckAudioStart()` at time `now`. */
    method DuckAudioStart(now: int)
      modifies this
      ensures currentDuck == Some(now)
      ensures IsDucking() <==> now != 0
    {
      currentDuck := Some(now);
    }

    /** `duckAudioEnd()`: whatever came before, ducking is over. */
    method DuckAudioEnd()
      modifies this
      ensures currentDuck == None
      ensures !IsDucking()
    {
      currentDuck := None;
    }
  }
}
