/** The ambient audio toggle: a button that starts and pauses a media
    element and carries a "playing" marker class once playback has been
    confirmed. The promise returned by play() is modelled by two events that
    settle one outstanding play request each: a request either resolves,
    which needs the media to be playing, or has already been doomed to be
    rejected (refused at once, or aborted by a later pause). */
module Audio {

  class AudioToggle {
    /** The media element's paused flag, as the browser keeps it: play()
        clears it at once when playback is allowed, pause() sets it. */
    var paused: bool
    /** Whether the button carries the "playing" class. */
    var marked: bool
    /** play() requests that will resolve once playback has started. */
    var pending: nat
    /** play() requests whose promise will be rejected: refused by the
        browser, or aborted because the media was paused before they
        resolved. */
    var doomed: nat

    /** The marker is only ever present while the media plays; a request
        can only resolve while the media plays; and the media plays only
        while the marker is present or a request to set it is outstanding. */
    ghost predicate Valid()
      reads this
    {
      && (marked ==> !paused)
      && (pending > 0 ==> !paused)
      && (!paused ==> marked || pending > 0)
    }

    /** The page loads with the media paused and the marker absent. */
    constructor ()
      ensures Valid()
      ensures paused && !marked && pending == 0 && doomed == 0
    {
      paused := true;
      marked := false;
      pending := 0;
      doomed := 0;
    }

    /** The click handler. While paused it calls play(): allowed is the
        browser's decision whether playback may start. The marker waits for
        the request to resolve. While playing it calls pause(), which rejects
        every outstanding request, and removes the marker at once. */
    method Click(allowed: bool)
      requires Valid()
      modifies this
      ensures Valid()
      ensures old(paused) && allowed ==>
                !paused && marked == old(marked) && pending == old(pending) + 1 && doomed == old(doomed)
      ensures old(paused) && !allowed ==>
                paused && marked == old(marked) && pending == old(pending) && doomed == old(doomed) + 1
      ensures !old(paused) ==>
                paused && !marked && pending == 0 && doomed == old(doomed) + old(pending)
    {
      if paused {
        if allowed {
          paused := false;
          pending := pending + 1;
        } else {
          doomed := doomed + 1;
        }
      } else {
        paused := true;
        marked := false;
        doomed := doomed + pending;
        pending := 0;
      }
    }

    /** A play request resolved: playback has started, so the marker is set. */
    method PlayResolved()
      requires Valid()
      requires pending > 0
      modifies this
      ensures Valid()
      ensures !paused && marked && pending == old(pending) - 1 && doomed == old(doomed)
    {
      marked := true;
      pending := pending - 1;
    }

    /** A play request was rejected: the failure is only logged, so the media
        and the marker stay as they were. */
    method PlayRejected()
      requires Valid()
      requires doomed > 0
      modifies this
      ensures Valid()
      ensures paused == old(paused) && marked == old(marked)
      ensures pending == old(pending) && doomed == old(doomed) - 1
    {
      doomed := doomed - 1;
    }

    /** The media element pauses, whatever caused it (the button, the end of
        the media, the native controls), and its pause event fires: every
        outstanding request is rejected and the marker is removed. */
    method MediaPaused()
      requires Valid()
      modifies this
      ensures Valid()
      ensures paused && !marked && pending == 0 && doomed == old(doomed) + old(pending)
    {
      paused := true;
      marked := false;
      doomed := doomed + pending;
      pending := 0;
    }
  }

  /** Playback blocked by policy: after the refusal the marker is absent and
      the media paused, and a second click requests playback again. */
  method AutoplayBlocked() returns (markedAfterRefusal: bool, pausedAfterRefusal: bool, retried: bool)
    ensures !markedAfterRefusal && pausedAfterRefusal && retried
  {
    var toggle := new AudioToggle();
    toggle.Click(false);
    toggle.PlayRejected();
    markedAfterRefusal, pausedAfterRefusal := toggle.marked, toggle.paused;
    toggle.Click(true);
    retried := toggle.pending == 1 && !toggle.paused && !toggle.marked;
  }

  /** A second click before the first request settles pauses the media: the
      marker never appears, and the first request can only be rejected. */
  method ClickedTwiceQuickly() returns (pausedAfter: bool, markedAfter: bool, resolvable: nat, rejectable: nat)
    ensures pausedAfter && !markedAfter && resolvable == 0 && rejectable == 1
  {
    var toggle := new AudioToggle();
    toggle.Click(true);
    toggle.Click(true);
    pausedAfter, markedAfter := toggle.paused, toggle.marked;
    resolvable, rejectable := toggle.pending, toggle.doomed;
  }

  /** The media ends by itself after playing: the marker goes although the
      button was not clicked again. */
  method MediaEnds() returns (markedWhilePlaying: bool, markedAfterEnd: bool)
    ensures markedWhilePlaying && !markedAfterEnd
  {
    var toggle := new AudioToggle();
    toggle.Click(true);
    toggle.PlayResolved();
    markedWhilePlaying := toggle.marked;
    toggle.MediaPaused();
    markedAfterEnd := toggle.marked;
  }
}
