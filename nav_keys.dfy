/**
 * Directional-key repeat classification. The widget counts key-downs of the four D-pad
 * keys and resets the count on their key-up; a focus change animates the selector only
 * while fewer than two key-downs have arrived since the last key-up.
 */
module NavKeys {

  /** Java's `int`. */
  newtype int32 = x: int | -0x8000_0000 <= x < 0x8000_0000

  const INT32_MIN: int32 := -0x8000_0000
  const INT32_MAX: int32 := 0x7fff_ffff

  /** Key codes and actions of the host toolkit's key events. */
  const KEYCODE_DPAD_UP := 19
  const KEYCODE_DPAD_DOWN := 20
  const KEYCODE_DPAD_LEFT := 21
  const KEYCODE_DPAD_RIGHT := 22
  const ACTION_DOWN := 0
  const ACTION_UP := 1

  datatype KeyEvent = KeyEvent(keyCode: int, action: int)

  predicate IsDpadKey(keyCode: int) {
    keyCode == KEYCODE_DPAD_LEFT || keyCode == KEYCODE_DPAD_RIGHT ||
    keyCode == KEYCODE_DPAD_UP || keyCode == KEYCODE_DPAD_DOWN
  }

  /** A key-down of a directional key. */
  predicate IsNavPress(e: KeyEvent) {
    IsDpadKey(e.keyCode) && e.action == ACTION_DOWN
  }

  /** A key-up of a directional key. */
  predicate IsNavRelease(e: KeyEvent) {
    IsDpadKey(e.keyCode) && e.action == ACTION_UP
  }

  /** Java's `++` on an `int`: the largest value wraps round to the smallest. */
  function Increment(x: int32): int32 {
    if x == INT32_MAX then INT32_MIN else x + 1
  }

  /** The `int` that a count of `n` ends up as after wrap-around. */
  function Wrap(n: nat): int32 {
    ((n + 0x8000_0000) % 0x1_0000_0000 - 0x8000_0000) as int32
  }

  /**
   * The counter after one key event has been dispatched: a directional key-up resets it,
   * a directional key-down adds one in 32-bit two's complement, anything else keeps it.
   */
  function KeyStep(count: int32, e: KeyEvent): (r: int32)
    ensures IsNavRelease(e) ==> r == 0
    ensures IsNavPress(e) ==> r as int == (count as int + 1 + 0x8000_0000) % 0x1_0000_0000 - 0x8000_0000
    ensures !IsNavPress(e) && !IsNavRelease(e) ==> r == count
  {
    if IsNavRelease(e) then 0
    else if IsNavPress(e) then Increment(count)
    else count
  }

  /** The counter after a whole history of key events, starting from a new widget's 0. */
  function Replay(events: seq<KeyEvent>): int32 {
    if events == [] then 0
    else KeyStep(Replay(events[..|events| - 1]), events[|events| - 1])
  }

  /** The index of the last directional key-up in `events`, or -1 if there is none. */
  function LastRelease(events: seq<KeyEvent>): (r: int)
    ensures -1 <= r < |events|
    ensures r >= 0 ==> IsNavRelease(events[r])
    ensures forall i :: r < i < |events| ==> !IsNavRelease(events[i])
  {
    if events == [] then -1
    else if IsNavRelease(events[|events| - 1]) then |events| - 1
    else LastRelease(events[..|events| - 1])
  }

  /** The number of directional key-downs in `events`. */
  function CountPresses(events: seq<KeyEvent>): (n: nat)
    ensures n <= |events|
  {
    if events == [] then 0
    else CountPresses(events[..|events| - 1]) + (if IsNavPress(events[|events| - 1]) then 1 else 0)
  }

  /** How many directional key-downs have arrived since the last directional key-up (or the start). */
  function PressesSinceRelease(events: seq<KeyEvent>): nat {
    CountPresses(events[LastRelease(events) + 1..])
  }

  /**
   * The animation duration a focus change picks: the configured one unless the key is
   * repeating, in which case the selectors snap.
   */
  function FocusDuration(count: int32, selectionDuration: int32): (r: int32)
    ensures r == selectionDuration || r == 0
    ensures selectionDuration != 0 ==> (r == 0 <==> count >= 2)
  {
    if count < 2 then selectionDuration else 0
  }

  lemma WrapSucc(n: nat)
    ensures Wrap(n + 1) == Increment(Wrap(n))
  {
    if Wrap(n) == INT32_MAX {
      assert (n + 0x8000_0000) % 0x1_0000_0000 == 0xffff_ffff;
    }
  }

  lemma WrapSmall(n: nat)
    requires n <= INT32_MAX as int
    ensures Wrap(n) as int == n
  {
  }

  /**
   * The counter, for any history of key events, is the number of directional key-downs
   * since the last directional key-up, reduced to Java's `int` range.
   */
  lemma {:induction false} ReplayCountsPressesSinceRelease(events: seq<KeyEvent>)
    ensures Replay(events) == Wrap(PressesSinceRelease(events))
  {
    if events != [] {
      var init, last := events[..|events| - 1], events[|events| - 1];
      ReplayCountsPressesSinceRelease(init);
      if !IsNavRelease(last) {
        var k := LastRelease(init) + 1;
        assert LastRelease(events) + 1 == k;
        assert events[k..][..|events[k..]| - 1] == init[k..];
        assert events[k..][|events[k..]| - 1] == last;
        if IsNavPress(last) {
          WrapSucc(PressesSinceRelease(init));
        }
      }
    }
  }

  /** Without wrap-around, the counter is exactly the number of key-downs since the last key-up. */
  lemma CountIsPressesSinceRelease(events: seq<KeyEvent>)
    requires PressesSinceRelease(events) <= INT32_MAX as int
    ensures Replay(events) as int == PressesSinceRelease(events)
  {
    ReplayCountsPressesSinceRelease(events);
    WrapSmall(PressesSinceRelease(events));
  }

  /**
   * A focus change after a single deliberate key-down animates over the configured
   * duration; after two or more key-downs without a key-up it snaps (duration 0).
   */
  lemma FocusDurationFollowsPresses(events: seq<KeyEvent>, selectionDuration: int32)
    requires PressesSinceRelease(events) <= INT32_MAX as int
    ensures PressesSinceRelease(events) < 2 ==> FocusDuration(Replay(events), selectionDuration) == selectionDuration
    ensures PressesSinceRelease(events) >= 2 ==> FocusDuration(Replay(events), selectionDuration) == 0
  {
    CountIsPressesSinceRelease(events);
  }

  /**
   * After 2^31 key-downs without a key-up the counter has wrapped to the smallest `int`,
   * so the next focus change animates again as if after a single press.
   */
  lemma LongHoldWrapsToSlowAnimation(events: seq<KeyEvent>, selectionDuration: int32)
    requires PressesSinceRelease(events) == 0x8000_0000
    ensures Replay(events) == INT32_MIN
    ensures FocusDuration(Replay(events), selectionDuration) == selectionDuration
  {
    ReplayCountsPressesSinceRelease(events);
  }

  /** A history of `n` directional key-downs, as produced by holding one D-pad key. */
  function HeldKey(keyCode: int, n: nat): (events: seq<KeyEvent>)
    requires IsDpadKey(keyCode)
    ensures |events| == n
    ensures forall i :: 0 <= i < n ==> IsNavPress(events[i])
  {
    if n == 0 then [] else HeldKey(keyCode, n - 1) + [KeyEvent(keyCode, ACTION_DOWN)]
  }

  /** Holding a directional key for `n` repeats after a key-up leaves the counter at `n`. */
  lemma {:induction false} HoldingAfterReleaseCounts(before: seq<KeyEvent>, release: KeyEvent, keyCode: int, n: nat)
    requires IsNavRelease(release) && IsDpadKey(keyCode)
    requires n <= INT32_MAX as int
    ensures Replay(before + [release] + HeldKey(keyCode, n)) as int == n
  {
    var events := before + [release] + HeldKey(keyCode, n);
    var k := |before| + 1;
    assert IsNavRelease(events[k - 1]);
    assert LastRelease(events) == k - 1;
    assert events[k..] == HeldKey(keyCode, n);
    AllPressesCount(HeldKey(keyCode, n));
    CountIsPressesSinceRelease(events);
  }

  lemma {:induction false} AllPressesCount(events: seq<KeyEvent>)
    requires forall i :: 0 <= i < |events| ==> IsNavPress(events[i])
    ensures CountPresses(events) == |events|
  {
    if events != [] {
      AllPressesCount(events[..|events| - 1]);
    }
  }
}
