/**
 * The Konami-code easter egg: a window over the last ten keys pressed, and a
 * five-second overlay shown when the window spells the pattern.
 *
 * The timer is modelled by a count of pending expiries: activating starts one,
 * and `TimerFires` is one of them going off later.
 */
module Konami {
  const Pattern: seq<string> := ["ArrowUp", "ArrowUp", "ArrowDown", "ArrowDown", "ArrowLeft", "ArrowRight",
                                 "ArrowLeft", "ArrowRight", "b", "a"]
  const WindowSize: nat := 10

  /** The last `n` elements of `xs` (all of them when there are fewer): `xs.slice(-n)`. */
  function Last<T>(xs: seq<T>, n: nat): (r: seq<T>)
    ensures |r| == if |xs| < n then |xs| else n
    ensures r == xs[|xs| - |r|..]
  {
    if |xs| <= n then xs else xs[|xs| - n..]
  }

  /** `[...sequence, key].slice(-10)` */
  function Window(sequence: seq<string>, key: string): seq<string> {
    Last(sequence + [key], WindowSize)
  }

  /** `JSON.stringify(newSequence) === JSON.stringify(konamiCode)`: element-wise, case-sensitive equality. */
  predicate Matches(sequence: seq<string>) {
    sequence == Pattern
  }

  datatype Cheat = Cheat(sequence: seq<string>, active: bool, pendingTimers: nat) {
    /** The overlay is on screen exactly while `active`. */
    predicate ShowsOverlay() { active }
  }

  /** `activateCheat`: on, and one more expiry pending. */
  function Activate(c: Cheat): (r: Cheat)
    ensures r.active && r.ShowsOverlay() && r.sequence == c.sequence && r.pendingTimers == c.pendingTimers + 1
  {
    c.(active := true, pendingTimers := c.pendingTimers + 1)
  }

  /** `handleKeyDown` */
  function KeyDown(c: Cheat, key: string): Cheat {
    var next := c.(sequence := Window(c.sequence, key));
    if Matches(next.sequence) then Activate(next) else next
  }

  /** A pending `setTimeout(() => setActive(false), 5000)` going off. */
  function Expire(c: Cheat): Cheat
    requires c.pendingTimers > 0
  {
    c.(active := false, pendingTimers := c.pendingTimers - 1)
  }

  /** The window after pressing `keys` one by one. */
  function Presses(sequence: seq<string>, keys: seq<string>): seq<string>
    decreases |keys|
  {
    if keys == [] then sequence else Presses(Window(sequence, keys[0]), keys[1..])
  }

  /** The stored sequence never holds more than ten keys, and holds the keys last pressed. */
  lemma WindowBounded(sequence: seq<string>, key: string)
    requires |sequence| <= WindowSize
    ensures |Window(sequence, key)| == if |sequence| < WindowSize then |sequence| + 1 else WindowSize
    ensures Window(sequence, key)[|Window(sequence, key)| - 1] == key
    ensures Window(sequence, key)[..|Window(sequence, key)| - 1] == Last(sequence, WindowSize - 1)
  {
  }

  lemma LastOfLast<T>(xs: seq<T>, ys: seq<T>, n: nat)
    ensures Last(Last(xs, n) + ys, n) == Last(xs + ys, n)
  {
    var l := Last(xs, n);
    assert xs + ys == xs[..|xs| - |l|] + (l + ys);
  }

  /** After any presses the window is the last ten of the earlier window followed by the keys, in press order. */
  lemma {:induction false} PressesAreLastKeys(sequence: seq<string>, keys: seq<string>)
    requires |sequence| <= WindowSize
    ensures Presses(sequence, keys) == Last(sequence + keys, WindowSize)
    decreases |keys|
  {
    if keys == [] {
      assert sequence + keys == sequence;
    } else {
      var next := Window(sequence, keys[0]);
      PressesAreLastKeys(next, keys[1..]);
      LastOfLast(sequence + [keys[0]], keys[1..], WindowSize);
      assert sequence + [keys[0]] + keys[1..] == sequence + keys;
    }
  }

  /** From a fresh start, after n presses the sequence is the last min(n, 10) keys. */
  lemma PressesFromStart(keys: seq<string>)
    ensures Presses([], keys) == Last(keys, WindowSize)
  {
    PressesAreLastKeys([], keys);
    assert [] + keys == keys;
  }

  /** A key press activates exactly when the new window equals the pattern, so only on an "a" after the first nine keys. */
  lemma ActivationIff(c: Cheat, key: string)
    ensures KeyDown(c, key).active == (Window(c.sequence, key) == Pattern || c.active)
    ensures Window(c.sequence, key) == Pattern ==> key == "a" && Last(c.sequence, 9) == Pattern[..9]
  {
    var w := Window(c.sequence, key);
    if w == Pattern {
      assert w[9] == key;
      assert Last(c.sequence + [key], WindowSize)[..9] == Last(c.sequence, 9);
    }
  }

  /** Case matters: an "A" in place of the final "a" never activates, nor does an "a" pressed right after a "B". */
  lemma CaseSensitive(sequence: seq<string>)
    ensures Window(sequence, "A") != Pattern
    ensures sequence != [] && sequence[|sequence| - 1] == "B" ==> Window(sequence, "a") != Pattern
  {
    assert Window(sequence, "A")[|Window(sequence, "A")| - 1] == "A";
    if sequence != [] && sequence[|sequence| - 1] == "B" {
      var w := Window(sequence, "a");
      assert w[|w| - 2] == "B";
    }
  }

  /** Fewer than ten presses from a fresh start never activate. */
  lemma FewPressesNeverActivate(keys: seq<string>, i: nat)
    requires i < |keys| < WindowSize
    ensures !Matches(Presses([], keys[..i + 1]))
  {
    PressesFromStart(keys[..i + 1]);
    assert |Presses([], keys[..i + 1])| == i + 1 < |Pattern|;
  }

  /** Pressing the pattern activates, whatever was pressed before. */
  lemma PatternAlwaysActivates(sequence: seq<string>)
    requires |sequence| <= WindowSize
    ensures Presses(sequence, Pattern) == Pattern
  {
    PressesAreLastKeys(sequence, Pattern);
    assert (sequence + Pattern)[|sequence + Pattern| - WindowSize..] == Pattern;
  }

  class KonamiCode {
    var sequence: seq<string>
    var active: bool
    var pendingTimers: nat

    function State(): Cheat
      reads this
    {
      Cheat(sequence, active, pendingTimers)
    }

    ghost predicate Valid()
      reads this
    {
      |sequence| <= WindowSize
    }

    constructor ()
      ensures Valid() && State() == Cheat([], false, 0)
    {
      sequence, active, pendingTimers := [], false, 0;
    }

    /** `activateCheat` */
    method ActivateCheat()
      modifies this
      ensures State() == Activate(old(State()))
    {
      active := true;
      pendingTimers := pendingTimers + 1;
    }

    /** `handleKeyDown` */
    method HandleKeyDown(key: string)
      requires Valid()
      modifies this
      ensures Valid()
      ensures State() == KeyDown(old(State()), key)
    {
      var newSequence := sequence + [key];
      if |newSequence| > WindowSize {
        newSequence := newSequence[|newSequence| - WindowSize..];
      }
      sequence := newSequence;
      if sequence == Pattern {
        ActivateCheat();
      }
    }

    method TimerFires()
      requires pendingTimers > 0
      modifies this
      ensures State() == Expire(old(State()))
    {
      active := false;
      pendingTimers := pendingTimers - 1;
    }
  }
}
