/** Small types shared by every module of the model. Texts are byte strings, as they are in Go and C++:
    a character of a `string` stands for one byte of the UTF-8 text, and `|s|` counts bytes. */
module Prelude {

  datatype Option<+T> = None | Some(value: T)

  datatype Result<+T, +E> = Ok(value: T) | Err(error: E)

  /** The result of an operation that returns nothing on success. */
  datatype Unit = Unit

  /** Text that came through `c_str()`: it never holds a NUL character. */
  type CText = s: string | NoNul(s)

  predicate NoNul(s: string) {
    forall i | 0 <= i < |s| :: s[i] != '\0'
  }

  /** What `c_str()` keeps of a string: everything before the first NUL. */
  function CStr(s: string): (r: CText)
    ensures r <= s
    ensures r == s <==> NoNul(s)
    ensures |r| < |s| ==> s[|r|] == '\0'
  {
    if s == "" || s[0] == '\0' then ""
    else
      var rest := CStr(s[1..]);
      assert s == [s[0]] + s[1..];
      [s[0]] + rest
  }

  const TWO_63 := 0x8000_0000_0000_0000
  const TWO_64 := 0x1_0000_0000_0000_0000

  /** An unsigned 64-bit value. */
  type Uint64 = n: int | 0 <= n < TWO_64

  function Min(a: int, b: int): int { if a <= b then a else b }

  function Max(a: int, b: int): int { if a >= b then a else b }

  datatype Tick = Look(at: int) | Pause(duration: nat)

  /** A loop that looks at the clock, does something, and pauses, once for each of these moments. */
  function Rounds(moments: seq<int>, pause: nat): (r: seq<Tick>)
    ensures |r| == 2 * |moments|
    ensures forall i | 0 <= i < |moments| :: r[2 * i] == Look(moments[i]) && r[2 * i + 1] == Pause(pause)
  {
    if moments == [] then [] else Rounds(moments[..|moments|-1], pause) + [Look(moments[|moments|-1]), Pause(pause)]
  }

  lemma NoRounds(pause: nat)
    ensures Rounds([], pause) == []
  {
  }

  lemma RoundsNext(moments: seq<int>, now: int, pause: nat)
    ensures Rounds(moments + [now], pause) == Rounds(moments, pause) + [Look(now), Pause(pause)]
  {
    assert (moments + [now])[..|moments|] == moments;
  }

  /** Time as the steady clock shows it, in milliseconds. */
  class Clock {
    var now: int
    /** Every look at the clock and every pause that was asked for, in order. */
    ghost var ticks: seq<Tick>

    constructor ()
      ensures ticks == []
    {
      now, ticks := 0, [];
    }

    method Read() returns (t: int)
      modifies this
      ensures now >= old(now) && t == now && ticks == old(ticks) + [Look(t)]
    {
      var passed: int := *;
      now := now + Max(passed, 0);
      ticks := ticks + [Look(now)];
      t := now;
    }

    /** Sleeping takes at least the asked time, and never no time at all. */
    method Sleep(duration: nat)
      modifies this
      ensures now >= old(now) + Max(duration, 1) && ticks == old(ticks) + [Pause(duration)]
    {
      var late: int := *;
      ticks := ticks + [Pause(duration)];
      now := now + Max(duration, 1) + Max(late, 0);
    }
  }

  lemma {:induction false} SubsetSize<T>(a: set<T>, b: set<T>)
    requires a <= b
    ensures |a| <= |b|
  {
    if x :| x in a {
      SubsetSize(a - {x}, b - {x});
    }
  }
}
