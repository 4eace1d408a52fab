/** The hero typewriter: a three-variable state machine that types a phrase
    one character at a time, pauses, erases it one character at a time,
    pauses, and moves on to the next phrase. Each call of `type()` is one
    step; the `setTimeout` that re-schedules it becomes the returned delay. */
module Typing {

  const Phrases: seq<string> := ["Engineer", "Innovator", "Creator"]

  /** Delays in milliseconds before the next step. */
  const TypeDelay: nat := 200
  const DeleteDelay: nat := 100
  const FullPause: nat := 2000
  const EmptyPause: nat := 500

  /** The closure variables `phraseIndex`, `letterIndex`, `isDeleting`. */
  datatype TypeState = TypeState(phraseIndex: int, letterIndex: int, isDeleting: bool)

  /** What one step produces: the new state, the text shown, the next delay. */
  datatype Tick = Tick(next: TypeState, text: string, delay: nat)

  /** The state in which phrase `p` is about to be typed from scratch. */
  function Start(p: int): TypeState {
    TypeState(p, 0, false)
  }

  const Initial: TypeState := Start(0)

  function PhraseLength(p: int): nat
    requires 0 <= p < |Phrases|
  {
    |Phrases[p]|
  }

  function Clamp(k: int, n: nat): (r: nat)
    ensures r <= n
    ensures 0 <= k <= n ==> r == k
  {
    if k < 0 then 0 else if k > n then n else k
  }

  /** JavaScript's `s.substring(start, end)`: both bounds are clamped into
      [0, |s|] and swapped when the first exceeds the second. */
  function Substring(s: string, start: int, end: int): (r: string)
    ensures |r| <= |s|
    ensures 0 <= start <= end <= |s| ==> r == s[start..end]
    ensures start <= 0 ==> r == s[..Clamp(end, |s|)]
  {
    var a := Clamp(start, |s|);
    var b := Clamp(end, |s|);
    if a <= b then s[a..b] else s[b..a]
  }

  /** One call of `type()`, as a function of the closure variables. The
      only demand is that `phraseIndex` selects a phrase. */
  function Next(s: TypeState): (t: Tick)
    requires 0 <= s.phraseIndex < |Phrases|
    ensures 0 <= t.next.phraseIndex < |Phrases|
  {
    var phrase := Phrases[s.phraseIndex];
    var text := if s.isDeleting then Substring(phrase, 0, s.letterIndex - 1)
                else Substring(phrase, 0, s.letterIndex + 1);
    var letter := if s.isDeleting then s.letterIndex - 1 else s.letterIndex + 1;
    var speed := if s.isDeleting then DeleteDelay else TypeDelay;
    if !s.isDeleting && letter == |phrase| then
      Tick(TypeState(s.phraseIndex, letter, true), text, FullPause)
    else if s.isDeleting && letter == 0 then
      Tick(TypeState((s.phraseIndex + 1) % |Phrases|, letter, false), text, EmptyPause)
    else
      Tick(TypeState(s.phraseIndex, letter, s.isDeleting), text, speed)
  }

  /** The states the typewriter can reach from `Initial`: a phrase is
      selected, typing leaves at least one letter to type, and erasing
      leaves at least one letter to erase. */
  predicate Inv(s: TypeState) {
    && 0 <= s.phraseIndex < |Phrases|
    && (if s.isDeleting then 0 < s.letterIndex <= PhraseLength(s.phraseIndex)
        else 0 <= s.letterIndex < PhraseLength(s.phraseIndex))
  }

  /** `n` calls of `type()` in a row. */
  function Run(s: TypeState, n: nat): (t: TypeState)
    requires 0 <= s.phraseIndex < |Phrases|
    ensures 0 <= t.phraseIndex < |Phrases|
    decreases n
  {
    if n == 0 then s else Run(Next(s).next, n - 1)
  }

  /** One step keeps the invariant, keeps `letterIndex` within the phrase,
      and shows the prefix of length `letterIndex` of the phrase that was
      current when the step began (empty once erasing reaches 0). */
  lemma NextKeepsInv(s: TypeState)
    requires Inv(s)
    ensures Inv(Next(s).next)
    ensures 0 <= Next(s).next.letterIndex <= PhraseLength(s.phraseIndex)
    ensures Next(s).text == Phrases[s.phraseIndex][..Next(s).next.letterIndex]
    ensures Next(s).next.letterIndex == 0 ==> Next(s).text == ""
  {
  }

  /** Each delay is chosen exactly in its own situation: 2000 when the
      phrase has just been typed in full (and erasing begins), 500 when it
      has just been erased (and typing begins), otherwise 200 while typing
      and 100 while erasing. */
  lemma DelayRules(s: TypeState)
    requires Inv(s)
    ensures var t := Next(s);
      && (t.delay == FullPause <==> !s.isDeleting && t.next.isDeleting)
      && (t.delay == FullPause <==> t.text == Phrases[s.phraseIndex] && !s.isDeleting)
      && (t.delay == EmptyPause <==> s.isDeleting && !t.next.isDeleting)
      && (t.delay == EmptyPause <==> t.text == "")
      && (t.delay == TypeDelay <==> !s.isDeleting && !t.next.isDeleting)
      && (t.delay == DeleteDelay <==> s.isDeleting && t.next.isDeleting)
  {
  }

  /** The phrase changes only when erasing empties it, and then moves on
      to the next phrase modulo 3. */
  lemma PhraseAdvance(s: TypeState)
    requires Inv(s)
    ensures Next(s).next.phraseIndex != s.phraseIndex <==> s.isDeleting && s.letterIndex == 1
    ensures Next(s).next.phraseIndex != s.phraseIndex ==>
      Next(s).next == Start((s.phraseIndex + 1) % |Phrases|)
  {
  }

  /** The invariant holds across any number of calls. */
  lemma {:induction false} RunKeepsInv(s: TypeState, n: nat)
    requires Inv(s)
    ensures Inv(Run(s, n))
    decreases n
  {
    if n > 0 {
      NextKeepsInv(s);
      RunKeepsInv(Next(s).next, n - 1);
    }
  }

  lemma {:induction false} RunLast(s: TypeState, n: nat)
    requires 0 <= s.phraseIndex < |Phrases|
    ensures Run(s, n + 1) == Next(Run(s, n)).next
    decreases n
  {
    if n > 0 {
      RunLast(Next(s).next, n - 1);
    }
  }

  lemma {:induction false} RunAdd(s: TypeState, a: nat, b: nat)
    requires 0 <= s.phraseIndex < |Phrases|
    ensures Run(s, a + b) == Run(Run(s, a), b)
    decreases a
  {
    if a > 0 {
      RunAdd(Next(s).next, a - 1, b);
    }
  }

  /** The first `L` calls on phrase `p` (of length `L`) type it letter by
      letter; the `L`-th switches to erasing. */
  lemma {:induction false} TypingPhase(p: int, k: nat)
    requires 0 <= p < |Phrases| && k <= PhraseLength(p)
    ensures Run(Start(p), k) ==
      if k < PhraseLength(p) then TypeState(p, k, false) else TypeState(p, k, true)
  {
    if k > 0 {
      TypingPhase(p, k - 1);
      RunLast(Start(p), k - 1);
    }
  }

  /** The next `L` calls erase it letter by letter; the last moves on. */
  lemma {:induction false} ErasingPhase(p: int, m: nat)
    requires 0 <= p < |Phrases| && m <= PhraseLength(p)
    ensures Run(Start(p), PhraseLength(p) + m) ==
      if m < PhraseLength(p) then TypeState(p, PhraseLength(p) - m, true)
      else Start((p + 1) % |Phrases|)
  {
    if m == 0 {
      TypingPhase(p, PhraseLength(p));
    } else {
      ErasingPhase(p, m - 1);
      RunLast(Start(p), PhraseLength(p) + m - 1);
    }
  }

  /** The state after `k` calls on phrase `p`, for `k <= 2 * L`. */
  function CycleState(p: int, k: nat): TypeState
    requires 0 <= p < |Phrases| && k <= 2 * PhraseLength(p)
  {
    var n := PhraseLength(p);
    if k < n then TypeState(p, k, false)
    else if k < 2 * n then TypeState(p, 2 * n - k, true)
    else Start((p + 1) % |Phrases|)
  }

  lemma CycleAt(p: int, k: nat)
    requires 0 <= p < |Phrases| && k <= 2 * PhraseLength(p)
    ensures Run(Start(p), k) == CycleState(p, k)
  {
    if k <= PhraseLength(p) {
      TypingPhase(p, k);
    } else {
      ErasingPhase(p, k - PhraseLength(p));
    }
  }

  /** Each phrase takes exactly `2 * L` calls: its index stays put during
      the first `2 * L - 1` and the `2 * L`-th moves to the next phrase. */
  lemma CycleLength(p: int)
    requires 0 <= p < |Phrases|
    ensures Run(Start(p), 2 * PhraseLength(p)) == Start((p + 1) % |Phrases|)
    ensures forall k: nat :: k < 2 * PhraseLength(p) ==> Run(Start(p), k).phraseIndex == p
  {
    CycleAt(p, 2 * PhraseLength(p));
    forall k: nat | k < 2 * PhraseLength(p)
      ensures Run(Start(p), k).phraseIndex == p
    {
      CycleAt(p, k);
    }
  }

  /** What the `k`-th call (from 0) on phrase `p` shows and waits: typing
      shows ever longer prefixes at 200 ms, the full phrase waits 2000 ms,
      erasing shows ever shorter prefixes at 100 ms, the empty text waits
      500 ms. */
  lemma CycleSchedule(p: int, k: nat)
    requires 0 <= p < |Phrases| && k < 2 * PhraseLength(p)
    ensures var n := PhraseLength(p);
      var t := Next(Run(Start(p), k));
      && t.text == (if k < n then Phrases[p][..k + 1] else Phrases[p][..2 * n - k - 1])
      && t.delay == (if k < n - 1 then TypeDelay
                     else if k == n - 1 then FullPause
                     else if k < 2 * n - 1 then DeleteDelay
                     else EmptyPause)
  {
    CycleAt(p, k);
  }

  /** The number of calls spent on all phrases together. */
  function RotationCalls(): nat {
    2 * (PhraseLength(0) + PhraseLength(1) + PhraseLength(2))
  }

  /** The `2 * L` calls on phrase `p` end at the start of the phrase after it. */
  lemma PhaseDone(p: int, q: int)
    requires 0 <= p < |Phrases| && q == (p + 1) % |Phrases|
    ensures Run(Start(p), 2 * PhraseLength(p)) == Start(q)
  {
    CycleAt(p, 2 * PhraseLength(p));
  }

  /** Runs of `a`, `b` and `c` calls, chained, make one run of `a + b + c`. */
  lemma RunChain(s0: TypeState, s1: TypeState, s2: TypeState, s3: TypeState, a: nat, b: nat, c: nat)
    requires 0 <= s0.phraseIndex < |Phrases| && 0 <= s1.phraseIndex < |Phrases|
    requires 0 <= s2.phraseIndex < |Phrases|
    requires Run(s0, a) == s1 && Run(s1, b) == s2 && Run(s2, c) == s3
    ensures Run(s0, a + b + c) == s3
  {
    RunAdd(s0, a, b);
    RunAdd(s0, a + b, c);
  }

  /** Three consecutive phrases, each taking its `2 * L` calls, bring the
      typewriter back to the first of them. */
  lemma ThreePhases(p: int, q: int, r: int)
    requires 0 <= p < |Phrases| && 0 <= q < |Phrases| && 0 <= r < |Phrases|
    requires q == (p + 1) % |Phrases| && r == (q + 1) % |Phrases| && p == (r + 1) % |Phrases|
    ensures Run(Start(p), 2 * PhraseLength(p) + 2 * PhraseLength(q) + 2 * PhraseLength(r)) == Start(p)
  {
    PhaseDone(p, q);
    PhaseDone(q, r);
    PhaseDone(r, p);
    RunChain(Start(p), Start(q), Start(r), Start(p),
             2 * PhraseLength(p), 2 * PhraseLength(q), 2 * PhraseLength(r));
  }

  /** Engineer -> Innovator -> Creator -> Engineer: from the start of any
      phrase, the calls for all three phrases, 2 * (8 + 9 + 7) = 48 of them,
      bring the typewriter back to where it was. */
  lemma FullRotation(p: int)
    requires 0 <= p < |Phrases|
    ensures RotationCalls() == 48
    ensures Run(Start(p), RotationCalls()) == Start(p)
  {
    assert PhraseLength(0) == 8 && PhraseLength(1) == 9 && PhraseLength(2) == 7;
    if p == 0 {
      ThreePhases(0, 1, 2);
    } else if p == 1 {
      ThreePhases(1, 2, 0);
    } else {
      ThreePhases(2, 0, 1);
    }
  }

  /** The typewriter with its three closure variables as fields. */
  class Typewriter {
    var phraseIndex: int
    var letterIndex: int
    var isDeleting: bool

    function State(): TypeState
      reads this
    {
      TypeState(phraseIndex, letterIndex, isDeleting)
    }

    ghost predicate Valid()
      reads this
    {
      Inv(State())
    }

    constructor ()
      ensures Valid() && State() == Initial
    {
      phraseIndex, letterIndex, isDeleting := 0, 0, false;
    }

    /** One call of `type()`: updates the fields and returns the text shown
        and the delay handed to `setTimeout`. */
    method Type() returns (text: string, delay: nat)
      requires Valid()
      modifies this
      ensures Valid()
      ensures Tick(State(), text, delay) == Next(old(State()))
    {
      NextKeepsInv(State());
      var phrase := Phrases[phraseIndex];
      if isDeleting {
        text := Substring(phrase, 0, letterIndex - 1);
        letterIndex := letterIndex - 1;
      } else {
        text := Substring(phrase, 0, letterIndex + 1);
        letterIndex := letterIndex + 1;
      }
      delay := if isDeleting then DeleteDelay else TypeDelay;
      if !isDeleting && letterIndex == |phrase| {
        isDeleting := true;
        delay := FullPause;
      } else if isDeleting && letterIndex == 0 {
        isDeleting := false;
        phraseIndex := (phraseIndex + 1) % |Phrases|;
        delay := EmptyPause;
      }
    }
  }
}
