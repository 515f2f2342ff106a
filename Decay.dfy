/**
 * The diminishing-returns engine of bot.js: one saturation counter per
 * channel (chat messages, voice minutes), its transition on each accrual
 * event, the reduction factor it yields, and the resulting XP gain with the
 * server-tag bonus and the absolute floor applied.
 *
 * Elapsed times are integer milliseconds (the caller's `now` minus the stored
 * timestamp). For a positive divisor Dafny's `/` on int rounds toward minus
 * infinity, exactly as Math.floor(elapsed / oneHour) does, negative elapsed
 * times included. XP amounts are exact reals.
 */
module Decay {

  const FiveMinutesMs: int := 5 * 60 * 1000
  const OneHourMs: int := 60 * 60 * 1000

  /** XP per word of a chat message. */
  const WordXp: real := 0.1
  /** The smallest chat reduction factor (calculateXPGain). */
  const ChatFloor: real := 0.001
  /** The smallest voice reduction factor (calculateVoiceXPGain). */
  const VoiceFloor: real := 0.001
  /** No accrual event is worth less than this. */
  const MinGain: real := 0.0001
  /** The voice minute counter never exceeds this many minutes. */
  const VoiceCap: int := 50
  /** Minutes of voice penalty forgiven per whole idle hour. */
  const VoiceRecoveryPerHour: int := 5

  function MaxInt(a: int, b: int): int { if a >= b then a else b }
  function MinInt(a: int, b: int): int { if a <= b then a else b }
  function MaxReal(a: real, b: real): real { if a >= b then a else b }
  function MinReal(a: real, b: real): real { if a <= b then a else b }

  /** Math.pow for a natural exponent. */
  function Pow(b: real, n: nat): (r: real)
    ensures 0.0 < b <= 1.0 ==> 0.0 < r <= 1.0
    ensures 1.0 <= b ==> 1.0 <= r
  {
    if n == 0 then 1.0
    else
      var rest := Pow(b, n - 1);
      assert 0.0 < b <= 1.0 ==> 0.0 < b * rest <= rest;
      assert 1.0 <= b ==> rest <= b * rest;
      b * rest
  }

  /** Whole idle hours in an elapsed time: Math.floor(elapsed / oneHour). */
  function IdleHours(elapsed: int): int {
    elapsed / OneHourMs
  }

  /**
   * getServerTagMultiplier: a user who displays this guild's server tag earns
   * double XP. Whether the tag is shown is an input.
   */
  function TagMultiplier(tagged: bool): (m: real)
    ensures 1.0 <= m && (tagged <==> m > 1.0)
  {
    if tagged then 2.0 else 1.0
  }

  // ---------------------------------------------------------------- chat

  /**
   * The chat counter transition of addXP: a message within five minutes of
   * the previous one raises the counter by one; otherwise every whole idle
   * hour takes one off, never going below zero.
   */
  function ChatCounterNext(prev: nat, elapsed: int): (count: nat)
    ensures elapsed < FiveMinutesMs ==> count == prev + 1
    ensures FiveMinutesMs <= elapsed < OneHourMs ==> count == prev
    ensures FiveMinutesMs <= elapsed ==> count <= prev && (count == 0 || count == prev - IdleHours(elapsed))
    ensures FiveMinutesMs <= elapsed ==> (count == 0 <==> prev <= IdleHours(elapsed))
  {
    if elapsed < FiveMinutesMs then prev + 1
    else MaxInt(0, prev - IdleHours(elapsed))
  }

  /**
   * The reduction factor of calculateXPGain for a counter value (already
   * updated for this message). Inside five minutes it is 0.1^count floored at
   * 0.001; after an idle gap the floored value is doubled once per idle hour
   * and capped at 1. Either way it lies between the floor and 1.
   */
  function ChatReduction(count: nat, elapsed: int): (f: real)
    ensures ChatFloor <= f <= 1.0
  {
    var initial := MaxReal(ChatFloor, Pow(0.1, count));
    if elapsed < FiveMinutesMs then initial
    else
      var recovery := Pow(2.0, IdleHours(elapsed) as nat);
      assert ChatFloor <= initial <= initial * recovery;
      MinReal(1.0, initial * recovery)
  }

  /**
   * calculateXPGain: 0.1 XP per word, times the reduction factor and the tag
   * multiplier, never less than 0.0001 and never more than the unreduced rate.
   */
  function ChatGain(wordCount: nat, elapsed: int, count: nat, tagged: bool): (gain: real)
    ensures MinGain <= gain
    ensures gain <= MaxReal(MinGain, wordCount as real * WordXp * TagMultiplier(tagged))
  {
    var f := ChatReduction(count, elapsed);
    var base := wordCount as real * WordXp;
    var m := TagMultiplier(tagged);
    var full := base * m;
    assert base * f <= base;
    assert (base * f) * m <= full;
    var g := MaxReal(MinGain, (base * f) * m);
    assert g <= MaxReal(MinGain, full);
    g
  }

  // --------------------------------------------------------------- voice

  /**
   * The voice counter transition of addVoiceXP: five minutes forgiven per
   * whole idle hour, plus this minute, clamped to [0, 50]. The +1 sits inside
   * the clamp at zero.
   */
  function VoiceCounterNext(prev: nat, elapsed: int): (count: nat)
    ensures count <= VoiceCap
    ensures 0 <= elapsed < OneHourMs ==> count == MinInt(VoiceCap, prev + 1)
    ensures count == 0 <==> prev - VoiceRecoveryPerHour * IdleHours(elapsed) + 1 <= 0
    ensures count != 0 ==> count == MinInt(VoiceCap, prev - VoiceRecoveryPerHour * IdleHours(elapsed) + 1)
  {
    MinInt(VoiceCap, MaxInt(0, prev - VoiceRecoveryPerHour * IdleHours(elapsed) + 1))
  }

  /**
   * The /voicecooldown readout: the stored voice minutes left after the idle
   * recovery, without this minute and without the cap.
   */
  function VoicePenaltyRemaining(prev: nat, elapsed: int): (minutes: nat)
    ensures 0 <= elapsed ==> minutes <= prev
    ensures 0 <= elapsed < OneHourMs ==> minutes == prev
  {
    MaxInt(0, prev - VoiceRecoveryPerHour * IdleHours(elapsed))
  }

  /**
   * The reduction factor of calculateVoiceXPGain: halved for every whole
   * five-minute window of the counter, floored at 0.001, and exactly 1 below
   * five minutes.
   */
  function VoiceReduction(count: nat): (f: real)
    ensures VoiceFloor <= f <= 1.0
    ensures count < 5 ==> f == 1.0
  {
    var windows := count / 5;
    if windows > 0 then MaxReal(VoiceFloor, Pow(0.5, windows)) else 1.0
  }

  /**
   * calculateVoiceXPGain: 1 XP per minute, times the reduction factor and the
   * tag multiplier, never less than 0.0001. It never exceeds 2 XP.
   */
  function VoiceGain(count: nat, tagged: bool): (gain: real)
    ensures MinGain <= gain <= 2.0
  {
    var f := VoiceReduction(count);
    assert f * TagMultiplier(tagged) <= TagMultiplier(tagged);
    MaxReal(MinGain, 1.0 * f * TagMultiplier(tagged))
  }

  // -------------------------------------------------------------- lemmas

  /** One more factor of a base below one does not enlarge a power. */
  lemma PowStep(b: real, n: nat)
    requires 0.0 < b <= 1.0 && 0 < n
    ensures Pow(b, n) <= Pow(b, n - 1)
  {
    var p := Pow(b, n - 1);
    ProductNonNegative(1.0 - b, p);
  }

  lemma ProductNonNegative(x: real, y: real)
    requires 0.0 <= x && 0.0 <= y
    ensures 0.0 <= x * y
  {
  }

  /** Powers of a base below one shrink as the exponent grows. */
  lemma {:induction false} PowAntitone(b: real, m: nat, n: nat)
    requires 0.0 < b <= 1.0
    requires m <= n
    ensures Pow(b, n) <= Pow(b, m)
    decreases n - m
  {
    if m < n {
      PowAntitone(b, m, n - 1);
      PowStep(b, n);
    }
  }

  /** From the third message in a burst on, a chat message earns the floor factor 0.001 exactly. */
  lemma ChatBurstHitsFloor(count: nat, elapsed: int)
    requires elapsed < FiveMinutesMs
    requires count >= 3
    ensures ChatReduction(count, elapsed) == ChatFloor
  {
    PowAntitone(0.1, 3, count);
  }

  /**
   * With a word or more the 0.0001 floor never applies to a chat gain, so
   * the gain is exactly words times 0.1 times the factor times the tag bonus.
   */
  lemma ChatGainUnfloored(wordCount: nat, elapsed: int, count: nat, tagged: bool)
    requires wordCount >= 1
    ensures ChatGain(wordCount, elapsed, count, tagged)
         == wordCount as real * WordXp * ChatReduction(count, elapsed) * TagMultiplier(tagged)
  {
    var f := ChatReduction(count, elapsed);
    var base := wordCount as real * WordXp;
    assert WordXp <= base;
    assert WordXp * ChatFloor <= base * f;
    assert base * f <= base * f * TagMultiplier(tagged);
  }

  /** A displayed server tag doubles the chat gain exactly, for any message with a word. */
  lemma ChatGainTagDoubles(wordCount: nat, elapsed: int, count: nat)
    requires wordCount >= 1
    ensures ChatGain(wordCount, elapsed, count, true) == 2.0 * ChatGain(wordCount, elapsed, count, false)
  {
    ChatGainUnfloored(wordCount, elapsed, count, true);
    ChatGainUnfloored(wordCount, elapsed, count, false);
  }

  /**
   * Recovery after an idle gap is applied twice: five burst messages followed
   * by three idle hours leave the counter at 2, and its factor 0.1^2 is then
   * doubled three times, giving 0.08 rather than 0.01.
   */
  lemma ChatRecoveryAfterThreeHours()
    ensures ChatCounterNext(5, 3 * OneHourMs) == 2
    ensures ChatReduction(2, 3 * OneHourMs) == 0.08
  {
    assert IdleHours(3 * OneHourMs) == 3;
    assert Pow(0.1, 2) == 0.01;
    assert Pow(2.0, 3) == 8.0;
  }

  /**
   * A rested counter (zero, which is also where every new user starts, with a
   * timestamp of 0) gives the full rate after any gap of five minutes or more.
   */
  lemma ChatRestedFullRate(elapsed: int)
    requires FiveMinutesMs <= elapsed
    ensures ChatCounterNext(0, elapsed) == 0
    ensures ChatReduction(0, elapsed) == 1.0
  {
  }

  /**
   * The voice transition against the /voicecooldown readout: it is the
   * readout plus this minute, capped at 50, except when the idle recovery
   * overshoots zero, where this minute is not counted either.
   */
  lemma VoiceCounterAgainstPenalty(prev: nat, elapsed: int)
    ensures VoiceCounterNext(prev, elapsed)
         == if prev - VoiceRecoveryPerHour * IdleHours(elapsed) < 0 then 0
            else MinInt(VoiceCap, VoicePenaltyRemaining(prev, elapsed) + 1)
  {
  }

  /**
   * Up to the cap the voice factor is exactly 0.5 per whole window, and the
   * 0.001 floor is reached only at the cap of 50 minutes (0.5^10 < 0.001 < 0.5^9).
   */
  lemma VoiceFloorOnlyAtCap(count: nat)
    requires count <= VoiceCap
    ensures count < VoiceCap ==> VoiceReduction(count) == Pow(0.5, count / 5)
    ensures VoiceReduction(count) == VoiceFloor <==> count == VoiceCap
  {
    assert Pow(0.5, 9) == 0.001953125;
    assert Pow(0.5, 10) == 0.0009765625;
    if count < VoiceCap {
      PowAntitone(0.5, count / 5, 9);
      if count / 5 == 0 {
        assert Pow(0.5, 0) == 1.0;
      }
    }
  }

  /** A longer absence never leaves a higher voice counter. */
  lemma VoiceRecoveryMonotone(prev: nat, elapsed1: int, elapsed2: int)
    requires elapsed1 <= elapsed2
    ensures VoiceCounterNext(prev, elapsed2) <= VoiceCounterNext(prev, elapsed1)
  {
    IdleHoursMonotone(elapsed1, elapsed2);
  }

  /** Whole idle hours never decrease as the elapsed time grows. */
  lemma IdleHoursMonotone(elapsed1: int, elapsed2: int)
    requires elapsed1 <= elapsed2
    ensures IdleHours(elapsed1) <= IdleHours(elapsed2)
  {
    var h1, h2 := IdleHours(elapsed1), IdleHours(elapsed2);
    assert h1 * OneHourMs <= elapsed1 < (h1 + 1) * OneHourMs;
    assert h2 * OneHourMs <= elapsed2 < (h2 + 1) * OneHourMs;
  }

  /** The voice gain is never floored: it is the factor times the tag bonus. */
  lemma VoiceGainUnfloored(count: nat, tagged: bool)
    ensures VoiceGain(count, tagged) == VoiceReduction(count) * TagMultiplier(tagged)
  {
    assert VoiceReduction(count) <= VoiceReduction(count) * TagMultiplier(tagged);
  }

  /** A displayed server tag doubles the voice gain exactly. */
  lemma VoiceGainTagDoubles(count: nat)
    ensures VoiceGain(count, true) == 2.0 * VoiceGain(count, false)
  {
    VoiceGainUnfloored(count, true);
    VoiceGainUnfloored(count, false);
  }
}
