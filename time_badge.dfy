/**
 * `TimeBadge`: how long ago an order was created, as text ("42s", "7:05m", "2:03h"), and
 * an urgency class by whole minutes. The interval that refreshes the text is not part
 * of this model; `nowMs` is the clock reading, `createdMs` the order's creation time.
 */
module TimeBadge {
  import opened Strings

  /** `Math.floor((now - created) / 1000)`: whole elapsed seconds (negative when the clocks disagree). */
  function ElapsedSeconds(nowMs: int, createdMs: int): int {
    (nowMs - createdMs) / 1000
  }

  /** `updateElapsed`'s text for `diff` seconds. */
  function FormatElapsed(diff: int): (r: string)
    ensures diff < 60 ==> r == IntToString(diff) + "s"
    ensures 60 <= diff ==> |r| >= 4 && r[|r| - 4] == ':' && IsDigit(r[|r| - 3]) && IsDigit(r[|r| - 2])
    ensures 60 <= diff < 3600 ==> r[|r| - 1] == 'm'
    ensures 3600 <= diff ==> r[|r| - 1] == 'h'
  {
    if diff < 60 then IntToString(diff) + "s"
    else if diff < 3600 then NatToString(diff / 60) + ":" + PadStart2(diff % 60) + "m"
    else NatToString(diff / 3600) + ":" + PadStart2(diff % 3600 / 60) + "h"
  }

  /**
   * The text can be read back: between one minute and one hour it gives the minutes
   * and the two-digit seconds, which add up to `diff`; from one hour on it gives the
   * hours and the two-digit minutes, which add up to `diff` in whole minutes.
   */
  lemma {:induction false} FormatElapsedReadsBack(diff: int)
    requires diff >= 60
    ensures var r := FormatElapsed(diff);
      var lead := r[..|r| - 4];
      var field := r[|r| - 3..|r| - 1];
      (forall i :: 0 <= i < |lead| ==> IsDigit(lead[i])) &&
      ParseDigits(field) < 60 &&
      (diff < 3600 ==> ParseDigits(lead) * 60 + ParseDigits(field) == diff) &&
      (diff >= 3600 ==> ParseDigits(lead) * 60 + ParseDigits(field) == diff / 60)
  {
    var r := FormatElapsed(diff);
    if diff < 3600 {
      var lead, field := NatToString(diff / 60), PadStart2(diff % 60);
      assert r == lead + ":" + field + "m";
      assert r[..|r| - 4] == lead && r[|r| - 3..|r| - 1] == field;
      ParseNatToString(diff / 60);
    } else {
      var lead, field := NatToString(diff / 3600), PadStart2(diff % 3600 / 60);
      assert r == lead + ":" + field + "h";
      assert r[..|r| - 4] == lead && r[|r| - 3..|r| - 1] == field;
      ParseNatToString(diff / 3600);
      assert diff / 60 == diff / 3600 * 60 + diff % 3600 / 60;
    }
  }

  datatype Urgency = Urgent | Warning | Normal

  /** `Math.floor((now - created) / 60000)`: whole elapsed minutes. */
  function ElapsedMinutes(nowMs: int, createdMs: int): int {
    (nowMs - createdMs) / 60000
  }

  /** `isUrgent` (ten minutes or more), `isWarning` (five to nine), otherwise normal. */
  function Classify(minutes: int): (u: Urgency)
    ensures u == Urgent <==> minutes >= 10
    ensures u == Warning <==> 5 <= minutes < 10
    ensures u == Normal <==> minutes < 5
  {
    if minutes >= 10 then Urgent else if minutes >= 5 then Warning else Normal
  }

  /** The minutes that pick the class are the minutes the text shows. */
  lemma MinutesAgree(nowMs: int, createdMs: int)
    ensures ElapsedMinutes(nowMs, createdMs) == ElapsedSeconds(nowMs, createdMs) / 60
  {
    var d := nowMs - createdMs;
    var q, rem := d / 60000, d % 60000;
    assert d == 60000 * q + rem && 0 <= rem < 60000;
    assert d / 1000 == 60 * q + rem / 1000 by {
      assert d == 1000 * (60 * q + rem / 1000) + rem % 1000;
    }
  }
}
