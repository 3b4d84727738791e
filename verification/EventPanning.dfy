/** Panning the message column of the events table. */
module EventPanning {

  const MAX_EVENT_CELL := 160
  const MSG_SHIFT_STEP := 40
  const ELLIPSIS: string := "…"

  /** The cell text for a message already put on one line, panned `shift` runes to the left. */
  function MessageCell(r: string, shift: int): string {
    if shift <= 0 then
      if |r| <= MAX_EVENT_CELL then r else r[..MAX_EVENT_CELL - 1] + ELLIPSIS
    else if shift >= |r| then ELLIPSIS
    else
      var w := r[shift..];
      if |w| <= MAX_EVENT_CELL - 1 then ELLIPSIS + w else ELLIPSIS + w[..MAX_EVENT_CELL - 2] + ELLIPSIS
  }

  function ClampShift(shift: int, maxLen: int): int {
    var s := if shift > maxLen - MSG_SHIFT_STEP then maxLen - MSG_SHIFT_STEP else shift;
    if s < 0 then 0 else s
  }

  function PannedRight(shift: int, maxLen: int): int {
    ClampShift(shift + MSG_SHIFT_STEP, maxLen)
  }

  function PannedLeft(shift: int, maxLen: int): int {
    if shift > 0 then ClampShift(shift - MSG_SHIFT_STEP, maxLen) else shift
  }

  class EventsTable {
    var msgShift: int
    var maxMsgLen: int
    var colOffset: nat

    constructor (maxMsgLen: nat)
      ensures msgShift == 0 && this.maxMsgLen == maxMsgLen && colOffset == 0
    {
      msgShift := 0;
      this.maxMsgLen := maxMsgLen;
      colOffset := 0;
    }

    /** Left and right arrow; `hiddenRight` is how many columns the table reports hidden on the right. */
    method Pan(right: bool, hiddenRight: nat)
      modifies `msgShift, `colOffset
      ensures msgShift == if right then (if hiddenRight > 0 then old(msgShift) else PannedRight(old(msgShift), maxMsgLen))
                          else PannedLeft(old(msgShift), maxMsgLen)
      ensures colOffset == if right && hiddenRight > 0 then old(colOffset) + 1
                           else if !right && old(msgShift) <= 0 && old(colOffset) > 0 then old(colOffset) - 1
                           else old(colOffset)
    {
      if right {
        if hiddenRight > 0 {
          colOffset := colOffset + 1;
          return;
        }
        var shifted := ClampShift(msgShift + MSG_SHIFT_STEP, maxMsgLen);
        if shifted != msgShift {
          msgShift := shifted;
        }
        return;
      }
      if msgShift > 0 {
        msgShift := ClampShift(msgShift - MSG_SHIFT_STEP, maxMsgLen);
        return;
      }
      if colOffset > 0 {
        colOffset := colOffset - 1;
      }
    }
  }

  // ---- what a cell shows -----------------------------------------------------------

  /** Rune k of the message stands in the cell, behind the leading ellipsis if there is one. */
  ghost predicate Shows(r: string, shift: int, k: nat)
    requires k < |r|
  {
    var cell := MessageCell(r, shift);
    var at := if shift <= 0 then k else k - shift + 1;
    0 <= at < |cell| && cell[at] == r[k] && (if shift <= 0 then true else k >= shift)
  }

  /** The far end of the pan, and where n presses to the right lead. */
  function FarEnd(maxLen: nat): nat {
    if maxLen <= MSG_SHIFT_STEP then 0 else maxLen - MSG_SHIFT_STEP
  }

  function AfterRights(maxLen: nat, n: nat): int {
    if n == 0 then 0 else PannedRight(AfterRights(maxLen, n - 1), maxLen)
  }

  /** Where n presses to the left lead from the far end. */
  function AfterLefts(maxLen: nat, n: nat): int {
    if n == 0 then FarEnd(maxLen) else PannedLeft(AfterLefts(maxLen, n - 1), maxLen)
  }

  lemma {:induction false} RightsAdd(maxLen: nat, n: nat)
    ensures AfterRights(maxLen, n) == if n * MSG_SHIFT_STEP <= FarEnd(maxLen) then n * MSG_SHIFT_STEP else FarEnd(maxLen)
  {
    if n > 0 {
      RightsAdd(maxLen, n - 1);
    }
  }

  lemma {:induction false} LeftsSubtract(maxLen: nat, n: nat)
    ensures AfterLefts(maxLen, n) == if n * MSG_SHIFT_STEP <= FarEnd(maxLen) then FarEnd(maxLen) - n * MSG_SHIFT_STEP else 0
  {
    if n > 0 {
      LeftsSubtract(maxLen, n - 1);
    }
  }

  lemma {:induction false} CellFits(r: string, shift: int)
    ensures |MessageCell(r, shift)| <= MAX_EVENT_CELL
  {
  }

  /**
    The cell is a stretch of the message from the offset on, with an ellipsis on
    each side where runes are left out; it stops short of the end only when it
    is 160 cells wide.
  */
  lemma {:induction false} CellIsWindow(r: string, shift: int)
    ensures shift > 0 && shift >= |r| ==> MessageCell(r, shift) == "…"
    ensures shift <= 0 || shift < |r| ==>
              var from, cell := if shift <= 0 then 0 else shift, MessageCell(r, shift);
              exists n: nat :: IsWindow(cell, r, from, n)
  {
    if shift <= 0 {
      var n := if |r| <= 160 then |r| else 159;
      assert IsWindow(MessageCell(r, shift), r, 0, n);
    } else if shift < |r| {
      var w := r[shift..];
      var n := if |w| <= 159 then |w| else 158;
      assert w[..n] == r[shift..shift + n];
      assert IsWindow(MessageCell(r, shift), r, shift, n);
    }
  }

  ghost predicate IsWindow(cell: string, r: string, from: nat, n: nat) {
    && from + n <= |r|
    && cell == (if from > 0 then "…" else "") + r[from..from + n] + (if from + n < |r| then "…" else "")
    && |cell| <= 160 && (from + n < |r| ==> |cell| == 160)
  }

  /** A rune up to two steps right of the window's edge is in the window. */
  lemma {:induction false} ShowsNearEdge(r: string, shift: int, k: nat)
    requires k < |r| && 0 <= shift <= k < shift + 2 * MSG_SHIFT_STEP
    ensures Shows(r, shift, k)
  {
    if shift > 0 {
      var w := r[shift..];
      assert w[k - shift] == r[k];
    }
  }

  lemma {:induction false} StepBelow(k: nat, maxLen: nat)
    requires k < maxLen
    ensures var n := k / MSG_SHIFT_STEP;
            0 <= AfterRights(maxLen, n) <= k < AfterRights(maxLen, n) + 2 * MSG_SHIFT_STEP
  {
    RightsAdd(maxLen, k / MSG_SHIFT_STEP);
  }

  /** No cell is wider than the cap, and every rune of every message comes into view on the way right. */
  lemma {:induction false} EveryRuneIsReachable(r: string, maxLen: nat, k: nat)
    requires k < |r| <= maxLen
    ensures forall shift: int :: |MessageCell(r, shift)| <= MAX_EVENT_CELL
    ensures exists n: nat :: Shows(r, AfterRights(maxLen, n), k)
  {
    forall shift: int
      ensures |MessageCell(r, shift)| <= MAX_EVENT_CELL
    {
      CellFits(r, shift);
    }
    StepBelow(k, maxLen);
    ShowsNearEdge(r, AfterRights(maxLen, k / MSG_SHIFT_STEP), k);
  }

  /** Presses that move the window: as many to the far end as back to the start. */
  function PressesAcross(maxLen: nat): nat {
    (FarEnd(maxLen) + MSG_SHIFT_STEP - 1) / MSG_SHIFT_STEP
  }

  lemma {:induction false} SamePressesBothWays(maxLen: nat, n: nat)
    ensures AfterRights(maxLen, n + 1) != AfterRights(maxLen, n) <==> n < PressesAcross(maxLen)
    ensures AfterLefts(maxLen, n + 1) != AfterLefts(maxLen, n) <==> n < PressesAcross(maxLen)
    ensures AfterRights(maxLen, PressesAcross(maxLen)) == FarEnd(maxLen)
    ensures AfterLefts(maxLen, PressesAcross(maxLen)) == 0
  {
    RightsAdd(maxLen, n);
    RightsAdd(maxLen, n + 1);
    LeftsSubtract(maxLen, n);
    LeftsSubtract(maxLen, n + 1);
    RightsAdd(maxLen, PressesAcross(maxLen));
    LeftsSubtract(maxLen, PressesAcross(maxLen));
  }

  /**
    The two directions stop at the same offsets exactly when the far end is a
    whole number of steps or a single press away.
  */
  lemma {:induction false} RetraceIff(maxLen: nat)
    ensures (forall n: nat :: n <= PressesAcross(maxLen) ==> AfterLefts(maxLen, n) == AfterRights(maxLen, PressesAcross(maxLen) - n))
            <==> maxLen % 40 == 0 || maxLen <= 80
  {
    var across := PressesAcross(maxLen);
    forall n: nat | n <= across
      ensures AfterLefts(maxLen, n) == (if n * MSG_SHIFT_STEP <= FarEnd(maxLen) then FarEnd(maxLen) - n * MSG_SHIFT_STEP else 0)
      ensures AfterRights(maxLen, across - n)
           == (if (across - n) * MSG_SHIFT_STEP <= FarEnd(maxLen) then (across - n) * MSG_SHIFT_STEP else FarEnd(maxLen))
    {
      LeftsSubtract(maxLen, n);
      RightsAdd(maxLen, across - n);
    }
    if maxLen % MSG_SHIFT_STEP != 0 && maxLen > 2 * MSG_SHIFT_STEP {
      assert AfterLefts(maxLen, 1) != AfterRights(maxLen, across - 1);
    }
  }
}
