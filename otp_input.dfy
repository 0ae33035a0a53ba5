/**
 * The six-cell one-time-code entry widget: per-cell digit acceptance, the
 * focus index the handlers move, automatic submission once every cell is
 * filled, a manual verify action, and the 30-tick resend countdown.
 */
module OtpInput {
  import opened Wrappers

  /** Number of cells in the widget. */
  const CellCount: nat := 6
  /** Value the resend countdown starts from and is reset to. */
  const ResendDelay: nat := 30
  /** The key whose press on an empty cell moves focus back. */
  const Backspace: string := "Backspace"

  predicate IsDigit(c: char) {
    '0' <= c <= '9'
  }

  /** The change guard: at most one character, and only digits (`/^\d*$/`). */
  predicate Accepts(value: string) {
    |value| <= 1 && forall i :: 0 <= i < |value| ==> IsDigit(value[i])
  }

  /** Six cells, each empty or one digit. */
  predicate WellFormed(cells: seq<string>) {
    |cells| == CellCount && forall i :: 0 <= i < |cells| ==> Accepts(cells[i])
  }

  /** `otp.every(digit => digit)`: no cell is the empty string. */
  predicate AllFilled(cells: seq<string>) {
    forall i :: 0 <= i < |cells| ==> cells[i] != ""
  }

  /** `otp.join('')`. */
  function Joined(cells: seq<string>): string {
    if cells == [] then "" else cells[0] + Joined(cells[1..])
  }

  /** Six empty cells: the initial state and the state after a resend. */
  function EmptyCells(): (cells: seq<string>)
    ensures WellFormed(cells) && forall i :: 0 <= i < |cells| ==> cells[i] == ""
  {
    seq(CellCount, _ => "")
  }

  /** Joining one-character cells gives one character per cell, in cell order. */
  lemma {:induction false} JoinedSingles(cells: seq<string>)
    requires forall i :: 0 <= i < |cells| ==> |cells[i]| == 1
    ensures |Joined(cells)| == |cells|
    ensures forall i :: 0 <= i < |cells| ==> Joined(cells)[i] == cells[i][0]
  {
    if cells != [] {
      JoinedSingles(cells[1..]);
    }
  }

  /** For cells of at most one character, the join has one character per cell exactly when no cell is empty. */
  lemma {:induction false} JoinedFullLength(cells: seq<string>)
    requires forall i :: 0 <= i < |cells| ==> |cells[i]| <= 1
    ensures |Joined(cells)| <= |cells|
    ensures |Joined(cells)| == |cells| <==> AllFilled(cells)
  {
    if cells != [] {
      JoinedFullLength(cells[1..]);
      assert AllFilled(cells) <==> cells[0] != "" && AllFilled(cells[1..]) by {
        if cells[0] != "" && AllFilled(cells[1..]) {
          forall i | 0 <= i < |cells| ensures cells[i] != "" {
            if i > 0 { assert cells[i] == cells[1..][i - 1]; }
          }
        }
      }
    }
  }

  /** `handleChange` on the cell values: an accepted value is written to cell `index`, anything else is ignored. */
  function AfterChange(cells: seq<string>, index: nat, value: string): (r: seq<string>)
    requires index < |cells|
    ensures |r| == |cells|
    ensures Accepts(value) ==> r[index] == value
    ensures !Accepts(value) ==> r == cells
    ensures forall j :: 0 <= j < |cells| && j != index ==> r[j] == cells[j]
  {
    if Accepts(value) then cells[index := value] else cells
  }

  /** The code `handleChange` passes to `onComplete`, if it calls it. */
  function Completion(cells: seq<string>, index: nat, value: string): Option<string>
    requires index < |cells|
  {
    var next := AfterChange(cells, index, value);
    if Accepts(value) && AllFilled(next) && |Joined(next)| == CellCount then Some(Joined(next)) else None
  }

  /** Where `handleChange` leaves the focus: on the next cell after an accepted digit, unless it was the last cell. */
  function FocusAfterChange(focus: nat, index: nat, value: string): (f: nat)
    ensures Accepts(value) && value != "" && index < CellCount - 1 ==> f == index + 1
    ensures !(Accepts(value) && value != "" && index < CellCount - 1) ==> f == focus
  {
    if Accepts(value) && value != "" && index < CellCount - 1 then index + 1 else focus
  }

  /** Changes keep every cell empty or one digit. */
  lemma AfterChangeWellFormed(cells: seq<string>, index: nat, value: string)
    requires WellFormed(cells) && index < |cells|
    ensures WellFormed(AfterChange(cells, index, value))
  {
  }

  /**
   * `onComplete` is called exactly when the change was accepted and leaves every
   * cell filled, and then with the six digits of the cells in order.
   */
  lemma CompletionExactlyWhenFull(cells: seq<string>, index: nat, value: string)
    requires WellFormed(cells) && index < |cells|
    ensures Completion(cells, index, value).Some? <==> Accepts(value) && AllFilled(AfterChange(cells, index, value))
    ensures Completion(cells, index, value).Some? ==>
      var code := Completion(cells, index, value).value;
      |code| == CellCount &&
      forall i :: 0 <= i < CellCount ==> IsDigit(code[i]) && code[i] == AfterChange(cells, index, value)[i][0]
  {
    var next := AfterChange(cells, index, value);
    JoinedFullLength(next);
    if AllFilled(next) {
      JoinedSingles(next);
    }
  }

  /** Clearing a cell is accepted and never submits. */
  lemma ClearingNeverCompletes(cells: seq<string>, index: nat)
    requires index < |cells|
    ensures Accepts("")
    ensures AfterChange(cells, index, "")[index] == ""
    ensures Completion(cells, index, "") == None
  {
    assert !AllFilled(AfterChange(cells, index, ""));
  }

  /** The manual verify button is enabled exactly when the joined code has all six digits. */
  lemma VerifyEnabledIffCodeComplete(cells: seq<string>)
    requires WellFormed(cells)
    ensures AllFilled(cells) <==> |Joined(cells)| == CellCount
  {
    JoinedFullLength(cells);
  }

  /** The fired codes when the user types `digits` one per cell, starting at cell `start`. */
  function Typing(cells: seq<string>, start: nat, digits: string): seq<string>
    requires |cells| == CellCount && start + |digits| <= CellCount
    decreases |digits|
  {
    if digits == [] then []
    else
      var value := [digits[0]];
      var fired := match Completion(cells, start, value)
        case Some(code) => [code]
        case None => [];
      fired + Typing(AfterChange(cells, start, value), start + 1, digits[1..])
  }

  /** The cells after the first `k` digits of `code` were typed into the first `k` cells. */
  function Prefix(code: string, k: nat): (cells: seq<string>)
    requires |code| == CellCount && k <= CellCount
    ensures |cells| == CellCount
  {
    seq(CellCount, j requires 0 <= j < CellCount => if j < k then [code[j]] else "")
  }

  predicate IsCode(code: string) {
    |code| == CellCount && forall i :: 0 <= i < |code| ==> IsDigit(code[i])
  }

  lemma {:induction false} TypingFrom(code: string, k: nat)
    requires IsCode(code) && k <= CellCount
    ensures Typing(Prefix(code, k), k, code[k..]) == if k < CellCount then [code] else []
    decreases CellCount - k
  {
    if k < CellCount {
      var cells := Prefix(code, k);
      var value := [code[k]];
      assert code[k..][0] == code[k] && code[k..][1..] == code[k + 1..];
      var next := AfterChange(cells, k, value);
      assert next == Prefix(code, k + 1);
      TypingFrom(code, k + 1);
      if k + 1 == CellCount {
        JoinedSingles(next);
        assert Joined(next) == code;
        assert Completion(cells, k, value) == Some(code);
      } else {
        assert next[CellCount - 1] == "";
        assert Completion(cells, k, value) == None;
      }
    }
  }

  /**
   * Typing any six digits one cell at a time into an empty widget calls
   * `onComplete` exactly once, with the six digits in order.
   */
  lemma TypingSixDigitsCompletesOnce(code: string)
    requires IsCode(code)
    ensures Typing(EmptyCells(), 0, code) == [code]
  {
    assert Prefix(code, 0) == EmptyCells();
    assert code[0..] == code;
    TypingFrom(code, 0);
  }

  class OtpInput {
    /** The six cells (`otp`). */
    const cells: array<string>
    /** Index of the focused cell (`inputRefs[...].focus()`). */
    var focus: nat
    /** Ticks left before resending is offered (`resendTimer`). */
    var resendTimer: nat
    /** Whether the parent passed an `onResend` callback. */
    const hasResend: bool

    ghost predicate Valid()
      reads this, cells
    {
      cells.Length == CellCount && WellFormed(cells[..]) && focus < CellCount && resendTimer <= ResendDelay
    }

    /** Mount: six empty cells, focus on the first, countdown at 30. */
    constructor (hasResend: bool)
      ensures Valid() && fresh(cells)
      ensures cells[..] == EmptyCells() && focus == 0 && resendTimer == ResendDelay
      ensures this.hasResend == hasResend
    {
      cells := new string[CellCount](_ => "");
      focus := 0;
      resendTimer := ResendDelay;
      this.hasResend := hasResend;
    }

    /** `handleChange`: writes an accepted value into one cell, moves focus, and may submit the code. */
    method HandleChange(index: nat, value: string) returns (completed: Option<string>)
      requires Valid() && index < CellCount
      modifies this, cells
      ensures Valid()
      ensures cells[..] == AfterChange(old(cells[..]), index, value)
      ensures focus == FocusAfterChange(old(focus), index, value)
      ensures Accepts(value) && value != "" && index < CellCount - 1 ==> focus == index + 1
      ensures !(Accepts(value) && value != "" && index < CellCount - 1) ==> focus == old(focus)
      ensures completed == Completion(old(cells[..]), index, value)
      ensures resendTimer == old(resendTimer)
    {
      completed := None;
      if |value| <= 1 && Accepts(value) {
        cells[index] := value;
        assert cells[..] == old(cells[..])[index := value];
        if value != "" && index < CellCount - 1 {
          focus := index + 1;
        }
        if AllFilled(cells[..]) && |Joined(cells[..])| == CellCount {
          completed := Some(Joined(cells[..]));
        }
      }
    }

    /** `handleKeyDown`: Backspace on an empty cell other than the first moves focus one cell back. */
    method HandleKeyDown(index: nat, key: string)
      requires Valid() && index < CellCount
      modifies this
      ensures Valid()
      ensures focus == if key == Backspace && cells[index] == "" && index > 0 then index - 1 else old(focus)
      ensures resendTimer == old(resendTimer)
    {
      if key == Backspace && cells[index] == "" && index > 0 {
        focus := index - 1;
      }
    }

    /** One second of the countdown effect: decrement while above zero. */
    method Tick()
      requires Valid()
      modifies this
      ensures Valid()
      ensures resendTimer == if old(resendTimer) > 0 then old(resendTimer) - 1 else 0
      ensures focus == old(focus)
    {
      if resendTimer > 0 {
        resendTimer := resendTimer - 1;
      }
    }

    /** The resend button is shown only once the countdown is over. */
    function ResendOffered(): (offered: bool)
      reads this
      ensures offered <==> resendTimer == 0
    {
      resendTimer == 0
    }

    /** `handleResend`: with a callback, request a new code, restart the countdown and clear every cell. */
    method HandleResend() returns (requested: bool)
      requires Valid()
      modifies this, cells
      ensures Valid()
      ensures requested == hasResend
      ensures requested ==> resendTimer == ResendDelay && cells[..] == EmptyCells()
      ensures !requested ==> resendTimer == old(resendTimer) && cells[..] == old(cells[..])
      ensures focus == old(focus)
    {
      requested := false;
      if hasResend {
        requested := true;
        resendTimer := ResendDelay;
        forall i | 0 <= i < cells.Length {
          cells[i] := "";
        }
      }
    }

    /** The manual verify button: disabled while a cell is empty, otherwise submits the six digits in order. */
    method ManualVerify() returns (submitted: Option<string>)
      requires Valid()
      ensures submitted.Some? <==> forall i :: 0 <= i < CellCount ==> cells[i] != ""
      ensures submitted.Some? ==> |submitted.value| == CellCount
      ensures submitted.Some? ==>
                forall i :: 0 <= i < CellCount ==> IsDigit(submitted.value[i]) && submitted.value[i] == cells[i][0]
    {
      if AllFilled(cells[..]) {
        JoinedFullLength(cells[..]);
        JoinedSingles(cells[..]);
        submitted := Some(Joined(cells[..]));
      } else {
        submitted := None;
      }
    }
  }
}
