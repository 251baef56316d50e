/**
 * The combination lock as an object whose methods update its fields in place.
 * Each method is proved against the matching function of LockSpec, through
 * State(), the value the four fields stand for.
 */
module CombinationLocks {
  import opened Wrappers
  import opened LockSpec

  class CombinationLock {
    /** The secret combination. */
    var combination: seq<char>
    /** Whether the lock is open. */
    var isOpen: bool
    /** The last three dial settings, a circular buffer; BLANK marks an unset slot. */
    const lastPositions: array<char>
    /** The slot of lastPositions the next setting overwrites. */
    var cursor: int

    /** The value the fields stand for. */
    ghost function State(): LockState
      reads this, lastPositions
    {
      LockState(combination, isOpen, lastPositions[..], cursor)
    }

    /** The class invariant. */
    ghost predicate Valid()
      reads this, lastPositions
    {
      Inv(State())
    }

    /** Builds an open lock with a blank dial; the combination has already been
        validated (see Create for the checks). */
    constructor (c: seq<char>)
      requires IsValidCombination(c)
      ensures Valid() && fresh(lastPositions)
      ensures Init(Some(c)) == Success(State())
    {
      combination := c;
      isOpen := true;
      lastPositions := new char[3][BLANK, BLANK, BLANK];
      cursor := 0;
      new;
      assert lastPositions[..] == BLANK_DIAL;
    }

    /** Sets the dial on letter c: rejects anything outside 'A'..'Z' and leaves
        the state alone; otherwise writes c at the cursor and advances it. */
    method SetPosition(c: char) returns (r: Outcome<Error>)
      requires Valid()
      modifies this, lastPositions
      ensures Valid()
      ensures r.Fail? <==> LockSpec.SetPosition(old(State()), c).Failure?
      ensures r.Fail? ==> r.error == InvalidLetter && State() == old(State())
      ensures r.Pass? ==> State() == LockSpec.SetPosition(old(State()), c).value
    {
      if c < 'A' || c > 'Z' {
        return Fail(InvalidLetter);
      }
      lastPositions[cursor] := c;
      if cursor == 2 {
        cursor := 0;
      } else {
        cursor := cursor + 1;
      }
      r := Pass;
    }

    /** Tries to open: a dial equal to the combination slot by slot opens the
        lock; otherwise the dial is reset. */
    method Open()
      requires Valid()
      modifies this, lastPositions
      ensures Valid()
      ensures State() == LockSpec.Open(old(State()))
    {
      if lastPositions[0] == combination[0] && lastPositions[1] == combination[1] && lastPositions[2] == combination[2] {
        isOpen := true;
      } else {
        ResetDial();
      }
    }

    /** Whether the lock is open. */
    method IsOpen() returns (b: bool)
      requires Valid()
      ensures b == State().isOpen
    {
      b := isOpen;
    }

    /** Closes the lock, keeping the combination and resetting the dial. */
    method Lock()
      requires Valid()
      modifies this, lastPositions
      ensures Valid()
      ensures State() == LockSpec.Lock(old(State()))
    {
      isOpen := false;
      ResetDial();
    }

    /** Closes the lock with a new combination; does nothing on a closed lock. */
    method LockAndChangeCombination(c: Option<seq<char>>) returns (r: Outcome<Error>)
      requires Valid()
      modifies this, lastPositions
      ensures Valid()
      ensures r.Fail? <==> LockSpec.LockAndChangeCombination(old(State()), c).Failure?
      ensures r.Fail? ==> r.error == LockSpec.LockAndChangeCombination(old(State()), c).error && State() == old(State())
      ensures r.Pass? ==> State() == LockSpec.LockAndChangeCombination(old(State()), c).value
    {
      var open := IsOpen();
      if !open {
        return Pass;
      }
      match CheckCombination(c)
      case Fail(e) =>
        r := Fail(e);
      case Pass =>
        combination := c.value;
        isOpen := false;
        ResetDial();
        r := Pass;
    }

    /** Blanks the three dial slots and moves the cursor back to slot 0. */
    method ResetDial()
      requires lastPositions.Length == 3
      modifies this, lastPositions
      ensures lastPositions[..] == BLANK_DIAL && cursor == 0
      ensures combination == old(combination) && isOpen == old(isOpen)
    {
      lastPositions[0], lastPositions[1], lastPositions[2] := BLANK, BLANK, BLANK;
      cursor := 0;
    }
  }

  /** Construction with the source's checks: a null combination and a
      malformed one are distinct errors; otherwise a fresh open lock. */
  method Create(c: Option<seq<char>>) returns (r: Result<CombinationLock, Error>)
    ensures r.Failure? <==> Init(c).Failure?
    ensures r.Failure? ==> r.error == Init(c).error
    ensures r.Success? ==> fresh(r.value) && fresh(r.value.lastPositions)
    ensures r.Success? ==> r.value.Valid() && Init(c) == Success(r.value.State())
  {
    match CheckCombination(c)
    case Fail(e) =>
      r := Failure(e);
    case Pass =>
      var lock := new CombinationLock(c.value);
      r := Success(lock);
  }

  /** A client run: open a lock made with ABC, change the combination to XYZ,
      dial X, Y, Z to reopen it, lock it, and see that a change attempted while
      it is closed keeps XYZ. */
  method ChangeCombinationScenario() {
    var made := Create(Some("ABC"));
    var lock := made.value;
    var open := lock.IsOpen();
    assert open;
    var changed := lock.LockAndChangeCombination(Some("XYZ"));
    open := lock.IsOpen();
    assert changed == Pass && !open;
    var x := lock.SetPosition('X');
    var y := lock.SetPosition('Y');
    var z := lock.SetPosition('Z');
    assert lock.State().dial == "XYZ";
    lock.Open();
    open := lock.IsOpen();
    assert open;
    lock.Lock();
    changed := lock.LockAndChangeCombination(Some("QRS"));
    assert changed == Pass && lock.State().combination == "XYZ";
    lock.Open();
    open := lock.IsOpen();
    assert !open;
  }
}
