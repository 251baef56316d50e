# CombinationLock in Dafny

A model of `CombinationLock`, a combination lock with a dial that can be set to
upper-case letters. It opens only when the dial matches a secret three-letter
combination. The lock has four fields:

- the secret combination;
- an open flag;
- a three-slot circular buffer of the last dial settings, where `' '` marks an unset slot;
- the cursor, which names the slot the next setting overwrites.

It has six operations: construction, `setPosition`, `open`, `isOpen`, `lock`
and `lockAndChangeCombination`.

The project has three modules:

- `Wrappers` (`wrappers.dfy`): `Option` stands for a Java reference that may be null. `Result` and `Outcome` stand for a call that may throw.
- `LockSpec` (`lock_spec.dfy`) models the lock as a value:
  - `LockState` holds the four fields, and `Inv` is the class invariant;
  - there is one function per operation;
  - `Dial` is a run of `setPosition` calls;
  - the lemmas state what the source promises about runs of operations.
- `CombinationLocks` (`combination_lock.dfy`) models the object itself:
  - the class `CombinationLock` keeps the buffer in an `array<char>` of length 3 and updates it in place;
  - each of the public methods `SetPosition`, `Open`, `IsOpen`, `Lock` and `LockAndChangeCombination` requires and ensures `Valid()`, and each method that changes state ties the new `State()` to the `LockSpec` function of the old one;
  - the private helper `ResetDial` only blanks the buffer and resets the cursor, and states that it does just that.

  `Create`, a module-level method beside the class, performs construction
  together with the constructor's two error checks. `ChangeCombinationScenario`
  is a client scenario that uses only the method contracts.

Where the documentation comments and the code disagree, the model follows the code:

- **`open` compares by slot, not by time.** The class comment (`CombinationLock.java:3-7`) and the `open` comment (`:69-73`) speak of "the last three letters set". The code compares `lastPosition[i]` with `aCombination.charAt(i)` for each slot `i` (`:76-78`). The two agree only when the cursor ends at slot 0.
  - `OpenAfterDialing` states the code's behaviour for every run of at least three letters. Shorter runs are covered only after a failed `open`, by `FailedOpenDiscardsDial`.
  - `OpenAfterAlignedDialing` gives the case where the two readings agree.
  - `LastThreeLettersMayNotOpen` shows they differ one way. The combination is BCD and the letters set are A, B, C, D. The buffer then reads D, B, C, and the lock stays closed.
  - `OtherLettersMayOpen` shows they differ the other way. The combination is CAB and the letters set are X, A, B, C. The buffer then reads C, A, B, and the lock opens, although the last three letters are ABC.
- **Changing the combination on a closed lock keeps the dial.** The comment of `lockAndChangeCombination` (`:110-115`) says that on a closed lock the letters set before must be discarded. The code returns at once and leaves the buffer as it is (`:125-126`). `ClosedChangeKeepsDial` shows that on every closed lock the call changes nothing. `ClosedChangeKeepsDialledCombination` shows that letters set before the call still open the lock afterwards.

## Model

| member | source | states |
|---|---|---|
| `LockSpec.CheckCombination` | src/it/unicam/cs/asdl2324/es2/CombinationLock.java:31-36 | validation passes exactly for a present string of three letters 'A'..'Z'; a null argument and only a null argument gives the null error; every other failure is the format error |
| `LockSpec.CheckCombinationExamples` | src/it/unicam/cs/asdl2324/es2/CombinationLock.java:31-36 | null is the null error; "ab1", "AB", "ABCD" and "aBC" are format errors; "XYZ" passes |
| `LockSpec.Init` | src/it/unicam/cs/asdl2324/es2/CombinationLock.java:29-44 | construction fails exactly when validation fails, with its error; on success the lock is open with the given combination, a blank buffer, cursor 0, and the invariant holds |
| `LockSpec.SetPosition` | src/it/unicam/cs/asdl2324/es2/CombinationLock.java:57-67 | a letter outside 'A'..'Z' gives the letter error; a letter is written at the old cursor, the cursor becomes (old cursor + 1) mod 3, the other two slots, the combination and the open flag are unchanged, and the invariant is kept |
| `LockSpec.Open` | src/it/unicam/cs/asdl2324/es2/CombinationLock.java:75-86 | afterwards the lock is open iff it was open or the buffer equals the combination; on a match buffer and cursor are kept; on a mismatch the buffer is blank, the cursor is 0 and the flag is unchanged; the combination is kept and the invariant holds |
| `LockSpec.Lock` | src/it/unicam/cs/asdl2324/es2/CombinationLock.java:104-108 | the lock is closed, the buffer is blank, the cursor is 0, the combination is kept, and the invariant holds |
| `LockSpec.LockAndChangeCombination` | src/it/unicam/cs/asdl2324/es2/CombinationLock.java:124-140 | on a closed lock it returns the state unchanged; it fails exactly when the lock is open and the new combination fails validation, with that error; on an open lock success stores the validated combination, closes the lock, blanks the buffer and sets the cursor to 0; the invariant holds |
| `LockSpec.Dial` | src/it/unicam/cs/asdl2324/es2/CombinationLock.java:57-67 | a run of settings succeeds iff every letter is in 'A'..'Z', otherwise it gives the letter error; it keeps the invariant, the combination and the open flag; the cursor ends at Slot(start, number of letters) |
| `LockSpec.SlotIsModulo` | src/it/unicam/cs/asdl2324/es2/CombinationLock.java:63-66 | the cursor's wrap from 2 to 0, repeated k times from `start`, lands on (start + k) mod 3 |
| `LockSpec.SlotsApart` | src/it/unicam/cs/asdl2324/es2/CombinationLock.java:63-66 | up to three consecutive settings write three different slots |
| `LockSpec.SlotShift` | src/it/unicam/cs/asdl2324/es2/CombinationLock.java:63-66 | running a + b settings ends where b settings run after the first a end |
| `LockSpec.DialRecordsLastThree` | src/it/unicam/cs/asdl2324/es2/CombinationLock.java:61-66 | after any run of letters, each of the last three sits in the slot the cursor had when it was set, and slots no letter reached keep their old contents |
| `LockSpec.DialReadFromCursor` | src/it/unicam/cs/asdl2324/es2/CombinationLock.java:61-66 | after at least three letters, reading the buffer round from the final cursor gives the last three letters in the order they were set |
| `LockSpec.EqualRoundFrom` | src/it/unicam/cs/asdl2324/es2/CombinationLock.java:76-78 | comparing buffer and combination round from any starting slot is equivalent to comparing them slot by slot, in both directions |
| `LockSpec.OpenWithLastThree` | src/it/unicam/cs/asdl2324/es2/CombinationLock.java:76-84 | a state whose buffer, read from the cursor, holds the last three letters opens iff it was open or those letters fit the combination slot by slot |
| `LockSpec.OpenAfterDialing` | src/it/unicam/cs/asdl2324/es2/CombinationLock.java:69-86 | after at least three letters, `open` leaves the lock open iff it was open or the last three letters, placed round the buffer from the final cursor, equal the combination slot by slot |
| `LockSpec.FitFromZero` | src/it/unicam/cs/asdl2324/es2/CombinationLock.java:76-78 | placed from slot 0, the last three letters fit the combination slot by slot iff they equal it, in both directions |
| `LockSpec.OpenAfterAlignedDialing` | src/it/unicam/cs/asdl2324/es2/CombinationLock.java:69-84 | when the cursor ends at 0, `open` opens iff the lock was open or the last three letters are the combination |
| `LockSpec.LastThreeLettersMayNotOpen` | src/it/unicam/cs/asdl2324/es2/CombinationLock.java:69-84 | on a closed lock with combination BCD, setting A, B, C, D leaves the buffer D, B, C and `open` keeps the lock closed, although the last three letters are BCD |
| `LockSpec.OtherLettersMayOpen` | src/it/unicam/cs/asdl2324/es2/CombinationLock.java:69-84 | on a closed lock with combination CAB, setting X, A, B, C leaves the buffer C, A, B and `open` opens the lock, although the last three letters are ABC |
| `LockSpec.OpenIdempotent` | src/it/unicam/cs/asdl2324/es2/CombinationLock.java:75-86 | a second `open` changes nothing; on a match `open` only sets the flag |
| `LockSpec.FailedOpenDiscardsDial` | src/it/unicam/cs/asdl2324/es2/CombinationLock.java:69-84 | a failed `open` never changes the flag, and after it fewer than three new letters cannot make `open` change the flag |
| `LockSpec.LockThenOpenStaysClosed` | src/it/unicam/cs/asdl2324/es2/CombinationLock.java:97-108 | an `open` right after `lock` leaves the lock closed and the combination unchanged |
| `LockSpec.LockThenDialCombinationOpens` | src/it/unicam/cs/asdl2324/es2/CombinationLock.java:97-108 | after `lock`, setting the combination's three letters and calling `open` opens the lock |
| `LockSpec.ChangeThenDialNewCombinationOpens` | src/it/unicam/cs/asdl2324/es2/CombinationLock.java:124-140 | a successful change on an open lock closes it with the new combination; then setting any three letters and calling `open` opens it iff those letters are the new combination |
| `LockSpec.ClosedChangeKeepsDial` | src/it/unicam/cs/asdl2324/es2/CombinationLock.java:124-126 | on every closed lock and for every argument the change returns the state unchanged, so the next `open` gives what it would have given without the call |
| `LockSpec.ClosedChangeKeepsDialledCombination` | src/it/unicam/cs/asdl2324/es2/CombinationLock.java:110-126 | on a closed lock with cursor 0, setting the combination and then attempting a change leaves the dial intact, so `open` opens the lock |
| `CombinationLocks.CombinationLock.constructor` | src/it/unicam/cs/asdl2324/es2/CombinationLock.java:37-42 | for a valid combination the new lock is valid and is the state `Init` gives: open, blank buffer, cursor 0 |
| `CombinationLocks.Create` | src/it/unicam/cs/asdl2324/es2/CombinationLock.java:29-44 | a null or malformed combination gives the matching error; otherwise a fresh valid lock in the state `Init` gives |
| `CombinationLocks.CombinationLock.SetPosition` | src/it/unicam/cs/asdl2324/es2/CombinationLock.java:57-67 | a rejected letter gives the letter error and leaves the state unchanged; otherwise the new state is `LockSpec.SetPosition` of the old; the invariant is kept |
| `CombinationLocks.CombinationLock.Open` | src/it/unicam/cs/asdl2324/es2/CombinationLock.java:75-86 | the new state is `LockSpec.Open` of the old; the invariant is kept |
| `CombinationLocks.CombinationLock.IsOpen` | src/it/unicam/cs/asdl2324/es2/CombinationLock.java:93-95 | returns the open flag |
| `CombinationLocks.CombinationLock.Lock` | src/it/unicam/cs/asdl2324/es2/CombinationLock.java:104-108 | the new state is `LockSpec.Lock` of the old; the invariant is kept |
| `CombinationLocks.CombinationLock.LockAndChangeCombination` | src/it/unicam/cs/asdl2324/es2/CombinationLock.java:124-140 | it fails exactly when `LockSpec.LockAndChangeCombination` fails, with the same error and no state change; on success the new state is the one that function gives; the invariant is kept |

## Left out

- Java's exception classes are modelled as the `Error` datatype: `NullPointerException` becomes `NullCombination`, and `IllegalArgumentException` becomes `MalformedCombination` or `InvalidLetter`. A throwing call returns `Fail` or `Failure` and changes nothing.
- A null `String` argument is modelled as `Option.None`. A `char` argument cannot be null, so `setPosition` takes a plain `char`.
- `String.matches("[A-Z]+")` is restated as the predicate `MatchesUpperCaseRun`. No regular-expression engine is modelled.
- `Character.isLowerCase` in `setPosition` is not modelled. No character in 'A'..'Z' is lower case, so the range check alone decides.
- Java `char` is a 16-bit code unit and Dafny `char` is a Unicode scalar value. The lock only compares characters against the range 'A'..'Z' and against each other, so the width makes no difference.
- `open`, `lock` and `lockAndChangeCombination` replace `lastPosition` with a freshly allocated blank array. The model overwrites the three slots of one array instead. No one else holds a reference to the array, so nothing can observe the difference.
- CombinationLocks.CombinationLock.constructor: the constructor requires a valid combination. The source's null and format checks are in `Create`, which calls the constructor only after they pass.
- Concurrency, persistence and user interface: the source has none.
