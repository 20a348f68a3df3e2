# ATM state machine

This project models the automated teller machine from the blockchain-from-scratch
state-machine exercises (`src/c1_state_machine/p3_atm.rs`). The machine's state
has three parts: the cash inside (a `u64`), an authentication phase, and the
keystroke register. The phase is `Waiting`, `Authenticating(pin hash)` or
`Authenticated`. The transition function takes a state and an action (swipe a
card, or press a key) and returns the next state. It is total.

- `AtmStateMachine` (atm.dfy) holds the types and the helpers. `FromKeyVec`
  turns the register into an amount: the keys `One`..`Four` map to digits,
  `Enter` is dropped, the digits are read as a decimal number, and a failed
  `u64` parse gives 0. `Next` is the transition function on values.
  The class `Atm` follows the implementation step by step. `NextState` clones
  the starting object, then mutates the copy with `ResetKeystrokeRegister` and
  `ResetExpectedPinHash` or with field assignments. Its postcondition proves
  that the result holds `Next` of the starting state.
- `TransitionProperties` (transitions.dfy) proves what one step does in each
  phase, and which state invariant a step keeps.
- `RunProperties` (runs.dfy) threads a state through a sequence of actions.
  It proves that cash never increases, that the invariant holds however many
  actions are taken, that digits accumulate in the order they are pressed, and
  what a whole visit (swipe, PIN, amount) does.
- `AmountProperties` (amount.dfy) proves what `FromKeyVec` computes: when it
  is 0, the 19- and 21-digit bounds, that `Enter` is ignored, and the round
  trip with `KeysOf`, which gives the register a customer types for an amount.
- `Scenarios` (scenarios.dfy) restates the exercise's unit tests as lemmas.

**Over-withdrawal.** The code at `p3_atm.rs:113-117` leaves the cash unchanged
when the request exceeds it: nothing is dispensed. The test at lines 311-323
confirms this, since requesting 14 from 10 ends with 10.
The model follows the code (`CashAfterRequest`, `TransitionProperties.Withdrawal`,
`Scenarios.TryToWithdrawTooMuch`).

The PIN hash of the crate is not shown in the source. Every member that needs
it takes a `hash: seq<Key> -> U64` parameter, so each lemma holds for every
hash function (only `Scenarios.EnterWrongPin` assumes anything about the hash
function itself: the two PINs of that test must hash differently).

## Model

| member | source | states |
|---|---|---|
| `AtmStateMachine.Next` | src/c1_state_machine/p3_atm.rs:83-130 | Definition of `next_state` on values, no contract; its properties are the `TransitionProperties` and `RunProperties` lemmas, and `Atm.NextState` is proved to compute it. |
| `AtmStateMachine.CashAfterRequest` | src/c1_state_machine/p3_atm.rs:113-117 | Definition of the cash update, no contract; its properties are `TransitionProperties.Withdrawal` and `TransitionProperties.CashNeverIncreases`. |
| `AtmStateMachine.FromKeyVec` | src/c1_state_machine/p3_atm.rs:137-151 | Definition of `FromKeyVec::from`, no contract; its properties are the `AmountProperties` lemmas. |
| `AtmStateMachine.ParseU64` | src/c1_state_machine/p3_atm.rs:150 | Definition of `parse::<u64>` on a digit string, no contract; its properties are `AmountProperties.FromKeyVecIsZero` and `AmountProperties.FromKeyVecFits`. |
| `AtmStateMachine.KeyDigits` | src/c1_state_machine/p3_atm.rs:139-148 | Definition of the key-to-digit `map`, no contract; its properties are `AmountProperties.DigitsOfDigitKeys` and `AmountProperties.FromKeyVecIgnoresEnter`. |
| `AtmStateMachine.DecimalValue` | src/c1_state_machine/p3_atm.rs:150 | Definition of the decimal value a digit string denotes, no contract; its properties are `AmountProperties.DecimalValueBounds` and the round trips with `KeysOf`. |
| `AtmStateMachine.Option.UnwrapOr` | src/c1_state_machine/p3_atm.rs:150 | Definition of `unwrap_or(0)` on the parse result, no contract; `AmountProperties.FromKeyVecIsZero` states when it yields the default 0 and `AmountProperties.FromKeyVecFits` when it yields the parsed value. |
| `AtmStateMachine.Digits` | src/c1_state_machine/p3_atm.rs:139-149 | The digit string of a register has at most one digit per key, and every digit is between 1 and 4. |
| `AtmStateMachine.Atm.constructor` | src/c1_state_machine/p3_atm.rs:46-54 | The struct literal: the new object holds exactly the given cash, phase and register. |
| `AtmStateMachine.Atm.Clone` | src/c1_state_machine/p3_atm.rs:46-54 | The derived clone is a fresh object that holds the same state. |
| `AtmStateMachine.Atm.AddKeyToRegister` | src/c1_state_machine/p3_atm.rs:57-61 | Returns a fresh copy whose register is the old register with the key pushed on the end. Cash and phase are copied unchanged. |
| `AtmStateMachine.Atm.ResetKeystrokeRegister` | src/c1_state_machine/p3_atm.rs:63-65 | Empties the register in place. Cash and phase are unchanged. |
| `AtmStateMachine.Atm.IsCorrectPin` | src/c1_state_machine/p3_atm.rs:67-69 | Definition, no contract: the register hashes to `pinHash`. `Atm.NextState` uses it and is proved to compute `Next`, whose PIN branch `TransitionProperties.PinCheck` states in both directions. |
| `AtmStateMachine.Atm.ResetExpectedPinHash` | src/c1_state_machine/p3_atm.rs:71-73 | Sets the phase to `Waiting` in place. Cash and register are unchanged. |
| `AtmStateMachine.Atm.NextState` | src/c1_state_machine/p3_atm.rs:83-130 | Returns a fresh object that holds `Next` of the starting state, and the starting object is not modified. The PIN comparison (`IsCorrectPin`, lines 67-69) and the cash subtraction, which the `U64` type checks for underflow, are inside it. |
| `TransitionProperties.SwipeWhileWaiting` | src/c1_state_machine/p3_atm.rs:88-92 | While waiting, `SwipeCard(h)` moves to `Authenticating(h)`. Cash and register are unchanged. |
| `TransitionProperties.KeyWhileWaitingIgnored` | src/c1_state_machine/p3_atm.rs:93 | While waiting, any key press returns the state unchanged. |
| `TransitionProperties.SecondSwipeIgnored` | src/c1_state_machine/p3_atm.rs:95-126 | While authenticating or authenticated, a swipe of any hash returns the identical state. |
| `TransitionProperties.DigitKeyAppends` | src/c1_state_machine/p3_atm.rs:95-126 | In a session, a non-`Enter` key gives register + [key]. Phase and cash are unchanged. |
| `TransitionProperties.PinCheck` | src/c1_state_machine/p3_atm.rs:96-105 | `Enter` while authenticating empties the register and keeps the cash. The new phase is `Authenticated` if and only if the register hashes to the expected hash, and `Waiting` if and only if it does not. |
| `TransitionProperties.Withdrawal` | src/c1_state_machine/p3_atm.rs:110-122 | `Enter` while authenticated ends the session with an empty register. With a = `FromKeyVec(register)`, the cash becomes cash - a when a <= cash, and stays as it was when a > cash. |
| `TransitionProperties.CashNeverIncreases` | src/c1_state_machine/p3_atm.rs:113-118 | No step increases the cash. The cash changes only on `Enter` while authenticated with 0 < a <= cash, and then it drops by exactly a. |
| `TransitionProperties.EndingSessionClearsRegister` | src/c1_state_machine/p3_atm.rs:96-122 | Every step from a session back to `Waiting` is an `Enter`, and it leaves the register empty. |
| `TransitionProperties.AuthenticatingOnlyBySwipe` | src/c1_state_machine/p3_atm.rs:88-92 | A step that enters `Authenticating(h)` starts from `Waiting` and is `SwipeCard(h)`. |
| `TransitionProperties.AuthenticatedOnlyByCorrectPin` | src/c1_state_machine/p3_atm.rs:96-105 | A step that enters `Authenticated` is an `Enter` while authenticating, and the register hashes to the expected hash. |
| `TransitionProperties.NextPreservesInvariant` | src/c1_state_machine/p3_atm.rs:83-130 | Every step keeps this invariant: `Waiting` implies an empty register, and the register never contains `Enter`. |
| `RunProperties.RunAppend` | src/c1_state_machine/p3_atm.rs:83 | Running actions a and then b gives the same state as running a + b. |
| `RunProperties.RunCashNeverIncreases` | src/c1_state_machine/p3_atm.rs:113-118 | After any sequence of actions, the cash is at most the starting cash. |
| `RunProperties.RunPreservesInvariant` | src/c1_state_machine/p3_atm.rs:83-130 | The invariant holds after any sequence of actions from a state that satisfies it. |
| `RunProperties.DigitsAccumulate` | src/c1_state_machine/p3_atm.rs:57-61 | In a session, pressing the digit keys ks one after another gives register + ks, in order. Cash and phase are unchanged. |
| `RunProperties.KeysWhileWaitingIgnored` | src/c1_state_machine/p3_atm.rs:93 | While waiting, any sequence of key presses leaves the state unchanged. |
| `RunProperties.VisitOutcome` | src/c1_state_machine/p3_atm.rs:83-130 | A visit to an idle machine is swipe(h), the PIN, `Enter`, the amount, `Enter`. It dispenses a = `FromKeyVec(amount)` if and only if the PIN hashes to h and a <= cash. In every case it ends in `Waiting` with an empty register. |
| `AmountProperties.DigitsAppend` | src/c1_state_machine/p3_atm.rs:149 | Collecting the digits of a + b gives the digits of a followed by the digits of b. |
| `AmountProperties.DigitsOfDigitKeys` | src/c1_state_machine/p3_atm.rs:139-148 | A register with no `Enter` has exactly one digit per key. |
| `AmountProperties.DecimalValueBounds` | src/c1_state_machine/p3_atm.rs:150 | A string of n digits, each between 1 and 9, has a value below 10^n, and at least 10^(n-1) when n > 0. |
| `AmountProperties.FromKeyVecIsZero` | src/c1_state_machine/p3_atm.rs:150 | The amount is 0 if and only if the register has no digit or its value exceeds `u64::MAX`, which is when the parse fails and `unwrap_or(0)` applies. |
| `AmountProperties.FromKeyVecFits` | src/c1_state_machine/p3_atm.rs:150 | Whenever the decimal value of the digits fits in a `u64`, at any length, the amount is that value. |
| `AmountProperties.ShortRegisterIsItsValue` | src/c1_state_machine/p3_atm.rs:150 | With at most 19 digits, the amount is the decimal value of the digits. |
| `AmountProperties.LongRegisterRequestsNothing` | src/c1_state_machine/p3_atm.rs:150 | With 21 digits or more, the parse overflows and the amount is 0. |
| `AmountProperties.FromKeyVecIgnoresEnter` | src/c1_state_machine/p3_atm.rs:146 | An `Enter` anywhere in the register does not change the amount. |
| `AmountProperties.FromKeyVecPushDigit` | src/c1_state_machine/p3_atm.rs:137-151 | If the longer register still fits, one more digit key gives 10 × the old amount + the digit. |
| `AmountProperties.KeysOfRoundTrip` | src/c1_state_machine/p3_atm.rs:137-151 | Typing the digits of n (every digit between 1 and 4, n <= `u64::MAX`) requests exactly n. |
| `AmountProperties.FromKeyVecRoundTrip` | src/c1_state_machine/p3_atm.rs:137-151 | A register with no `Enter` whose value fits in a `u64` is recovered from its amount: `KeysOf(FromKeyVec(keys)) == keys`. |
| `AmountProperties.ExampleFourteen` | src/c1_state_machine/p3_atm.rs:137-151 | `[One, Four]` requests 14. |
| `Scenarios.SimpleSwipeCard` | src/c1_state_machine/p3_atm.rs:154-166 | Swiping 1234 at an idle machine holding 10 gives `Authenticating(1234)`. Cash and register are unchanged. |
| `Scenarios.SwipeCardAgainPartWayThrough` | src/c1_state_machine/p3_atm.rs:168-197 | A second swipe during PIN entry changes nothing, whether the register is empty or not. |
| `Scenarios.PressKeyBeforeCardSwipe` | src/c1_state_machine/p3_atm.rs:199-208 | A key pressed before any swipe changes nothing. |
| `Scenarios.EnterSingleDigitOfPin` | src/c1_state_machine/p3_atm.rs:210-239 | PIN digits are appended one at a time. |
| `Scenarios.EnterWrongPin` | src/c1_state_machine/p3_atm.rs:241-257 | PIN 3333 against the hash of 1234 gives `Waiting` with cash 10 and an empty register, provided the two PINs hash differently. |
| `Scenarios.EnterCorrectPin` | src/c1_state_machine/p3_atm.rs:259-278 | PIN 1234 against the hash of 1234 gives `Authenticated` with cash 10 and an empty register. |
| `Scenarios.EnterSingleDigitOfWithdrawAmount` | src/c1_state_machine/p3_atm.rs:280-309 | Amount digits are appended one at a time. |
| `Scenarios.TryToWithdrawTooMuch` | src/c1_state_machine/p3_atm.rs:311-323 | Requesting 14 with 10 inside ends in `Waiting` with cash still 10. |
| `Scenarios.WithdrawAcceptableAmount` | src/c1_state_machine/p3_atm.rs:325-337 | Requesting 1 with 10 inside ends in `Waiting` with cash 9. |

## Left out

- `crate::hash` is not shown in the source. It is a parameter `hash: seq<Key> -> U64`, so its algorithm, and whether two PINs collide under it, are not modelled.
- The `StateMachine` trait comes from the parent module, which is not part of this model. `next_state` is the static method `Atm.NextState` and the function `Next`.
- Rust's derived `Hash`, `Debug` and `PartialEq` are not modelled. Equality of states is equality of the `AtmState` values. The string `FromKeyVec::from` builds is modelled as a sequence of digit values, and `str::parse::<u64>` as `ParseU64` on that sequence. This parse has no sign characters, because the keypad cannot produce any.
- The `#[test]` functions are not modelled as code. Their scenarios are stated as the lemmas in `Scenarios`.
