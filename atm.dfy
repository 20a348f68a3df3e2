/** The automated teller machine of the blockchain-from-scratch state-machine
    exercises: a card swipe announces the hash of the correct PIN, the keypad
    collects the PIN and then the amount to withdraw, and `Enter` submits.

    `AtmState` is the machine state as a value (the Rust struct `Atm`
    compared with its derived equality); `Next` is the transition function on
    values; the class `Atm` follows the implementation, which
    clones the starting state and mutates the copy, and is proved to compute
    `Next`. */
module AtmStateMachine {

  /** Largest value of Rust's `u64`. */
  const MaxU64: nat := 0xFFFF_FFFF_FFFF_FFFF

  /** Rust's `u64`. */
  type U64 = n: nat | n <= MaxU64

  /** The keys on the keypad. */
  datatype Key = One | Two | Three | Four | Enter

  /** Something a customer can do at the machine. */
  datatype Action =
    | SwipeCard(pinHash: U64)  // the hash of the PIN to be keyed in next
    | PressKey(key: Key)

  /** The authentication phase, held in the field `expectedPinHash`. */
  datatype Auth =
    | Waiting                        // no session; waiting for a card
    | Authenticating(expected: U64)  // card swiped; waiting for the PIN
    | Authenticated                  // PIN accepted; waiting for an amount

  /** The whole machine state, as a value. */
  datatype AtmState = AtmState(cashInside: U64, expectedPinHash: Auth, keystrokeRegister: seq<Key>)

  /** The PIN hash of the crate (its algorithm is not part of this model),
      passed to every member that needs it. */
  type Hasher = seq<Key> -> U64

  datatype Option<T> = None | Some(value: T) {
    /** Rust's `Option::unwrap_or` (and `Result::unwrap_or`). */
    function UnwrapOr(default: T): T {
      match this
      case Some(v) => v
      case None => default
    }
  }

  // ---------------------------------------------------------------------
  // Turning the register into an amount (`FromKeyVec::from` for `u64`)
  // ---------------------------------------------------------------------

  /** The digits one key contributes to the amount string: `Enter` none. */
  function KeyDigits(k: Key): seq<nat> {
    match k
    case One => [1]
    case Two => [2]
    case Three => [3]
    case Four => [4]
    case Enter => []
  }

  /** The digit string of a register, key by key (the `map` and `collect`). */
  function Digits(keys: seq<Key>): (ds: seq<nat>)
    ensures |ds| <= |keys|
    ensures forall i :: 0 <= i < |ds| ==> 1 <= ds[i] <= 4
  {
    if keys == [] then [] else KeyDigits(keys[0]) + Digits(keys[1..])
  }

  /** The number a string of decimal digits denotes, most significant first. */
  function DecimalValue(ds: seq<nat>): nat {
    if ds == [] then 0 else 10 * DecimalValue(ds[..|ds| - 1]) + ds[|ds| - 1]
  }

  /** `str::parse::<u64>` on a string of decimal digits: it fails on the
      empty string and on a value that does not fit in a `u64`. */
  function ParseU64(ds: seq<nat>): Option<U64> {
    if ds == [] then None
    else if DecimalValue(ds) > MaxU64 then None
    else Some(DecimalValue(ds))
  }

  /** The amount a register requests; a failed parse requests 0. */
  function FromKeyVec(keys: seq<Key>): U64 {
    ParseU64(Digits(keys)).UnwrapOr(0)
  }

  // ---------------------------------------------------------------------
  // The transition function
  // ---------------------------------------------------------------------

  /** The cash left after a request: a request above the cash inside
      dispenses nothing. */
  function CashAfterRequest(cash: U64, amount: U64): U64 {
    if amount > cash then cash else cash - amount
  }

  /** One step of the machine. */
  function Next(s: AtmState, t: Action, hash: Hasher): AtmState {
    match s.expectedPinHash
    case Waiting =>
      (match t
       case SwipeCard(codeHash) => s.(expectedPinHash := Authenticating(codeHash))
       case PressKey(_) => s)
    case Authenticating(pinHash) =>
      (match t
       case PressKey(Enter) =>
         var phase := if hash(s.keystrokeRegister) == pinHash then Authenticated else Waiting;
         AtmState(s.cashInside, phase, [])
       case PressKey(k) => s.(keystrokeRegister := s.keystrokeRegister + [k])
       case SwipeCard(_) => s)
    case Authenticated =>
      (match t
       case PressKey(Enter) =>
         AtmState(CashAfterRequest(s.cashInside, FromKeyVec(s.keystrokeRegister)), Waiting, [])
       case PressKey(k) => s.(keystrokeRegister := s.keystrokeRegister + [k])
       case SwipeCard(_) => s)
  }

  // ---------------------------------------------------------------------
  // The implementation: clone the state, then mutate the copy
  // ---------------------------------------------------------------------

  class Atm {
    /** How much money is in the machine. */
    var cashInside: U64
    /** The authentication phase. */
    var expectedPinHash: Auth
    /** The keys pressed since the last `Enter`. */
    var keystrokeRegister: seq<Key>

    /** The state this object holds, as a value. */
    function Value(): AtmState
      reads this
    {
      AtmState(cashInside, expectedPinHash, keystrokeRegister)
    }

    /** The struct literal `Atm { cash_inside, expected_pin_hash, keystroke_register }`. */
    constructor (cash: U64, auth: Auth, register: seq<Key>)
      ensures Value() == AtmState(cash, auth, register)
    {
      cashInside := cash;
      expectedPinHash := auth;
      keystrokeRegister := register;
    }

    /** The derived `Clone`: a new object holding the same state. */
    method Clone() returns (c: Atm)
      ensures fresh(c)
      ensures c.Value() == Value()
    {
      c := new Atm(cashInside, expectedPinHash, keystrokeRegister);
    }

    /** A copy of this state with `key` pushed onto the register. */
    method AddKeyToRegister(key: Key) returns (r: Atm)
      ensures fresh(r)
      ensures r.Value() == Value().(keystrokeRegister := keystrokeRegister + [key])
    {
      r := Clone();
      r.keystrokeRegister := r.keystrokeRegister + [key];
    }

    /** Empties the register in place; nothing else changes. */
    method ResetKeystrokeRegister()
      modifies this
      ensures Value() == old(Value()).(keystrokeRegister := [])
    {
      keystrokeRegister := [];
    }

    /** Whether the register hashes to `pinHash`. */
    predicate IsCorrectPin(pinHash: U64, hash: Hasher)
      reads this
    {
      hash(keystrokeRegister) == pinHash
    }

    /** Sets the phase back to `Waiting` in place; nothing else changes. */
    method ResetExpectedPinHash()
      modifies this
      ensures Value() == old(Value()).(expectedPinHash := Waiting)
    {
      expectedPinHash := Waiting;
    }

    /** `StateMachine::next_state`: a new object holding the next state; the
        starting object is left as it was. */
    static method NextState(start: Atm, t: Action, hash: Hasher) returns (r: Atm)
      ensures fresh(r)
      ensures r.Value() == Next(start.Value(), t, hash)
    {
      var sameState := start.Clone();
      match start.expectedPinHash {
        case Waiting =>
          match t {
            case SwipeCard(codeHash) =>
              r := new Atm(sameState.cashInside, Authenticating(codeHash), sameState.keystrokeRegister);
            case PressKey(_) =>
              r := sameState;
          }
        case Authenticating(pinHash) =>
          match t {
            case PressKey(Enter) =>
              var pinCorrect := start.IsCorrectPin(pinHash, hash);
              var newState := sameState;
              newState.ResetKeystrokeRegister();
              newState.ResetExpectedPinHash();
              if pinCorrect {
                newState.expectedPinHash := Authenticated;
              }
              r := newState;
            case PressKey(key) =>
              r := start.AddKeyToRegister(key);
            case SwipeCard(_) =>
              r := sameState;
          }
        case Authenticated =>
          match t {
            case PressKey(Enter) =>
              var newState := sameState;
              var amountToWithdraw := FromKeyVec(newState.keystrokeRegister);
              var updateCash: U64;
              if amountToWithdraw > start.cashInside {
                updateCash := start.cashInside;
              } else {
                updateCash := start.cashInside - amountToWithdraw;
              }
              newState.cashInside := updateCash;
              newState.ResetKeystrokeRegister();
              newState.ResetExpectedPinHash();
              r := newState;
            case PressKey(key) =>
              r := start.AddKeyToRegister(key);
            case SwipeCard(_) =>
              r := sameState;
          }
      }
    }
  }
}
