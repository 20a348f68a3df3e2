/** One step of the machine, case by case, and the invariants a step keeps. */
module TransitionProperties {
  import opened AtmStateMachine

  /** The state invariant: no session means an empty register, and the
      register never holds `Enter` (pressing it submits instead). */
  predicate Invariant(s: AtmState) {
    && (s.expectedPinHash == Waiting ==> s.keystrokeRegister == [])
    && Enter !in s.keystrokeRegister
  }

  /** A swipe while waiting starts a session with the announced hash. */
  lemma SwipeWhileWaiting(s: AtmState, h: U64, hash: Hasher)
    requires s.expectedPinHash == Waiting
    ensures Next(s, SwipeCard(h), hash) == AtmState(s.cashInside, Authenticating(h), s.keystrokeRegister)
  {
  }

  /** Keys pressed before a card is swiped are ignored. */
  lemma KeyWhileWaitingIgnored(s: AtmState, k: Key, hash: Hasher)
    requires s.expectedPinHash == Waiting
    ensures Next(s, PressKey(k), hash) == s
  {
  }

  /** A session in progress ignores a second swipe, whatever its hash. */
  lemma SecondSwipeIgnored(s: AtmState, h: U64, hash: Hasher)
    requires s.expectedPinHash != Waiting
    ensures Next(s, SwipeCard(h), hash) == s
  {
  }

  /** In a session, a digit key is appended to the register. */
  lemma DigitKeyAppends(s: AtmState, k: Key, hash: Hasher)
    requires s.expectedPinHash != Waiting && k != Enter
    ensures Next(s, PressKey(k), hash) ==
      AtmState(s.cashInside, s.expectedPinHash, s.keystrokeRegister + [k])
  {
  }

  /** `Enter` while authenticating checks the PIN: the session goes on
      exactly when the register hashes to the expected hash, and ends
      otherwise; the register is emptied and the cash is untouched. */
  lemma PinCheck(s: AtmState, hash: Hasher)
    requires s.expectedPinHash.Authenticating?
    ensures var r := Next(s, PressKey(Enter), hash);
      && r.cashInside == s.cashInside
      && r.keystrokeRegister == []
      && (r.expectedPinHash == Authenticated <==> hash(s.keystrokeRegister) == s.expectedPinHash.expected)
      && (r.expectedPinHash == Waiting <==> hash(s.keystrokeRegister) != s.expectedPinHash.expected)
  {
  }

  /** `Enter` while authenticated withdraws the requested amount if the
      machine holds that much, and nothing otherwise; the session ends. */
  lemma Withdrawal(s: AtmState, hash: Hasher)
    requires s.expectedPinHash == Authenticated
    ensures var r, a := Next(s, PressKey(Enter), hash), FromKeyVec(s.keystrokeRegister);
      && r.expectedPinHash == Waiting
      && r.keystrokeRegister == []
      && (a <= s.cashInside ==> r.cashInside == s.cashInside - a)
      && (a > s.cashInside ==> r.cashInside == s.cashInside)
  {
  }

  /** No step adds cash, and the only step that removes any is a
      withdrawal the cash inside covers, which removes exactly the amount. */
  lemma CashNeverIncreases(s: AtmState, t: Action, hash: Hasher)
    ensures Next(s, t, hash).cashInside <= s.cashInside
    ensures Next(s, t, hash).cashInside != s.cashInside ==>
      && s.expectedPinHash == Authenticated
      && t == PressKey(Enter)
      && 0 < FromKeyVec(s.keystrokeRegister) <= s.cashInside
      && Next(s, t, hash).cashInside == s.cashInside - FromKeyVec(s.keystrokeRegister)
  {
  }

  /** Every step that ends a session is an `Enter` and empties the register. */
  lemma EndingSessionClearsRegister(s: AtmState, t: Action, hash: Hasher)
    requires s.expectedPinHash != Waiting
    requires Next(s, t, hash).expectedPinHash == Waiting
    ensures t == PressKey(Enter)
    ensures Next(s, t, hash).keystrokeRegister == []
  {
  }

  /** A session starts only with a swipe, carrying the swiped hash. */
  lemma AuthenticatingOnlyBySwipe(s: AtmState, t: Action, hash: Hasher)
    requires !s.expectedPinHash.Authenticating?
    requires Next(s, t, hash).expectedPinHash.Authenticating?
    ensures s.expectedPinHash == Waiting
    ensures t == SwipeCard(Next(s, t, hash).expectedPinHash.expected)
  {
  }

  /** The machine becomes authenticated only by a correct PIN. */
  lemma AuthenticatedOnlyByCorrectPin(s: AtmState, t: Action, hash: Hasher)
    requires s.expectedPinHash != Authenticated
    requires Next(s, t, hash).expectedPinHash == Authenticated
    ensures s.expectedPinHash.Authenticating?
    ensures t == PressKey(Enter)
    ensures hash(s.keystrokeRegister) == s.expectedPinHash.expected
  {
  }

  /** Every step keeps the invariant. */
  lemma NextPreservesInvariant(s: AtmState, t: Action, hash: Hasher)
    requires Invariant(s)
    ensures Invariant(Next(s, t, hash))
  {
  }
}
