/** The unit-test scenarios of the ATM exercise, stated for every PIN hash
    (the wrong-PIN case needs the two PINs to hash differently). */
module Scenarios {
  import opened AtmStateMachine
  import AmountProperties

  lemma SimpleSwipeCard(hash: Hasher)
    ensures Next(AtmState(10, Waiting, []), SwipeCard(1234), hash) ==
      AtmState(10, Authenticating(1234), [])
  {
  }

  lemma SwipeCardAgainPartWayThrough(hash: Hasher)
    ensures Next(AtmState(10, Authenticating(1234), []), SwipeCard(1234), hash) ==
      AtmState(10, Authenticating(1234), [])
    ensures Next(AtmState(10, Authenticating(1234), [One, Three]), SwipeCard(1234), hash) ==
      AtmState(10, Authenticating(1234), [One, Three])
  {
  }

  lemma PressKeyBeforeCardSwipe(hash: Hasher)
    ensures Next(AtmState(10, Waiting, []), PressKey(One), hash) == AtmState(10, Waiting, [])
  {
  }

  lemma EnterSingleDigitOfPin(hash: Hasher)
    ensures Next(AtmState(10, Authenticating(1234), []), PressKey(One), hash) ==
      AtmState(10, Authenticating(1234), [One])
    ensures Next(AtmState(10, Authenticating(1234), [One]), PressKey(Two), hash) ==
      AtmState(10, Authenticating(1234), [One, Two])
  {
  }

  lemma EnterWrongPin(hash: Hasher)
    requires hash([Three, Three, Three, Three]) != hash([One, Two, Three, Four])
    ensures var pinHash := hash([One, Two, Three, Four]);
      Next(AtmState(10, Authenticating(pinHash), [Three, Three, Three, Three]), PressKey(Enter), hash) ==
      AtmState(10, Waiting, [])
  {
  }

  lemma EnterCorrectPin(hash: Hasher)
    ensures var pinHash := hash([One, Two, Three, Four]);
      Next(AtmState(10, Authenticating(pinHash), [One, Two, Three, Four]), PressKey(Enter), hash) ==
      AtmState(10, Authenticated, [])
  {
  }

  lemma EnterSingleDigitOfWithdrawAmount(hash: Hasher)
    ensures Next(AtmState(10, Authenticated, []), PressKey(One), hash) ==
      AtmState(10, Authenticated, [One])
    ensures Next(AtmState(10, Authenticated, [One]), PressKey(Four), hash) ==
      AtmState(10, Authenticated, [One, Four])
  {
  }

  /** Requesting 14 from a machine holding 10 dispenses nothing. */
  lemma TryToWithdrawTooMuch(hash: Hasher)
    ensures Next(AtmState(10, Authenticated, [One, Four]), PressKey(Enter), hash) ==
      AtmState(10, Waiting, [])
  {
    AmountProperties.ExampleFourteen();
  }

  lemma WithdrawAcceptableAmount(hash: Hasher)
    ensures Next(AtmState(10, Authenticated, [One]), PressKey(Enter), hash) ==
      AtmState(9, Waiting, [])
  {
    AmountProperties.ExampleOne();
  }
}
