/** Sequences of actions: what a caller gets by threading the state through
    `Next` one action at a time. */
module RunProperties {
  import opened AtmStateMachine
  import TransitionProperties

  /** The state after the actions `ts`, in order. */
  function Run(s: AtmState, ts: seq<Action>, hash: Hasher): AtmState
    decreases |ts|
  {
    if ts == [] then s else Run(Next(s, ts[0], hash), ts[1..], hash)
  }

  /** Pressing the keys `ks`, in order. */
  function Presses(ks: seq<Key>): (ts: seq<Action>)
    ensures |ts| == |ks|
  {
    if ks == [] then [] else [PressKey(ks[0])] + Presses(ks[1..])
  }

  /** Running `a` and then `b` is running `a + b`. */
  lemma {:induction false} RunAppend(s: AtmState, a: seq<Action>, b: seq<Action>, hash: Hasher)
    ensures Run(s, a + b, hash) == Run(Run(s, a, hash), b, hash)
    decreases |a|
  {
    if a != [] {
      assert (a + b)[0] == a[0];
      assert (a + b)[1..] == a[1..] + b;
      assert Run(s, a + b, hash) == Run(Next(s, a[0], hash), a[1..] + b, hash);
      RunAppend(Next(s, a[0], hash), a[1..], b, hash);
    } else {
      assert a + b == b;
    }
  }

  /** However many actions, the cash inside never grows. */
  lemma {:induction false} RunCashNeverIncreases(s: AtmState, ts: seq<Action>, hash: Hasher)
    ensures Run(s, ts, hash).cashInside <= s.cashInside
    decreases |ts|
  {
    if ts != [] {
      TransitionProperties.CashNeverIncreases(s, ts[0], hash);
      RunCashNeverIncreases(Next(s, ts[0], hash), ts[1..], hash);
    }
  }

  /** However many actions, the invariant holds. */
  lemma {:induction false} RunPreservesInvariant(s: AtmState, ts: seq<Action>, hash: Hasher)
    requires TransitionProperties.Invariant(s)
    ensures TransitionProperties.Invariant(Run(s, ts, hash))
    decreases |ts|
  {
    if ts != [] {
      TransitionProperties.NextPreservesInvariant(s, ts[0], hash);
      RunPreservesInvariant(Next(s, ts[0], hash), ts[1..], hash);
    }
  }

  lemma RunCons(s: AtmState, t: Action, ts: seq<Action>, hash: Hasher)
    ensures Run(s, [t] + ts, hash) == Run(Next(s, t, hash), ts, hash)
  {
    assert ([t] + ts)[0] == t && ([t] + ts)[1..] == ts;
  }

  /** In a session, digit keys accumulate in the order pressed. */
  lemma {:induction false} DigitsAccumulate(s: AtmState, ks: seq<Key>, hash: Hasher)
    requires s.expectedPinHash != Waiting
    requires Enter !in ks
    ensures Run(s, Presses(ks), hash) == s.(keystrokeRegister := s.keystrokeRegister + ks)
    decreases |ks|
  {
    if ks != [] {
      var k, rest := ks[0], ks[1..];
      var s' := s.(keystrokeRegister := s.keystrokeRegister + [k]);
      assert Next(s, PressKey(k), hash) == s' by {
        TransitionProperties.DigitKeyAppends(s, k, hash);
      }
      assert Run(s, Presses(ks), hash) == Run(s', Presses(rest), hash) by {
        RunCons(s, PressKey(k), Presses(rest), hash);
      }
      assert Run(s', Presses(rest), hash) == s'.(keystrokeRegister := s'.keystrokeRegister + rest) by {
        assert Enter !in rest;
        DigitsAccumulate(s', rest, hash);
      }
      assert s.keystrokeRegister + [k] + rest == s.keystrokeRegister + ks;
    }
  }

  /** While waiting, pressing keys does nothing. */
  lemma {:induction false} KeysWhileWaitingIgnored(s: AtmState, ks: seq<Key>, hash: Hasher)
    requires s.expectedPinHash == Waiting
    ensures Run(s, Presses(ks), hash) == s
    decreases |ks|
  {
    if ks != [] {
      assert Presses(ks)[1..] == Presses(ks[1..]);
      KeysWhileWaitingIgnored(s, ks[1..], hash);
    }
  }

  /** The actions of a whole visit: swipe a card announcing `cardHash`, type
      `pin` and `Enter`, type `amount` and `Enter`. */
  function Visit(cardHash: U64, pin: seq<Key>, amount: seq<Key>): seq<Action> {
    [SwipeCard(cardHash)] + Presses(pin) + [PressKey(Enter)] + Presses(amount) + [PressKey(Enter)]
  }

  /** A visit to an idle machine dispenses the requested amount exactly when
      the PIN is right and the machine holds that much; in every case it
      leaves the machine idle with an empty register. */
  lemma VisitOutcome(cash: U64, cardHash: U64, pin: seq<Key>, amount: seq<Key>, hash: Hasher)
    requires Enter !in pin && Enter !in amount
    ensures var a := FromKeyVec(amount);
      Run(AtmState(cash, Waiting, []), Visit(cardHash, pin, amount), hash) ==
      AtmState(if hash(pin) == cardHash && a <= cash then cash - a else cash, Waiting, [])
  {
    var s0 := AtmState(cash, Waiting, []);
    var s1 := AtmState(cash, Authenticating(cardHash), []);
    var s2 := AtmState(cash, Authenticating(cardHash), pin);
    var s3 := Next(s2, PressKey(Enter), hash);
    var s4 := Run(s3, Presses(amount), hash);
    var s5 := Next(s4, PressKey(Enter), hash);
    var p1 := [SwipeCard(cardHash)];
    var p2 := p1 + Presses(pin);
    var p3 := p2 + [PressKey(Enter)];
    var p4 := p3 + Presses(amount);
    assert Visit(cardHash, pin, amount) == p4 + [PressKey(Enter)];
    RunAppend(s0, p1, Presses(pin), hash);
    assert Run(s0, p1, hash) == s1;
    DigitsAccumulate(s1, pin, hash);
    assert [] + pin == pin;
    assert Run(s0, p2, hash) == s2;
    RunAppend(s0, p2, [PressKey(Enter)], hash);
    assert Run(s2, [PressKey(Enter)], hash) == s3;
    assert Run(s0, p3, hash) == s3;
    RunAppend(s0, p3, Presses(amount), hash);
    RunAppend(s0, p4, [PressKey(Enter)], hash);
    assert Run(s4, [PressKey(Enter)], hash) == s5;
    assert Run(s0, Visit(cardHash, pin, amount), hash) == s5;
    if hash(pin) == cardHash {
      assert s3 == AtmState(cash, Authenticated, []);
      DigitsAccumulate(s3, amount, hash);
      assert [] + amount == amount;
    } else {
      assert s3 == s0;
      KeysWhileWaitingIgnored(s3, amount, hash);
    }
  }
}
