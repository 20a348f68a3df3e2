/** What `FromKeyVec` makes of a register: the decimal value of its digit
    keys, `Enter` ignored, and 0 when the parse fails (no digits, or a value
    beyond `u64`). `KeysOf` is the inverse on digit-only registers. */
module AmountProperties {
  import opened AtmStateMachine

  /** 10 to the power `n`. */
  function Pow10(n: nat): (p: nat)
    ensures p >= 1
  {
    if n == 0 then 1 else 10 * Pow10(n - 1)
  }

  /** The key that types digit `d`. */
  function DigitKey(d: nat): Key
    requires 1 <= d <= 4
  {
    if d == 1 then One else if d == 2 then Two else if d == 3 then Three else Four
  }

  /** Every decimal digit of `n` is one the keypad has (0 has no digits). */
  predicate Keyable(n: nat) {
    n == 0 || (1 <= n % 10 <= 4 && Keyable(n / 10))
  }

  /** The register a customer types to request `n`. */
  function KeysOf(n: nat): (keys: seq<Key>)
    requires Keyable(n)
    ensures Enter !in keys
  {
    if n == 0 then [] else KeysOf(n / 10) + [DigitKey(n % 10)]
  }

  lemma {:induction false} DigitsAppend(a: seq<Key>, b: seq<Key>)
    ensures Digits(a + b) == Digits(a) + Digits(b)
  {
    if a == [] {
      assert a + b == b;
    } else {
      assert (a + b)[0] == a[0];
      assert (a + b)[1..] == a[1..] + b;
      DigitsAppend(a[1..], b);
    }
  }

  lemma DigitsPush(keys: seq<Key>, k: Key)
    ensures Digits(keys + [k]) == Digits(keys) + KeyDigits(k)
  {
    DigitsAppend(keys, [k]);
    assert Digits([k]) == KeyDigits(k) + Digits([]);
  }

  lemma DecimalValuePush(ds: seq<nat>, d: nat)
    ensures DecimalValue(ds + [d]) == 10 * DecimalValue(ds) + d
  {
    assert (ds + [d])[..|ds|] == ds;
  }

  /** A register of digit keys only has one digit per key. */
  lemma {:induction false} DigitsOfDigitKeys(keys: seq<Key>)
    requires Enter !in keys
    ensures |Digits(keys)| == |keys|
  {
    if keys != [] {
      assert keys[0] != Enter;
      assert Enter !in keys[1..];
      DigitsOfDigitKeys(keys[1..]);
    }
  }

  /** A non-empty string of digits 1..9 lies between 10^(n-1) and 10^n. */
  lemma {:induction false} DecimalValueBounds(ds: seq<nat>)
    requires forall i :: 0 <= i < |ds| ==> 1 <= ds[i] <= 9
    ensures DecimalValue(ds) < Pow10(|ds|)
    ensures ds != [] ==> Pow10(|ds| - 1) <= DecimalValue(ds)
  {
    if ds != [] {
      var p := ds[..|ds| - 1];
      DecimalValueBounds(p);
      assert ds[|ds| - 1] <= 9;
      if p == [] {
        assert DecimalValue(ds) == ds[0];
      }
    }
  }

  /** The parse fails, and the register requests nothing, exactly when it
      holds no digit or its value does not fit in a `u64`. */
  lemma FromKeyVecIsZero(keys: seq<Key>)
    ensures FromKeyVec(keys) == 0 <==>
      Digits(keys) == [] || DecimalValue(Digits(keys)) > MaxU64
  {
  }

  /** Whenever the value of the digits fits in a `u64`, it is the amount. */
  lemma FromKeyVecFits(keys: seq<Key>)
    requires DecimalValue(Digits(keys)) <= MaxU64
    ensures FromKeyVec(keys) == DecimalValue(Digits(keys))
  {
  }

  /** Up to 19 digits always fit in a `u64`. */
  lemma ShortRegisterIsItsValue(keys: seq<Key>)
    requires |Digits(keys)| <= 19
    ensures FromKeyVec(keys) == DecimalValue(Digits(keys))
  {
    DecimalValueFits(Digits(keys));
  }

  /** 21 digits or more never fit in a `u64`: the register requests nothing. */
  lemma LongRegisterRequestsNothing(keys: seq<Key>)
    requires |Digits(keys)| >= 21
    ensures FromKeyVec(keys) == 0
  {
    DecimalValueOverflows(Digits(keys));
  }

  lemma DecimalValueFits(ds: seq<nat>)
    requires forall i :: 0 <= i < |ds| ==> 1 <= ds[i] <= 9
    requires |ds| <= 19
    ensures DecimalValue(ds) <= MaxU64
  {
    DecimalValueBounds(ds);
    Pow10Monotone(|ds|, 19);
    Pow10Nineteen();
  }

  lemma DecimalValueOverflows(ds: seq<nat>)
    requires forall i :: 0 <= i < |ds| ==> 1 <= ds[i] <= 9
    requires |ds| >= 21
    ensures DecimalValue(ds) > MaxU64
  {
    DecimalValueBounds(ds);
    Pow10Monotone(20, |ds| - 1);
    Pow10Nineteen();
  }

  lemma Pow10Nineteen()
    ensures Pow10(19) == 10_000_000_000_000_000_000
    ensures Pow10(20) == 100_000_000_000_000_000_000
  {
    assert Pow10(4) == 10_000;
    assert Pow10(8) == 100_000_000;
    assert Pow10(12) == 1_000_000_000_000;
    assert Pow10(16) == 10_000_000_000_000_000;
  }

  lemma {:induction false} Pow10Monotone(m: nat, n: nat)
    requires m <= n
    ensures Pow10(m) <= Pow10(n)
  {
    if m < n {
      Pow10Monotone(m, n - 1);
    }
  }

  /** An `Enter` anywhere in the register contributes nothing. */
  lemma FromKeyVecIgnoresEnter(a: seq<Key>, b: seq<Key>)
    ensures FromKeyVec(a + [Enter] + b) == FromKeyVec(a + b)
  {
    DigitsAppend(a + [Enter], b);
    DigitsPush(a, Enter);
    DigitsAppend(a, b);
    assert Digits(a + [Enter]) == Digits(a);
    assert Digits(a + [Enter] + b) == Digits(a + b);
  }

  /** Pressing one more digit key shifts the request one decimal place left
      and adds the digit, as long as the result still fits. */
  lemma FromKeyVecPushDigit(keys: seq<Key>, k: Key)
    requires k != Enter
    requires DecimalValue(Digits(keys + [k])) <= MaxU64
    ensures FromKeyVec(keys) == DecimalValue(Digits(keys))
    ensures FromKeyVec(keys + [k]) == 10 * FromKeyVec(keys) + KeyDigits(k)[0]
  {
    DigitsPush(keys, k);
    DecimalValuePush(Digits(keys), KeyDigits(k)[0]);
    assert KeyDigits(k) == [KeyDigits(k)[0]];
    FromKeyVecIsZero(keys);
  }

  lemma {:induction false} DigitsOfKeysOf(n: nat)
    requires Keyable(n)
    ensures Digits(KeysOf(n)) == [] <==> n == 0
    ensures DecimalValue(Digits(KeysOf(n))) == n
  {
    if n != 0 {
      var x, d := n / 10, n % 10;
      var ds := Digits(KeysOf(x));
      assert KeysOf(n) == KeysOf(x) + [DigitKey(d)];
      assert Digits(KeysOf(n)) == ds + [d] by {
        DigitsPush(KeysOf(x), DigitKey(d));
        assert KeyDigits(DigitKey(d)) == [d];
      }
      assert DecimalValue(ds) == x by {
        DigitsOfKeysOf(x);
      }
      DecimalValuePush(ds, d);
    }
  }

  /** Typing the digits of a keyable amount requests exactly that amount. */
  lemma KeysOfRoundTrip(n: nat)
    requires Keyable(n) && n <= MaxU64
    ensures FromKeyVec(KeysOf(n)) == n
  {
    DigitsOfKeysOf(n);
  }

  /** Appending a keyable digit to a keyable amount. */
  lemma KeysOfPush(x: nat, d: nat)
    requires Keyable(x) && 1 <= d <= 4
    ensures Keyable(10 * x + d)
    ensures KeysOf(10 * x + d) == KeysOf(x) + [DigitKey(d)]
  {
    var n := 10 * x + d;
    assert n % 10 == d && n / 10 == x;
  }

  lemma DigitKeyOfKey(k: Key)
    requires k != Enter
    ensures |KeyDigits(k)| == 1 && 1 <= KeyDigits(k)[0] <= 4
    ensures DigitKey(KeyDigits(k)[0]) == k
  {
  }

  /** A digit-only register is the register typed for its decimal value. */
  lemma {:induction false} KeysOfDecimalValue(keys: seq<Key>)
    requires Enter !in keys
    ensures Keyable(DecimalValue(Digits(keys)))
    ensures KeysOf(DecimalValue(Digits(keys))) == keys
  {
    if keys != [] {
      var p, k := keys[..|keys| - 1], keys[|keys| - 1];
      assert keys == p + [k];
      assert k != Enter;
      DigitKeyOfKey(k);
      var d := KeyDigits(k)[0];
      var x := DecimalValue(Digits(p));
      assert DecimalValue(Digits(keys)) == 10 * x + d by {
        DigitsPush(p, k);
        assert KeyDigits(k) == [d];
        DecimalValuePush(Digits(p), d);
      }
      assert Keyable(x) && KeysOf(x) == p by {
        assert Enter !in p;
        KeysOfDecimalValue(p);
      }
      KeysOfPush(x, d);
    }
  }

  /** A digit-only register that fits is recovered from the amount it
      requests. */
  lemma FromKeyVecRoundTrip(keys: seq<Key>)
    requires Enter !in keys
    requires DecimalValue(Digits(keys)) <= MaxU64
    ensures Keyable(FromKeyVec(keys))
    ensures KeysOf(FromKeyVec(keys)) == keys
  {
    FromKeyVecIsZero(keys);
    assert FromKeyVec(keys) == DecimalValue(Digits(keys));
    KeysOfDecimalValue(keys);
  }

  lemma ExampleOne()
    ensures FromKeyVec([One]) == 1
  {
  }

  lemma ExampleFourteen()
    ensures FromKeyVec([One, Four]) == 14
  {
    assert [One, Four][1..] == [Four];
    assert Digits([One, Four]) == [1, 4];
    assert [1, 4][..1] == [1];
    assert DecimalValue([1]) == 1;
  }

  lemma ExampleNothingTyped()
    ensures FromKeyVec([]) == 0 && FromKeyVec([Enter]) == 0
  {
  }
}
