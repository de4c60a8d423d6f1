/** The floor-rounded fee bump of confirmation-check.processor.ts and what repeating it does. */
module GasBump {
  import opened Numbers

  /** `fee * BigInt(100 + percent) / 100n` */
  function Bump(percent: nat, fee: nat): nat {
    fee * (100 + percent) / 100
  }

  function BumpN(percent: nat, fee: nat, n: nat): nat {
    if n == 0 then fee else Bump(percent, BumpN(percent, fee, n - 1))
  }

  /** A bump never lowers a fee, and raises it exactly when one percent-step is worth a whole wei. */
  lemma BumpRaises(percent: nat, fee: nat)
    ensures Bump(percent, fee) >= fee
    ensures Bump(percent, fee) > fee <==> fee * percent >= 100
  {
    assert fee * (100 + percent) == 100 * fee + fee * percent;
  }

  lemma BumpMonotone(percent: nat, low: nat, high: nat)
    requires low <= high
    ensures Bump(percent, low) <= Bump(percent, high)
  {
    var d := high - low;
    assert high * (100 + percent) == low * (100 + percent) + d * (100 + percent);
    assert d * (100 + percent) >= 0;
  }

  /** Priority fee <= max fee (EIP-1559, "Specification") survives any number of bumps. */
  lemma {:induction false} BumpNKeepsOrder(percent: nat, priority: nat, max: nat, n: nat)
    requires priority <= max
    ensures BumpN(percent, priority, n) <= BumpN(percent, max, n)
  {
    if n == 0 {
    } else {
      BumpNKeepsOrder(percent, priority, max, n - 1);
      BumpMonotone(percent, BumpN(percent, priority, n - 1), BumpN(percent, max, n - 1));
    }
  }

  lemma {:induction false} BumpNGrows(percent: nat, fee: nat, m: nat, n: nat)
    requires m <= n
    ensures BumpN(percent, fee, m) <= BumpN(percent, fee, n)
    ensures m < n && fee * percent >= 100 ==> BumpN(percent, fee, m) < BumpN(percent, fee, n)
  {
    if m == n {
    } else {
      BumpNGrows(percent, fee, m, n - 1);
      var x := BumpN(percent, fee, n - 1);
      BumpRaises(percent, x);
      if fee * percent >= 100 {
        BumpNGrows(percent, fee, 0, n - 1);
        Scale(percent, fee, x);
      }
    }
  }

  /** `bumped` lies between `fee` grown by (100 + percent)^n / 100^n and that less the compounded rounding. */
  predicate BumpBounds(percent: nat, fee: nat, n: nat, bumped: nat) {
    var a, c := Pow(100 + percent, n), Pow(100, n);
    && c * bumped <= fee * a
    && percent * fee * a - 99 * (a - c) <= percent * c * bumped
  }

  /** Rounding down at every bump loses at most 99/100 of a wei each time, compounded. */
  lemma {:induction false} BumpNBounds(percent: nat, fee: nat, n: nat)
    ensures BumpBounds(percent, fee, n, BumpN(percent, fee, n))
  {
    if n == 0 {
    } else {
      BumpNBounds(percent, fee, n - 1);
      var a, c, x := Pow(100 + percent, n - 1), Pow(100, n - 1), BumpN(percent, fee, n - 1);
      var y := Bump(percent, x);
      assert x * (100 + percent) - 99 <= 100 * y <= x * (100 + percent);
      UpperStep(100 + percent, fee, a, c, x, y);
      LowerStep(percent, fee, a, c, x, y);
    }
  }

  lemma UpperStep(q: nat, fee: nat, a: nat, c: nat, x: nat, y: nat)
    requires c * x <= fee * a && 100 * y <= x * q
    ensures (100 * c) * y <= fee * (q * a)
  {
    Scale(c, 100 * y, x * q);
    Scale(q, c * x, fee * a);
    assert (100 * c) * y == c * (100 * y);
    assert c * (x * q) == q * (c * x);
    Swap(fee, q, a);
  }

  lemma LowerStep(percent: nat, fee: nat, a: nat, c: nat, x: nat, y: nat)
    requires percent * fee * a - 99 * (a - c) <= percent * c * x && x * (100 + percent) - 99 <= 100 * y
    ensures var a', c' := (100 + percent) * a, 100 * c;
            percent * fee * a' - 99 * (a' - c') <= percent * c' * y
  {
    var q, pc, pfa := 100 + percent, percent * c, percent * fee * a;
    Regroup(percent, 100, c, y);
    assert pc * (100 * y) == percent * (100 * c) * y;
    Swap(percent * fee, q, a);
    assert q * pfa == percent * fee * (q * a);
    Swap(pc, x, q);
    assert pc * (x * q) == q * (pc * x) by { assert x * q == q * x; Swap(pc, q, x); }
    Scale(pc, x * q - 99, 100 * y);
    Scale(q, pfa - 99 * (a - c), pc * x);
    Less(pc, x * q, 99);
    Less(q, pfa, 99 * (a - c));
    SpreadLoss(q, a, c);
    assert q * c == 100 * c + pc by { assert (100 + percent) * c == 100 * c + percent * c; }
  }

  lemma Regroup(p: int, k: int, c: int, y: int)
    ensures (p * c) * (k * y) == p * (k * c) * y
  {
    assert p * (k * c) == (p * c) * k;
  }

  lemma Swap(m: int, q: int, a: int)
    ensures m * (q * a) == q * (m * a)
  {
  }

  lemma Less(k: int, m: int, n: int)
    ensures k * (m - n) == k * m - k * n
  {
  }

  lemma SpreadLoss(q: int, a: int, c: int)
    ensures q * (99 * (a - c)) == 99 * (q * a - q * c)
  {
    Less(q, a, c);
    Swap(99, q, a - c);
  }

  lemma Scale(k: nat, m: int, n: int)
    requires m <= n
    ensures k * m <= k * n
  {
    Less(k, n, m);
    assert k * (n - m) >= 0;
  }
}
