/** String keys: decimal segment numbers, colon-separated parts, and what a prefix selects. */
module StorageKeys {

  function Digit(d: nat): (c: char)
    requires d < 10
    ensures c != ':'
  {
    ['0', '1', '2', '3', '4', '5', '6', '7', '8', '9'][d]
  }

  function Decimal(n: nat): (s: string)
    ensures s != []
  {
    if n < 10 then [Digit(n)] else Decimal(n / 10) + [Digit(n % 10)]
  }

  lemma {:induction false} DecimalHasNoColon(n: nat)
    ensures ':' !in Decimal(n)
  {
    if n >= 10 {
      DecimalHasNoColon(n / 10);
    }
  }

  lemma DigitIsInjective(a: nat, b: nat)
    requires a < 10 && b < 10 && Digit(a) == Digit(b)
    ensures a == b
  {}

  lemma DecimalLength(n: nat)
    ensures n < 10 <==> |Decimal(n)| == 1
  {}

  lemma {:induction false} DecimalIsInjective(a: nat, b: nat)
    requires Decimal(a) == Decimal(b)
    ensures a == b
  {
    var s, t := Decimal(a), Decimal(b);
    assert s[|s| - 1] == Digit(a % 10) && t[|t| - 1] == Digit(b % 10);
    DigitIsInjective(a % 10, b % 10);
    DecimalLength(a);
    DecimalLength(b);
    if a >= 10 {
      assert s[..|s| - 1] == Decimal(a / 10) && t[..|t| - 1] == Decimal(b / 10);
      DecimalIsInjective(a / 10, b / 10);
    }
  }

  /** In `a:x` with `x` colon-free the colon after `a` is the last one. */
  lemma LastColon(a: string, x: string)
    requires ':' !in x
    ensures var s := a + ":" + x;
            s[|a|] == ':' && forall k :: |a| < k < |s| ==> s[k] != ':'
  {
    var s := a + ":" + x;
    forall k | |a| < k < |s| ensures s[k] != ':' {
      assert s[k] == x[k - |a| - 1];
    }
  }

  /** In `a:x` with `a` colon-free the colon after `a` is the first one. */
  lemma FirstColon(a: string, x: string)
    requires ':' !in a
    ensures var s := a + ":" + x;
            s[|a|] == ':' && forall k :: 0 <= k < |a| ==> s[k] != ':'
  {}

  lemma PartsOf(a: string, x: string)
    ensures (a + ":" + x)[..|a|] == a && (a + ":" + x)[|a| + 1..] == x
  {}

  lemma LastPartSplits(a: string, b: string, x: string, y: string)
    requires ':' !in x && ':' !in y
    requires a + ":" + x == b + ":" + y
    ensures a == b && x == y
  {
    LastColon(a, x);
    LastColon(b, y);
    PartsOf(a, x);
    PartsOf(b, y);
  }

  lemma FirstPartSplits(a: string, b: string, x: string, y: string)
    requires ':' !in a && ':' !in b
    requires a + ":" + x == b + ":" + y
    ensures a == b && x == y
  {
    FirstColon(a, x);
    FirstColon(b, y);
    PartsOf(a, x);
    PartsOf(b, y);
  }

  /** The slot name the in-memory repository uses. */
  function SlotName(id: string, segment: nat): string { id + ":" + Decimal(segment) }

  lemma SlotNameIsInjective(a: string, m: nat, b: string, n: nat)
    requires SlotName(a, m) == SlotName(b, n)
    ensures a == b && m == n
  {
    DecimalHasNoColon(m);
    DecimalHasNoColon(n);
    LastPartSplits(a, b, Decimal(m), Decimal(n));
    DecimalIsInjective(m, n);
  }

  /** A slot name starts with `id:` exactly when its owner is `id`, or itself starts with `id:`. */
  lemma PrefixSelects(id: string, slotOwner: string, segment: nat)
    ensures id + ":" <= SlotName(slotOwner, segment) <==> slotOwner == id || id + ":" <= slotOwner
  {
    var p, s := id + ":", SlotName(slotOwner, segment);
    DecimalHasNoColon(segment);
    LastColon(slotOwner, Decimal(segment));
    PartsOf(slotOwner, Decimal(segment));
    if p <= s {
      assert s[|id|] == p[|id|] == ':';
      if |id| == |slotOwner| {
        assert slotOwner == s[..|id|] == p[..|id|] == id;
      } else {
        assert slotOwner[..|p|] == s[..|p|] == p;
      }
    }
    if slotOwner == id {
      assert s == p + Decimal(segment);
    } else if p <= slotOwner {
      assert s[..|p|] == slotOwner[..|p|];
    }
  }
}
