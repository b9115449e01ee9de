/** The integers a JavaScript number represents without gaps. */
module SafeIntegers {
  const MAX_SAFE_INTEGER: nat := 9007199254740991

  type SafeNat = n: nat | n <= MAX_SAFE_INTEGER

  predicate Positive(n: int) { 1 <= n <= MAX_SAFE_INTEGER }

  predicate NonNegative(n: int) { 0 <= n <= MAX_SAFE_INTEGER }
}
