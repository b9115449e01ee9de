/** Text as the runtime trims it. */
module Texts {

  /** The characters trimming removes. */
  predicate White(c: char) {
    var n := c as int;
    (9 <= n <= 13) || n in {32, 0xA0, 0x1680, 0x2028, 0x2029, 0x202F, 0x205F, 0x3000, 0xFEFF} || (0x2000 <= n <= 0x200A)
  }

  /** Nothing is left once it is trimmed. */
  predicate Blank(s: string) { forall i | 0 <= i < |s| :: White(s[i]) }
}
