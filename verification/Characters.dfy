/** Python's notion of white space, shared by str.strip and the regular expression \s. */
module Characters {
  predicate IsSpace(c: char) {
    || 9 <= c as int <= 13 || 28 <= c as int <= 32 || c as int in {0x85, 0xA0, 0x1680, 0x2028, 0x2029, 0x202F, 0x205F, 0x3000}
    || 0x2000 <= c as int <= 0x200A
  }

  predicate Blank(s: string) {
    forall i | 0 <= i < |s| :: IsSpace(s[i])
  }
}
