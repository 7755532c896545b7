/** Small definitions that several modules share. */
module Common {
  datatype Option<T> = None | Some(value: T)

  const LF: char := '\n'

  /** std::isspace in the C locale */
  predicate IsSpace(c: char) {
    9 <= c as int <= 13 || c == ' '
  }

  type Int32 = n: int | -0x8000_0000 <= n < 0x8000_0000

  /** Conversion to a 32-bit int in two's complement. */
  function Wrap32(n: int): Int32 {
    (n + 0x8000_0000) % 0x1_0000_0000 - 0x8000_0000
  }

  /** The result fits 32 bits and is congruent to the argument, which determines it. */
  lemma Wrapped(n: int)
    ensures -2147483648 <= Wrap32(n) <= 2147483647 && (Wrap32(n) - n) % 4294967296 == 0
  {
    var q := (n + 0x8000_0000) / 0x1_0000_0000;
    assert Wrap32(n) - n == -q * 0x1_0000_0000;
  }
}
