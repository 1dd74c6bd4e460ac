/** What the models of different parts share. */
module Common {
  function Min(a: int, b: int): int { if a <= b then a else b }
}
