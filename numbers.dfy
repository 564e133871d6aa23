/** `Math.min` and `Math.max` on the integers and reals the models use. */
module Numbers {

  function Min(a: int, b: int): int { if a <= b then a else b }

  function Max(a: int, b: int): int { if a >= b then a else b }

  function MinReal(a: real, b: real): real { if a <= b then a else b }

  function MaxReal(a: real, b: real): real { if a >= b then a else b }
}
