module Numbers {
  function MaxR(a: real, b: real): real { if a >= b then a else b }

  function MinR(a: real, b: real): real { if a <= b then a else b }

  function AbsR(x: real): real { if x < 0.0 then -x else x }

  function MinI(a: int, b: int): int { if a <= b then a else b }
}
