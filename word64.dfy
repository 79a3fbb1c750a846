/** 64-bit word utilities shared by every generator.
 *
 * C's `uint64_t` is modelled as `bv64`: `+`, `-`, `*`, `<<` and `>>` on `bv64`
 * wrap modulo 2^64 exactly as the unsigned C operators do.
 */
module Word64 {

  /** `rotateLeft(x, k)`: `(x << k) | (x >> (64 - k))`. The shift by `64 - k`
      is undefined in C for k == 0, hence the precondition. */
  function RotateLeft(x: bv64, k: int): bv64
    requires 1 <= k <= 63
  {
    (x << k) | (x >> (64 - k))
  }

  /** The shift-or expression is the bit rotation by k. */
  predicate IsRotation(x: bv64, k: int)
    requires 1 <= k <= 63
  {
    RotateLeft(x, k) == x.RotateLeft(k)
  }

  /** Rotating left by k and then by 64 - k restores the word. */
  predicate RoundTrips(x: bv64, k: int)
    requires 1 <= k <= 63
  {
    RotateLeft(RotateLeft(x, k), 64 - k) == x
  }

  /** For every legal amount, `rotateLeft` is the bit rotation. The solver
      cannot reason about a shift by an unknown amount, so the proof goes
      through the 63 literal amounts. */
  lemma RotateLeftIsRotation(x: bv64, k: int)
    requires 1 <= k <= 63
    ensures IsRotation(x, k)
  {
    if k == 1 { IsRotationBy1(x); }
    else if k == 2 { IsRotationBy2(x); }
    else if k == 3 { IsRotationBy3(x); }
    else if k == 4 { IsRotationBy4(x); }
    else if k == 5 { IsRotationBy5(x); }
    else if k == 6 { IsRotationBy6(x); }
    else if k == 7 { IsRotationBy7(x); }
    else if k == 8 { IsRotationBy8(x); }
    else if k == 9 { IsRotationBy9(x); }
    else if k == 10 { IsRotationBy10(x); }
    else if k == 11 { IsRotationBy11(x); }
    else if k == 12 { IsRotationBy12(x); }
    else if k == 13 { IsRotationBy13(x); }
    else if k == 14 { IsRotationBy14(x); }
    else if k == 15 { IsRotationBy15(x); }
    else if k == 16 { IsRotationBy16(x); }
    else if k == 17 { IsRotationBy17(x); }
    else if k == 18 { IsRotationBy18(x); }
    else if k == 19 { IsRotationBy19(x); }
    else if k == 20 { IsRotationBy20(x); }
    else if k == 21 { IsRotationBy21(x); }
    else if k == 22 { IsRotationBy22(x); }
    else if k == 23 { IsRotationBy23(x); }
    else if k == 24 { IsRotationBy24(x); }
    else if k == 25 { IsRotationBy25(x); }
    else if k == 26 { IsRotationBy26(x); }
    else if k == 27 { IsRotationBy27(x); }
    else if k == 28 { IsRotationBy28(x); }
    else if k == 29 { IsRotationBy29(x); }
    else if k == 30 { IsRotationBy30(x); }
    else if k == 31 { IsRotationBy31(x); }
    else if k == 32 { IsRotationBy32(x); }
    else if k == 33 { IsRotationBy33(x); }
    else if k == 34 { IsRotationBy34(x); }
    else if k == 35 { IsRotationBy35(x); }
    else if k == 36 { IsRotationBy36(x); }
    else if k == 37 { IsRotationBy37(x); }
    else if k == 38 { IsRotationBy38(x); }
    else if k == 39 { IsRotationBy39(x); }
    else if k == 40 { IsRotationBy40(x); }
    else if k == 41 { IsRotationBy41(x); }
    else if k == 42 { IsRotationBy42(x); }
    else if k == 43 { IsRotationBy43(x); }
    else if k == 44 { IsRotationBy44(x); }
    else if k == 45 { IsRotationBy45(x); }
    else if k == 46 { IsRotationBy46(x); }
    else if k == 47 { IsRotationBy47(x); }
    else if k == 48 { IsRotationBy48(x); }
    else if k == 49 { IsRotationBy49(x); }
    else if k == 50 { IsRotationBy50(x); }
    else if k == 51 { IsRotationBy51(x); }
    else if k == 52 { IsRotationBy52(x); }
    else if k == 53 { IsRotationBy53(x); }
    else if k == 54 { IsRotationBy54(x); }
    else if k == 55 { IsRotationBy55(x); }
    else if k == 56 { IsRotationBy56(x); }
    else if k == 57 { IsRotationBy57(x); }
    else if k == 58 { IsRotationBy58(x); }
    else if k == 59 { IsRotationBy59(x); }
    else if k == 60 { IsRotationBy60(x); }
    else if k == 61 { IsRotationBy61(x); }
    else if k == 62 { IsRotationBy62(x); }
    else { IsRotationBy63(x); }
  }

  /** For every legal amount, rotating left by k and then by 64 - k
      restores the word. */
  lemma RotateLeftRoundTrip(x: bv64, k: int)
    requires 1 <= k <= 63
    ensures RoundTrips(x, k)
  {
    if k == 1 { RoundTripBy1(x); }
    else if k == 2 { RoundTripBy2(x); }
    else if k == 3 { RoundTripBy3(x); }
    else if k == 4 { RoundTripBy4(x); }
    else if k == 5 { RoundTripBy5(x); }
    else if k == 6 { RoundTripBy6(x); }
    else if k == 7 { RoundTripBy7(x); }
    else if k == 8 { RoundTripBy8(x); }
    else if k == 9 { RoundTripBy9(x); }
    else if k == 10 { RoundTripBy10(x); }
    else if k == 11 { RoundTripBy11(x); }
    else if k == 12 { RoundTripBy12(x); }
    else if k == 13 { RoundTripBy13(x); }
    else if k == 14 { RoundTripBy14(x); }
    else if k == 15 { RoundTripBy15(x); }
    else if k == 16 { RoundTripBy16(x); }
    else if k == 17 { RoundTripBy17(x); }
    else if k == 18 { RoundTripBy18(x); }
    else if k == 19 { RoundTripBy19(x); }
    else if k == 20 { RoundTripBy20(x); }
    else if k == 21 { RoundTripBy21(x); }
    else if k == 22 { RoundTripBy22(x); }
    else if k == 23 { RoundTripBy23(x); }
    else if k == 24 { RoundTripBy24(x); }
    else if k == 25 { RoundTripBy25(x); }
    else if k == 26 { RoundTripBy26(x); }
    else if k == 27 { RoundTripBy27(x); }
    else if k == 28 { RoundTripBy28(x); }
    else if k == 29 { RoundTripBy29(x); }
    else if k == 30 { RoundTripBy30(x); }
    else if k == 31 { RoundTripBy31(x); }
    else if k == 32 { RoundTripBy32(x); }
    else if k == 33 { RoundTripBy33(x); }
    else if k == 34 { RoundTripBy34(x); }
    else if k == 35 { RoundTripBy35(x); }
    else if k == 36 { RoundTripBy36(x); }
    else if k == 37 { RoundTripBy37(x); }
    else if k == 38 { RoundTripBy38(x); }
    else if k == 39 { RoundTripBy39(x); }
    else if k == 40 { RoundTripBy40(x); }
    else if k == 41 { RoundTripBy41(x); }
    else if k == 42 { RoundTripBy42(x); }
    else if k == 43 { RoundTripBy43(x); }
    else if k == 44 { RoundTripBy44(x); }
    else if k == 45 { RoundTripBy45(x); }
    else if k == 46 { RoundTripBy46(x); }
    else if k == 47 { RoundTripBy47(x); }
    else if k == 48 { RoundTripBy48(x); }
    else if k == 49 { RoundTripBy49(x); }
    else if k == 50 { RoundTripBy50(x); }
    else if k == 51 { RoundTripBy51(x); }
    else if k == 52 { RoundTripBy52(x); }
    else if k == 53 { RoundTripBy53(x); }
    else if k == 54 { RoundTripBy54(x); }
    else if k == 55 { RoundTripBy55(x); }
    else if k == 56 { RoundTripBy56(x); }
    else if k == 57 { RoundTripBy57(x); }
    else if k == 58 { RoundTripBy58(x); }
    else if k == 59 { RoundTripBy59(x); }
    else if k == 60 { RoundTripBy60(x); }
    else if k == 61 { RoundTripBy61(x); }
    else if k == 62 { RoundTripBy62(x); }
    else { RoundTripBy63(x); }
  }

  // One lemma per rotation amount: with k a literal the shift-or expression
  // unfolds to fixed shifts, which the solver decides directly.
  lemma RotateLeftBy1(x: bv64) ensures RotateLeft(x, 1) == x.RotateLeft(1) { assert RotateLeft(x, 1) == (x << 1) | (x >> 63); }
  lemma RotateLeftBy2(x: bv64) ensures RotateLeft(x, 2) == x.RotateLeft(2) { assert RotateLeft(x, 2) == (x << 2) | (x >> 62); }
  lemma RotateLeftBy3(x: bv64) ensures RotateLeft(x, 3) == x.RotateLeft(3) { assert RotateLeft(x, 3) == (x << 3) | (x >> 61); }
  lemma RotateLeftBy4(x: bv64) ensures RotateLeft(x, 4) == x.RotateLeft(4) { assert RotateLeft(x, 4) == (x << 4) | (x >> 60); }
  lemma RotateLeftBy5(x: bv64) ensures RotateLeft(x, 5) == x.RotateLeft(5) { assert RotateLeft(x, 5) == (x << 5) | (x >> 59); }
  lemma RotateLeftBy6(x: bv64) ensures RotateLeft(x, 6) == x.RotateLeft(6) { assert RotateLeft(x, 6) == (x << 6) | (x >> 58); }
  lemma RotateLeftBy7(x: bv64) ensures RotateLeft(x, 7) == x.RotateLeft(7) { assert RotateLeft(x, 7) == (x << 7) | (x >> 57); }
  lemma RotateLeftBy8(x: bv64) ensures RotateLeft(x, 8) == x.RotateLeft(8) { assert RotateLeft(x, 8) == (x << 8) | (x >> 56); }
  lemma RotateLeftBy9(x: bv64) ensures RotateLeft(x, 9) == x.RotateLeft(9) { assert RotateLeft(x, 9) == (x << 9) | (x >> 55); }
  lemma RotateLeftBy10(x: bv64) ensures RotateLeft(x, 10) == x.RotateLeft(10) { assert RotateLeft(x, 10) == (x << 10) | (x >> 54); }
  lemma RotateLeftBy11(x: bv64) ensures RotateLeft(x, 11) == x.RotateLeft(11) { assert RotateLeft(x, 11) == (x << 11) | (x >> 53); }
  lemma RotateLeftBy12(x: bv64) ensures RotateLeft(x, 12) == x.RotateLeft(12) { assert RotateLeft(x, 12) == (x << 12) | (x >> 52); }
  lemma RotateLeftBy13(x: bv64) ensures RotateLeft(x, 13) == x.RotateLeft(13) { assert RotateLeft(x, 13) == (x << 13) | (x >> 51); }
  lemma RotateLeftBy14(x: bv64) ensures RotateLeft(x, 14) == x.RotateLeft(14) { assert RotateLeft(x, 14) == (x << 14) | (x >> 50); }
  lemma RotateLeftBy15(x: bv64) ensures RotateLeft(x, 15) == x.RotateLeft(15) { assert RotateLeft(x, 15) == (x << 15) | (x >> 49); }
  lemma RotateLeftBy16(x: bv64) ensures RotateLeft(x, 16) == x.RotateLeft(16) { assert RotateLeft(x, 16) == (x << 16) | (x >> 48); }
  lemma RotateLeftBy17(x: bv64) ensures RotateLeft(x, 17) == x.RotateLeft(17) { assert RotateLeft(x, 17) == (x << 17) | (x >> 47); }
  lemma RotateLeftBy18(x: bv64) ensures RotateLeft(x, 18) == x.RotateLeft(18) { assert RotateLeft(x, 18) == (x << 18) | (x >> 46); }
  lemma RotateLeftBy19(x: bv64) ensures RotateLeft(x, 19) == x.RotateLeft(19) { assert RotateLeft(x, 19) == (x << 19) | (x >> 45); }
  lemma RotateLeftBy20(x: bv64) ensures RotateLeft(x, 20) == x.RotateLeft(20) { assert RotateLeft(x, 20) == (x << 20) | (x >> 44); }
  lemma RotateLeftBy21(x: bv64) ensures RotateLeft(x, 21) == x.RotateLeft(21) { assert RotateLeft(x, 21) == (x << 21) | (x >> 43); }
  lemma RotateLeftBy22(x: bv64) ensures RotateLeft(x, 22) == x.RotateLeft(22) { assert RotateLeft(x, 22) == (x << 22) | (x >> 42); }
  lemma RotateLeftBy23(x: bv64) ensures RotateLeft(x, 23) == x.RotateLeft(23) { assert RotateLeft(x, 23) == (x << 23) | (x >> 41); }
  lemma RotateLeftBy24(x: bv64) ensures RotateLeft(x, 24) == x.RotateLeft(24) { assert RotateLeft(x, 24) == (x << 24) | (x >> 40); }
  lemma RotateLeftBy25(x: bv64) ensures RotateLeft(x, 25) == x.RotateLeft(25) { assert RotateLeft(x, 25) == (x << 25) | (x >> 39); }
  lemma RotateLeftBy26(x: bv64) ensures RotateLeft(x, 26) == x.RotateLeft(26) { assert RotateLeft(x, 26) == (x << 26) | (x >> 38); }
  lemma RotateLeftBy27(x: bv64) ensures RotateLeft(x, 27) == x.RotateLeft(27) { assert RotateLeft(x, 27) == (x << 27) | (x >> 37); }
  lemma RotateLeftBy28(x: bv64) ensures RotateLeft(x, 28) == x.RotateLeft(28) { assert RotateLeft(x, 28) == (x << 28) | (x >> 36); }
  lemma RotateLeftBy29(x: bv64) ensures RotateLeft(x, 29) == x.RotateLeft(29) { assert RotateLeft(x, 29) == (x << 29) | (x >> 35); }
  lemma RotateLeftBy30(x: bv64) ensures RotateLeft(x, 30) == x.RotateLeft(30) { assert RotateLeft(x, 30) == (x << 30) | (x >> 34); }
  lemma RotateLeftBy31(x: bv64) ensures RotateLeft(x, 31) == x.RotateLeft(31) { assert RotateLeft(x, 31) == (x << 31) | (x >> 33); }
  lemma RotateLeftBy32(x: bv64) ensures RotateLeft(x, 32) == x.RotateLeft(32) { assert RotateLeft(x, 32) == (x << 32) | (x >> 32); }
  lemma RotateLeftBy33(x: bv64) ensures RotateLeft(x, 33) == x.RotateLeft(33) { assert RotateLeft(x, 33) == (x << 33) | (x >> 31); }
  lemma RotateLeftBy34(x: bv64) ensures RotateLeft(x, 34) == x.RotateLeft(34) { assert RotateLeft(x, 34) == (x << 34) | (x >> 30); }
  lemma RotateLeftBy35(x: bv64) ensures RotateLeft(x, 35) == x.RotateLeft(35) { assert RotateLeft(x, 35) == (x << 35) | (x >> 29); }
  lemma RotateLeftBy36(x: bv64) ensures RotateLeft(x, 36) == x.RotateLeft(36) { assert RotateLeft(x, 36) == (x << 36) | (x >> 28); }
  lemma RotateLeftBy37(x: bv64) ensures RotateLeft(x, 37) == x.RotateLeft(37) { assert RotateLeft(x, 37) == (x << 37) | (x >> 27); }
  lemma RotateLeftBy38(x: bv64) ensures RotateLeft(x, 38) == x.RotateLeft(38) { assert RotateLeft(x, 38) == (x << 38) | (x >> 26); }
  lemma RotateLeftBy39(x: bv64) ensures RotateLeft(x, 39) == x.RotateLeft(39) { assert RotateLeft(x, 39) == (x << 39) | (x >> 25); }
  lemma RotateLeftBy40(x: bv64) ensures RotateLeft(x, 40) == x.RotateLeft(40) { assert RotateLeft(x, 40) == (x << 40) | (x >> 24); }
  lemma RotateLeftBy41(x: bv64) ensures RotateLeft(x, 41) == x.RotateLeft(41) { assert RotateLeft(x, 41) == (x << 41) | (x >> 23); }
  lemma RotateLeftBy42(x: bv64) ensures RotateLeft(x, 42) == x.RotateLeft(42) { assert RotateLeft(x, 42) == (x << 42) | (x >> 22); }
  lemma RotateLeftBy43(x: bv64) ensures RotateLeft(x, 43) == x.RotateLeft(43) { assert RotateLeft(x, 43) == (x << 43) | (x >> 21); }
  lemma RotateLeftBy44(x: bv64) ensures RotateLeft(x, 44) == x.RotateLeft(44) { assert RotateLeft(x, 44) == (x << 44) | (x >> 20); }
  lemma RotateLeftBy45(x: bv64) ensures RotateLeft(x, 45) == x.RotateLeft(45) { assert RotateLeft(x, 45) == (x << 45) | (x >> 19); }
  lemma RotateLeftBy46(x: bv64) ensures RotateLeft(x, 46) == x.RotateLeft(46) { assert RotateLeft(x, 46) == (x << 46) | (x >> 18); }
  lemma RotateLeftBy47(x: bv64) ensures RotateLeft(x, 47) == x.RotateLeft(47) { assert RotateLeft(x, 47) == (x << 47) | (x >> 17); }
  lemma RotateLeftBy48(x: bv64) ensures RotateLeft(x, 48) == x.RotateLeft(48) { assert RotateLeft(x, 48) == (x << 48) | (x >> 16); }
  lemma RotateLeftBy49(x: bv64) ensures RotateLeft(x, 49) == x.RotateLeft(49) { assert RotateLeft(x, 49) == (x << 49) | (x >> 15); }
  lemma RotateLeftBy50(x: bv64) ensures RotateLeft(x, 50) == x.RotateLeft(50) { assert RotateLeft(x, 50) == (x << 50) | (x >> 14); }
  lemma RotateLeftBy51(x: bv64) ensures RotateLeft(x, 51) == x.RotateLeft(51) { assert RotateLeft(x, 51) == (x << 51) | (x >> 13); }
  lemma RotateLeftBy52(x: bv64) ensures RotateLeft(x, 52) == x.RotateLeft(52) { assert RotateLeft(x, 52) == (x << 52) | (x >> 12); }
  lemma RotateLeftBy53(x: bv64) ensures RotateLeft(x, 53) == x.RotateLeft(53) { assert RotateLeft(x, 53) == (x << 53) | (x >> 11); }
  lemma RotateLeftBy54(x: bv64) ensures RotateLeft(x, 54) == x.RotateLeft(54) { assert RotateLeft(x, 54) == (x << 54) | (x >> 10); }
  lemma RotateLeftBy55(x: bv64) ensures RotateLeft(x, 55) == x.RotateLeft(55) { assert RotateLeft(x, 55) == (x << 55) | (x >> 9); }
  lemma RotateLeftBy56(x: bv64) ensures RotateLeft(x, 56) == x.RotateLeft(56) { assert RotateLeft(x, 56) == (x << 56) | (x >> 8); }
  lemma RotateLeftBy57(x: bv64) ensures RotateLeft(x, 57) == x.RotateLeft(57) { assert RotateLeft(x, 57) == (x << 57) | (x >> 7); }
  lemma RotateLeftBy58(x: bv64) ensures RotateLeft(x, 58) == x.RotateLeft(58) { assert RotateLeft(x, 58) == (x << 58) | (x >> 6); }
  lemma RotateLeftBy59(x: bv64) ensures RotateLeft(x, 59) == x.RotateLeft(59) { assert RotateLeft(x, 59) == (x << 59) | (x >> 5); }
  lemma RotateLeftBy60(x: bv64) ensures RotateLeft(x, 60) == x.RotateLeft(60) { assert RotateLeft(x, 60) == (x << 60) | (x >> 4); }
  lemma RotateLeftBy61(x: bv64) ensures RotateLeft(x, 61) == x.RotateLeft(61) { assert RotateLeft(x, 61) == (x << 61) | (x >> 3); }
  lemma RotateLeftBy62(x: bv64) ensures RotateLeft(x, 62) == x.RotateLeft(62) { assert RotateLeft(x, 62) == (x << 62) | (x >> 2); }
  lemma RotateLeftBy63(x: bv64) ensures RotateLeft(x, 63) == x.RotateLeft(63) { assert RotateLeft(x, 63) == (x << 63) | (x >> 1); }

  // The rotation fact with the amount as a parameter of the predicate.
  lemma IsRotationBy1(x: bv64) ensures IsRotation(x, 1) { RotateLeftBy1(x); }
  lemma IsRotationBy2(x: bv64) ensures IsRotation(x, 2) { RotateLeftBy2(x); }
  lemma IsRotationBy3(x: bv64) ensures IsRotation(x, 3) { RotateLeftBy3(x); }
  lemma IsRotationBy4(x: bv64) ensures IsRotation(x, 4) { RotateLeftBy4(x); }
  lemma IsRotationBy5(x: bv64) ensures IsRotation(x, 5) { RotateLeftBy5(x); }
  lemma IsRotationBy6(x: bv64) ensures IsRotation(x, 6) { RotateLeftBy6(x); }
  lemma IsRotationBy7(x: bv64) ensures IsRotation(x, 7) { RotateLeftBy7(x); }
  lemma IsRotationBy8(x: bv64) ensures IsRotation(x, 8) { RotateLeftBy8(x); }
  lemma IsRotationBy9(x: bv64) ensures IsRotation(x, 9) { RotateLeftBy9(x); }
  lemma IsRotationBy10(x: bv64) ensures IsRotation(x, 10) { RotateLeftBy10(x); }
  lemma IsRotationBy11(x: bv64) ensures IsRotation(x, 11) { RotateLeftBy11(x); }
  lemma IsRotationBy12(x: bv64) ensures IsRotation(x, 12) { RotateLeftBy12(x); }
  lemma IsRotationBy13(x: bv64) ensures IsRotation(x, 13) { RotateLeftBy13(x); }
  lemma IsRotationBy14(x: bv64) ensures IsRotation(x, 14) { RotateLeftBy14(x); }
  lemma IsRotationBy15(x: bv64) ensures IsRotation(x, 15) { RotateLeftBy15(x); }
  lemma IsRotationBy16(x: bv64) ensures IsRotation(x, 16) { RotateLeftBy16(x); }
  lemma IsRotationBy17(x: bv64) ensures IsRotation(x, 17) { RotateLeftBy17(x); }
  lemma IsRotationBy18(x: bv64) ensures IsRotation(x, 18) { RotateLeftBy18(x); }
  lemma IsRotationBy19(x: bv64) ensures IsRotation(x, 19) { RotateLeftBy19(x); }
  lemma IsRotationBy20(x: bv64) ensures IsRotation(x, 20) { RotateLeftBy20(x); }
  lemma IsRotationBy21(x: bv64) ensures IsRotation(x, 21) { RotateLeftBy21(x); }
  lemma IsRotationBy22(x: bv64) ensures IsRotation(x, 22) { RotateLeftBy22(x); }
  lemma IsRotationBy23(x: bv64) ensures IsRotation(x, 23) { RotateLeftBy23(x); }
  lemma IsRotationBy24(x: bv64) ensures IsRotation(x, 24) { RotateLeftBy24(x); }
  lemma IsRotationBy25(x: bv64) ensures IsRotation(x, 25) { RotateLeftBy25(x); }
  lemma IsRotationBy26(x: bv64) ensures IsRotation(x, 26) { RotateLeftBy26(x); }
  lemma IsRotationBy27(x: bv64) ensures IsRotation(x, 27) { RotateLeftBy27(x); }
  lemma IsRotationBy28(x: bv64) ensures IsRotation(x, 28) { RotateLeftBy28(x); }
  lemma IsRotationBy29(x: bv64) ensures IsRotation(x, 29) { RotateLeftBy29(x); }
  lemma IsRotationBy30(x: bv64) ensures IsRotation(x, 30) { RotateLeftBy30(x); }
  lemma IsRotationBy31(x: bv64) ensures IsRotation(x, 31) { RotateLeftBy31(x); }
  lemma IsRotationBy32(x: bv64) ensures IsRotation(x, 32) { RotateLeftBy32(x); }
  lemma IsRotationBy33(x: bv64) ensures IsRotation(x, 33) { RotateLeftBy33(x); }
  lemma IsRotationBy34(x: bv64) ensures IsRotation(x, 34) { RotateLeftBy34(x); }
  lemma IsRotationBy35(x: bv64) ensures IsRotation(x, 35) { RotateLeftBy35(x); }
  lemma IsRotationBy36(x: bv64) ensures IsRotation(x, 36) { RotateLeftBy36(x); }
  lemma IsRotationBy37(x: bv64) ensures IsRotation(x, 37) { RotateLeftBy37(x); }
  lemma IsRotationBy38(x: bv64) ensures IsRotation(x, 38) { RotateLeftBy38(x); }
  lemma IsRotationBy39(x: bv64) ensures IsRotation(x, 39) { RotateLeftBy39(x); }
  lemma IsRotationBy40(x: bv64) ensures IsRotation(x, 40) { RotateLeftBy40(x); }
  lemma IsRotationBy41(x: bv64) ensures IsRotation(x, 41) { RotateLeftBy41(x); }
  lemma IsRotationBy42(x: bv64) ensures IsRotation(x, 42) { RotateLeftBy42(x); }
  lemma IsRotationBy43(x: bv64) ensures IsRotation(x, 43) { RotateLeftBy43(x); }
  lemma IsRotationBy44(x: bv64) ensures IsRotation(x, 44) { RotateLeftBy44(x); }
  lemma IsRotationBy45(x: bv64) ensures IsRotation(x, 45) { RotateLeftBy45(x); }
  lemma IsRotationBy46(x: bv64) ensures IsRotation(x, 46) { RotateLeftBy46(x); }
  lemma IsRotationBy47(x: bv64) ensures IsRotation(x, 47) { RotateLeftBy47(x); }
  lemma IsRotationBy48(x: bv64) ensures IsRotation(x, 48) { RotateLeftBy48(x); }
  lemma IsRotationBy49(x: bv64) ensures IsRotation(x, 49) { RotateLeftBy49(x); }
  lemma IsRotationBy50(x: bv64) ensures IsRotation(x, 50) { RotateLeftBy50(x); }
  lemma IsRotationBy51(x: bv64) ensures IsRotation(x, 51) { RotateLeftBy51(x); }
  lemma IsRotationBy52(x: bv64) ensures IsRotation(x, 52) { RotateLeftBy52(x); }
  lemma IsRotationBy53(x: bv64) ensures IsRotation(x, 53) { RotateLeftBy53(x); }
  lemma IsRotationBy54(x: bv64) ensures IsRotation(x, 54) { RotateLeftBy54(x); }
  lemma IsRotationBy55(x: bv64) ensures IsRotation(x, 55) { RotateLeftBy55(x); }
  lemma IsRotationBy56(x: bv64) ensures IsRotation(x, 56) { RotateLeftBy56(x); }
  lemma IsRotationBy57(x: bv64) ensures IsRotation(x, 57) { RotateLeftBy57(x); }
  lemma IsRotationBy58(x: bv64) ensures IsRotation(x, 58) { RotateLeftBy58(x); }
  lemma IsRotationBy59(x: bv64) ensures IsRotation(x, 59) { RotateLeftBy59(x); }
  lemma IsRotationBy60(x: bv64) ensures IsRotation(x, 60) { RotateLeftBy60(x); }
  lemma IsRotationBy61(x: bv64) ensures IsRotation(x, 61) { RotateLeftBy61(x); }
  lemma IsRotationBy62(x: bv64) ensures IsRotation(x, 62) { RotateLeftBy62(x); }
  lemma IsRotationBy63(x: bv64) ensures IsRotation(x, 63) { RotateLeftBy63(x); }


  // Rotating back, one lemma per amount.
  lemma RoundTripBy1(x: bv64) ensures RotateLeft(RotateLeft(x, 1), 63) == x { RotateLeftBy1(x); RotateLeftBy63(RotateLeft(x, 1)); }
  lemma RoundTripBy2(x: bv64) ensures RotateLeft(RotateLeft(x, 2), 62) == x { RotateLeftBy2(x); RotateLeftBy62(RotateLeft(x, 2)); }
  lemma RoundTripBy3(x: bv64) ensures RotateLeft(RotateLeft(x, 3), 61) == x { RotateLeftBy3(x); RotateLeftBy61(RotateLeft(x, 3)); }
  lemma RoundTripBy4(x: bv64) ensures RotateLeft(RotateLeft(x, 4), 60) == x { RotateLeftBy4(x); RotateLeftBy60(RotateLeft(x, 4)); }
  lemma RoundTripBy5(x: bv64) ensures RotateLeft(RotateLeft(x, 5), 59) == x { RotateLeftBy5(x); RotateLeftBy59(RotateLeft(x, 5)); }
  lemma RoundTripBy6(x: bv64) ensures RotateLeft(RotateLeft(x, 6), 58) == x { RotateLeftBy6(x); RotateLeftBy58(RotateLeft(x, 6)); }
  lemma RoundTripBy7(x: bv64) ensures RotateLeft(RotateLeft(x, 7), 57) == x { RotateLeftBy7(x); RotateLeftBy57(RotateLeft(x, 7)); }
  lemma RoundTripBy8(x: bv64) ensures RotateLeft(RotateLeft(x, 8), 56) == x { RotateLeftBy8(x); RotateLeftBy56(RotateLeft(x, 8)); }
  lemma RoundTripBy9(x: bv64) ensures RotateLeft(RotateLeft(x, 9), 55) == x { RotateLeftBy9(x); RotateLeftBy55(RotateLeft(x, 9)); }
  lemma RoundTripBy10(x: bv64) ensures RotateLeft(RotateLeft(x, 10), 54) == x { RotateLeftBy10(x); RotateLeftBy54(RotateLeft(x, 10)); }
  lemma RoundTripBy11(x: bv64) ensures RotateLeft(RotateLeft(x, 11), 53) == x { RotateLeftBy11(x); RotateLeftBy53(RotateLeft(x, 11)); }
  lemma RoundTripBy12(x: bv64) ensures RotateLeft(RotateLeft(x, 12), 52) == x { RotateLeftBy12(x); RotateLeftBy52(RotateLeft(x, 12)); }
  lemma RoundTripBy13(x: bv64) ensures RotateLeft(RotateLeft(x, 13), 51) == x { RotateLeftBy13(x); RotateLeftBy51(RotateLeft(x, 13)); }
  lemma RoundTripBy14(x: bv64) ensures RotateLeft(RotateLeft(x, 14), 50) == x { RotateLeftBy14(x); RotateLeftBy50(RotateLeft(x, 14)); }
  lemma RoundTripBy15(x: bv64) ensures RotateLeft(RotateLeft(x, 15), 49) == x { RotateLeftBy15(x); RotateLeftBy49(RotateLeft(x, 15)); }
  lemma RoundTripBy16(x: bv64) ensures RotateLeft(RotateLeft(x, 16), 48) == x { RotateLeftBy16(x); RotateLeftBy48(RotateLeft(x, 16)); }
  lemma RoundTripBy17(x: bv64) ensures RotateLeft(RotateLeft(x, 17), 47) == x { RotateLeftBy17(x); RotateLeftBy47(RotateLeft(x, 17)); }
  lemma RoundTripBy18(x: bv64) ensures RotateLeft(RotateLeft(x, 18), 46) == x { RotateLeftBy18(x); RotateLeftBy46(RotateLeft(x, 18)); }
  lemma RoundTripBy19(x: bv64) ensures RotateLeft(RotateLeft(x, 19), 45) == x { RotateLeftBy19(x); RotateLeftBy45(RotateLeft(x, 19)); }
  lemma RoundTripBy20(x: bv64) ensures RotateLeft(RotateLeft(x, 20), 44) == x { RotateLeftBy20(x); RotateLeftBy44(RotateLeft(x, 20)); }
  lemma RoundTripBy21(x: bv64) ensures RotateLeft(RotateLeft(x, 21), 43) == x { RotateLeftBy21(x); RotateLeftBy43(RotateLeft(x, 21)); }
  lemma RoundTripBy22(x: bv64) ensures RotateLeft(RotateLeft(x, 22), 42) == x { RotateLeftBy22(x); RotateLeftBy42(RotateLeft(x, 22)); }
  lemma RoundTripBy23(x: bv64) ensures RotateLeft(RotateLeft(x, 23), 41) == x { RotateLeftBy23(x); RotateLeftBy41(RotateLeft(x, 23)); }
  lemma RoundTripBy24(x: bv64) ensures RotateLeft(RotateLeft(x, 24), 40) == x { RotateLeftBy24(x); RotateLeftBy40(RotateLeft(x, 24)); }
  lemma RoundTripBy25(x: bv64) ensures RotateLeft(RotateLeft(x, 25), 39) == x { RotateLeftBy25(x); RotateLeftBy39(RotateLeft(x, 25)); }
  lemma RoundTripBy26(x: bv64) ensures RotateLeft(RotateLeft(x, 26), 38) == x { RotateLeftBy26(x); RotateLeftBy38(RotateLeft(x, 26)); }
  lemma RoundTripBy27(x: bv64) ensures RotateLeft(RotateLeft(x, 27), 37) == x { RotateLeftBy27(x); RotateLeftBy37(RotateLeft(x, 27)); }
  lemma RoundTripBy28(x: bv64) ensures RotateLeft(RotateLeft(x, 28), 36) == x { RotateLeftBy28(x); RotateLeftBy36(RotateLeft(x, 28)); }
  lemma RoundTripBy29(x: bv64) ensures RotateLeft(RotateLeft(x, 29), 35) == x { RotateLeftBy29(x); RotateLeftBy35(RotateLeft(x, 29)); }
  lemma RoundTripBy30(x: bv64) ensures RotateLeft(RotateLeft(x, 30), 34) == x { RotateLeftBy30(x); RotateLeftBy34(RotateLeft(x, 30)); }
  lemma RoundTripBy31(x: bv64) ensures RotateLeft(RotateLeft(x, 31), 33) == x { RotateLeftBy31(x); RotateLeftBy33(RotateLeft(x, 31)); }
  lemma RoundTripBy32(x: bv64) ensures RotateLeft(RotateLeft(x, 32), 32) == x { RotateLeftBy32(x); RotateLeftBy32(RotateLeft(x, 32)); }
  lemma RoundTripBy33(x: bv64) ensures RotateLeft(RotateLeft(x, 33), 31) == x { RotateLeftBy33(x); RotateLeftBy31(RotateLeft(x, 33)); }
  lemma RoundTripBy34(x: bv64) ensures RotateLeft(RotateLeft(x, 34), 30) == x { RotateLeftBy34(x); RotateLeftBy30(RotateLeft(x, 34)); }
  lemma RoundTripBy35(x: bv64) ensures RotateLeft(RotateLeft(x, 35), 29) == x { RotateLeftBy35(x); RotateLeftBy29(RotateLeft(x, 35)); }
  lemma RoundTripBy36(x: bv64) ensures RotateLeft(RotateLeft(x, 36), 28) == x { RotateLeftBy36(x); RotateLeftBy28(RotateLeft(x, 36)); }
  lemma RoundTripBy37(x: bv64) ensures RotateLeft(RotateLeft(x, 37), 27) == x { RotateLeftBy37(x); RotateLeftBy27(RotateLeft(x, 37)); }
  lemma RoundTripBy38(x: bv64) ensures RotateLeft(RotateLeft(x, 38), 26) == x { RotateLeftBy38(x); RotateLeftBy26(RotateLeft(x, 38)); }
  lemma RoundTripBy39(x: bv64) ensures RotateLeft(RotateLeft(x, 39), 25) == x { RotateLeftBy39(x); RotateLeftBy25(RotateLeft(x, 39)); }
  lemma RoundTripBy40(x: bv64) ensures RotateLeft(RotateLeft(x, 40), 24) == x { RotateLeftBy40(x); RotateLeftBy24(RotateLeft(x, 40)); }
  lemma RoundTripBy41(x: bv64) ensures RotateLeft(RotateLeft(x, 41), 23) == x { RotateLeftBy41(x); RotateLeftBy23(RotateLeft(x, 41)); }
  lemma RoundTripBy42(x: bv64) ensures RotateLeft(RotateLeft(x, 42), 22) == x { RotateLeftBy42(x); RotateLeftBy22(RotateLeft(x, 42)); }
  lemma RoundTripBy43(x: bv64) ensures RotateLeft(RotateLeft(x, 43), 21) == x { RotateLeftBy43(x); RotateLeftBy21(RotateLeft(x, 43)); }
  lemma RoundTripBy44(x: bv64) ensures RotateLeft(RotateLeft(x, 44), 20) == x { RotateLeftBy44(x); RotateLeftBy20(RotateLeft(x, 44)); }
  lemma RoundTripBy45(x: bv64) ensures RotateLeft(RotateLeft(x, 45), 19) == x { RotateLeftBy45(x); RotateLeftBy19(RotateLeft(x, 45)); }
  lemma RoundTripBy46(x: bv64) ensures RotateLeft(RotateLeft(x, 46), 18) == x { RotateLeftBy46(x); RotateLeftBy18(RotateLeft(x, 46)); }
  lemma RoundTripBy47(x: bv64) ensures RotateLeft(RotateLeft(x, 47), 17) == x { RotateLeftBy47(x); RotateLeftBy17(RotateLeft(x, 47)); }
  lemma RoundTripBy48(x: bv64) ensures RotateLeft(RotateLeft(x, 48), 16) == x { RotateLeftBy48(x); RotateLeftBy16(RotateLeft(x, 48)); }
  lemma RoundTripBy49(x: bv64) ensures RotateLeft(RotateLeft(x, 49), 15) == x { RotateLeftBy49(x); RotateLeftBy15(RotateLeft(x, 49)); }
  lemma RoundTripBy50(x: bv64) ensures RotateLeft(RotateLeft(x, 50), 14) == x { RotateLeftBy50(x); RotateLeftBy14(RotateLeft(x, 50)); }
  lemma RoundTripBy51(x: bv64) ensures RotateLeft(RotateLeft(x, 51), 13) == x { RotateLeftBy51(x); RotateLeftBy13(RotateLeft(x, 51)); }
  lemma RoundTripBy52(x: bv64) ensures RotateLeft(RotateLeft(x, 52), 12) == x { RotateLeftBy52(x); RotateLeftBy12(RotateLeft(x, 52)); }
  lemma RoundTripBy53(x: bv64) ensures RotateLeft(RotateLeft(x, 53), 11) == x { RotateLeftBy53(x); RotateLeftBy11(RotateLeft(x, 53)); }
  lemma RoundTripBy54(x: bv64) ensures RotateLeft(RotateLeft(x, 54), 10) == x { RotateLeftBy54(x); RotateLeftBy10(RotateLeft(x, 54)); }
  lemma RoundTripBy55(x: bv64) ensures RotateLeft(RotateLeft(x, 55), 9) == x { RotateLeftBy55(x); RotateLeftBy9(RotateLeft(x, 55)); }
  lemma RoundTripBy56(x: bv64) ensures RotateLeft(RotateLeft(x, 56), 8) == x { RotateLeftBy56(x); RotateLeftBy8(RotateLeft(x, 56)); }
  lemma RoundTripBy57(x: bv64) ensures RotateLeft(RotateLeft(x, 57), 7) == x { RotateLeftBy57(x); RotateLeftBy7(RotateLeft(x, 57)); }
  lemma RoundTripBy58(x: bv64) ensures RotateLeft(RotateLeft(x, 58), 6) == x { RotateLeftBy58(x); RotateLeftBy6(RotateLeft(x, 58)); }
  lemma RoundTripBy59(x: bv64) ensures RotateLeft(RotateLeft(x, 59), 5) == x { RotateLeftBy59(x); RotateLeftBy5(RotateLeft(x, 59)); }
  lemma RoundTripBy60(x: bv64) ensures RotateLeft(RotateLeft(x, 60), 4) == x { RotateLeftBy60(x); RotateLeftBy4(RotateLeft(x, 60)); }
  lemma RoundTripBy61(x: bv64) ensures RotateLeft(RotateLeft(x, 61), 3) == x { RotateLeftBy61(x); RotateLeftBy3(RotateLeft(x, 61)); }
  lemma RoundTripBy62(x: bv64) ensures RotateLeft(RotateLeft(x, 62), 2) == x { RotateLeftBy62(x); RotateLeftBy2(RotateLeft(x, 62)); }
  lemma RoundTripBy63(x: bv64) ensures RotateLeft(RotateLeft(x, 63), 1) == x { RotateLeftBy63(x); RotateLeftBy1(RotateLeft(x, 63)); }
}
