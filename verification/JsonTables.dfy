/** The two lookup tables of json/JSON_checker.c and a readable description of what they say.

  The tables are the program's own: 128 character classes and 30 rows of 31 entries. `ClassOf` and
  `Delta` describe the same two maps by cases; `AsciiTable` and `TransitionTable` prove that the
  description and the tables agree on every entry, so that everything proved about the description
  holds for the tables.
 */
module JsonTables {

  // The character classes.
  const ERR := -1  // the universal error code
  const C_SPACE := 0
  const C_WHITE := 1
  const C_LCURB := 2
  const C_RCURB := 3
  const C_LSQRB := 4
  const C_RSQRB := 5
  const C_COLON := 6
  const C_COMMA := 7
  const C_QUOTE := 8
  const C_BACKS := 9
  const C_SLASH := 10
  const C_PLUS := 11
  const C_MINUS := 12
  const C_POINT := 13
  const C_ZERO := 14
  const C_DIGIT := 15
  const C_LOW_A := 16
  const C_LOW_B := 17
  const C_LOW_C := 18
  const C_LOW_D := 19
  const C_LOW_E := 20
  const C_LOW_F := 21
  const C_LOW_L := 22
  const C_LOW_N := 23
  const C_LOW_R := 24
  const C_LOW_S := 25
  const C_LOW_T := 26
  const C_LOW_U := 27
  const C_ABCDF := 28
  const C_E := 29
  const C_ETC := 30
  const NR_CLASSES := 31

  // The state codes.
  const GO := 0
  const OK := 1
  const OB := 2
  const KE := 3
  const CO := 4
  const VA := 5
  const AR := 6
  const ST := 7
  const ES := 8
  const U1 := 9
  const U2 := 10
  const U3 := 11
  const U4 := 12
  const MI := 13
  const ZE := 14
  const IN := 15
  const FR := 16
  const E1 := 17
  const E2 := 18
  const E3 := 19
  const T1 := 20
  const T2 := 21
  const T3 := 22
  const F1 := 23
  const F2 := 24
  const F3 := 25
  const F4 := 26
  const N1 := 27
  const N2 := 28
  const N3 := 29
  const NR_STATES := 30

  const ASCII_CONTROL: seq<int> := [
    ERR, ERR,     ERR,     ERR, ERR, ERR,     ERR, ERR,
    ERR, C_WHITE, C_WHITE, ERR, ERR, C_WHITE, ERR, ERR,
    ERR, ERR,     ERR,     ERR, ERR, ERR,     ERR, ERR,
    ERR, ERR,     ERR,     ERR, ERR, ERR,     ERR, ERR]

  const ASCII_PUNCTUATION: seq<int> := [
    C_SPACE, C_ETC,   C_QUOTE, C_ETC,   C_ETC,   C_ETC,   C_ETC,   C_ETC,
    C_ETC,   C_ETC,   C_ETC,   C_PLUS,  C_COMMA, C_MINUS, C_POINT, C_SLASH,
    C_ZERO,  C_DIGIT, C_DIGIT, C_DIGIT, C_DIGIT, C_DIGIT, C_DIGIT, C_DIGIT,
    C_DIGIT, C_DIGIT, C_COLON, C_ETC,   C_ETC,   C_ETC,   C_ETC,   C_ETC]

  const ASCII_UPPER: seq<int> := [
    C_ETC,   C_ABCDF, C_ABCDF, C_ABCDF, C_ABCDF, C_E,     C_ABCDF, C_ETC,
    C_ETC,   C_ETC,   C_ETC,   C_ETC,   C_ETC,   C_ETC,   C_ETC,   C_ETC,
    C_ETC,   C_ETC,   C_ETC,   C_ETC,   C_ETC,   C_ETC,   C_ETC,   C_ETC,
    C_ETC,   C_ETC,   C_ETC,   C_LSQRB, C_BACKS, C_RSQRB, C_ETC,   C_ETC]

  const ASCII_LOWER: seq<int> := [
    C_ETC,   C_LOW_A, C_LOW_B, C_LOW_C, C_LOW_D, C_LOW_E, C_LOW_F, C_ETC,
    C_ETC,   C_ETC,   C_ETC,   C_ETC,   C_LOW_L, C_ETC,   C_LOW_N, C_ETC,
    C_ETC,   C_ETC,   C_LOW_R, C_LOW_S, C_LOW_T, C_LOW_U, C_ETC,   C_ETC,
    C_ETC,   C_ETC,   C_ETC,   C_LCURB, C_ETC,   C_RCURB, C_ETC,   C_ETC]

  const ASCII_CLASS: seq<int> := ASCII_CONTROL + ASCII_PUNCTUATION + ASCII_UPPER + ASCII_LOWER

  // One row for each state, and in it one entry for each character class, in the order of the constants above: white
  // space and punctuation, the digits from `0` on, the letters that occur in words, other hexadecimal letters, `E`, and
  // everything else.
  const ROW_GO: seq<int> := [
    GO, GO, -6, ERR, -5, ERR, ERR, ERR, ERR, ERR, ERR, ERR, ERR, ERR, ERR, ERR,
    ERR, ERR, ERR, ERR, ERR, ERR, ERR, ERR, ERR, ERR, ERR, ERR, ERR, ERR, ERR]
  const ROW_OK: seq<int> := [
    OK, OK, ERR, -8, ERR, -7, ERR, -3, ERR, ERR, ERR, ERR, ERR, ERR, ERR, ERR,
    ERR, ERR, ERR, ERR, ERR, ERR, ERR, ERR, ERR, ERR, ERR, ERR, ERR, ERR, ERR]
  const ROW_OB: seq<int> := [
    OB, OB, ERR, -9, ERR, ERR, ERR, ERR, ST, ERR, ERR, ERR, ERR, ERR, ERR, ERR,
    ERR, ERR, ERR, ERR, ERR, ERR, ERR, ERR, ERR, ERR, ERR, ERR, ERR, ERR, ERR]
  const ROW_KE: seq<int> := [
    KE, KE, ERR, ERR, ERR, ERR, ERR, ERR, ST, ERR, ERR, ERR, ERR, ERR, ERR, ERR,
    ERR, ERR, ERR, ERR, ERR, ERR, ERR, ERR, ERR, ERR, ERR, ERR, ERR, ERR, ERR]
  const ROW_CO: seq<int> := [
    CO, CO, ERR, ERR, ERR, ERR, -2, ERR, ERR, ERR, ERR, ERR, ERR, ERR, ERR, ERR,
    ERR, ERR, ERR, ERR, ERR, ERR, ERR, ERR, ERR, ERR, ERR, ERR, ERR, ERR, ERR]
  const ROW_VA: seq<int> := [
    VA, VA, -6, ERR, -5, ERR, ERR, ERR, ST, ERR, ERR, ERR, MI, ERR, ZE, IN,
    ERR, ERR, ERR, ERR, ERR, F1, ERR, N1, ERR, ERR, T1, ERR, ERR, ERR, ERR]
  const ROW_AR: seq<int> := [
    AR, AR, -6, ERR, -5, -7, ERR, ERR, ST, ERR, ERR, ERR, MI, ERR, ZE, IN,
    ERR, ERR, ERR, ERR, ERR, F1, ERR, N1, ERR, ERR, T1, ERR, ERR, ERR, ERR]
  const ROW_ST: seq<int> := [
    ST, ERR, ST, ST, ST, ST, ST, ST, -4, ES, ST, ST, ST, ST, ST, ST,
    ST, ST, ST, ST, ST, ST, ST, ST, ST, ST, ST, ST, ST, ST, ST]
  const ROW_ES: seq<int> := [
    ERR, ERR, ERR, ERR, ERR, ERR, ERR, ERR, ST, ST, ST, ERR, ERR, ERR, ERR, ERR,
    ERR, ST, ERR, ERR, ERR, ST, ERR, ST, ST, ERR, ST, U1, ERR, ERR, ERR]
  const ROW_U1: seq<int> := [
    ERR, ERR, ERR, ERR, ERR, ERR, ERR, ERR, ERR, ERR, ERR, ERR, ERR, ERR, U2, U2,
    U2, U2, U2, U2, U2, U2, ERR, ERR, ERR, ERR, ERR, ERR, U2, U2, ERR]
  const ROW_U2: seq<int> := [
    ERR, ERR, ERR, ERR, ERR, ERR, ERR, ERR, ERR, ERR, ERR, ERR, ERR, ERR, U3, U3,
    U3, U3, U3, U3, U3, U3, ERR, ERR, ERR, ERR, ERR, ERR, U3, U3, ERR]
  const ROW_U3: seq<int> := [
    ERR, ERR, ERR, ERR, ERR, ERR, ERR, ERR, ERR, ERR, ERR, ERR, ERR, ERR, U4, U4,
    U4, U4, U4, U4, U4, U4, ERR, ERR, ERR, ERR, ERR, ERR, U4, U4, ERR]
  const ROW_U4: seq<int> := [
    ERR, ERR, ERR, ERR, ERR, ERR, ERR, ERR, ERR, ERR, ERR, ERR, ERR, ERR, ST, ST,
    ST, ST, ST, ST, ST, ST, ERR, ERR, ERR, ERR, ERR, ERR, ST, ST, ERR]
  const ROW_MI: seq<int> := [
    ERR, ERR, ERR, ERR, ERR, ERR, ERR, ERR, ERR, ERR, ERR, ERR, ERR, ERR, ZE, IN,
    ERR, ERR, ERR, ERR, ERR, ERR, ERR, ERR, ERR, ERR, ERR, ERR, ERR, ERR, ERR]
  const ROW_ZE: seq<int> := [
    OK, OK, ERR, -8, ERR, -7, ERR, -3, ERR, ERR, ERR, ERR, ERR, FR, ERR, ERR,
    ERR, ERR, ERR, ERR, ERR, ERR, ERR, ERR, ERR, ERR, ERR, ERR, ERR, ERR, ERR]
  const ROW_IN: seq<int> := [
    OK, OK, ERR, -8, ERR, -7, ERR, -3, ERR, ERR, ERR, ERR, ERR, FR, IN, IN,
    ERR, ERR, ERR, ERR, E1, ERR, ERR, ERR, ERR, ERR, ERR, ERR, ERR, E1, ERR]
  const ROW_FR: seq<int> := [
    OK, OK, ERR, -8, ERR, -7, ERR, -3, ERR, ERR, ERR, ERR, ERR, ERR, FR, FR,
    ERR, ERR, ERR, ERR, E1, ERR, ERR, ERR, ERR, ERR, ERR, ERR, ERR, E1, ERR]
  const ROW_E1: seq<int> := [
    ERR, ERR, ERR, ERR, ERR, ERR, ERR, ERR, ERR, ERR, ERR, E2, E2, ERR, E3, E3,
    ERR, ERR, ERR, ERR, ERR, ERR, ERR, ERR, ERR, ERR, ERR, ERR, ERR, ERR, ERR]
  const ROW_E2: seq<int> := [
    ERR, ERR, ERR, ERR, ERR, ERR, ERR, ERR, ERR, ERR, ERR, ERR, ERR, ERR, E3, E3,
    ERR, ERR, ERR, ERR, ERR, ERR, ERR, ERR, ERR, ERR, ERR, ERR, ERR, ERR, ERR]
  const ROW_E3: seq<int> := [
    OK, OK, ERR, -8, ERR, -7, ERR, -3, ERR, ERR, ERR, ERR, ERR, ERR, E3, E3,
    ERR, ERR, ERR, ERR, ERR, ERR, ERR, ERR, ERR, ERR, ERR, ERR, ERR, ERR, ERR]
  const ROW_T1: seq<int> := [
    ERR, ERR, ERR, ERR, ERR, ERR, ERR, ERR, ERR, ERR, ERR, ERR, ERR, ERR, ERR, ERR,
    ERR, ERR, ERR, ERR, ERR, ERR, ERR, ERR, T2, ERR, ERR, ERR, ERR, ERR, ERR]
  const ROW_T2: seq<int> := [
    ERR, ERR, ERR, ERR, ERR, ERR, ERR, ERR, ERR, ERR, ERR, ERR, ERR, ERR, ERR, ERR,
    ERR, ERR, ERR, ERR, ERR, ERR, ERR, ERR, ERR, ERR, ERR, T3, ERR, ERR, ERR]
  const ROW_T3: seq<int> := [
    ERR, ERR, ERR, ERR, ERR, ERR, ERR, ERR, ERR, ERR, ERR, ERR, ERR, ERR, ERR, ERR,
    ERR, ERR, ERR, ERR, OK, ERR, ERR, ERR, ERR, ERR, ERR, ERR, ERR, ERR, ERR]
  const ROW_F1: seq<int> := [
    ERR, ERR, ERR, ERR, ERR, ERR, ERR, ERR, ERR, ERR, ERR, ERR, ERR, ERR, ERR, ERR,
    F2, ERR, ERR, ERR, ERR, ERR, ERR, ERR, ERR, ERR, ERR, ERR, ERR, ERR, ERR]
  const ROW_F2: seq<int> := [
    ERR, ERR, ERR, ERR, ERR, ERR, ERR, ERR, ERR, ERR, ERR, ERR, ERR, ERR, ERR, ERR,
    ERR, ERR, ERR, ERR, ERR, ERR, F3, ERR, ERR, ERR, ERR, ERR, ERR, ERR, ERR]
  const ROW_F3: seq<int> := [
    ERR, ERR, ERR, ERR, ERR, ERR, ERR, ERR, ERR, ERR, ERR, ERR, ERR, ERR, ERR, ERR,
    ERR, ERR, ERR, ERR, ERR, ERR, ERR, ERR, ERR, F4, ERR, ERR, ERR, ERR, ERR]
  const ROW_F4: seq<int> := [
    ERR, ERR, ERR, ERR, ERR, ERR, ERR, ERR, ERR, ERR, ERR, ERR, ERR, ERR, ERR, ERR,
    ERR, ERR, ERR, ERR, OK, ERR, ERR, ERR, ERR, ERR, ERR, ERR, ERR, ERR, ERR]
  const ROW_N1: seq<int> := [
    ERR, ERR, ERR, ERR, ERR, ERR, ERR, ERR, ERR, ERR, ERR, ERR, ERR, ERR, ERR, ERR,
    ERR, ERR, ERR, ERR, ERR, ERR, ERR, ERR, ERR, ERR, ERR, N2, ERR, ERR, ERR]
  const ROW_N2: seq<int> := [
    ERR, ERR, ERR, ERR, ERR, ERR, ERR, ERR, ERR, ERR, ERR, ERR, ERR, ERR, ERR, ERR,
    ERR, ERR, ERR, ERR, ERR, ERR, N3, ERR, ERR, ERR, ERR, ERR, ERR, ERR, ERR]
  const ROW_N3: seq<int> := [
    ERR, ERR, ERR, ERR, ERR, ERR, ERR, ERR, ERR, ERR, ERR, ERR, ERR, ERR, ERR, ERR,
    ERR, ERR, ERR, ERR, ERR, ERR, OK, ERR, ERR, ERR, ERR, ERR, ERR, ERR, ERR]

  const STATE_TRANSITION_TABLE: seq<seq<int>> := [
    ROW_GO, ROW_OK, ROW_OB, ROW_KE, ROW_CO, ROW_VA, ROW_AR, ROW_ST, ROW_ES, ROW_U1,
    ROW_U2, ROW_U3, ROW_U4, ROW_MI, ROW_ZE, ROW_IN, ROW_FR, ROW_E1, ROW_E2, ROW_E3,
    ROW_T1, ROW_T2, ROW_T3, ROW_F1, ROW_F2, ROW_F3, ROW_F4, ROW_N1, ROW_N2, ROW_N3]

  // ----- the tables described by cases on the character itself

  /** Space, tab, newline and carriage return. */
  predicate IsWs(c: int) { c == 32 || c == 9 || c == 10 || c == 13 }

  predicate IsDigit(c: int) { 48 <= c <= 57 }

  predicate IsHex(c: int) { IsDigit(c) || 65 <= c <= 70 || 97 <= c <= 102 }

  /** A character the checker refuses in every state: negative, or a control character that is not white space. */
  predicate IsIllegal(c: int) { c < 32 && !IsWs(c) }

  /** What follows a value: `,` `]` `}` or white space, all handled as in state OK. */
  function AfterValue(c: int): int {
    if IsWs(c) then OK else if c == 125 then -8 else if c == 93 then -7 else if c == 44 then -3 else ERR
  }

  /** The first character of a value. */
  function StartValue(c: int): int {
    if c == 123 then -6 else if c == 91 then -5 else if c == 34 then ST else if c == 45 then MI
    else if c == 48 then ZE else if IsDigit(c) then IN else if c == 102 then F1 else if c == 110 then N1
    else if c == 116 then T1 else ERR
  }

  /** The entry of the transition table for state `s` and a legal character `c`. */
  function Delta(s: int, c: int): int {
    if s == GO then (if IsWs(c) then GO else if c == 123 then -6 else if c == 91 then -5 else ERR)
    else if s == OK then AfterValue(c)
    else if s == OB then (if IsWs(c) then OB else if c == 125 then -9 else if c == 34 then ST else ERR)
    else if s == KE then (if IsWs(c) then KE else if c == 34 then ST else ERR)
    else if s == CO then (if IsWs(c) then CO else if c == 58 then -2 else ERR)
    else if s == VA then (if IsWs(c) then VA else StartValue(c))
    else if s == AR then (if IsWs(c) then AR else if c == 93 then -7 else StartValue(c))
    else if s == ST then (if c == 34 then -4 else if c == 92 then ES else if c >= 32 then ST else ERR)
    else if s == ES then (if c == 117 then U1 else if c in {34, 92, 47, 98, 102, 110, 114, 116} then ST else ERR)
    else if s == U1 then (if IsHex(c) then U2 else ERR)
    else if s == U2 then (if IsHex(c) then U3 else ERR)
    else if s == U3 then (if IsHex(c) then U4 else ERR)
    else if s == U4 then (if IsHex(c) then ST else ERR)
    else if s == MI then (if c == 48 then ZE else if IsDigit(c) then IN else ERR)
    else if s == ZE then (if c == 46 then FR else AfterValue(c))
    else if s == IN then
      (if c == 46 then FR else if IsDigit(c) then IN else if c == 101 || c == 69 then E1 else AfterValue(c))
    else if s == FR then (if IsDigit(c) then FR else if c == 101 || c == 69 then E1 else AfterValue(c))
    else if s == E1 then (if IsDigit(c) then E3 else if c == 43 || c == 45 then E2 else ERR)
    else if s == E2 then (if IsDigit(c) then E3 else ERR)
    else if s == E3 then (if IsDigit(c) then E3 else AfterValue(c))
    else if s == T1 then (if c == 114 then T2 else ERR)
    else if s == T2 then (if c == 117 then T3 else ERR)
    else if s == T3 then (if c == 101 then OK else ERR)
    else if s == F1 then (if c == 97 then F2 else ERR)
    else if s == F2 then (if c == 108 then F3 else ERR)
    else if s == F3 then (if c == 115 then F4 else ERR)
    else if s == F4 then (if c == 101 then OK else ERR)
    else if s == N1 then (if c == 117 then N2 else ERR)
    else if s == N2 then (if c == 108 then N3 else ERR)
    else (if c == 108 then OK else ERR)
  }

  /** The class of a legal character, by cases. */
  function ClassOf(c: int): int {
    if c >= 128 then C_ETC
    else if c == 32 then C_SPACE else if IsWs(c) then C_WHITE
    else if c < 32 then ERR
    else if c == 123 then C_LCURB else if c == 125 then C_RCURB else if c == 91 then C_LSQRB
        else if c == 93 then C_RSQRB
    else if c == 58 then C_COLON else if c == 44 then C_COMMA else if c == 34 then C_QUOTE else if c == 92 then C_BACKS
    else if c == 47 then C_SLASH else if c == 43 then C_PLUS else if c == 45 then C_MINUS else if c == 46 then C_POINT
    else if c == 48 then C_ZERO else if IsDigit(c) then C_DIGIT
    else if 97 <= c <= 102 then C_LOW_A + (c - 97) else if c == 108 then C_LOW_L else if c == 110 then C_LOW_N
    else if c == 114 then C_LOW_R else if c == 115 then C_LOW_S else if c == 116 then C_LOW_T
        else if c == 117 then C_LOW_U
    else if c == 69 then C_E else if 65 <= c <= 70 then C_ABCDF else C_ETC
  }

  /** The table entry for a state and a class. */
  function Entry(s: int, k: int): int {
    if s == GO then (if k in {C_SPACE, C_WHITE} then GO else if k == C_LCURB then -6 else if k == C_LSQRB then -5
        else ERR)
    else if s == OK then AfterClass(k)
    else if s == OB then (if k in {C_SPACE, C_WHITE} then OB else if k == C_RCURB then -9 else if k == C_QUOTE then ST
        else ERR)
    else if s == KE then (if k in {C_SPACE, C_WHITE} then KE else if k == C_QUOTE then ST else ERR)
    else if s == CO then (if k in {C_SPACE, C_WHITE} then CO else if k == C_COLON then -2 else ERR)
    else if s == VA then (if k in {C_SPACE, C_WHITE} then VA else StartClass(k))
    else if s == AR then (if k in {C_SPACE, C_WHITE} then AR else if k == C_RSQRB then -7 else StartClass(k))
    else if s == ST then (if k == C_QUOTE then -4 else if k == C_BACKS then ES else if k == C_WHITE then ERR else ST)
    else if s == ES then
      (if k == C_LOW_U then U1
       else if k in {C_QUOTE, C_BACKS, C_SLASH, C_LOW_B, C_LOW_F, C_LOW_N, C_LOW_R, C_LOW_T} then ST else ERR)
    else if s == U1 then HexClass(k, U2)
    else if s == U2 then HexClass(k, U3)
    else if s == U3 then HexClass(k, U4)
    else if s == U4 then HexClass(k, ST)
    else if s == MI then (if k == C_ZERO then ZE else if k == C_DIGIT then IN else ERR)
    else if s == ZE then (if k == C_POINT then FR else AfterClass(k))
    else if s == IN then
      (if k == C_POINT then FR else if k in {C_ZERO, C_DIGIT} then IN else if k in {C_LOW_E, C_E} then E1
          else AfterClass(k))
    else if s == FR then (if k in {C_ZERO, C_DIGIT} then FR else if k in {C_LOW_E, C_E} then E1 else AfterClass(k))
    else if s == E1 then (if k in {C_ZERO, C_DIGIT} then E3 else if k in {C_PLUS, C_MINUS} then E2 else ERR)
    else if s == E2 then (if k in {C_ZERO, C_DIGIT} then E3 else ERR)
    else if s == E3 then (if k in {C_ZERO, C_DIGIT} then E3 else AfterClass(k))
    else if s == T1 then (if k == C_LOW_R then T2 else ERR)
    else if s == T2 then (if k == C_LOW_U then T3 else ERR)
    else if s == T3 then (if k == C_LOW_E then OK else ERR)
    else if s == F1 then (if k == C_LOW_A then F2 else ERR)
    else if s == F2 then (if k == C_LOW_L then F3 else ERR)
    else if s == F3 then (if k == C_LOW_S then F4 else ERR)
    else if s == F4 then (if k == C_LOW_E then OK else ERR)
    else if s == N1 then (if k == C_LOW_U then N2 else ERR)
    else if s == N2 then (if k == C_LOW_L then N3 else ERR)
    else (if k == C_LOW_L then OK else ERR)
  }

  function AfterClass(k: int): int {
    if k in {C_SPACE, C_WHITE} then OK else if k == C_RCURB then -8 else if k == C_RSQRB then -7
    else if k == C_COMMA then -3 else ERR
  }

  function StartClass(k: int): int {
    if k == C_LCURB then -6 else if k == C_LSQRB then -5 else if k == C_QUOTE then ST else if k == C_MINUS then MI
    else if k == C_ZERO then ZE else if k == C_DIGIT then IN else if k == C_LOW_F then F1 else if k == C_LOW_N then N1
    else if k == C_LOW_T then T1 else ERR
  }

  function HexClass(k: int, next: int): int {
    if k == C_ZERO || k == C_DIGIT || C_LOW_A <= k <= C_LOW_F || k == C_ABCDF || k == C_E then next else ERR
  }

  lemma TableEntryStructure(s: int, k: int)
    requires 0 <= s < 6 && 0 <= k < NR_CLASSES
    ensures |STATE_TRANSITION_TABLE| == NR_STATES && |STATE_TRANSITION_TABLE[s]| == NR_CLASSES
    ensures STATE_TRANSITION_TABLE[s][k] == Entry(s, k)
  {
  }

  lemma TableEntryString(s: int, k: int)
    requires 6 <= s < 12 && 0 <= k < NR_CLASSES
    ensures |STATE_TRANSITION_TABLE| == NR_STATES && |STATE_TRANSITION_TABLE[s]| == NR_CLASSES
    ensures STATE_TRANSITION_TABLE[s][k] == Entry(s, k)
  {
  }

  lemma TableEntryNumber(s: int, k: int)
    requires 12 <= s < 18 && 0 <= k < NR_CLASSES
    ensures |STATE_TRANSITION_TABLE| == NR_STATES && |STATE_TRANSITION_TABLE[s]| == NR_CLASSES
    ensures STATE_TRANSITION_TABLE[s][k] == Entry(s, k)
  {
  }

  lemma TableEntryExponent(s: int, k: int)
    requires 18 <= s < 24 && 0 <= k < NR_CLASSES
    ensures |STATE_TRANSITION_TABLE| == NR_STATES && |STATE_TRANSITION_TABLE[s]| == NR_CLASSES
    ensures STATE_TRANSITION_TABLE[s][k] == Entry(s, k)
  {
  }

  lemma TableEntryLiteral(s: int, k: int)
    requires 24 <= s < 30 && 0 <= k < NR_CLASSES
    ensures |STATE_TRANSITION_TABLE| == NR_STATES && |STATE_TRANSITION_TABLE[s]| == NR_CLASSES
    ensures STATE_TRANSITION_TABLE[s][k] == Entry(s, k)
  {
  }

  lemma EntryDelta(s: int, c: int)
    requires 0 <= s < NR_STATES && !IsIllegal(c)
    ensures Entry(s, ClassOf(c)) == Delta(s, c)
  {
    if s < MI {
      EntryDeltaLow(s, c);
    } else {
      EntryDeltaHigh(s, c);
    }
  }

  lemma EntryDeltaLow(s: int, c: int)
    requires 0 <= s < MI && !IsIllegal(c)
    ensures Entry(s, ClassOf(c)) == Delta(s, c)
  {
  }

  lemma EntryDeltaHigh(s: int, c: int)
    requires MI <= s < NR_STATES && !IsIllegal(c)
    ensures Entry(s, ClassOf(c)) == Delta(s, c)
  {
  }

  /** The state transition table, read at the class of a legal character, is `Delta`. */
  lemma TransitionTable(s: int, c: int)
    requires 0 <= s < NR_STATES && !IsIllegal(c)
    ensures 0 <= ClassOf(c) < NR_CLASSES
    ensures |STATE_TRANSITION_TABLE| == NR_STATES && |STATE_TRANSITION_TABLE[s]| == NR_CLASSES
    ensures STATE_TRANSITION_TABLE[s][ClassOf(c)] == Delta(s, c)
  {
    var k := ClassOf(c);
    EntryDelta(s, c);
    if s < 6 {
      TableEntryStructure(s, k);
    } else if s < 12 {
      TableEntryString(s, k);
    } else if s < 18 {
      TableEntryNumber(s, k);
    } else if s < 24 {
      TableEntryExponent(s, k);
    } else {
      TableEntryLiteral(s, k);
    }
  }

  lemma AsciiControl(c: int)
    requires 0 <= c < 32
    ensures |ASCII_CONTROL| == 32 && ASCII_CONTROL[c] == ClassOf(c)
  {
  }

  lemma AsciiPunctuation(c: int)
    requires 32 <= c < 64
    ensures |ASCII_PUNCTUATION| == 32 && ASCII_PUNCTUATION[c - 32] == ClassOf(c)
  {
  }

  lemma AsciiUpper(c: int)
    requires 64 <= c < 96
    ensures |ASCII_UPPER| == 32 && ASCII_UPPER[c - 64] == ClassOf(c)
  {
  }

  lemma AsciiLower(c: int)
    requires 96 <= c < 128
    ensures |ASCII_LOWER| == 32 && ASCII_LOWER[c - 96] == ClassOf(c)
  {
  }

  /** The ASCII table is `ClassOf`. */
  lemma AsciiTable(c: int)
    requires 0 <= c < 128
    ensures |ASCII_CLASS| == 128 && ASCII_CLASS[c] == ClassOf(c)
  {
    AsciiLengths();
    FourRows(ASCII_CONTROL, ASCII_PUNCTUATION, ASCII_UPPER, ASCII_LOWER, c);
    if c < 32 {
      AsciiControl(c);
    } else if c < 64 {
      AsciiPunctuation(c);
    } else if c < 96 {
      AsciiUpper(c);
    } else {
      AsciiLower(c);
    }
  }

  lemma AsciiLengths()
    ensures |ASCII_CONTROL| == |ASCII_PUNCTUATION| == |ASCII_UPPER| == |ASCII_LOWER| == 32
  {
  }

  lemma FourRows(p: seq<int>, q: seq<int>, r: seq<int>, s: seq<int>, c: int)
    requires |p| == |q| == |r| == |s| == 32 && 0 <= c < 128
    ensures |p + q + r + s| == 128
    ensures (p + q + r + s)[c] ==
            if c < 32 then p[c] else if c < 64 then q[c - 32] else if c < 96 then r[c - 64] else s[c - 96]
  {
  }

  /** A class of -1 marks exactly the illegal characters. */
  lemma ErrorClass(c: int)
    requires 0 <= c
    ensures ClassOf(c) <= ERR <==> IsIllegal(c)
  {
  }

  // ----- reading the tables

  method CharacterClass(c: int) returns (k: int)
    requires 0 <= c < 128
    ensures k == ClassOf(c)
  {
    AsciiTable(c);
    k := ASCII_CLASS[c];
  }

  method TableEntry(s: int, k: int, ghost c: int) returns (entry: int)
    requires 0 <= s < NR_STATES && !IsIllegal(c) && k == ClassOf(c)
    ensures entry == Delta(s, c)
  {
    TransitionTable(s, c);
    entry := STATE_TRANSITION_TABLE[s][k];
  }
}
