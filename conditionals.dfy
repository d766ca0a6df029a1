/**
 * The conditionals demo: the same age-to-school classification written twice, once as an
 * `if`/`else if` chain and once as a `when` over a list, a value and a range.
 */
module Conditionals {
  import opened Int32

  datatype Schooling = Preschool | Kindergarten | Grade(grade: int) | College

  /** The `if` chain: below 5, exactly 5, from 6 to 17, anything else. */
  function SchoolingByIf(age: int32): (s: Schooling)
    ensures s.Grade? ==> 1 <= s.grade <= 12 && s.grade == age as int - 5
    ensures age < 0 ==> s == Preschool
  {
    if age < 5 then Preschool
    else if age == 5 then Kindergarten
    else if age > 5 && age <= 17 then Grade(age as int - 5)
    else College
  }

  /** The `when`: `0, 1, 2, 3, 4`, then `5`, then `in 6..17`, then `else`. */
  function SchoolingByWhen(age: int32): (s: Schooling)
    ensures s.Grade? ==> 1 <= s.grade <= 12 && s.grade == age as int - 5
    ensures age < 0 ==> s == College
  {
    if age in {0, 1, 2, 3, 4} then Preschool
    else if age == 5 then Kindergarten
    else if 6 <= age <= 17 then Grade(age as int - 5)
    else College
  }

  /**
   * The two versions agree on every age from 0 up and on no negative age: the `if` chain sends a
   * negative age to preschool, the `when` to college.
   */
  lemma ChainsAgreeIffNonNegative(age: int32)
    ensures SchoolingByIf(age) == SchoolingByWhen(age) <==> age >= 0
  {
  }

  /** The demo's `age = 8` goes to grade 3 either way. */
  lemma DemoAge()
    ensures SchoolingByIf(8) == Grade(3) && SchoolingByWhen(8) == Grade(3)
  {
  }
}
