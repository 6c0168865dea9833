/**
 * The days of the week as `java.time.DayOfWeek` has them. The tile reads the
 * current day from the device clock; here the day is always a parameter.
 */
module Days {

  datatype Day = Monday | Tuesday | Wednesday | Thursday | Friday | Saturday | Sunday

  /** `DayOfWeek.name` and `DayOfWeek.toString()`: the enum constant's name, in upper case. */
  function Name(d: Day): string
  {
    match d
    case Monday => "MONDAY"
    case Tuesday => "TUESDAY"
    case Wednesday => "WEDNESDAY"
    case Thursday => "THURSDAY"
    case Friday => "FRIDAY"
    case Saturday => "SATURDAY"
    case Sunday => "SUNDAY"
  }

  predicate IsUpper(c: char) { 'A' <= c <= 'Z' }

  predicate IsLower(c: char) { 'a' <= c <= 'z' }

  /** Lower-casing of one character, for the ASCII letters the day names consist of. */
  function LowerChar(c: char): (r: char)
    ensures IsUpper(c) ==> IsLower(r) && r as int == c as int + 32
    ensures !IsUpper(c) ==> r == c
  {
    if IsUpper(c) then (c as int + 32) as char else c
  }

  /** Kotlin's `String.lowercase()`, restricted to characters outside A-Z being left alone. */
  function Lowercase(s: string): (r: string)
    ensures |r| == |s|
    ensures forall i :: 0 <= i < |s| ==> r[i] == LowerChar(s[i])
  {
    seq(|s|, i requires 0 <= i < |s| => LowerChar(s[i]))
  }

  /** The key under which a day's menu is stored: the lower-case English day name. */
  function LookupKey(d: Day): string
  {
    match d
    case Monday => "monday"
    case Tuesday => "tuesday"
    case Wednesday => "wednesday"
    case Thursday => "thursday"
    case Friday => "friday"
    case Saturday => "saturday"
    case Sunday => "sunday"
  }

  predicate IsWeekday(d: Day)
  {
    !(d == Saturday || d == Sunday)
  }

  /** The storage key is what `dayOfWeek.name.lowercase()` computes. */
  lemma LookupKeyIsLowercaseName(d: Day)
    ensures LookupKey(d) == Lowercase(Name(d))
  {
  }

  /** A day's name is a non-empty run of capital letters. */
  lemma NameIsUpper(d: Day)
    ensures Name(d) != []
    ensures forall i :: 0 <= i < |Name(d)| ==> IsUpper(Name(d)[i])
  {
  }

  /** Different days never share a storage key. */
  lemma LookupKeyInjective(d: Day, e: Day)
    ensures LookupKey(d) == LookupKey(e) <==> d == e
  {
    if d != e {
      // the first two letters tell any two distinct day names apart
      assert LookupKey(d)[0] != LookupKey(e)[0] || LookupKey(d)[1] != LookupKey(e)[1];
    }
  }
}
