/** What the text formats have in common. */
module Strings {
  import opened Numerals

  lemma Assoc<T>(a: seq<T>, b: seq<T>, c: seq<T>)
    ensures a + (b + c) == (a + b) + c
  {}

  /** What the character behind a backslash stands for in a JSON string; `u` is apart. */
  function JsonEscape(c: char): Option<char> {
    match c
    case '"' => Some('"')
    case '\\' => Some('\\')
    case '/' => Some('/')
    case 'b' => Some(8 as char)
    case 'f' => Some(12 as char)
    case 'n' => Some('\n')
    case 'r' => Some('\r')
    case 't' => Some('\t')
    case _ => None
  }

  /** A string parsed and what follows it. */
  datatype Read = Read(value: string, rest: string)

  function Prepend(s: string, x: Option<Read>): Option<Read> {
    if x.None? then None else Some(Read(s + x.value.value, x.value.rest))
  }
}
