/** Shared result types: a value that may be absent, and a call that may be refused. */
module Outcomes {

  datatype Option<+T> = None | Some(value: T)

  /** How a store or router call ends when it does not return normally. */
  datatype Error = InvalidInput | Conflict | LimitExceeded

  datatype Result<+T> = Ok(value: T) | Err(error: Error)

  /** The characters Python's `str.strip` removes. */
  predicate Blank(c: char) {
    var code := c as int;
    || 0x9 <= code <= 0xD || 0x1C <= code <= 0x20 || code == 0x85 || code == 0xA0 || code == 0x1680
    || 0x2000 <= code <= 0x200A || code == 0x2028 || code == 0x2029 || code == 0x202F
    || code == 0x205F || code == 0x3000
  }

  /** `_identifier`: nonempty without outer whitespace. */
  predicate Identifier(value: string) { value != "" && !Blank(value[0]) && !Blank(value[|value| - 1]) }

  function StripLeft(value: string): (r: string)
    ensures |r| <= |value|
  {
    if value != "" && Blank(value[0]) then StripLeft(value[1..]) else value
  }

  function StripRight(value: string): (r: string)
    ensures |r| <= |value|
  {
    if value != "" && Blank(value[|value| - 1]) then StripRight(value[..|value| - 1]) else value
  }

  /** `str.strip`. */
  function Strip(value: string): string { StripRight(StripLeft(value)) }

  /** A text is an identifier exactly when it is not empty and stripping leaves it alone. */
  lemma {:induction false} IdentifierMeans(value: string)
    ensures Identifier(value) <==> value != "" && Strip(value) == value
  {}

  lemma {:induction false} BlankExamples()
    ensures Blank(' ') && Blank('\t') && Blank('\n') && Blank('\r')
    ensures !Blank('a') && !Blank('0') && !Blank('_') && !Blank(':')
  {}
}
