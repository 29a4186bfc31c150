/** A recogniser for JSON texts (RFC 8259) that reads one byte at a time, written
    independently of the code that relies on it. Beside the grammar it records the
    members of the root object: the text between the quotes of each key and the span
    of each value.

    A text is UTF-8, one `char` per byte. */
module Json {
  import opened Options

  datatype Container = Object | Array

  datatype Number = Minus | Zero | Digits | Dot | Fraction | Exponent | ExponentSign | ExponentDigits {
    predicate Complete() { Zero? || Digits? || Fraction? || ExponentDigits? }
  }

  /** What the grammar expects next (sections 2 to 7 of RFC 8259). */
  datatype Mode =
    | Value                        // a value must start
    | ValueOrClose                 // after '[': a value or ']'
    | KeyOrClose                   // after '{': a key or '}'
    | Key                          // after ',' in an object
    | Colon                        // after a key
    | Ended                        // a value has just ended
    | InString(key: bool)
    | InEscape(key: bool)          // after a backslash
    | InHex(key: bool, left: nat)  // inside \uXXXX
    | InNumber(n: Number)
    | InLiteral(rest: string)      // the bytes still owed by true, false or null
    | Bad
  {
    predicate InKey() { (InString? || InEscape? || InHex?) && key }
  }

  datatype Member = Member(key: string, start: nat, end: nat)

  /** `stack` holds the open containers, innermost last. `key` is the text of the last
      root key; `start` is where the value of the current root member starts. */
  datatype State = State(mode: Mode, stack: seq<Container>, key: string, start: nat, members: seq<Member>)

  const INIT := State(Value, [], "", 0, [])

  predicate Space(c: char) { c == ' ' || c == '\t' || c == '\n' || c == '\r' }

  predicate Digit(c: char) { '0' <= c <= '9' }

  predicate HexDigit(c: char) { Digit(c) || 'a' <= c <= 'f' || 'A' <= c <= 'F' }

  function Top(stack: seq<Container>): Option<Container> {
    if stack == [] then None else Some(stack[|stack| - 1])
  }

  function StartValue(stack: seq<Container>, c: char): (Mode, seq<Container>) {
    if c == '"' then (InString(false), stack)
    else if c == '{' then (KeyOrClose, stack + [Object])
    else if c == '[' then (ValueOrClose, stack + [Array])
    else if c == '-' then (InNumber(Minus), stack)
    else if c == '0' then (InNumber(Zero), stack)
    else if Digit(c) then (InNumber(Digits), stack)
    else if c == 't' then (InLiteral("rue"), stack)
    else if c == 'f' then (InLiteral("alse"), stack)
    else if c == 'n' then (InLiteral("ull"), stack)
    else (Bad, stack)
  }

  /** A byte after a complete value. */
  function AfterValue(stack: seq<Container>, c: char): (Mode, seq<Container>) {
    if Space(c) then (Ended, stack)
    else if c == ',' && Top(stack) == Some(Object) then (Key, stack)
    else if c == ',' && Top(stack) == Some(Array) then (Value, stack)
    else if c == '}' && Top(stack) == Some(Object) then (Ended, stack[..|stack| - 1])
    else if c == ']' && Top(stack) == Some(Array) then (Ended, stack[..|stack| - 1])
    else (Bad, stack)
  }

  function StepNumber(n: Number, c: char): Option<Number> {
    match n
    case Minus => if c == '0' then Some(Zero) else if Digit(c) then Some(Digits) else None
    case Zero => if c == '.' then Some(Dot) else if c == 'e' || c == 'E' then Some(Exponent) else None
    case Digits =>
      if Digit(c) then Some(Digits) else if c == '.' then Some(Dot)
      else if c == 'e' || c == 'E' then Some(Exponent) else None
    case Dot => if Digit(c) then Some(Fraction) else None
    case Fraction => if Digit(c) then Some(Fraction) else if c == 'e' || c == 'E' then Some(Exponent) else None
    case Exponent =>
      if c == '+' || c == '-' then Some(ExponentSign) else if Digit(c) then Some(ExponentDigits) else None
    case ExponentSign => if Digit(c) then Some(ExponentDigits) else None
    case ExponentDigits => if Digit(c) then Some(ExponentDigits) else None
  }

  /** The grammar: how one byte changes the mode and the open containers. */
  function Grammar(mode: Mode, stack: seq<Container>, c: char): (Mode, seq<Container>) {
    match mode
    case Value => if Space(c) then (Value, stack) else StartValue(stack, c)
    case ValueOrClose =>
      if Space(c) then (mode, stack)
      else if c == ']' && stack != [] then (Ended, stack[..|stack| - 1])
      else StartValue(stack, c)
    case KeyOrClose =>
      if Space(c) then (mode, stack)
      else if c == '}' && stack != [] then (Ended, stack[..|stack| - 1])
      else if c == '"' then (InString(true), stack)
      else (Bad, stack)
    case Key => if Space(c) then (mode, stack) else if c == '"' then (InString(true), stack) else (Bad, stack)
    case Colon => if Space(c) then (mode, stack) else if c == ':' then (Value, stack) else (Bad, stack)
    case Ended => AfterValue(stack, c)
    case InString(key) =>
      if c == '"' then (if key then Colon else Ended, stack)
      else if c == '\\' then (InEscape(key), stack)
      else if c < ' ' then (Bad, stack)
      else (mode, stack)
    case InEscape(key) =>
      if c == 'u' then (InHex(key, 4), stack)
      else if Escaped(c).Some? then (InString(key), stack)
      else (Bad, stack)
    case InHex(key, left) =>
      if !HexDigit(c) then (Bad, stack)
      else if left <= 1 then (InString(key), stack)
      else (InHex(key, left - 1), stack)
    case InNumber(n) =>
      (match StepNumber(n, c)
       case Some(n') => (InNumber(n'), stack)
       case None => if n.Complete() then AfterValue(stack, c) else (Bad, stack))
    case InLiteral(rest) =>
      if rest != "" && c == rest[0] then (if |rest| == 1 then Ended else InLiteral(rest[1..]), stack)
      else (Bad, stack)
    case Bad => (Bad, stack)
  }

  /** Whether the byte `c` is the last byte of a root member's value. */
  predicate ClosesMember(pre: State, post: Mode, postStack: seq<Container>) {
    && post == Ended && postStack == [Object]
    && !(pre.stack == [Object] && (pre.mode == Ended || pre.mode.InNumber?))
  }

  /** Whether the byte `c` follows a number that is a root member's value. */
  predicate EndsNumber(pre: State, post: Mode) {
    pre.stack == [Object] && pre.mode.InNumber? && !post.InNumber? && post != Bad
  }

  function Step(s: State, pos: nat, c: char): State {
    var (mode, stack) := Grammar(s.mode, s.stack, c);
    var key :=
      if s.stack != [Object] then s.key
      else if (s.mode == Key || s.mode == KeyOrClose) && c == '"' then ""
      else if s.mode.InKey() then
        if mode == Colon then s.key else s.key + [c]
      else s.key;
    var start := if mode == Value && stack == [Object] then pos + 1 else s.start;
    var members :=
      if ClosesMember(s, mode, stack) then s.members + [Member(s.key, s.start, pos + 1)]
      else if EndsNumber(s, mode) then s.members + [Member(s.key, s.start, pos)]
      else s.members;
    State(mode, stack, key, start, members)
  }

  /** The state after the first `i` bytes of `b`. */
  function StateAt(b: string, i: nat): State
    requires i <= |b|
  {
    if i == 0 then INIT else Step(StateAt(b, i - 1), i - 1, b[i - 1])
  }

  function Final(b: string): State { StateAt(b, |b|) }

  /** `b` is a JSON text. */
  predicate Valid(b: string) {
    var s := Final(b);
    s.stack == [] && (s.mode == Ended || (s.mode.InNumber? && s.mode.n.Complete()))
  }

  function HexValue(c: char): nat
    requires HexDigit(c)
  {
    if Digit(c) then c as nat - '0' as nat
    else if 'a' <= c <= 'f' then c as nat - 'a' as nat + 10
    else c as nat - 'A' as nat + 10
  }

  function CodeUnit(s: string): (r: Option<nat>)
    ensures r.Some? ==> |s| >= 4 && r.value < 0x10000
  {
    if |s| >= 4 && HexDigit(s[0]) && HexDigit(s[1]) && HexDigit(s[2]) && HexDigit(s[3]) then
      Some(HexValue(s[0]) * 0x1000 + HexValue(s[1]) * 0x100 + HexValue(s[2]) * 0x10 + HexValue(s[3]))
    else None
  }

  function Utf8(code: nat): string
    requires code < 0x110000
  {
    if code < 0x80 then [code as char]
    else if code < 0x800 then [(0xC0 + code / 0x40) as char, (0x80 + code % 0x40) as char]
    else if code < 0x10000 then
      [(0xE0 + code / 0x1000) as char, (0x80 + code / 0x40 % 0x40) as char, (0x80 + code % 0x40) as char]
    else
      [(0xF0 + code / 0x40000) as char, (0x80 + code / 0x1000 % 0x40) as char,
       (0x80 + code / 0x40 % 0x40) as char, (0x80 + code % 0x40) as char]
  }

  function Prepend(front: string, rest: Option<string>): Option<string> {
    match rest case None => None case Some(r) => Some(front + r)
  }

  function Escaped(c: char): Option<char> {
    if c == '"' || c == '\\' || c == '/' then Some(c)
    else if c == 'b' then Some(8 as char)
    else if c == 'f' then Some(12 as char)
    else if c == 'n' then Some('\n')
    else if c == 'r' then Some('\r')
    else if c == 't' then Some('\t')
    else None
  }

  /** The string that the text between two quotes stands for (section 7 of RFC 8259);
      None for a bad escape or an unpaired surrogate. */
  function Decode(s: string): Option<string> {
    if s == "" then Some("")
    else if s[0] != '\\' then Prepend([s[0]], Decode(s[1..]))
    else if |s| == 1 then None
    else if s[1] != 'u' then
      match Escaped(s[1])
      case None => None
      case Some(c) => Prepend([c], Decode(s[2..]))
    else
      match CodeUnit(s[2..])
      case None => None
      case Some(hi) =>
        if 0xD800 <= hi < 0xDC00 then
          if |s| >= 12 && s[6] == '\\' && s[7] == 'u' then
            match CodeUnit(s[8..])
            case None => None
            case Some(lo) =>
              if 0xDC00 <= lo < 0xE000 then
                Prepend(Utf8(0x10000 + (hi - 0xD800) * 0x400 + (lo - 0xDC00)), Decode(s[12..]))
              else None
          else None
        else if 0xDC00 <= hi < 0xE000 then None
        else Prepend(Utf8(hi), Decode(s[6..]))
  }
}
