/** The texts that envelopes are stored as, and that they are read back: an object of plain keys and
    values of any kind. It shows that the recogniser of `Json` finds every root field of such a text. */
module ObjectTexts {
  import opened Options
  import opened Json
  import Snapshot

  datatype Field = Field(key: string, value: string)

  /** A key that needs no escape. */
  predicate Plain(key: string) { forall c <- key :: c >= ' ' && c != '"' && c != '\\' }

  /** A JSON text without space around it. */
  predicate ValueText(v: string) { Valid(v) && v != "" && !Space(v[0]) && !Space(v[|v| - 1]) }

  /** The text of an object up to its closing brace. */
  function Body(fields: seq<Field>): string {
    if fields == [] then "{"
    else
      var n := |fields| - 1;
      Body(fields[..n]) + (if n == 0 then "" else ",") + "\"" + fields[n].key + "\":" + fields[n].value
  }

  function ObjectText(fields: seq<Field>): string { Body(fields) + "}" }

  /** Where the value of a field starts and ends. */
  function SpanOf(fields: seq<Field>): Member
    requires fields != []
  {
    var n := |fields| - 1;
    var start := |Body(fields[..n])| + (if n == 0 then 0 else 1) + |fields[n].key| + 3;
    Member(fields[n].key, start, start + |fields[n].value|)
  }

  function Spans(fields: seq<Field>): (r: seq<Member>)
    ensures |r| == |fields|
  {
    if fields == [] then [] else Spans(fields[..|fields| - 1]) + [SpanOf(fields)]
  }

  // ----- reading on -------------------------------------------------------------

  /** The state after reading `w` from position `pos` on. */
  function Read(s: State, pos: nat, w: string): State {
    if w == "" then s else Step(Read(s, pos, w[..|w| - 1]), pos + |w| - 1, w[|w| - 1])
  }

  lemma {:induction false} ReadOn(s: State, pos: nat, u: string, w: string)
    ensures Read(s, pos, u + w) == Read(Read(s, pos, u), pos + |u|, w)
  {
    hide Step;
    if w == "" {
      assert u + w == u;
    } else {
      assert (u + w)[..|u + w| - 1] == u + w[..|w| - 1];
      ReadOn(s, pos, u, w[..|w| - 1]);
    }
  }

  lemma ReadOne(s: State, pos: nat, c: char)
    ensures Read(s, pos, [c]) == Step(s, pos, c)
  {
    hide Step;
    assert [c][..0] == "" && Read(s, pos, "") == s;
  }

  lemma {:induction false} ReadIsStateAt(b: string, i: nat)
    requires i <= |b|
    ensures StateAt(b, i) == Read(INIT, 0, b[..i])
  {
    hide Step;
    if i > 0 {
      ReadIsStateAt(b, i - 1);
      assert b[..i][..i - 1] == b[..i - 1];
    }
  }

  // ----- a value on its own and inside an object --------------------------------

  predicate KeyMode(m: Mode) { m.KeyOrClose? || m.Key? || m.Colon? || m.InKey() || m.ValueOrClose? }

  /** While a value of its own is being read: it ends with its last byte only. */
  predicate Midway(u: State, i: nat) {
    && u.mode != Bad && (u.stack == [] ==> !KeyMode(u.mode) && (u.mode == Value ==> i == 0))
  }

  lemma StepMidway(u: State, i: nat, c: char)
    requires Midway(u, i) && Step(u, i, c).mode != Bad && (i == 0 ==> !Space(c))
    ensures Midway(Step(u, i, c), i + 1)
  {}

  lemma {:induction false} AllMidway(v: string, i: nat)
    requires Valid(v) && v != "" && !Space(v[0]) && i <= |v|
    ensures Midway(StateAt(v, i), i)
  {
    hide Step, Valid;
    NotBad(v, i);
    if i > 0 {
      AllMidway(v, i - 1);
      StepMidway(StateAt(v, i - 1), i - 1, v[i - 1]);
    } else {
      InitMidway();
    }
  }

  lemma InitMidway()
    ensures Midway(INIT, 0)
  {}

  lemma NotBad(v: string, i: nat)
    requires Valid(v) && i <= |v|
    ensures StateAt(v, i).mode != Bad
  {
    hide Step;
    Snapshot.BadStays(v, i, |v|);
  }

  /** After a complete value only space can follow. */
  lemma {:induction false} OnlySpace(v: string, i: nat, j: nat)
    requires Valid(v) && i <= j <= |v| && StateAt(v, i).mode == Ended && StateAt(v, i).stack == []
    ensures StateAt(v, j).mode == Ended && StateAt(v, j).stack == [] && (i < j ==> Space(v[j - 1]))
  {
    hide Step, Valid;
    if i < j {
      OnlySpace(v, i, j - 1);
      NotBad(v, j);
      SpaceFollows(StateAt(v, j - 1), j - 1, v[j - 1]);
    }
  }

  lemma SpaceFollows(u: State, i: nat, c: char)
    requires u.mode == Ended && u.stack == [] && Step(u, i, c).mode != Bad
    ensures Space(c) && Step(u, i, c).mode == Ended && Step(u, i, c).stack == []
  {}

  lemma NotBefore(v: string, i: nat)
    requires ValueText(v) && i < |v|
    ensures !(StateAt(v, i).mode == Ended && StateAt(v, i).stack == [])
  {
    hide Step, Valid;
    if StateAt(v, i).mode == Ended && StateAt(v, i).stack == [] { OnlySpace(v, i, |v|); }
  }

  /** The same bytes inside a root object: one container more, the same mode. */
  predicate Inside(u: State, t: State, s: State, ended: bool, pos: nat) {
    && t.mode == u.mode && t.stack == [Object] + u.stack && t.key == s.key && t.start == s.start
    && t.members == if ended then s.members + [Member(s.key, s.start, pos)] else s.members
  }

  lemma InsideGrammar(mode: Mode, stack: seq<Container>, c: char)
    requires Grammar(mode, stack, c).0 != Bad
    ensures Grammar(mode, [Object] + stack, c) == (Grammar(mode, stack, c).0, [Object] + Grammar(mode, stack, c).1)
  {
    hide StepNumber, Escaped, HexDigit;
    if stack != [] {
      assert Top([Object] + stack) == Top(stack) && ([Object] + stack)[..|[Object] + stack| - 1] == [Object] + stack[..|stack| - 1];
    }
    assert forall x: Container :: [Object] + stack + [x] == [Object] + (stack + [x]);
    assert [Object] + [] == [Object];
  }

  /** One byte of a value: the member is recorded by the last byte, unless it is a number. */
  lemma StepInside(u: State, t: State, s: State, i: nat, pos: nat, c: char)
    requires Midway(u, i) && Inside(u, t, s, false, pos) && Step(u, i, c).mode != Bad && (i == 0 ==> !Space(c))
    requires !(u.mode == Ended && u.stack == [])
    requires var u' := Step(u, i, c); u.mode.InNumber? && u.stack == [] ==> !Space(c)
    ensures var u' := Step(u, i, c);
            Inside(u', Step(t, pos, c), s, u'.mode == Ended && u'.stack == [], pos + 1)
  {
    InsideGrammar(u.mode, u.stack, c);
    hide Grammar;
    var u', t' := Step(u, i, c), Step(t, pos, c);
    StepMidway(u, i, c);
    assert t.stack == [Object] <==> u.stack == [];
    assert t'.stack == [Object] <==> u'.stack == [];
    if u.mode.InNumber? && u.stack == [] { NumberGoesOn(u, i, c); }
  }

  /** A number on its own goes on, or ends with a space. */
  lemma NumberGoesOn(u: State, i: nat, c: char)
    requires u.mode.InNumber? && u.stack == [] && Step(u, i, c).mode != Bad && !Space(c)
    ensures Step(u, i, c).mode.InNumber?
  {}

  predicate ExpectsValue(s: State) { s.mode == Value && s.stack == [Object] }

  lemma {:induction false} AllInside(v: string, s: State, pos: nat, i: nat)
    requires ValueText(v) && ExpectsValue(s) && i <= |v|
    ensures var u := StateAt(v, i); Inside(u, Read(s, pos, v[..i]), s, u.mode == Ended && u.stack == [], pos + i)
  {
    hide Step, Valid;
    if i == 0 {
      InitInside(s, pos);
    } else {
      var u := StateAt(v, i - 1);
      AllInside(v, s, pos, i - 1);
      AllMidway(v, i - 1);
      NotBefore(v, i - 1);
      NotBad(v, i);
      assert v[..i][..i - 1] == v[..i - 1];
      if u.mode.InNumber? && u.stack == [] && Space(v[i - 1]) {
        NumberEnds(u, i - 1, v[i - 1]);
        OnlySpace(v, i, |v|);
      }
      StepInside(u, Read(s, pos, v[..i - 1]), s, i - 1, pos + i - 1, v[i - 1]);
    }
  }

  lemma NumberEnds(u: State, i: nat, c: char)
    requires u.mode.InNumber? && u.stack == [] && Step(u, i, c).mode != Bad && Space(c)
    ensures Step(u, i, c).mode == Ended && Step(u, i, c).stack == []
  {}

  lemma InitInside(s: State, pos: nat)
    requires ExpectsValue(s)
    ensures Inside(INIT, Read(s, pos, ""), s, false, pos) && INIT.mode != Ended
  {}

  /** A value ends as a string, object, array or literal does, or as a number. */
  predicate Done(s: State) { s.stack == [Object] && (s.mode == Ended || (s.mode.InNumber? && s.mode.n.Complete())) }

  /** After a value inside the root object its member is recorded, or is about to be. */
  lemma ReadsValue(v: string, s: State, pos: nat)
    requires ValueText(v) && ExpectsValue(s)
    ensures var t, m := Read(s, pos, v), Member(s.key, s.start, pos + |v|);
            && Done(t) && t.key == s.key && t.start == s.start
            && t.members == if t.mode == Ended then s.members + [m] else s.members
  {
    hide Step, StateAt;
    AllInside(v, s, pos, |v|);
    assert v[..|v|] == v;
    assert Final(v) == StateAt(v, |v|);
  }

  lemma {:induction false} ReadsKey(key: string, s: State, pos: nat)
    requires Plain(key) && s.mode == InString(true) && s.stack == [Object]
    ensures Read(s, pos, key) == s.(key := s.key + key)
  {
    hide Step;
    if key == "" {
      assert s.key + key == s.key;
    } else {
      var n := |key| - 1;
      assert key[n] in key && forall c <- key[..n] :: c in key;
      ReadsKey(key[..n], s, pos);
      assert s.key + key == s.key + key[..n] + [key[n]];
      KeyChar(s.(key := s.key + key[..n]), pos + n, key[n]);
    }
  }

  lemma KeyChar(s: State, pos: nat, c: char)
    requires s.mode == InString(true) && s.stack == [Object] && c >= ' ' && c != '"' && c != '\\'
    ensures Step(s, pos, c) == s.(key := s.key + [c])
  {}

  lemma KeyStarts(s: State, pos: nat)
    requires (s.mode == KeyOrClose || s.mode == Key) && s.stack == [Object]
    ensures Step(s, pos, '"') == s.(mode := InString(true), key := "")
  {}

  lemma KeyCloses(s: State, pos: nat)
    requires s.mode == InString(true) && s.stack == [Object]
    ensures Step(s, pos, '"') == s.(mode := Colon)
  {}

  lemma ColonOpens(s: State, pos: nat)
    requires s.mode == Colon && s.stack == [Object]
    ensures Step(s, pos, ':') == s.(mode := Value, start := pos + 1)
  {}

  /** A key, its colon and its value. */
  lemma ReadsMember(key: string, value: string, s: State, pos: nat)
    requires Plain(key) && ValueText(value) && (s.mode == KeyOrClose || s.mode == Key) && s.stack == [Object]
    ensures var t, start := Read(s, pos, "\"" + key + "\":" + value), pos + |key| + 3;
            && Done(t) && t.key == key && t.start == start
            && t.members == if t.mode == Ended then s.members + [Member(key, start, start + |value|)] else s.members
  {
    hide Read, Step, Plain, ValueText, Done;
    var s1 := s.(mode := InString(true), key := "");
    KeyStarts(s, pos);
    ReadOne(s, pos, '"');
    ReadsKey(key, s1, pos + 1);
    assert "" + key == key;
    var s2 := s1.(key := key);
    ReadOn(s, pos, "\"", key);
    KeyCloses(s2, pos + 1 + |key|);
    ReadOne(s2, pos + 1 + |key|, '"');
    ReadOn(s, pos, "\"" + key, "\"");
    var s3 := s2.(mode := Colon);
    ColonOpens(s3, pos + 2 + |key|);
    ReadOne(s3, pos + 2 + |key|, ':');
    ReadOn(s, pos, "\"" + key + "\"", ":");
    var s4 := s3.(mode := Value, start := pos + 3 + |key|);
    ReadsValue(value, s4, pos + 3 + |key|);
    ReadOn(s, pos, "\"" + key + "\"" + ":", value);
    assert "\"" + key + "\"" + ":" + value == "\"" + key + "\":" + value;
  }

  /** A comma after a complete member: whatever it was is recorded now. */
  lemma CommaFollows(s: State, pos: nat)
    requires Done(s)
    ensures var t := Step(s, pos, ',');
            && t.mode == Key && t.stack == [Object]
            && t.members == if s.mode == Ended then s.members else s.members + [Member(s.key, s.start, pos)]
  {}

  lemma BraceFollows(s: State, pos: nat)
    requires Done(s)
    ensures var t := Step(s, pos, '}');
            && t.mode == Ended && t.stack == []
            && t.members == if s.mode == Ended then s.members else s.members + [Member(s.key, s.start, pos)]
  {}

  // ----- a whole object ---------------------------------------------------------

  predicate WellMade(fields: seq<Field>) { forall f <- fields :: Plain(f.key) && ValueText(f.value) }

  /** The state after the fields, with all members but perhaps a number recorded. */
  predicate AfterFields(s: State, fields: seq<Field>) {
    if fields == [] then s.mode == KeyOrClose && s.stack == [Object] && s.members == []
    else
      && Done(s) && s.key == SpanOf(fields).key && s.start == SpanOf(fields).start
      && s.members == if s.mode == Ended then Spans(fields) else Spans(fields[..|fields| - 1])
  }

  lemma SpanEnds(fields: seq<Field>)
    requires fields != []
    ensures SpanOf(fields).end == |Body(fields)|
  {}

  lemma Opening()
    ensures AfterFields(Read(INIT, 0, "{"), [])
  {
    ReadOne(INIT, 0, '{');
  }

  function MemberText(f: Field): string { "\"" + f.key + "\":" + f.value }

  lemma Snoc(init: seq<Field>, last: Field)
    ensures var fields, comma := init + [last], if init == [] then "" else ",";
            && fields[..|fields| - 1] == init && Body(fields) == Body(init) + comma + MemberText(last)
            && Spans(fields) == Spans(init) + [SpanOf(fields)]
            && var start := |Body(init)| + |comma| + |last.key| + 3;
               SpanOf(fields) == Member(last.key, start, start + |last.value|)
  {
    assert (init + [last])[..|init|] == init;
    BodySnoc(init, last);
    hide Body;
  }

  lemma BodySnoc(init: seq<Field>, last: Field)
    ensures Body(init + [last]) == Body(init) + (if init == [] then "" else ",") + MemberText(last)
  {
    assert (init + [last])[..|init|] == init;
    var front := Body(init) + if init == [] then "" else ",";
    assert front + "\"" + last.key + "\":" + last.value == front + ("\"" + last.key + "\":" + last.value);
  }

  lemma SpansLast(fields: seq<Field>)
    requires fields != []
    ensures Spans(fields) == Spans(fields[..|fields| - 1]) + [SpanOf(fields)]
  {}

  lemma {:induction false} BodyRead(fields: seq<Field>)
    requires WellMade(fields)
    ensures AfterFields(Read(INIT, 0, Body(fields)), fields)
  {
    hide Read, AfterFields, Plain, ValueText, Body;
    if fields == [] {
      Opening();
      assert Body(fields) == "{" by { NoBody(); }
    } else {
      var n := |fields| - 1;
      var init, last := fields[..n], fields[n];
      assert last in fields && fields == init + [last] && forall f <- init :: f in fields;
      BodyRead(init);
      MemberFollows(init, last, Read(INIT, 0, Body(init)));
    }
  }

  lemma NoBody()
    ensures Body([]) == "{"
  {}

  lemma MemberFollows(init: seq<Field>, last: Field, s: State)
    requires Plain(last.key) && ValueText(last.value) && s == Read(INIT, 0, Body(init)) && AfterFields(s, init)
    ensures AfterFields(Read(INIT, 0, Body(init + [last])), init + [last])
  {
    hide Read, Step, Plain, ValueText, Done, Body, Spans, SpanOf;
    var pos := |Body(init)|;
    Snoc(init, last);
    if init == [] {
      ReadsMember(last.key, last.value, s, pos);
      ReadOn(INIT, 0, Body(init), MemberText(last));
      assert Body(init) + "" + MemberText(last) == Body(init) + MemberText(last);
      NoSpans();
    } else {
      SpanEnds(init);
      SpansLast(init);
      CommaFollows(s, pos);
      ReadOne(s, pos, ',');
      ReadOn(INIT, 0, Body(init), ",");
      ReadsMember(last.key, last.value, Step(s, pos, ','), pos + 1);
      ReadOn(INIT, 0, Body(init) + ",", MemberText(last));
    }
  }

  lemma NoSpans()
    ensures Spans([]) == []
  {}

  /** Every object text is valid, and its root members are exactly its fields, each at its span. */
  lemma ObjectRead(fields: seq<Field>)
    requires WellMade(fields)
    ensures Valid(ObjectText(fields)) && Final(ObjectText(fields)).members == Spans(fields)
  {
    hide Step, Plain, ValueText;
    var b := ObjectText(fields);
    BodyRead(fields);
    var s := Read(INIT, 0, Body(fields));
    ReadOn(INIT, 0, Body(fields), "}");
    ReadOne(s, |Body(fields)|, '}');
    ReadIsStateAt(b, |b|);
    assert b[..|b|] == b;
    if fields == [] { BraceCloses(s, |Body(fields)|); } else { SpanEnds(fields); BraceFollows(s, |Body(fields)|); }
  }

  lemma BraceCloses(s: State, pos: nat)
    requires s.mode == KeyOrClose && s.stack == [Object] && s.members == []
    ensures var t := Step(s, pos, '}'); t.mode == Ended && t.stack == [] && t.members == []
  {}

  // ----- strings ----------------------------------------------------------------

  function HexDigitOf(n: nat): char
    requires n < 16
  {
    if n < 10 then '0' + n as char else 'a' + (n - 10) as char
  }

  /** How a byte of a string is written. */
  function EscapedByte(c: char): string {
    if c == '"' then "\\\"" else if c == '\\' then "\\\\"
    else if c == 8 as char then "\\b" else if c == 12 as char then "\\f"
    else if c == '\n' then "\\n" else if c == '\r' then "\\r" else if c == '\t' then "\\t"
    else if c < ' ' then "\\u00" + [HexDigitOf(c as nat / 16), HexDigitOf(c as nat % 16)]
    else [c]
  }

  function Escape(s: string): string { if s == "" then "" else EscapedByte(s[0]) + Escape(s[1..]) }

  function Quoted(s: string): string { "\"" + Escape(s) + "\"" }

  lemma HexRead(n: nat)
    requires n < 16
    ensures HexDigit(HexDigitOf(n)) && HexValue(HexDigitOf(n)) == n
  {}

  lemma ByteDecodes(c: char, rest: string)
    ensures Decode(EscapedByte(c) + rest) == Prepend([c], Decode(rest))
  {
    hide Decode, CodeUnit, Utf8, Prepend;
    var e := EscapedByte(c);
    var s := e + rest;
    assert s[|e|..] == rest && s[0] == e[0];
    if |e| == 1 {
      RawDecodes(s);
    } else if |e| == 2 {
      assert s[1] == e[1];
      ShortDecodes(s, c);
    } else {
      UnicodeDecodes(c, rest);
    }
  }

  lemma RawDecodes(s: string)
    requires s != "" && s[0] != '\\'
    ensures Decode(s) == Prepend([s[0]], Decode(s[1..]))
  {}

  lemma ShortDecodes(s: string, c: char)
    requires |s| >= 2 && s[0] == '\\' && s[1] != 'u' && Escaped(s[1]) == Some(c)
    ensures Decode(s) == Prepend([c], Decode(s[2..]))
  {}

  lemma UnicodeDecodes(c: char, rest: string)
    requires |EscapedByte(c)| == 6
    ensures Decode(EscapedByte(c) + rest) == Prepend([c], Decode(rest))
  {
    hide Prepend;
    var e, s := EscapedByte(c), EscapedByte(c) + rest;
    assert s[0] == e[0] && s[1] == 'u' && s[6..] == rest;
    ControlUnit(c, s[2..]) by { assert s[2..][0] == '0' && s[2..][1] == '0' && s[2..][2] == e[4] && s[2..][3] == e[5]; }
    hide CodeUnit;
    assert Utf8(c as nat) == [c];
  }

  lemma ControlUnit(c: char, s: string)
    requires c < ' ' && |s| >= 4 && s[0] == '0' && s[1] == '0'
    requires s[2] == HexDigitOf(c as nat / 16) && s[3] == HexDigitOf(c as nat % 16)
    ensures CodeUnit(s) == Some(c as nat)
  {
    hide HexDigitOf;
    HexRead(c as nat / 16);
    HexRead(c as nat % 16);
  }

  /** Decoding undoes escaping, for every string. */
  lemma {:induction false} DecodeEscape(s: string)
    ensures Decode(Escape(s)) == Some(s)
  {
    hide Decode, EscapedByte;
    if s == "" {
      EmptyDecodes();
    } else {
      DecodeEscape(s[1..]);
      ByteDecodes(s[0], Escape(s[1..]));
      assert [s[0]] + s[1..] == s;
    }
  }

  lemma EmptyDecodes()
    ensures Decode("") == Some("")
  {}

  lemma ByteRead(c: char, s: State, pos: nat)
    requires s.mode == InString(false) && s.stack == []
    ensures Read(s, pos, EscapedByte(c)) == s
  {
    var e := EscapedByte(c);
    if |e| == 1 {
      ReadOne(s, pos, c);
    } else if |e| == 2 {
      assert e[..1][..0] == "" && e[..1] == "\\";
      assert Read(s, pos, e[..1]) == s.(mode := InEscape(false));
    } else {
      HexRead(c as nat / 16);
      HexRead(c as nat % 16);
      UnicodeRead(e, s, pos);
    }
  }

  lemma UnicodeRead(e: string, s: State, pos: nat)
    requires |e| == 6 && e[0] == '\\' && e[1] == 'u' && forall i :: 2 <= i < 6 ==> HexDigit(e[i])
    requires s.mode == InString(false) && s.stack == []
    ensures Read(s, pos, e) == s
  {
    assert e[..1][..0] == "" && e[..2][..1] == e[..1] && e[..3][..2] == e[..2] && e[..4][..3] == e[..3];
    assert e[..5][..4] == e[..4] && e[..6] == e && e[..6][..5] == e[..5];
    assert Read(s, pos, e[..1]) == s.(mode := InEscape(false));
    assert Read(s, pos, e[..2]) == s.(mode := InHex(false, 4));
    assert Read(s, pos, e[..3]) == s.(mode := InHex(false, 3));
    assert Read(s, pos, e[..4]) == s.(mode := InHex(false, 2));
    assert Read(s, pos, e[..5]) == s.(mode := InHex(false, 1));
  }

  lemma {:induction false} EscapedRead(text: string, s: State, pos: nat)
    requires s.mode == InString(false) && s.stack == []
    ensures Read(s, pos, Escape(text)) == s
  {
    hide Step, EscapedByte;
    if text != "" {
      ByteRead(text[0], s, pos);
      EscapedRead(text[1..], s, pos + |EscapedByte(text[0])|);
      ReadOn(s, pos, EscapedByte(text[0]), Escape(text[1..]));
    }
  }

  /** Every string has a text, which stands for it. */
  lemma QuotedIsText(s: string)
    ensures ValueText(Quoted(s)) && Snapshot.StringOf(Quoted(s)) == Some(s)
  {
    hide Step, Decode, Escape;
    var v := Quoted(s);
    var u := INIT.(mode := InString(false));
    QuoteOpens();
    ReadOne(INIT, 0, '"');
    EscapedRead(s, u, 1);
    ReadOn(INIT, 0, "\"", Escape(s));
    QuoteCloses(u, 1 + |Escape(s)|);
    ReadOne(u, 1 + |Escape(s)|, '"');
    ReadOn(INIT, 0, "\"" + Escape(s), "\"");
    ReadIsStateAt(v, |v|);
    assert v[..|v|] == v;
    DecodeEscape(s);
    assert v[1..|v| - 1] == Escape(s);
  }

  lemma QuoteOpens()
    ensures Step(INIT, 0, '"') == INIT.(mode := InString(false))
  {}

  lemma QuoteCloses(u: State, pos: nat)
    requires u.mode == InString(false) && u.stack == []
    ensures Step(u, pos, '"').mode == Ended && Step(u, pos, '"').stack == []
  {}

  /** An object text is a value text, so objects nest. */
  lemma ObjectIsText(fields: seq<Field>)
    requires WellMade(fields)
    ensures ValueText(ObjectText(fields))
  {
    ObjectRead(fields);
    hide Valid;
    BodyOpens(fields);
  }

  lemma {:induction false} BodyOpens(fields: seq<Field>)
    ensures Body(fields) != "" && Body(fields)[0] == '{'
  {
    if fields != [] { BodyOpens(fields[..|fields| - 1]); }
  }

  // ----- the queue of an envelope -----------------------------------------------

  lemma {:induction false} PlainDecodes(key: string)
    requires Plain(key)
    ensures Decode(key) == Some(key)
  {
    if key != "" {
      assert key[0] in key && forall c <- key[1..] :: c in key;
      PlainDecodes(key[1..]);
      assert [key[0]] + key[1..] == key;
    }
  }

  lemma SliceWithin(u: string, w: string, a: nat, b: nat)
    requires a <= b <= |u|
    ensures (u + w)[a..b] == u[a..b]
  {}

  lemma SliceAfter(u: string, w: string)
    ensures (u + w)[|u|..|u| + |w|] == w
  {}

  lemma {:induction false} SpanIs(fields: seq<Field>, i: nat)
    requires i < |fields|
    ensures Spans(fields)[i].key == fields[i].key
    ensures var m := Spans(fields)[i];
            m.start <= m.end <= |Body(fields)| && Body(fields)[m.start..m.end] == fields[i].value
  {
    hide Body, Spans, SpanOf;
    var n := |fields| - 1;
    var init, last := fields[..n], fields[n];
    assert fields == init + [last];
    Snoc(init, last);
    var comma := if init == [] then "" else ",";
    if i < n {
      SpanIs(init, i);
      assert Body(fields) == Body(init) + (comma + MemberText(last));
      SliceWithin(Body(init), comma + MemberText(last), Spans(init)[i].start, Spans(init)[i].end);
    } else {
      var front := Body(init) + comma + ("\"" + last.key + "\":");
      assert Body(fields) == front + last.value;
      SliceAfter(front, last.value);
    }
  }

  predicate OneQueueField(fields: seq<Field>, i: nat) {
    i < |fields| && fields[i].key == Snapshot.QUEUE && forall j :: 0 <= j < |fields| && fields[j].key == Snapshot.QUEUE ==> j == i
  }

  /** Wherever the field is and whatever the others hold: an object text with one field `queue`, and
      a string as its value, is found to name that queue, and a snapshot of it is taken. */
  lemma QueueIsRead(fields: seq<Field>, i: nat, queue: string)
    requires WellMade(fields) && OneQueueField(fields, i) && Snapshot.StringOf(fields[i].value) == Some(queue)
    ensures Snapshot.RootQueue(ObjectText(fields)) == Snapshot.Ok((Spans(fields)[i], queue))
    ensures var parsed := Snapshot.Parse(ObjectText(fields)); parsed.Ok? && parsed.value.queue == queue
  {
    hide Decode, Valid, ValueText, Body, Spans, Snapshot.StringOf, Snapshot.RootQueue;
    var b, members := ObjectText(fields), Spans(fields);
    ObjectRead(fields);
    forall j | 0 <= j < |fields|
      ensures members[j].key == fields[j].key && Decode(members[j].key) == Some(fields[j].key)
      ensures Snapshot.RawOf(b, members[j]) == fields[j].value
    {
      SpanIs(fields, j);
      assert fields[j] in fields;
      PlainDecodes(fields[j].key);
      var m := members[j];
      assert b[m.start..m.end] == Body(fields)[m.start..m.end];
    }
    assert Snapshot.KeysDecode(b);
    assert Snapshot.OnlyQueue(members, i);
    Snapshot.RootQueueExactly(b);
    Snapshot.ParseExactly(b);
    assert Snapshot.RootQueue(b) == Snapshot.Ok((members[i], queue));
    ParsedQueue(b);
  }

  lemma ParsedQueue(payload: string)
    requires Snapshot.RootQueue(payload).Ok?
    ensures Snapshot.Parse(payload).Ok? && Snapshot.Parse(payload).value.queue == Snapshot.RootQueue(payload).value.1
  {
    hide StateAt;
  }
}
