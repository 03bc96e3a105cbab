/** JSON text as Go's encoding/json writes it (compact, HTML-escaped), and a reader that undoes it. */
module Json {

  import opened Numerals
  import opened Wrappers

  datatype Value =
    | Text(s: string)
    | Number(n: int)
    | Bool(b: bool)
    | Array(items: Items)
    | Record(members: Members)

  datatype Items = NoItem | Item(head: Value, tail: Items)
  datatype Members = NoMember | Member(name: string, value: Value, rest: Members)

  datatype Read<+T> = Read(value: T, rest: string)

  // ---- Strings (section 7 of RFC 8259) ----

  function EscapeChar(c: char): (e: string)
    ensures |e| > 0
  {
    if c == '"' then "\\\""
    else if c == '\\' then "\\\\"
    else if c == '\n' then "\\n"
    else if c == '\r' then "\\r"
    else if c == '\t' then "\\t"
    else if c as int < 0x20 || c in "<>&" || 0x2028 <= c as int <= 0x2029 then "\\u" + Padded(c as int, 16, 4)
    else [c]
  }

  function Escape(s: string): string {
    if s == "" then "" else EscapeChar(s[0]) + Escape(s[1..])
  }

  function Quote(s: string): string {
    "\"" + Escape(s) + "\""
  }

  /** One character, possibly escaped, of a quoted string. */
  function ReadChar(s: string): (r: Option<Read<char>>)
    ensures r.Some? ==> |r.value.rest| < |s|
  {
    if s == "" || s[0] == '"' || s[0] as int < 0x20 then None
    else if s[0] != '\\' then Some(Read(s[0], s[1..]))
    else if |s| == 1 then None
    else if s[1] == '"' || s[1] == '\\' || s[1] == '/' then Some(Read(s[1], s[2..]))
    else if s[1] == 'n' then Some(Read('\n', s[2..]))
    else if s[1] == 'r' then Some(Read('\r', s[2..]))
    else if s[1] == 't' then Some(Read('\t', s[2..]))
    else if s[1] == 'b' then Some(Read(8 as char, s[2..]))
    else if s[1] == 'f' then Some(Read(12 as char, s[2..]))
    else if s[1] == 'u' && |s| >= 6 then
      var u := Numerals.Value(s[2..6], 16);
      if u.Some? && (u.value < 0xD800 || 0xE000 <= u.value < 0x10000) then Some(Read(u.value as char, s[6..])) else None
    else None
  }

  /** The rest of a quoted string, up to its closing quote. */
  function ReadChars(s: string): (r: Option<Read<string>>)
    ensures r.Some? ==> |r.value.rest| < |s|
    decreases |s|
  {
    if s != "" && s[0] == '"' then Some(Read("", s[1..]))
    else
      var c := ReadChar(s);
      if c.None? then None
      else
        var tail := ReadChars(c.value.rest);
        if tail.None? then None else Some(Read([c.value.value] + tail.value.value, tail.value.rest))
  }

  lemma CharRoundTrip(c: char, rest: string)
    ensures ReadChar(EscapeChar(c) + rest) == Some(Read(c, rest))
    ensures EscapeChar(c)[0] != '"'
  {
    var e := EscapeChar(c);
    var s := e + rest;
    assert s[|e|..] == rest;
    if |e| == 6 {
      PaddedRoundTrip(c as int, 16, 4);
      assert s[2..6] == Padded(c as int, 16, 4);
    }
  }

  lemma {:induction false} CharsRoundTrip(s: string, rest: string)
    ensures ReadChars(Escape(s) + "\"" + rest) == Some(Read(s, rest))
    decreases |s|
  {
    hide EscapeChar;
    hide ReadChar;
    var t := Escape(s) + "\"" + rest;
    if s == "" {
      assert t == "\"" + rest;
    } else {
      var tail := Escape(s[1..]) + "\"" + rest;
      CharsRoundTrip(s[1..], rest);
      CharRoundTrip(s[0], tail);
      assert t == EscapeChar(s[0]) + tail;
      assert s == [s[0]] + s[1..];
    }
  }

  // ---- Numbers ----

  function DigitRun(s: string): (n: nat)
    ensures n <= |s|
    ensures forall i :: 0 <= i < n ==> IsDigitOf(s[i], 10)
  {
    if s != "" && IsDigitOf(s[0], 10) then 1 + DigitRun(s[1..]) else 0
  }

  lemma {:induction false} DigitRunStops(d: string, rest: string)
    requires forall i :: 0 <= i < |d| ==> IsDigitOf(d[i], 10)
    requires rest == "" || !IsDigitOf(rest[0], 10)
    ensures DigitRun(d + rest) == |d|
    decreases |d|
  {
    if d == "" {
      assert d + rest == rest;
    } else {
      assert (d + rest)[1..] == d[1..] + rest;
      DigitRunStops(d[1..], rest);
    }
  }

  function ReadNatural(s: string): (r: Option<Read<nat>>)
    ensures r.Some? ==> |r.value.rest| < |s|
  {
    var n := DigitRun(s);
    var v := Numerals.Value(s[..n], 10);
    if n > 0 && v.Some? then Some(Read(v.value, s[n..])) else None
  }

  function Negative(s: string): bool {
    s != "" && s[0] == '-'
  }

  function ReadInteger(s: string): (r: Option<Read<int>>)
    ensures r.Some? ==> |r.value.rest| < |s|
  {
    var r := ReadNatural(if Negative(s) then s[1..] else s);
    if r.None? then None else
    var n: int := r.value.value;
    Some(Read(if Negative(s) then -n else n, r.value.rest))
  }

  lemma NaturalRoundTrip(n: nat, rest: string)
    requires rest == "" || !IsDigitOf(rest[0], 10)
    ensures ReadNatural(Format(n, 10) + rest) == Some(Read(n, rest))
  {
    var d := Format(n, 10);
    FormatDigits(n, 10);
    FormatRoundTrip(n, 10);
    DigitRunStops(d, rest);
    assert (d + rest)[..|d|] == d;
    assert (d + rest)[|d|..] == rest;
  }

  lemma IntegerRoundTrip(n: int, rest: string)
    requires rest == "" || !IsDigitOf(rest[0], 10)
    ensures ReadInteger(Decimal(n) + rest) == Some(Read(n, rest))
  {
    hide Format;
    hide ReadNatural;
    var s := Decimal(n) + rest;
    DecimalSign(n);
    assert s[0] == Decimal(n)[0];
    var body := Format(if n < 0 then -n else n, 10) + rest;
    assert (if Negative(s) then s[1..] else s) == body;
    NaturalRoundTrip(if n < 0 then -n else n, rest);
  }

  // ---- Values ----

  function Render(v: Value): string {
    match v
    case Text(s) => Quote(s)
    case Number(n) => Decimal(n)
    case Bool(b) => if b then "true" else "false"
    case Array(items) => "[" + RenderItems(items, true)
    case Record(members) => "{" + RenderMembers(members, true)
  }

  function RenderItems(items: Items, first: bool): string {
    match items
    case NoItem => "]"
    case Item(head, tail) => (if first then "" else ",") + Render(head) + RenderItems(tail, false)
  }

  function RenderMembers(members: Members, first: bool): string {
    match members
    case NoMember => "}"
    case Member(name, value, rest) =>
      (if first then "" else ",") + Quote(name) + ":" + Render(value) + RenderMembers(rest, false)
  }

  function ReadValue(s: string): (r: Option<Read<Value>>)
    ensures r.Some? ==> |r.value.rest| < |s|
    decreases |s|, 0
  {
    if s == "" then None
    else if s[0] == '"' then
      var t := ReadChars(s[1..]);
      if t.None? then None else Some(Read(Text(t.value.value), t.value.rest))
    else if s[0] == '[' then
      var a := ReadItems(s[1..], true);
      if a.None? then None else Some(Read(Array(a.value.value), a.value.rest))
    else if s[0] == '{' then
      var o := ReadMembers(s[1..], true);
      if o.None? then None else Some(Read(Record(o.value.value), o.value.rest))
    else if |s| >= 4 && s[..4] == "true" then Some(Read(Bool(true), s[4..]))
    else if |s| >= 5 && s[..5] == "false" then Some(Read(Bool(false), s[5..]))
    else
      var n := ReadInteger(s);
      if n.None? then None else Some(Read(Number(n.value.value), n.value.rest))
  }

  /** What follows the separator before the next item or member; nothing precedes the first one. */
  function AfterComma(s: string, first: bool): (r: Option<string>)
    ensures r.Some? ==> |r.value| <= |s|
  {
    if first then Some(s) else if s != "" && s[0] == ',' then Some(s[1..]) else None
  }

  function ReadItems(s: string, first: bool): (r: Option<Read<Items>>)
    ensures r.Some? ==> |r.value.rest| < |s|
    decreases |s|, 1
  {
    if s != "" && s[0] == ']' then Some(Read(NoItem, s[1..]))
    else
      var body := AfterComma(s, first);
      if body.None? then None
      else
        var head := ReadValue(body.value);
        if head.None? then None
        else
          var tail := ReadItems(head.value.rest, false);
          if tail.None? then None else Some(Read(Item(head.value.value, tail.value.value), tail.value.rest))
  }

  function ReadMembers(s: string, first: bool): (r: Option<Read<Members>>)
    ensures r.Some? ==> |r.value.rest| < |s|
    decreases |s|, 1
  {
    if s != "" && s[0] == '}' then Some(Read(NoMember, s[1..]))
    else
      var body := AfterComma(s, first);
      if body.None? || body.value == "" || body.value[0] != '"' then None
      else
        var name := ReadChars(body.value[1..]);
        if name.None? || name.value.rest == "" || name.value.rest[0] != ':' then None
        else
          var value := ReadValue(name.value.rest[1..]);
          if value.None? then None
          else
            var rest := ReadMembers(value.value.rest, false);
            if rest.None? then None
            else Some(Read(Member(name.value.value, value.value.value, rest.value.value), rest.value.rest))
  }

  /** What may follow a value without being read as part of it. */
  predicate Ends(rest: string) {
    rest == "" || !IsDigitOf(rest[0], 10)
  }

  lemma RenderStart(v: Value)
    ensures |Render(v)| > 0
    ensures Render(v)[0] != ']' && Render(v)[0] != '}'
  {
    match v
    case Number(n) => DecimalSign(n);
    case _ =>
  }

  lemma ReadTextAt(s: string, t: string, rest: string)
    requires s != "" && s[0] == '"'
    requires ReadChars(s[1..]) == Some(Read(t, rest))
    ensures ReadValue(s) == Some(Read(Text(t), rest))
  {
  }

  lemma QuoteTail(t: string, rest: string)
    ensures (Quote(t) + rest)[0] == '"'
    ensures (Quote(t) + rest)[1..] == Escape(t) + "\"" + rest
  {
  }

  lemma ReadText(t: string, rest: string)
    ensures ReadValue(Quote(t) + rest) == Some(Read(Text(t), rest))
  {
    CharsRoundTrip(t, rest);
    QuoteTail(t, rest);
    ReadTextAt(Quote(t) + rest, t, rest);
  }

  lemma ReadNumber(n: int, rest: string)
    requires Ends(rest)
    ensures ReadValue(Decimal(n) + rest) == Some(Read(Number(n), rest))
  {
    var s := Decimal(n) + rest;
    DecimalSign(n);
    IntegerRoundTrip(n, rest);
    assert s[0] == Decimal(n)[0];
    assert |s| >= 4 ==> s[..4][0] == s[0] && s[..4] != "true";
    assert |s| >= 5 ==> s[..5][0] == s[0] && s[..5] != "false";
  }

  lemma ReadBool(b: bool, rest: string)
    ensures ReadValue(Render(Bool(b)) + rest) == Some(Read(Bool(b), rest))
  {
    var s := Render(Bool(b)) + rest;
    if b {
      assert s[..4] == "true" && s[4..] == rest;
    } else {
      assert s[..4][0] != "true"[0];
      assert s[..5] == "false" && s[5..] == rest;
    }
  }

  /** The separator is skipped, and what it separates is not mistaken for the end. */
  lemma Separated(s: string, first: bool, body: string)
    requires s == (if first then "" else ",") + body
    requires body != "" && body[0] != ']' && body[0] != '}'
    ensures s != "" && s[0] != ']' && s[0] != '}'
    ensures AfterComma(s, first) == Some(body)
  {
    assert first ==> s == body;
    assert !first ==> s[1..] == body;
  }

  lemma ReadItem(s: string, first: bool, head: Value, after: string, tail: Items, rest: string)
    requires s == (if first then "" else ",") + (Render(head) + after)
    requires ReadValue(Render(head) + after) == Some(Read(head, after))
    requires ReadItems(after, false) == Some(Read(tail, rest))
    ensures ReadItems(s, first) == Some(Read(Item(head, tail), rest))
  {
    RenderStart(head);
    Separated(s, first, Render(head) + after);
  }

  lemma ReadMemberAt(
    s: string, first: bool, body: string, afterName: string,
    name: string, value: Value, after: string, others: Members, rest: string)
    requires s != "" && s[0] != '}' && AfterComma(s, first) == Some(body)
    requires body != "" && body[0] == '"' && ReadChars(body[1..]) == Some(Read(name, afterName))
    requires afterName != "" && afterName[0] == ':' && ReadValue(afterName[1..]) == Some(Read(value, after))
    requires ReadMembers(after, false) == Some(Read(others, rest))
    ensures ReadMembers(s, first) == Some(Read(Member(name, value, others), rest))
  {
  }

  lemma ReadMember(s: string, first: bool, name: string, value: Value, after: string, others: Members, rest: string)
    requires s == (if first then "" else ",") + (Quote(name) + (":" + (Render(value) + after)))
    requires ReadValue(Render(value) + after) == Some(Read(value, after))
    requires ReadMembers(after, false) == Some(Read(others, rest))
    ensures ReadMembers(s, first) == Some(Read(Member(name, value, others), rest))
  {
    var afterName := ":" + (Render(value) + after);
    var body := Quote(name) + afterName;
    QuoteTail(name, afterName);
    Separated(s, first, body);
    CharsRoundTrip(name, afterName);
    assert afterName[1..] == Render(value) + after;
    ReadMemberAt(s, first, body, afterName, name, value, after, others, rest);
  }

  lemma ReadArrayAt(s: string, items: Items, rest: string)
    requires s != "" && s[0] == '[' && ReadItems(s[1..], true) == Some(Read(items, rest))
    ensures ReadValue(s) == Some(Read(Array(items), rest))
  {
  }

  lemma ReadRecordAt(s: string, members: Members, rest: string)
    requires s != "" && s[0] == '{' && ReadMembers(s[1..], true) == Some(Read(members, rest))
    ensures ReadValue(s) == Some(Read(Record(members), rest))
  {
  }

  lemma Opened(bracket: char, body: string, rest: string)
    ensures ([bracket] + body + rest)[0] == bracket
    ensures ([bracket] + body + rest)[1..] == body + rest
  {
  }

  /** Reading a rendered value gives the value back and leaves what followed it. */
  lemma {:induction false} ValueRoundTrip(v: Value, rest: string)
    requires Ends(rest)
    ensures ReadValue(Render(v) + rest) == Some(Read(v, rest))
    decreases v, 0
  {
    match v
    case Text(t) => ReadText(t, rest);
    case Number(n) => ReadNumber(n, rest);
    case Bool(b) => ReadBool(b, rest);
    case Array(items) =>
      ItemsRoundTrip(items, true, rest);
      Opened('[', RenderItems(items, true), rest);
      ReadArrayAt(Render(v) + rest, items, rest);
    case Record(members) =>
      MembersRoundTrip(members, true, rest);
      Opened('{', RenderMembers(members, true), rest);
      ReadRecordAt(Render(v) + rest, members, rest);
  }

  lemma {:induction false} ItemsRoundTrip(items: Items, first: bool, rest: string)
    ensures ReadItems(RenderItems(items, first) + rest, first) == Some(Read(items, rest))
    decreases items, 1
  {
    match items
    case NoItem =>
      Opened(']', "", rest);
    case Item(head, tail) =>
      var after := RenderItems(tail, false) + rest;
      ItemsRoundTrip(tail, false, rest);
      ItemsEnd(tail, rest);
      ValueRoundTrip(head, after);
      ReadItem(RenderItems(items, first) + rest, first, head, after, tail, rest) by {
        ItemsSplit(head, tail, first, rest);
      }
  }

  lemma {:induction false} MembersRoundTrip(members: Members, first: bool, rest: string)
    ensures ReadMembers(RenderMembers(members, first) + rest, first) == Some(Read(members, rest))
    decreases members, 1
  {
    match members
    case NoMember =>
      Opened('}', "", rest);
    case Member(name, value, others) =>
      var after := RenderMembers(others, false) + rest;
      MembersRoundTrip(others, false, rest);
      MembersEnd(others, rest);
      ValueRoundTrip(value, after);
      ReadMember(RenderMembers(members, first) + rest, first, name, value, after, others, rest) by {
        MembersSplit(name, value, others, first, rest);
      }
  }

  lemma ItemsSplit(head: Value, tail: Items, first: bool, rest: string)
    ensures RenderItems(Item(head, tail), first) + rest
         == (if first then "" else ",") + (Render(head) + (RenderItems(tail, false) + rest))
  {
  }

  lemma MembersSplit(name: string, value: Value, others: Members, first: bool, rest: string)
    ensures RenderMembers(Member(name, value, others), first) + rest
         == (if first then "" else ",")
           + (Quote(name) + (":" + (Render(value) + (RenderMembers(others, false) + rest))))
  {
  }

  lemma ItemsEnd(items: Items, rest: string)
    ensures Ends(RenderItems(items, false) + rest)
  {
  }

  lemma MembersEnd(members: Members, rest: string)
    ensures Ends(RenderMembers(members, false) + rest)
  {
  }

  /** A whole text: a value and nothing after it. */
  function Parse(text: string): Option<Value> {
    var r := ReadValue(text);
    if r.Some? && r.value.rest == "" then Some(r.value.value) else None
  }

  lemma ParseRendered(v: Value)
    ensures Parse(Render(v)) == Some(v)
  {
    ValueRoundTrip(v, "");
    assert Render(v) + "" == Render(v);
  }

  // ---- What the text never contains ----

  /** Neither a control character nor one that means something in HTML or ends a line in JavaScript. */
  predicate Plain(c: char) {
    0x20 <= c as int && c !in "<>&" && !(0x2028 <= c as int <= 0x2029)
  }

  predicate AllPlain(s: string) {
    forall i :: 0 <= i < |s| ==> Plain(s[i])
  }

  lemma PlainConcat(s: string, t: string)
    requires AllPlain(s) && AllPlain(t)
    ensures AllPlain(s + t)
  {
    hide Plain;
  }

  lemma DecimalPlain(n: int)
    ensures AllPlain(Decimal(n))
  {
    var d := Format(if n < 0 then -n else n, 10);
    FormatDigits(if n < 0 then -n else n, 10);
    hide Format;
    forall i | 0 <= i < |d| ensures Plain(d[i]) {
      assert IsDigitOf(d[i], 10);
    }
  }

  lemma {:induction false} PaddedPlain(n: nat, base: nat, width: nat)
    requires 2 <= base <= 36
    ensures AllPlain(Padded(n, base, width))
    decreases width
  {
    if width == 0 {
    } else {
      PaddedPlain(n / base, base, width - 1);
    }
  }

  lemma {:induction false} EscapePlain(s: string)
    ensures AllPlain(Escape(s))
    decreases |s|
  {
    if s == "" {
    } else {
      PaddedPlain(s[0] as int, 16, 4);
      EscapePlain(s[1..]);
    }
  }

  /** As encoding/json promises: the text of any value can stand in an HTML page. */
  lemma {:induction false} RenderPlain(v: Value)
    ensures AllPlain(Render(v))
    decreases v
  {
    match v
    case Text(s) => EscapePlain(s);
    case Number(n) => DecimalPlain(n);
    case Bool(b) =>
    case Array(items) => ItemsPlain(items, true);
    case Record(members) => MembersPlain(members, true);
  }

  lemma {:induction false} ItemsPlain(items: Items, first: bool)
    ensures AllPlain(RenderItems(items, first))
    decreases items
  {
    match items
    case NoItem =>
    case Item(head, tail) =>
      RenderPlain(head);
      ItemsPlain(tail, false);
  }

  lemma {:induction false} MembersPlain(members: Members, first: bool)
    ensures AllPlain(RenderMembers(members, first))
    decreases members
  {
    match members
    case NoMember =>
    case Member(name, value, rest) =>
      EscapePlain(name);
      assert AllPlain(Quote(name));
      RenderPlain(value);
      MembersPlain(rest, false);
      hide AllPlain;
      PlainConcat(if first then "" else ",", Quote(name));
      PlainConcat((if first then "" else ",") + Quote(name), ":");
      PlainConcat((if first then "" else ",") + Quote(name) + ":", Render(value));
      PlainConcat((if first then "" else ",") + Quote(name) + ":" + Render(value), RenderMembers(rest, false));
  }

}
