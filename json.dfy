/**
 * The JSON values a topic payload can hold, the compact serialisation that
 * `JSON.stringify` produces for them, and a reader that takes that text back
 * to the value it came from.
 *
 * Covered: null, booleans, integers, strings, arrays and objects. An object is
 * the sequence of its own enumerable properties in the order the engine
 * enumerates them, which is the order the serialiser writes them in.
 */
module Json {
  import opened Outcome

  datatype Value =
    | Null
    | Bool(b: bool)
    | Int(n: int)
    | Str(s: string)
    | Arr(items: seq<Value>)
    | Obj(members: seq<Member>)

  datatype Member = Member(key: string, value: Value)

  // ----- characters -----

  predicate IsDigit(c: char) { '0' <= c <= '9' }

  /** The code points `JSON.stringify` must escape inside a string: `"`, `\` and the controls below U+0020. */
  predicate NeedsEscape(c: char) { c == '"' || c == '\\' || (c as int) < 0x20 }

  function DigitChar(d: int): (c: char)
    requires 0 <= d < 10
    ensures IsDigit(c) && (c as int) - ('0' as int) == d
  {
    (('0' as int) + d) as char
  }

  /** A lower-case hexadecimal digit, as the `\u00xx` escapes use. */
  function HexChar(d: int): (c: char)
    requires 0 <= d < 16
    ensures HexValue(c) == d
  {
    if d < 10 then DigitChar(d) else (('a' as int) + d - 10) as char
  }

  function HexValue(c: char): (d: int)
    ensures -1 <= d < 16
  {
    if '0' <= c <= '9' then (c as int) - ('0' as int)
    else if 'a' <= c <= 'f' then (c as int) - ('a' as int) + 10
    else if 'A' <= c <= 'F' then (c as int) - ('A' as int) + 10
    else -1
  }

  // ----- the serialiser -----

  /** The decimal digits of `n`, most significant first, without leading zeros. */
  function NatText(n: nat): (t: string)
    ensures |t| >= 1 && (t[0] == '0' ==> n == 0)
    ensures forall i :: 0 <= i < |t| ==> IsDigit(t[i])
  {
    if n < 10 then [DigitChar(n)] else NatText(n / 10) + [DigitChar(n % 10)]
  }

  /** An integer as `JSON.stringify` writes a number with no fraction: an optional `-`, then its digits. */
  function IntText(n: int): (t: string)
    ensures |t| > 0 && (t[0] == '-' <==> n < 0)
    ensures forall i :: 0 < i < |t| ==> IsDigit(t[i])
    ensures n >= 0 ==> IsDigit(t[0])
  {
    if n < 0 then "-" + NatText(-n) else NatText(n)
  }

  /** No control character (tab, line break, ...) occurs in `t`. */
  predicate Printable(t: string)
  {
    forall i :: 0 <= i < |t| ==> (t[i] as int) >= 0x20
  }

  /** One character of a string, escaped as `JSON.stringify` escapes it. */
  function EscapeChar(c: char): string
  {
    if c == '"' then "\\\""
    else if c == '\\' then "\\\\"
    else if c as int == 0x08 then "\\b"
    else if c as int == 0x0C then "\\f"
    else if c == '\n' then "\\n"
    else if c == '\r' then "\\r"
    else if c == '\t' then "\\t"
    else if (c as int) < 0x20 then "\\u00" + [HexChar((c as int) / 16), HexChar((c as int) % 16)]
    else [c]
  }

  function Escape(s: string): string
  {
    if s == [] then [] else EscapeChar(s[0]) + Escape(s[1..])
  }

  function Quote(s: string): string
  {
    "\"" + Escape(s) + "\""
  }

  /** `JSON.stringify(v)`: compact, no whitespace, members and items in order. */
  function Stringify(v: Value): (t: string)
    ensures |t| > 0
    ensures v.Int? <==> t[0] == '-' || IsDigit(t[0])
    ensures v.Str? <==> t[0] == '"'
    ensures v.Arr? <==> t[0] == '['
    ensures v.Obj? <==> t[0] == '{'
  {
    match v
    case Null => "null"
    case Bool(b) => if b then "true" else "false"
    case Int(n) => IntText(n)
    case Str(s) => Quote(s)
    case Arr(items) => "[" + Items(items) + "]"
    case Obj(members) => "{" + Members(members) + "}"
  }

  /** The items of an array, separated by commas. */
  function Items(vs: seq<Value>): string
  {
    if vs == [] then ""
    else if |vs| == 1 then Stringify(vs[0])
    else Stringify(vs[0]) + "," + Items(vs[1..])
  }

  /** The members of an object as `"key":value`, separated by commas. */
  function Members(ms: seq<Member>): string
  {
    if ms == [] then ""
    else if |ms| == 1 then MemberText(ms[0])
    else MemberText(ms[0]) + "," + Members(ms[1..])
  }

  function MemberText(m: Member): string
  {
    Quote(m.key) + ":" + Stringify(m.value)
  }

  // ----- the reader -----

  /** The number of decimal digits at the start of `s`. */
  function DigitRun(s: string): (k: nat)
    ensures k <= |s|
    ensures forall i :: 0 <= i < k ==> IsDigit(s[i])
    ensures k < |s| ==> !IsDigit(s[k])
  {
    if s != [] && IsDigit(s[0]) then 1 + DigitRun(s[1..]) else 0
  }

  /** The number a run of decimal digits denotes. */
  function DigitsValue(ds: string): nat
  {
    if ds == [] then 0
    else
      var d := (ds[|ds| - 1] as int) - ('0' as int);
      DigitsValue(ds[..|ds| - 1]) * 10 + (if 0 <= d < 10 then d else 0)
  }

  /** Reads a non-empty run of digits; the rest of the input follows it. */
  function ReadNat(s: string): (r: Option<(nat, string)>)
    ensures r.Some? ==> |r.value.1| < |s|
  {
    var k := DigitRun(s);
    if k == 0 then None else Some((DigitsValue(s[..k]), s[k..]))
  }

  /** Reads what follows a backslash inside a string: one escape, giving the character it stands for. */
  function Unescape(s: string): (r: Option<(char, string)>)
    ensures r.Some? ==> |r.value.1| < |s|
  {
    if s == [] then None
    else if s[0] == '"' || s[0] == '\\' || s[0] == '/' then Some((s[0], s[1..]))
    else if s[0] == 'b' then Some((0x08 as char, s[1..]))
    else if s[0] == 'f' then Some((0x0C as char, s[1..]))
    else if s[0] == 'n' then Some(('\n', s[1..]))
    else if s[0] == 'r' then Some(('\r', s[1..]))
    else if s[0] == 't' then Some(('\t', s[1..]))
    else if s[0] == 'u' && |s| >= 5 && HexValue(s[1]) >= 0 && HexValue(s[2]) >= 0
            && HexValue(s[3]) >= 0 && HexValue(s[4]) >= 0 then
      var code := HexValue(s[1]) * 4096 + HexValue(s[2]) * 256 + HexValue(s[3]) * 16 + HexValue(s[4]);
      if 0xD800 <= code < 0xE000 then None else Some((code as char, s[5..]))
    else None
  }

  /** Reads the body of a string literal up to and including its closing quote. */
  function ReadChars(s: string): (r: Option<(string, string)>)
    ensures r.Some? ==> |r.value.1| < |s|
  {
    if s == [] then None
    else if s[0] == '"' then Some(([], s[1..]))
    else if s[0] == '\\' then
      match Unescape(s[1..])
      case None => None
      case Some((c, rest)) =>
        match ReadChars(rest)
        case None => None
        case Some((t, after)) => Some(([c] + t, after))
    else if (s[0] as int) < 0x20 then None
    else
      match ReadChars(s[1..])
      case None => None
      case Some((t, after)) => Some(([s[0]] + t, after))
  }

  /** Reads `word` at the start of `s`, standing for `v`. */
  function ReadWord(s: string, word: string, v: Value): (r: Option<(Value, string)>)
    requires |word| > 0
    ensures r.Some? ==> |r.value.1| < |s|
  {
    if |word| <= |s| && s[..|word|] == word then Some((v, s[|word|..])) else None
  }

  /** Reads one JSON value at the start of `s`; the rest of the input follows it. */
  function ReadValue(s: string): (r: Option<(Value, string)>)
    ensures r.Some? ==> |r.value.1| < |s|
    decreases |s|, 1
  {
    if s == [] then None
    else if s[0] == 'n' then ReadWord(s, "null", Null)
    else if s[0] == 't' then ReadWord(s, "true", Bool(true))
    else if s[0] == 'f' then ReadWord(s, "false", Bool(false))
    else if s[0] == '-' || IsDigit(s[0]) then ReadNumber(s)
    else if s[0] == '"' then ReadString(s)
    else if s[0] == '[' then ReadArray(s)
    else if s[0] == '{' then ReadObject(s)
    else None
  }

  /** Reads an integer: an optional minus sign and a run of digits. */
  function ReadNumber(s: string): (r: Option<(Value, string)>)
    ensures r.Some? ==> |r.value.1| < |s|
  {
    if s != [] && s[0] == '-' then
      match ReadNat(s[1..])
      case None => None
      case Some((n, rest)) => Some((Int(-(n as int)), rest))
    else
      match ReadNat(s)
      case None => None
      case Some((n, rest)) => Some((Int(n), rest))
  }

  /** Reads a string literal, quotes included. */
  function ReadString(s: string): (r: Option<(Value, string)>)
    requires s != [] && s[0] == '"'
    ensures r.Some? ==> |r.value.1| < |s|
  {
    match ReadChars(s[1..])
    case None => None
    case Some((t, rest)) => Some((Str(t), rest))
  }

  /** Reads an array, brackets included. */
  function ReadArray(s: string): (r: Option<(Value, string)>)
    requires s != [] && s[0] == '['
    ensures r.Some? ==> |r.value.1| < |s|
    decreases |s|, 0
  {
    if |s| > 1 && s[1] == ']' then Some((Arr([]), s[2..]))
    else
      match ReadItems(s[1..])
      case None => None
      case Some((vs, rest)) => Some((Arr(vs), rest))
  }

  /** Reads an object, braces included. */
  function ReadObject(s: string): (r: Option<(Value, string)>)
    requires s != [] && s[0] == '{'
    ensures r.Some? ==> |r.value.1| < |s|
    decreases |s|, 0
  {
    if |s| > 1 && s[1] == '}' then Some((Obj([]), s[2..]))
    else
      match ReadMembers(s[1..])
      case None => None
      case Some((ms, rest)) => Some((Obj(ms), rest))
  }

  /** Reads `v1,v2,...,vn]`, n >= 1, up to and including the closing bracket. */
  function ReadItems(s: string): (r: Option<(seq<Value>, string)>)
    ensures r.Some? ==> |r.value.1| < |s|
    decreases |s|, 3
  {
    match ReadValue(s)
    case None => None
    case Some((v, rest)) =>
      if rest != [] && rest[0] == ']' then Some(([v], rest[1..]))
      else if rest != [] && rest[0] == ',' then
        match ReadItems(rest[1..])
        case None => None
        case Some((vs, after)) => Some(([v] + vs, after))
      else None
  }

  /** Reads one member `"k":v`. */
  function ReadMember(s: string): (r: Option<(Member, string)>)
    ensures r.Some? ==> |r.value.1| < |s|
    decreases |s|, 2
  {
    if s == [] || s[0] != '"' then None
    else
      match ReadChars(s[1..])
      case None => None
      case Some((k, rest)) =>
        if rest == [] || rest[0] != ':' then None
        else
          match ReadValue(rest[1..])
          case None => None
          case Some((v, after)) => Some((Member(k, v), after))
  }

  /** Reads `"k1":v1,...,"kn":vn}`, n >= 1, up to and including the closing brace. */
  function ReadMembers(s: string): (r: Option<(seq<Member>, string)>)
    ensures r.Some? ==> |r.value.1| < |s|
    decreases |s|, 3
  {
    match ReadMember(s)
    case None => None
    case Some((m, rest)) =>
      if rest != [] && rest[0] == '}' then Some(([m], rest[1..]))
      else if rest != [] && rest[0] == ',' then
        match ReadMembers(rest[1..])
        case None => None
        case Some((ms, after)) => Some(([m] + ms, after))
      else None
  }

  /** `JSON.parse` on the serialiser's output: a whole text holding exactly one value. */
  function Parse(s: string): (r: Option<Value>)
  {
    match ReadValue(s)
    case Some((v, rest)) => if rest == [] then Some(v) else None
    case None => None
  }

  // ----- the reader inverts the serialiser -----

  lemma {:induction false} NatTextValue(n: nat)
    ensures DigitsValue(NatText(n)) == n
  {
    if n >= 10 {
      var t := NatText(n);
      assert t[..|t| - 1] == NatText(n / 10);
      NatTextValue(n / 10);
    }
  }

  lemma {:induction false} DigitRunStopsAtRest(t: string, rest: string)
    requires forall i :: 0 <= i < |t| ==> IsDigit(t[i])
    requires rest == [] || !IsDigit(rest[0])
    ensures DigitRun(t + rest) == |t|
  {
    if t != [] {
      assert (t + rest)[1..] == t[1..] + rest;
      DigitRunStopsAtRest(t[1..], rest);
    }
  }

  /** The digits of `n` read back as `n`, and reading stops where they end. */
  lemma ReadNatText(n: nat, rest: string)
    requires rest == [] || !IsDigit(rest[0])
    ensures ReadNat(NatText(n) + rest) == Some((n, rest))
  {
    var t := NatText(n);
    DigitRunStopsAtRest(t, rest);
    assert (t + rest)[..|t|] == t;
    assert (t + rest)[|t|..] == rest;
    NatTextValue(n);
  }

  /** One escaped character is read back as that character. */
  lemma ReadEscapeChar(c: char, more: string, t: string, after: string)
    requires ReadChars(more) == Some((t, after))
    ensures ReadChars(EscapeChar(c) + more) == Some(([c] + t, after))
  {
    var e := EscapeChar(c);
    var s := e + more;
    if !NeedsEscape(c) {
      assert s[1..] == more;
    } else {
      assert s[0] == '\\';
      assert s[1..] == e[1..] + more;
      if c == '"' || c == '\\' || c as int == 0x08 || c as int == 0x0C || c == '\n' || c == '\r' || c == '\t' {
        assert s[1..][1..] == more;
      } else {
        var hi, lo := (c as int) / 16, (c as int) % 16;
        assert s[1..][1..5] == ['0', '0', HexChar(hi), HexChar(lo)];
        assert s[1..][5..] == more;
      }
    }
  }

  lemma CloseRegroup(a: string, b: string, rest: string)
    ensures a + b + "\"" + rest == a + (b + "\"" + rest)
  {
  }

  /** The body of an escaped string, closed by a quote, is read back as the string. */
  lemma {:induction false} ReadEscape(s: string, rest: string)
    ensures ReadChars(Escape(s) + "\"" + rest) == Some((s, rest))
  {
    if s == [] {
      assert Escape(s) + "\"" + rest == "\"" + rest;
    } else {
      ReadEscape(s[1..], rest);
      CloseRegroup(EscapeChar(s[0]), Escape(s[1..]), rest);
      ReadEscapeChar(s[0], Escape(s[1..]) + "\"" + rest, s[1..], rest);
      assert [s[0]] + s[1..] == s;
    }
  }

  lemma ReadWordText(word: string, v: Value, rest: string)
    requires |word| > 0
    ensures ReadWord(word + rest, word, v) == Some((v, rest))
  {
    assert (word + rest)[..|word|] == word;
    assert (word + rest)[|word|..] == rest;
  }

  lemma ReadNumberText(n: int, rest: string)
    requires rest == [] || !IsDigit(rest[0])
    ensures ReadNumber(IntText(n) + rest) == Some((Int(n), rest))
  {
    if n < 0 {
      ReadNegativeText(-n, rest);
    } else {
      var t := NatText(n);
      assert IntText(n) == t;
      ReadNatText(n, rest);
      assert (t + rest)[0] != '-';
    }
  }

  lemma ReadNegativeText(m: nat, rest: string)
    requires rest == [] || !IsDigit(rest[0])
    ensures ReadNumber("-" + NatText(m) + rest) == Some((Int(-(m as int)), rest))
  {
    var t := NatText(m) + rest;
    assert "-" + NatText(m) + rest == "-" + t;
    ReadNatText(m, rest);
    assert ("-" + t)[0] == '-' && ("-" + t)[1..] == t;
  }

  lemma ReadIntText(n: int, rest: string)
    requires rest == [] || !IsDigit(rest[0])
    ensures ReadValue(IntText(n) + rest) == Some((Int(n), rest))
  {
    var s := IntText(n) + rest;
    assert s[0] == '-' || IsDigit(s[0]) by {
      if n >= 0 { assert IsDigit(NatText(n)[0]); }
    }
    ReadNumberText(n, rest);
  }

  lemma ReadQuoteText(t: string, rest: string)
    ensures ReadValue(Quote(t) + rest) == Some((Str(t), rest))
  {
    var s := Quote(t) + rest;
    assert s[0] == '"';
    assert s[1..] == Escape(t) + "\"" + rest;
    ReadEscape(t, rest);
  }

  /** The reader takes any serialised value back to the value, and stops where its text ends. */
  lemma {:induction false} ReadStringify(v: Value, rest: string)
    requires rest == [] || !IsDigit(rest[0])
    ensures ReadValue(Stringify(v) + rest) == Some((v, rest))
    decreases v, 2
  {
    match v
    case Null => ReadWordText("null", v, rest);
    case Bool(b) =>
      if b { ReadWordText("true", v, rest); } else { ReadWordText("false", v, rest); }
    case Int(n) => ReadIntText(n, rest);
    case Str(t) => ReadQuoteText(t, rest);
    case Arr(items) => ReadArrText(items, rest);
    case Obj(members) => ReadObjText(members, rest);
  }

  lemma {:induction false} ReadArrText(items: seq<Value>, rest: string)
    ensures ReadValue(Stringify(Arr(items)) + rest) == Some((Arr(items), rest))
    decreases items, 1
  {
    var s := Stringify(Arr(items)) + rest;
    if items == [] {
      assert s == "[]" + rest;
      assert s[2..] == rest;
    } else {
      assert s[1..] == Items(items) + "]" + rest;
      ReadItemsText(items, rest);
    }
  }

  lemma {:induction false} ReadObjText(members: seq<Member>, rest: string)
    ensures ReadValue(Stringify(Obj(members)) + rest) == Some((Obj(members), rest))
    decreases members, 1
  {
    var s := Stringify(Obj(members)) + rest;
    if members == [] {
      assert s == "{}" + rest;
      assert s[2..] == rest;
    } else {
      assert s[1..] == Members(members) + "}" + rest;
      ReadMembersText(members, rest);
    }
  }

  lemma {:induction false} ReadItemsText(vs: seq<Value>, rest: string)
    requires |vs| >= 1
    ensures ReadItems(Items(vs) + "]" + rest) == Some((vs, rest))
    decreases vs, 0
  {
    if |vs| == 1 {
      assert Items(vs) + "]" + rest == Stringify(vs[0]) + ("]" + rest);
      ReadStringify(vs[0], "]" + rest);
      assert ("]" + rest)[1..] == rest;
      assert [vs[0]] == vs;
    } else {
      var tail := "," + (Items(vs[1..]) + "]" + rest);
      ItemsCons(vs, rest);
      ReadStringify(vs[0], tail);
      ReadItemsText(vs[1..], rest);
      ReadNextItem(vs[0], vs[1..], rest);
      assert [vs[0]] + vs[1..] == vs;
    }
  }

  lemma ItemsCons(vs: seq<Value>, rest: string)
    requires |vs| >= 2
    ensures Items(vs) + "]" + rest == Stringify(vs[0]) + ("," + (Items(vs[1..]) + "]" + rest))
  {
    JoinRegroup(Stringify(vs[0]), Items(vs[1..]), "]", rest);
  }

  lemma ReadNextItem(v: Value, vs: seq<Value>, rest: string)
    requires ReadValue(Stringify(v) + ("," + (Items(vs) + "]" + rest))) == Some((v, "," + (Items(vs) + "]" + rest)))
    requires ReadItems(Items(vs) + "]" + rest) == Some((vs, rest))
    ensures ReadItems(Stringify(v) + ("," + (Items(vs) + "]" + rest))) == Some(([v] + vs, rest))
  {
    var tail := "," + (Items(vs) + "]" + rest);
    assert tail[1..] == Items(vs) + "]" + rest;
  }

  lemma QuoteThen(k: string, after: string)
    ensures (Quote(k) + after)[0] == '"'
    ensures (Quote(k) + after)[1..] == Escape(k) + "\"" + after
  {
    assert Quote(k) + after == "\"" + (Escape(k) + "\"" + after);
  }

  /** A member's text is read back as the member. */
  lemma ReadMemberText(m: Member, tail: string)
    requires ReadValue(Stringify(m.value) + tail) == Some((m.value, tail))
    ensures ReadMember(MemberText(m) + tail) == Some((Member(m.key, m.value), tail))
  {
    ReadMemberParts(m.key, Stringify(m.value), m.value, tail);
  }

  lemma ReadMemberParts(k: string, text: string, v: Value, tail: string)
    requires ReadValue(text + tail) == Some((v, tail))
    ensures ReadMember(Quote(k) + ":" + text + tail) == Some((Member(k, v), tail))
  {
    var afterKey := ":" + (text + tail);
    assert Quote(k) + ":" + text + tail == Quote(k) + afterKey;
    QuoteThen(k, afterKey);
    ReadEscape(k, afterKey);
    assert afterKey[1..] == text + tail;
  }

  lemma ReadLastMember(m: Member, rest: string)
    requires ReadMember(MemberText(m) + ("}" + rest)) == Some((m, "}" + rest))
    ensures ReadMembers(Members([m]) + "}" + rest) == Some(([m], rest))
  {
    assert Members([m]) + "}" + rest == MemberText(m) + ("}" + rest);
    assert ("}" + rest)[1..] == rest;
  }

  lemma ReadNextMember(m: Member, ms: seq<Member>, rest: string)
    requires |ms| >= 1
    requires ReadMember(MemberText(m) + ("," + (Members(ms) + "}" + rest)))
             == Some((m, "," + (Members(ms) + "}" + rest)))
    requires ReadMembers(Members(ms) + "}" + rest) == Some((ms, rest))
    ensures ReadMembers(Members([m] + ms) + "}" + rest) == Some(([m] + ms, rest))
  {
    var tail := "," + (Members(ms) + "}" + rest);
    MembersCons(m, ms, rest);
    assert tail[1..] == Members(ms) + "}" + rest;
  }

  lemma MembersCons(m: Member, ms: seq<Member>, rest: string)
    requires |ms| >= 1
    ensures Members([m] + ms) + "}" + rest == MemberText(m) + ("," + (Members(ms) + "}" + rest))
  {
    MembersStep(m, ms);
    JoinRegroup(MemberText(m), Members(ms), "}", rest);
  }

  lemma JoinRegroup(a: string, b: string, close: string, rest: string)
    ensures a + "," + b + close + rest == a + ("," + (b + close + rest))
  {
  }

  lemma MembersStep(m: Member, ms: seq<Member>)
    requires |ms| >= 1
    ensures Members([m] + ms) == MemberText(m) + "," + Members(ms)
  {
    assert ([m] + ms)[1..] == ms;
  }

  lemma {:induction false} ReadMembersText(ms: seq<Member>, rest: string)
    requires |ms| >= 1
    ensures ReadMembers(Members(ms) + "}" + rest) == Some((ms, rest))
    decreases ms, 0
  {
    var m := ms[0];
    if |ms| == 1 {
      ReadStringify(m.value, "}" + rest);
      ReadMemberText(m, "}" + rest);
      assert [m] == ms;
      ReadLastMember(m, rest);
    } else {
      var tail := "," + (Members(ms[1..]) + "}" + rest);
      ReadStringify(m.value, tail);
      ReadMemberText(m, tail);
      ReadMembersText(ms[1..], rest);
      ReadNextMember(m, ms[1..], rest);
      assert [m] + ms[1..] == ms;
    }
  }

  /** Round trip: parsing the serialisation of any value gives the value back. */
  lemma ParseStringify(v: Value)
    ensures Parse(Stringify(v)) == Some(v)
  {
    ReadStringify(v, []);
    assert Stringify(v) + [] == Stringify(v);
  }

  /** Distinct values never serialise to the same text. */
  lemma StringifyInjective(v: Value, w: Value)
    ensures Stringify(v) == Stringify(w) ==> v == w
  {
    ParseStringify(v);
    ParseStringify(w);
  }

  // ----- the serialiser writes no layout -----

  lemma EscapeCharPrintable(c: char)
    ensures Printable(EscapeChar(c))
  {
  }

  lemma {:induction false} EscapePrintable(s: string)
    ensures Printable(Escape(s))
  {
    if s != [] {
      EscapePrintable(s[1..]);
      EscapeCharPrintable(s[0]);
      var a, b := EscapeChar(s[0]), Escape(s[1..]);
      assert forall i :: 0 <= i < |a + b| ==> (a + b)[i] == if i < |a| then a[i] else b[i - |a|];
    }
  }

  lemma PrintableConcat(a: string, b: string)
    requires Printable(a) && Printable(b)
    ensures Printable(a + b)
  {
    assert forall i :: 0 <= i < |a + b| ==> (a + b)[i] == if i < |a| then a[i] else b[i - |a|];
  }

  /**
   * The serialisation holds no control character: no tab, no line break.
   * Those inside strings are escaped, and nothing else is written between tokens.
   */
  lemma {:induction false} StringifyPrintable(v: Value)
    ensures Printable(Stringify(v))
    decreases v, 1
  {
    match v
    case Null =>
    case Bool(b) =>
    case Int(n) =>
      var t := NatText(if n < 0 then -n else n);
      assert Printable(t);
      if n < 0 { PrintableConcat("-", t); }
    case Str(t) =>
      EscapePrintable(t);
      PrintableConcat("\"", Escape(t));
      PrintableConcat("\"" + Escape(t), "\"");
    case Arr(items) =>
      ItemsPrintable(items);
      PrintableConcat("[", Items(items));
      PrintableConcat("[" + Items(items), "]");
    case Obj(members) =>
      MembersPrintable(members);
      PrintableConcat("{", Members(members));
      PrintableConcat("{" + Members(members), "}");
  }

  lemma {:induction false} ItemsPrintable(vs: seq<Value>)
    ensures Printable(Items(vs))
    decreases vs, 0
  {
    if vs != [] {
      StringifyPrintable(vs[0]);
      if |vs| > 1 {
        ItemsPrintable(vs[1..]);
        PrintableConcat(Stringify(vs[0]), ",");
        PrintableConcat(Stringify(vs[0]) + ",", Items(vs[1..]));
      }
    }
  }

  lemma {:induction false} MembersPrintable(ms: seq<Member>)
    ensures Printable(Members(ms))
    decreases ms, 0
  {
    if ms != [] {
      var m := ms[0];
      EscapePrintable(m.key);
      StringifyPrintable(m.value);
      PrintableConcat("\"", Escape(m.key));
      PrintableConcat("\"" + Escape(m.key), "\":");
      PrintableConcat("\"" + Escape(m.key) + "\":", Stringify(m.value));
      assert MemberText(m) == "\"" + Escape(m.key) + "\":" + Stringify(m.value);
      if |ms| > 1 {
        MembersPrintable(ms[1..]);
        PrintableConcat(MemberText(m), ",");
        PrintableConcat(MemberText(m) + ",", Members(ms[1..]));
      }
    }
  }

  /** A string with nothing to escape is written as it is between the quotes. */
  lemma {:induction false} EscapePlain(s: string)
    requires forall i :: 0 <= i < |s| ==> !NeedsEscape(s[i])
    ensures Escape(s) == s
  {
    if s != [] {
      EscapePlain(s[1..]);
      assert [s[0]] + s[1..] == s;
    }
  }

  /** An object with one string member, neither part needing escapes, is written with no layout at all. */
  lemma FlatObject(k: string, v: string)
    requires forall i :: 0 <= i < |k| ==> !NeedsEscape(k[i])
    requires forall i :: 0 <= i < |v| ==> !NeedsEscape(v[i])
    ensures Stringify(Obj([Member(k, Str(v))])) == "{\"" + k + "\":\"" + v + "\"}"
  {
    EscapePlain(k);
    EscapePlain(v);
    assert Members([Member(k, Str(v))]) == MemberText(Member(k, Str(v)));
  }

  /** No string and no key anywhere in `v` holds a space. */
  predicate SpaceFree(v: Value)
  {
    match v
    case Str(t) => ' ' !in t
    case Arr(items) => forall i :: 0 <= i < |items| ==> SpaceFree(items[i])
    case Obj(members) => forall i :: 0 <= i < |members| ==> ' ' !in members[i].key && SpaceFree(members[i].value)
    case _ => true
  }

  lemma {:induction false} EscapeNoSpace(s: string)
    requires ' ' !in s
    ensures ' ' !in Escape(s)
  {
    if s != [] {
      assert s[0] in s;
      assert forall c :: c in s[1..] ==> c in s;
      EscapeNoSpace(s[1..]);
    }
  }

  /**
   * The serialisation writes no space between tokens: a value whose strings and
   * keys hold no space is written with no space at all (and, by `StringifyPrintable`,
   * with no tab or line break either).
   */
  lemma {:induction false} StringifyNoSpace(v: Value)
    requires SpaceFree(v)
    ensures ' ' !in Stringify(v)
    decreases v, 1
  {
    match v
    case Null =>
    case Bool(b) =>
    case Int(n) =>
      var t := NatText(if n < 0 then -n else n);
      assert forall i :: 0 <= i < |t| ==> IsDigit(t[i]);
    case Str(t) =>
      EscapeNoSpace(t);
    case Arr(items) =>
      ItemsNoSpace(items);
    case Obj(members) =>
      MembersNoSpace(members);
  }

  lemma {:induction false} ItemsNoSpace(vs: seq<Value>)
    requires forall i :: 0 <= i < |vs| ==> SpaceFree(vs[i])
    ensures ' ' !in Items(vs)
    decreases vs, 0
  {
    if vs != [] {
      StringifyNoSpace(vs[0]);
      if |vs| > 1 {
        ItemsNoSpace(vs[1..]);
      }
    }
  }

  lemma {:induction false} MembersNoSpace(ms: seq<Member>)
    requires forall i :: 0 <= i < |ms| ==> ' ' !in ms[i].key && SpaceFree(ms[i].value)
    ensures ' ' !in Members(ms)
    decreases ms, 0
  {
    if ms != [] {
      EscapeNoSpace(ms[0].key);
      StringifyNoSpace(ms[0].value);
      if |ms| > 1 {
        MembersNoSpace(ms[1..]);
      }
    }
  }
}
