/** A reader of JSON texts, which reads back what is printed. */
module JsonReader {
  import opened Prelude
  import opened Json
  import opened CanonicalJson

  // ----- reading, RFC 8259 ------------------------------------------------

  predicate Starts(s: string, p: string) {
    |p| <= |s| && s[..|p|] == p
  }

  function HexValue(c: char): Option<nat> {
    if '0' <= c <= '9' then Some(c as int - '0' as int)
    else if 'a' <= c <= 'f' then Some(c as int - 'a' as int + 10)
    else if 'A' <= c <= 'F' then Some(c as int - 'A' as int + 10)
    else None
  }

  /** The character of four hexadecimal digits, a half of a surrogate pair being none. */
  function FourDigits(s: string): Option<char>
    requires |s| == 4
  {
    match (HexValue(s[0]), HexValue(s[1]), HexValue(s[2]), HexValue(s[3]))
    case (Some(a), Some(b), Some(c), Some(d)) =>
      var n := 0x1000 * a + 0x100 * b + 0x10 * c + d;
      if n < 0xD800 || 0xE000 <= n < 0x1_0000 then Some(n as char) else None
    case _ => None
  }

  /** The two-character escapes of section 7. */
  function ShortEscape(c: char): Option<char> {
    match c
    case '"' => Some('"')
    case '\\' => Some('\\')
    case '/' => Some('/')
    case 'b' => Some(0x8 as char)
    case 'f' => Some(0xC as char)
    case 'n' => Some(0xA as char)
    case 'r' => Some(0xD as char)
    case 't' => Some(0x9 as char)
    case _ => None
  }

  /** One character of a string, and what follows it; the closing quote is none. */
  function ReadChar(s: string): (r: Option<(char, string)>)
    ensures r.Some? ==> |r.value.1| < |s|
  {
    if s == "" || s[0] == '"' || s[0] < ' ' then None
    else if s[0] != '\\' then Some((s[0], s[1..]))
    else if |s| >= 6 && s[1] == 'u' then
      match FourDigits(s[2..6])
      case Some(c) => Some((c, s[6..]))
      case None => None
    else if |s| >= 2 && ShortEscape(s[1]).Some? then Some((ShortEscape(s[1]).value, s[2..]))
    else None
  }

  /** The characters up to the closing quote. */
  function ReadString(s: string): (r: Option<(string, string)>)
    ensures r.Some? ==> |r.value.1| < |s|
    decreases |s|
  {
    if Starts(s, "\"") then Some(("", s[1..]))
    else
      match ReadChar(s)
      case None => None
      case Some((c, rest)) =>
        match ReadString(rest)
        case None => None
        case Some((cs, after)) => Some(([c] + cs, after))
  }

  function NumberLength(s: string): (n: nat)
    ensures n <= |s| && forall i :: 0 <= i < n ==> NumberChar(s[i])
  {
    if s == "" || !NumberChar(s[0]) then 0 else 1 + NumberLength(s[1..])
  }

  function ReadValue(s: string): (r: Option<(Tree, string)>)
    ensures r.Some? ==> |r.value.1| < |s|
    decreases |s|, 0
  {
    if s == "" then None
    else match s[0]
      case 'n' => if Starts(s, "null") then Some((TNull, s[4..])) else None
      case 't' => if Starts(s, "true") then Some((TBool(true), s[4..])) else None
      case 'f' => if Starts(s, "false") then Some((TBool(false), s[5..])) else None
      case '"' =>
        (match ReadString(s[1..])
         case None => None
         case Some((text, rest)) => Some((TStr(text), rest)))
      case '[' =>
        if Starts(s[1..], "]") then Some((TArr([]), s[2..]))
        else
          (match ReadItems(s[1..])
           case None => None
           case Some((items, rest)) => Some((TArr(items), rest)))
      case '{' =>
        if Starts(s[1..], "}") then Some((TObj([]), s[2..]))
        else
          (match ReadMembers(s[1..])
           case None => None
           case Some((members, rest)) => Some((TObj(members), rest)))
      case _ => if NumberLength(s) > 0 then Some((TNum(s[..NumberLength(s)]), s[NumberLength(s)..])) else None
  }

  /** One value or more, with commas between them, up to the closing bracket. */
  function ReadItems(s: string): (r: Option<(seq<Tree>, string)>)
    ensures r.Some? ==> |r.value.1| < |s|
    decreases |s|, 1
  {
    match ReadValue(s)
    case None => None
    case Some((item, rest)) =>
      if Starts(rest, "]") then Some(([item], rest[1..]))
      else if Starts(rest, ",") then
        match ReadItems(rest[1..])
        case None => None
        case Some((items, after)) => Some(([item] + items, after))
      else None
  }

  /** One member or more, with commas between them, up to the closing brace. */
  function ReadMembers(s: string): (r: Option<(seq<Member>, string)>)
    ensures r.Some? ==> |r.value.1| < |s|
    decreases |s|, 2
  {
    match ReadMember(s)
    case None => None
    case Some((m, rest)) =>
      if Starts(rest, "}") then Some(([m], rest[1..]))
      else if Starts(rest, ",") then
        match ReadMembers(rest[1..])
        case None => None
        case Some((members, after)) => Some(([m] + members, after))
      else None
  }

  function ReadMember(s: string): (r: Option<(Member, string)>)
    ensures r.Some? ==> |r.value.1| < |s|
    decreases |s|, 1
  {
    if !Starts(s, "\"") then None
    else
      match ReadString(s[1..])
      case None => None
      case Some((key, rest)) =>
        if !Starts(rest, ":") then None
        else
          match ReadValue(rest[1..])
          case None => None
          case Some((value, after)) => Some((Member(key, value), after))
  }

  // ----- strings ----------------------------------------------------------

  lemma {:induction false} HexRead(n: nat)
    requires n < 16
    ensures HexValue(HexDigit(n)) == Some(n)
  {
    assert "0123456789abcdef"[..8] == "01234567";
  }

  lemma {:induction false} SixRead(a: nat, b: nat, rest: string)
    requires a < 2 && b < 16
    ensures var s := "\\u00" + [HexDigit(a), HexDigit(b)] + rest;
      ReadChar(s) == Some(((0x10 * a + b) as char, rest))
  {
    var s := "\\u00" + [HexDigit(a), HexDigit(b)] + rest;
    HexRead(a);
    HexRead(b);
    assert s[6..] == rest;
    assert s[2..6] == ['0', '0', HexDigit(a), HexDigit(b)];
  }

  /** What a character is written as is read back as that character. */
  lemma {:induction false} CharRead(c: char, rest: string)
    ensures ReadChar(EscapeChar(c) + rest) == Some((c, rest))
  {
    var s, e := EscapeChar(c) + rest, EscapeChar(c);
    if |e| == 6 {
      SixRead(c as int / 16, c as int % 16, rest);
      assert s == "\\u00" + [HexDigit(c as int / 16), HexDigit(c as int % 16)] + rest;
    } else {
      assert s[0] == e[0] && (|e| == 2 ==> s[1] == e[1]);
      assert s[|e|..] == rest;
    }
  }

  /** No text that is read as the character is shorter, and hexadecimal digits are in lower case. */
  lemma {:induction false} NoLongerThanNeeded(c: char, text: string)
    requires ReadChar(text) == Some((c, ""))
    ensures |EscapeChar(c)| <= |text|
    ensures forall i :: 0 <= i < |EscapeChar(c)| && 'A' <= EscapeChar(c)[i] <= 'F' ==> EscapeChar(c) == [c]
  {
    if |EscapeChar(c)| == 6 {
      HexRead(c as int / 16);
      HexRead(c as int % 16);
      assert "0123456789abcdef"[..10] == "0123456789" && "0123456789abcdef"[10..] == "abcdef";
    }
  }

  lemma {:induction false} StringRead(text: string, rest: string)
    ensures ReadString(Escape(text) + "\"" + rest) == Some((text, rest))
  {
    var s := Escape(text) + "\"" + rest;
    if text == "" {
      assert s == "\"" + rest;
    } else {
      var tail := Escape(text[1..]) + "\"" + rest;
      assert s == EscapeChar(text[0]) + tail;
      CharRead(text[0], tail);
      StringRead(text[1..], rest);
      assert [text[0]] + text[1..] == text;
    }
  }

  // ----- values -----------------------------------------------------------

  lemma {:induction false} NumberRead(n: string, rest: string)
    requires Stops(rest) && forall i :: 0 <= i < |n| ==> NumberChar(n[i])
    ensures NumberLength(n + rest) == |n|
  {
    if n == "" {
      assert n + rest == rest;
    } else {
      assert (n + rest)[1..] == n[1..] + rest;
      NumberRead(n[1..], rest);
    }
  }

  lemma {:induction false} LiteralsAreRead(rest: string)
    ensures ReadValue("null" + rest) == Some((TNull, rest))
    ensures ReadValue("true" + rest) == Some((TBool(true), rest))
    ensures ReadValue("false" + rest) == Some((TBool(false), rest))
  {
    assert ("null" + rest)[..4] == "null" && ("null" + rest)[4..] == rest;
    assert ("true" + rest)[..4] == "true" && ("true" + rest)[4..] == rest;
    assert ("false" + rest)[..5] == "false" && ("false" + rest)[5..] == rest;
  }

  /** A printed value is read back, whatever follows it that is not part of a number. */
  lemma {:induction false} PrintedIsRead(t: Tree, rest: string)
    requires Stops(rest)
    ensures ReadValue(Print(t) + rest) == Some((t, rest))
    decreases t, 1
  {
    var s := Print(t) + rest;
    match t {
      case TNull => LiteralsAreRead(rest);
      case TBool(_) => LiteralsAreRead(rest);
      case TNum(n) => NumberIsRead(n, rest);
      case TStr(text) =>
        assert s[1..] == Escape(text) + "\"" + rest;
        StringRead(text, rest);
      case TArr(items) => ArrayIsRead(items, rest);
      case TObj(members) => ObjectIsRead(members, rest);
    }
  }

  lemma {:induction false} NumberIsRead(n: NumberText, rest: string)
    requires Stops(rest)
    ensures ReadValue(n + rest) == Some((TNum(n), rest))
  {
    NumberRead(n, rest);
    assert NumberChar((n + rest)[0]);
  }

  lemma {:induction false} ArrayIsRead(items: seq<Tree>, rest: string)
    ensures ReadValue("[" + PrintItems(items, true) + rest) == Some((TArr(items), rest))
    decreases items, 3
  {
    var s, inner := "[" + PrintItems(items, true) + rest, PrintItems(items, true) + rest;
    assert s[1..] == inner;
    ItemsEnd(items, true, rest);
    if items == [] {
      assert s[2..] == rest;
    } else {
      ItemsRead(items, rest);
    }
  }

  lemma {:induction false} FirstItem(item: Tree, tail: string)
    requires ReadValue(Print(item) + tail) == Some((item, tail)) && tail != ""
    ensures tail[0] == ']' ==> ReadItems(Print(item) + tail) == Some(([item], tail[1..]))
    ensures tail[0] == ',' && ReadItems(tail[1..]).Some? ==>
      var (items, after) := ReadItems(tail[1..]).value; ReadItems(Print(item) + tail) == Some(([item] + items, after))
  {
  }

  lemma {:induction false} ItemsRead(items: seq<Tree>, rest: string)
    requires items != []
    ensures ReadItems(PrintItems(items, true) + rest) == Some((items, rest))
    decreases items, 2
  {
    var more := items[1..];
    var tail := PrintItems(more, false) + rest;
    assert items == [items[0]] + more;
    assert PrintItems(items, true) + rest == Print(items[0]) + tail;
    RestStops(more, rest);
    PrintedIsRead(items[0], tail);
    FirstItem(items[0], tail);
    if more == [] {
      assert PrintItems(more, false) == "]" && tail[1..] == rest && items == [items[0]];
    } else {
      MoreItems(more, rest);
      ItemsRead(more, rest);
    }
  }

  lemma {:induction false} MoreItems(items: seq<Tree>, rest: string)
    requires items != []
    ensures var tail := PrintItems(items, false) + rest; tail[0] == ',' && tail[1..] == PrintItems(items, true) + rest
  {
    ItemsSplit(items, false, rest);
    ItemsSplit(items, true, rest);
  }

  lemma {:induction false} ObjectIsRead(members: seq<Member>, rest: string)
    ensures ReadValue("{" + PrintMembers(members, true) + rest) == Some((TObj(members), rest))
    decreases members, 3
  {
    var s, inner := "{" + PrintMembers(members, true) + rest, PrintMembers(members, true) + rest;
    assert s[1..] == inner;
    MembersEnd(members, true, rest);
    if members == [] {
      assert s[2..] == rest;
    } else {
      MembersRead(members, rest);
    }
  }

  lemma {:induction false} FirstMember(s: string, m: Member, tail: string)
    requires ReadMember(s) == Some((m, tail)) && tail != ""
    ensures tail[0] == '}' ==> ReadMembers(s) == Some(([m], tail[1..]))
    ensures tail[0] == ',' && ReadMembers(tail[1..]).Some? ==>
      var (members, after) := ReadMembers(tail[1..]).value; ReadMembers(s) == Some(([m] + members, after))
  {
  }

  lemma {:induction false} MembersRead(members: seq<Member>, rest: string)
    requires members != []
    ensures ReadMembers(PrintMembers(members, true) + rest) == Some((members, rest))
    decreases members, 2
  {
    var more := members[1..];
    var tail := PrintMembers(more, false) + rest;
    assert members == [members[0]] + more;
    MembersSplit(members, true, rest);
    assert PrintMembers(members, true) + rest
      == Quote(members[0].key) + (":" + (Print(members[0].value) + tail));
    MembersStop(more, rest);
    MemberRead(members[0], tail);
    FirstMember(PrintMembers(members, true) + rest, members[0], tail);
    if more == [] {
      assert PrintMembers(more, false) == "}" && tail[1..] == rest && members == [members[0]];
    } else {
      MoreMembers(more, rest);
      MembersRead(more, rest);
    }
  }

  lemma {:induction false} MoreMembers(members: seq<Member>, rest: string)
    requires members != []
    ensures var tail := PrintMembers(members, false) + rest;
      tail[0] == ',' && tail[1..] == PrintMembers(members, true) + rest
  {
    MembersSplit(members, false, rest);
    MembersSplit(members, true, rest);
  }

  lemma {:induction false} MemberRead(m: Member, rest: string)
    requires Stops(rest)
    ensures ReadMember(Quote(m.key) + (":" + (Print(m.value) + rest))) == Some((m, rest))
    decreases m, 2
  {
    var after := ":" + (Print(m.value) + rest);
    var s := Quote(m.key) + after;
    assert s[1..] == Escape(m.key) + "\"" + after;
    StringRead(m.key, after);
    assert after[1..] == Print(m.value) + rest;
    PrintedIsRead(m.value, rest);
  }
}
