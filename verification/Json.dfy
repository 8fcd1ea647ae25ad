/** The canonical JSON text that the audit hash is taken over: `json.dumps` with
    sorted keys, compact separators and non-ASCII characters left as they are.
    `Json` keeps the members of an object in insertion order, as a Python dict
    does; `Value` is what two dicts are compared by.  A parser of the compact
    grammar (RFC 8259, sections 4 to 7, without white space, fractions and
    exponents) inverts the printer. */
module Json {
  import opened Text
  import opened Wrappers

  datatype Json =
    | Null
    | Bool(flag: bool)
    | Int(number: int)
    | Str(text: string)
    | Arr(items: Items)
    | Obj(members: Members)
  datatype Items = NoItems | Item(head: Json, tail: Items)
  datatype Members = NoMembers | Member(key: string, value: Json, rest: Members)

  datatype Value =
    | VNull
    | VBool(flag: bool)
    | VInt(number: int)
    | VStr(text: string)
    | VArr(items: seq<Value>)
    | VObj(members: map<string, Value>)

  function ValueOf(j: Json): Value {
    match j
    case Null => VNull
    case Bool(b) => VBool(b)
    case Int(n) => VInt(n)
    case Str(s) => VStr(s)
    case Arr(items) => VArr(ItemsOf(items))
    case Obj(members) => VObj(MembersOf(members))
  }

  function ItemsOf(items: Items): seq<Value> {
    match items
    case NoItems => []
    case Item(j, tail) => [ValueOf(j)] + ItemsOf(tail)
  }

  function MembersOf(ms: Members): map<string, Value> {
    match ms
    case NoMembers => map[]
    case Member(k, v, rest) => MembersOf(rest)[k := ValueOf(v)]
  }

  /** No object repeats a key, as in any Python dict. */
  predicate WellFormed(j: Json) {
    match j
    case Arr(items) => WellFormedItems(items)
    case Obj(members) => WellFormedMembers(members)
    case _ => true
  }

  predicate WellFormedItems(items: Items) {
    items.Item? ==> WellFormed(items.head) && WellFormedItems(items.tail)
  }

  predicate WellFormedMembers(ms: Members) {
    ms.Member? ==> ms.key !in MembersOf(ms.rest) && WellFormed(ms.value) && WellFormedMembers(ms.rest)
  }

  // ----- sorting -----

  function Insert(k: string, v: Json, ms: Members): Members {
    if ms.Member? && Less(ms.key, k) then Member(ms.key, ms.value, Insert(k, v, ms.rest))
    else Member(k, v, ms)
  }

  /** Every object of `j` with its members in key order. */
  function Sorted(j: Json): Json {
    match j
    case Arr(items) => Arr(SortedItems(items))
    case Obj(members) => Obj(SortedMembers(members))
    case _ => j
  }

  function SortedItems(items: Items): Items {
    match items
    case NoItems => NoItems
    case Item(j, tail) => Item(Sorted(j), SortedItems(tail))
  }

  function SortedMembers(ms: Members): Members {
    match ms
    case NoMembers => NoMembers
    case Member(k, v, rest) => Insert(k, Sorted(v), SortedMembers(rest))
  }

  predicate IsSorted(j: Json) {
    match j
    case Arr(items) => IsSortedItems(items)
    case Obj(members) => IsSortedMembers(members)
    case _ => true
  }

  predicate IsSortedItems(items: Items) {
    items.Item? ==> IsSorted(items.head) && IsSortedItems(items.tail)
  }

  predicate IsSortedMembers(ms: Members) {
    ms.Member? ==>
      && IsSorted(ms.value)
      && IsSortedMembers(ms.rest)
      && (ms.rest.Member? ==> Less(ms.key, ms.rest.key))
  }

  lemma {:induction false} InsertKeepsOrder(k: string, v: Json, ms: Members)
    requires k !in MembersOf(ms) && IsSorted(v) && IsSortedMembers(ms)
    ensures IsSortedMembers(Insert(k, v, ms)) && Insert(k, v, ms).Member?
    ensures Insert(k, v, ms).key == if ms.Member? && Less(ms.key, k) then ms.key else k
  {
    if ms.Member? {
      LessTotal(ms.key, k);
      if Less(ms.key, k) {
        InsertKeepsOrder(k, v, ms.rest);
      }
    }
  }

  lemma {:induction false} InsertAdds(k: string, v: Json, ms: Members)
    requires k !in MembersOf(ms)
    ensures MembersOf(Insert(k, v, ms)) == MembersOf(ms)[k := ValueOf(v)]
  {
    if ms.Member? && Less(ms.key, k) {
      InsertAdds(k, v, ms.rest);
    }
  }

  /** Sorting changes the order of members and nothing that the value depends on. */
  lemma {:induction false} SortedKeepsValue(j: Json)
    requires WellFormed(j)
    ensures IsSorted(Sorted(j)) && ValueOf(Sorted(j)) == ValueOf(j)
  {
    match j
    case Arr(items) => SortedItemsKeepValue(items);
    case Obj(members) => SortedMembersKeepValue(members);
    case _ =>
  }

  lemma {:induction false} SortedItemsKeepValue(items: Items)
    requires WellFormedItems(items)
    ensures IsSortedItems(SortedItems(items)) && ItemsOf(SortedItems(items)) == ItemsOf(items)
  {
    if items.Item? {
      SortedKeepsValue(items.head);
      SortedItemsKeepValue(items.tail);
    }
  }

  lemma {:induction false} SortedMembersKeepValue(ms: Members)
    requires WellFormedMembers(ms)
    ensures IsSortedMembers(SortedMembers(ms)) && MembersOf(SortedMembers(ms)) == MembersOf(ms)
  {
    if ms.Member? {
      SortedKeepsValue(ms.value);
      SortedMembersKeepValue(ms.rest);
      InsertKeepsOrder(ms.key, Sorted(ms.value), SortedMembers(ms.rest));
      InsertAdds(ms.key, Sorted(ms.value), SortedMembers(ms.rest));
    }
  }

  lemma {:induction false} HeadIsLeast(ms: Members, k: string)
    requires ms.Member? && IsSortedMembers(ms) && k in MembersOf(ms.rest)
    ensures Less(ms.key, k)
  {
    if ms.rest.key != k {
      HeadIsLeast(ms.rest, k);
      LessTransitive(ms.key, ms.rest.key, k);
    }
  }

  /** A value has one sorted form. */
  lemma {:induction false} SortedFormUnique(a: Json, b: Json)
    requires IsSorted(a) && IsSorted(b) && ValueOf(a) == ValueOf(b)
    ensures a == b
  {
    match a
    case Arr(items) => SortedItemsUnique(items, b.items);
    case Obj(members) => SortedMembersUnique(members, b.members);
    case _ =>
  }

  lemma {:induction false} SortedItemsUnique(a: Items, b: Items)
    requires IsSortedItems(a) && IsSortedItems(b) && ItemsOf(a) == ItemsOf(b)
    ensures a == b
  {
    if a.Item? && b.Item? {
      SplitAt([ValueOf(a.head)], ItemsOf(a.tail), [ValueOf(b.head)], ItemsOf(b.tail));
      SortedFormUnique(a.head, b.head);
      SortedItemsUnique(a.tail, b.tail);
    }
  }

  lemma {:induction false} SortedMembersUnique(a: Members, b: Members)
    requires IsSortedMembers(a) && IsSortedMembers(b) && MembersOf(a) == MembersOf(b)
    ensures a == b
  {
    EmptyOrNot(a);
    EmptyOrNot(b);
    if a.Member? && b.Member? {
      assert a.key in MembersOf(b) && b.key in MembersOf(a);
      if a.key != b.key {
        HeadIsLeast(b, a.key);
        HeadIsLeast(a, b.key);
        LessTotal(a.key, b.key);
        assert false;
      }
      RestWithoutHead(a);
      RestWithoutHead(b);
      assert MembersOf(a)[a.key] == MembersOf(b)[b.key];
      SortedFormUnique(a.value, b.value);
      SortedMembersUnique(a.rest, b.rest);
    }
  }

  lemma {:induction false} EmptyOrNot(ms: Members)
    ensures ms.NoMembers? <==> MembersOf(ms) == map[]
  {
    if ms.Member? {
      assert ms.key in MembersOf(ms);
    }
  }

  lemma {:induction false} RestWithoutHead(ms: Members)
    requires ms.Member? && IsSortedMembers(ms)
    ensures MembersOf(ms.rest) == MembersOf(ms) - {ms.key}
  {
    if ms.key in MembersOf(ms.rest) {
      HeadIsLeast(ms, ms.key);
      LessIrreflexive(ms.key);
    }
  }

  // ----- printing -----

  function HexDigit(n: nat): (c: char)
    requires n < 16
  {
    if n < 10 then DigitOf(n) else 'a' + (n - 10) as char
  }

  /** The short escapes, `\u00xx` for the other control characters, and every
      other character as it is. */
  function EscapedChar(c: char): string {
    if c == '"' then "\\\""
    else if c == '\\' then "\\\\"
    else if c == '\n' then "\\n"
    else if c == '\r' then "\\r"
    else if c == '\t' then "\\t"
    else if c as int == 8 then "\\b"
    else if c as int == 12 then "\\f"
    else if (c as int) < 0x20 then "\\u00" + [HexDigit(c as int / 16), HexDigit(c as int % 16)]
    else [c]
  }

  /** A character of a string is printed as itself, unless it is a quote, a backslash or
      a control character; five of those have a letter, the others two lower-case hex digits. */
  lemma EscapesAre(c: char)
    ensures ' ' <= c && c != '"' && c != '\\' ==> EscapedChar(c) == [c]
    ensures EscapedChar('"') == ['\\', '"'] && EscapedChar('\\') == ['\\', '\\']
    ensures EscapedChar('\n') == ['\\', 'n'] && EscapedChar('\r') == ['\\', 'r'] && EscapedChar('\t') == ['\\', 't']
    ensures EscapedChar(8 as char) == ['\\', 'b'] && EscapedChar(12 as char) == ['\\', 'f']
    ensures c < ' ' && c as int !in {8, 9, 10, 12, 13} ==>
              var hex := "0123456789abcdef";
              EscapedChar(c) == ['\\', 'u', '0', '0', hex[c as int / 16], hex[c as int % 16]]
  {
  }

  function Escaped(s: string): string {
    if s == "" then "" else EscapedChar(s[0]) + Escaped(s[1..])
  }

  function PrintString(s: string): string { "\"" + (Escaped(s) + "\"") }

  function PrintInt(n: int): string { if n < 0 then "-" + Decimal(-n) else Decimal(n) }

  /** Numbers are plain decimal numerals, with no leading zero and a sign only below zero. */
  lemma NumeralsAre(n: int)
    requires n > 0
    ensures var t := PrintInt(n); t != "" && AllDigits(t) && NumberOf(t) == n && t[0] != '0'
    ensures PrintInt(-n) == "-" + PrintInt(n) && PrintInt(0) == "0"
  {
    DecimalReadsBack(n);
    DecimalIsShortest(n);
  }

  function Print(j: Json): string {
    match j
    case Null => "null"
    case Bool(b) => if b then "true" else "false"
    case Int(n) => PrintInt(n)
    case Str(s) => PrintString(s)
    case Arr(items) => if items.NoItems? then "[]" else "[" + PrintItems(items)
    case Obj(members) => if members.NoMembers? then "{}" else "{" + PrintMembers(members)
  }

  /** The items, comma separated, with the closing bracket. */
  function PrintItems(items: Items): string
    requires items.Item?
  {
    Print(items.head) + if items.tail.NoItems? then "]" else "," + PrintItems(items.tail)
  }

  function PrintMembers(ms: Members): string
    requires ms.Member?
  {
    PrintString(ms.key) + (":" + (Print(ms.value) + if ms.rest.NoMembers? then "}" else "," + PrintMembers(ms.rest)))
  }

  function CanonicalJson(j: Json): string { Print(Sorted(j)) }

  // ----- parsing -----

  datatype Parsed<+T> = Failed | Done(value: T, rest: string)

  function HexValue(c: char): (n: int)
    ensures -1 <= n < 16
  {
    if IsDigit(c) then DigitValue(c) else if 'a' <= c <= 'f' then (c - 'a') as int + 10 else -1
  }

  /** The rest of a string after its opening quote. */
  function ParseString(s: string): (r: Parsed<string>)
    ensures r.Done? ==> |r.rest| < |s|
  {
    if s == "" || (s[0] as int) < 0x20 then Failed
    else if s[0] == '"' then Done("", s[1..])
    else if s[0] != '\\' then Prepend(s[0], ParseString(s[1..]))
    else if |s| < 2 then Failed
    else if s[1] == 'u' then
      if |s| < 6 || s[2] != '0' || s[3] != '0' || HexValue(s[4]) < 0 || HexValue(s[5]) < 0 then Failed
      else Prepend((HexValue(s[4]) * 16 + HexValue(s[5])) as char, ParseString(s[6..]))
    else
      match ShortEscape(s[1])
      case None => Failed
      case Some(c) => Prepend(c, ParseString(s[2..]))
  }

  function ShortEscape(c: char): Option<char> {
    if c == '"' || c == '\\' || c == '/' then Some(c)
    else if c == 'n' then Some('\n')
    else if c == 'r' then Some('\r')
    else if c == 't' then Some('\t')
    else if c == 'b' then Some(8 as char)
    else if c == 'f' then Some(12 as char)
    else None
  }

  function Prepend(c: char, r: Parsed<string>): Parsed<string> {
    if r.Done? then Done([c] + r.value, r.rest) else Failed
  }

  /** The longest run of digits at the front of `s`. */
  function LeadingDigits(s: string): (r: string)
    ensures |r| <= |s| && r == s[..|r|] && AllDigits(r)
  {
    if s == "" || !IsDigit(s[0]) then "" else [s[0]] + LeadingDigits(s[1..])
  }

  function ParseNat(s: string): (r: Parsed<int>)
    ensures r.Done? ==> |r.rest| < |s|
  {
    var digits := LeadingDigits(s);
    if digits == "" then Failed else Done(NumberOf(digits), s[|digits|..])
  }

  function ParseInt(s: string): (r: Parsed<int>)
    ensures r.Done? ==> |r.rest| < |s|
  {
    if s != "" && s[0] == '-' then
      var r := ParseNat(s[1..]);
      if r.Done? then Done(-r.value, r.rest) else Failed
    else ParseNat(s)
  }

  function ParseValue(s: string): (r: Parsed<Json>)
    ensures r.Done? ==> |r.rest| < |s|
    decreases |s|, 1
  {
    if s == "" then Failed
    else if s[0] == '-' || IsDigit(s[0]) then
      var r := ParseInt(s);
      if r.Done? then Done(Int(r.value), r.rest) else Failed
    else if s[0] == '"' then
      var r := ParseString(s[1..]);
      if r.Done? then Done(Str(r.value), r.rest) else Failed
    else if s[0] == '[' then
      if |s| > 1 && s[1] == ']' then Done(Arr(NoItems), s[2..])
      else
        var r := ParseItems(s[1..]);
        if r.Done? then Done(Arr(r.value), r.rest) else Failed
    else if s[0] == '{' then
      if |s| > 1 && s[1] == '}' then Done(Obj(NoMembers), s[2..])
      else
        var r := ParseMembers(s[1..]);
        if r.Done? then Done(Obj(r.value), r.rest) else Failed
    else ParseWord(s)
  }

  function ParseWord(s: string): (r: Parsed<Json>)
    ensures r.Done? ==> |r.rest| < |s|
  {
    if "null" <= s then Done(Null, s[4..])
    else if "true" <= s then Done(Bool(true), s[4..])
    else if "false" <= s then Done(Bool(false), s[5..])
    else Failed
  }

  function ParseItems(s: string): (r: Parsed<Items>)
    ensures r.Done? ==> |r.rest| < |s|
    decreases |s|, 2
  {
    var v := ParseValue(s);
    if v.Failed? || v.rest == "" then Failed
    else if v.rest[0] == ']' then Done(Item(v.value, NoItems), v.rest[1..])
    else if v.rest[0] != ',' then Failed
    else
      var r := ParseItems(v.rest[1..]);
      if r.Done? then Done(Item(v.value, r.value), r.rest) else Failed
  }

  function ParseMembers(s: string): (r: Parsed<Members>)
    ensures r.Done? ==> |r.rest| < |s|
    decreases |s|, 2
  {
    if s == "" || s[0] != '"' then Failed
    else
      var k := ParseString(s[1..]);
      if k.Failed? || k.rest == "" || k.rest[0] != ':' then Failed
      else
        var v := ParseValue(k.rest[1..]);
        if v.Failed? || v.rest == "" then Failed
        else if v.rest[0] == '}' then Done(Member(k.value, v.value, NoMembers), v.rest[1..])
        else if v.rest[0] != ',' then Failed
        else
          var r := ParseMembers(v.rest[1..]);
          if r.Done? then Done(Member(k.value, v.value, r.value), r.rest) else Failed
  }

  // ----- the parser inverts the printer -----

  lemma {:induction false} StringReadsBack(s: string, rest: string)
    ensures ParseString(Escaped(s) + ("\"" + rest)) == Done(s, rest)
  {
    if s == "" {
      assert Escaped(s) + ("\"" + rest) == "\"" + rest;
      assert ("\"" + rest)[1..] == rest;
    } else {
      var tail := Escaped(s[1..]) + ("\"" + rest);
      StringReadsBack(s[1..], rest);
      Assoc(EscapedChar(s[0]), Escaped(s[1..]), "\"" + rest);
      CharReadsBack(s[0], tail);
      assert [s[0]] + s[1..] == s;
    }
  }

  lemma {:induction false} CharReadsBack(c: char, tail: string)
    ensures ParseString(EscapedChar(c) + tail) == Prepend(c, ParseString(tail))
  {
    var e := EscapedChar(c);
    var all := e + tail;
    assert all[|e|..] == tail;
    if |e| == 6 {
      assert HexValue(e[4]) == c as int / 16 && HexValue(e[5]) == c as int % 16;
      assert all[2] == e[2] && all[3] == e[3] && all[4] == e[4] && all[5] == e[5];
    } else if |e| == 2 {
      assert all[0] == '\\' && all[1] == e[1];
      assert ShortEscape(e[1]) == Some(c);
    }
  }

  lemma {:induction false} DigitsAreLeading(digits: string, rest: string)
    requires AllDigits(digits) && (rest == "" || !IsDigit(rest[0]))
    ensures LeadingDigits(digits + rest) == digits
  {
    if digits == "" {
      assert digits + rest == rest;
    } else {
      DigitsAreLeading(digits[1..], rest);
      assert (digits + rest)[1..] == digits[1..] + rest;
      assert digits == [digits[0]] + digits[1..];
    }
  }

  lemma {:induction false} NatReadsBack(n: nat, rest: string)
    requires rest == "" || !IsDigit(rest[0])
    ensures ParseNat(Decimal(n) + rest) == Done(n, rest)
  {
    DecimalReadsBack(n);
    DigitsAreLeading(Decimal(n), rest);
    assert (Decimal(n) + rest)[|Decimal(n)|..] == rest;
  }

  lemma {:induction false} WordReadsBack(j: Json, rest: string)
    requires j.Null? || j.Bool?
    ensures ParseValue(Print(j) + rest) == Done(j, rest)
  {
    var word := Print(j);
    var s := word + rest;
    assert word <= s && s[|word|..] == rest && s[0] == word[0];
    assert ParseWord(s) == Done(j, rest);
  }

  lemma {:induction false} EmptyReadsBack(j: Json, rest: string)
    requires j == Arr(NoItems) || j == Obj(NoMembers)
    ensures ParseValue(Print(j) + rest) == Done(j, rest)
  {
    var s := Print(j) + rest;
    assert s[2..] == rest && s[0] == Print(j)[0] && s[1] == Print(j)[1];
  }

  // Single steps of the parser, on any texts.

  lemma {:induction false} ArrStep(body: string, items: Items, rest: string)
    requires body != "" && body[0] != ']' && ParseItems(body) == Done(items, rest)
    ensures ParseValue("[" + body) == Done(Arr(items), rest)
  {
    assert ("[" + body)[1..] == body;
  }

  lemma {:induction false} ObjStep(body: string, ms: Members, rest: string)
    requires body != "" && body[0] != '}' && ParseMembers(body) == Done(ms, rest)
    ensures ParseValue("{" + body) == Done(Obj(ms), rest)
  {
    assert ("{" + body)[1..] == body;
  }

  lemma {:induction false} IntStep(text: string, n: int, rest: string)
    requires text != "" && (text[0] == '-' || IsDigit(text[0])) && ParseInt(text) == Done(n, rest)
    ensures ParseValue(text) == Done(Int(n), rest)
  {
  }

  lemma {:induction false} StrStep(text: string, t: string, rest: string)
    requires ParseString(text) == Done(t, rest)
    ensures ParseValue("\"" + text) == Done(Str(t), rest)
  {
    assert ("\"" + text)[1..] == text;
  }

  // The printed texts, cut the way the steps want them.

  lemma {:induction false} ArrText(items: Items, rest: string)
    requires items.Item?
    ensures Print(Arr(items)) + rest == "[" + (PrintItems(items) + rest)
    ensures PrintItems(items) + rest != "" && (PrintItems(items) + rest)[0] != ']'
  {
    PrintStart(items.head);
    Assoc("[", PrintItems(items), rest);
  }

  lemma {:induction false} ObjText(ms: Members, rest: string)
    requires ms.Member?
    ensures Print(Obj(ms)) + rest == "{" + (PrintMembers(ms) + rest)
    ensures PrintMembers(ms) + rest != "" && (PrintMembers(ms) + rest)[0] == '"'
  {
    Assoc("{", PrintMembers(ms), rest);
  }

  lemma {:induction false} MembersText(ms: Members, rest: string, next: string)
    requires ms.Member? && (ms.rest.Member? ==> next == PrintMembers(ms.rest) + rest)
    ensures var after := if ms.rest.Member? then "," + next else "}" + rest;
            PrintMembers(ms) + rest == "\"" + (Escaped(ms.key) + ("\"" + (":" + (Print(ms.value) + after))))
  {
    var value := Print(ms.value);
    var close := if ms.rest.Member? then "," + PrintMembers(ms.rest) else "}";
    Assoc(PrintString(ms.key), ":" + (value + close), rest);
    Assoc(":", value + close, rest);
    Assoc(value, close, rest);
    Assoc("\"", Escaped(ms.key) + "\"", ":" + (value + (close + rest)));
    Assoc(Escaped(ms.key), "\"", ":" + (value + (close + rest)));
    if ms.rest.Member? {
      Assoc(",", PrintMembers(ms.rest), rest);
    }
  }

  lemma {:induction false} StrText(t: string, rest: string)
    ensures Print(Str(t)) + rest == "\"" + (Escaped(t) + ("\"" + rest))
  {
    Assoc("\"", Escaped(t) + "\"", rest);
    Assoc(Escaped(t), "\"", rest);
  }

  lemma {:induction false} ItemStep(text: string, j: Json, next: string, items: Items, rest: string)
    requires items.NoItems? ==> ParseValue(text) == Done(j, "]" + rest)
    requires items.Item? ==> ParseValue(text) == Done(j, "," + next) && ParseItems(next) == Done(items, rest)
    ensures ParseItems(text) == Done(Item(j, items), rest)
  {
    assert ("]" + rest)[1..] == rest && ("," + next)[1..] == next;
  }

  lemma {:induction false} MemberStep(text: string, k: string, valued: string, v: Json, next: string, ms: Members,
                                      rest: string)
    requires ParseString(text) == Done(k, ":" + valued)
    requires ms.NoMembers? ==> ParseValue(valued) == Done(v, "}" + rest)
    requires ms.Member? ==> ParseValue(valued) == Done(v, "," + next) && ParseMembers(next) == Done(ms, rest)
    ensures ParseMembers("\"" + text) == Done(Member(k, v, ms), rest)
  {
    assert ("\"" + text)[1..] == text && (":" + valued)[1..] == valued;
    assert ("}" + rest)[1..] == rest && ("," + next)[1..] == next;
  }

  lemma MinusStep(text: string, n: int, rest: string)
    requires ParseNat(text) == Done(n, rest)
    ensures ParseInt("-" + text) == Done(-n, rest)
  {
    assert ("-" + text)[1..] == text;
  }

  lemma IntReadsBack(n: int, rest: string)
    requires rest == "" || !IsDigit(rest[0])
    ensures ParseInt(PrintInt(n) + rest) == Done(n, rest)
    ensures PrintInt(n) != "" && (PrintInt(n)[0] == '-' || IsDigit(PrintInt(n)[0]))
  {
    var size: nat := if n < 0 then -n else n;
    var text := Decimal(size) + rest;
    NatReadsBack(size, rest);
    DecimalReadsBack(size);
    assert text[0] == Decimal(size)[0];
    if n < 0 {
      MinusStep(text, size, rest);
      Assoc("-", Decimal(size), rest);
    }
  }

  /** Whatever follows a printed value, the parser stops right behind the value; only a
      number must not run into another digit. */
  lemma {:induction false} PrintReadsBack(j: Json, rest: string)
    requires j.Int? ==> rest == "" || !IsDigit(rest[0])
    ensures ParseValue(Print(j) + rest) == Done(j, rest)
    decreases j, 1
  {
    match j
    case Null => WordReadsBack(j, rest);
    case Bool(b) => WordReadsBack(j, rest);
    case Int(n) =>
      IntReadsBack(n, rest);
      IntStep(PrintInt(n) + rest, n, rest);
    case Str(t) =>
      StrText(t, rest);
      StringReadsBack(t, rest);
      StrStep(Escaped(t) + ("\"" + rest), t, rest);
    case Arr(items) =>
      if items.NoItems? {
        EmptyReadsBack(j, rest);
      } else {
        ItemsReadBack(items, rest);
        ArrText(items, rest);
        ArrStep(PrintItems(items) + rest, items, rest);
      }
    case Obj(members) =>
      if members.NoMembers? {
        EmptyReadsBack(j, rest);
      } else {
        MembersReadBack(members, rest);
        ObjText(members, rest);
        ObjStep(PrintMembers(members) + rest, members, rest);
      }
  }

  /** No printed value starts with a closing bracket. */
  lemma {:induction false} PrintStart(j: Json)
    ensures |Print(j)| > 0 && Print(j)[0] != ']'
  {
    if j.Int? {
      DecimalReadsBack(if j.number < 0 then -j.number else j.number);
      assert IsDigit(Decimal(if j.number < 0 then -j.number else j.number)[0]);
    }
  }

  lemma {:induction false} ItemsReadBack(items: Items, rest: string)
    requires items.Item?
    ensures ParseItems(PrintItems(items) + rest) == Done(items, rest)
  {
    var Item(j, tail) := items;
    var text := PrintItems(items) + rest;
    if tail.NoItems? {
      Assoc(Print(j), "]", rest);
      PrintReadsBack(j, "]" + rest);
      ItemStep(text, j, "", tail, rest);
    } else {
      var next := PrintItems(tail) + rest;
      Assoc(Print(j), "," + PrintItems(tail), rest);
      Assoc(",", PrintItems(tail), rest);
      PrintReadsBack(j, "," + next);
      ItemsReadBack(tail, rest);
      ItemStep(text, j, next, tail, rest);
    }
  }

  lemma {:induction false} MembersReadBack(ms: Members, rest: string)
    requires ms.Member?
    ensures ParseMembers(PrintMembers(ms) + rest) == Done(ms, rest)
  {
    var Member(k, v, tail) := ms;
    var next := if tail.Member? then PrintMembers(tail) + rest else "";
    var after := if tail.Member? then "," + next else "}" + rest;
    var valued := Print(v) + after;
    var text := Escaped(k) + ("\"" + (":" + valued));
    MembersText(ms, rest, next);
    StringReadsBack(k, ":" + valued);
    PrintReadsBack(v, after);
    if tail.Member? {
      MembersReadBack(tail, rest);
    }
    MemberStep(text, k, valued, v, next, tail, rest);
  }

  // ----- the canonical text -----

  /** Parsing the canonical text gives back the value that was serialised. */
  lemma {:induction false} CanonicalReadsBack(j: Json)
    requires WellFormed(j)
    ensures ParseValue(CanonicalJson(j)) == Done(Sorted(j), "")
    ensures ValueOf(Sorted(j)) == ValueOf(j) && IsSorted(Sorted(j)) && CanonicalJson(j) == Print(Sorted(j))
  {
    PrintReadsBack(Sorted(j), "");
    assert CanonicalJson(j) + "" == CanonicalJson(j);
    SortedKeepsValue(j);
  }

  /** The canonical text depends on the value alone, whatever order keys were
      inserted in at any depth, and determines it. */
  lemma {:induction false} CanonicalIffSameValue(a: Json, b: Json)
    requires WellFormed(a) && WellFormed(b)
    ensures CanonicalJson(a) == CanonicalJson(b) <==> ValueOf(a) == ValueOf(b)
  {
    CanonicalReadsBack(a);
    CanonicalReadsBack(b);
    if ValueOf(a) == ValueOf(b) {
      SortedKeepsValue(a);
      SortedKeepsValue(b);
      SortedFormUnique(Sorted(a), Sorted(b));
    }
  }
}
