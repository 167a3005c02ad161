/**
  Canonical JSON, on which every digest rests: keys sorted by a collation, no spaces, and a strict decoder that parses
  and then demands the very bytes it would print. JSON grammar as in sections 4 to 7 of RFC 8259; string escapes as in
  section 25.5.2 of ECMA-262.
 */
module CanonicalJson {
  import opened Options

  /** Members are in insertion order; a collation is the outcome `left.localeCompare(right) <= 0`. */
  datatype Json =
    | Null
    | Boolean(flag: bool)
    | Number(number: int)
    | String(text: string)
    | Array(items: seq<Json>)
    | Object(members: seq<Member>)

  datatype Member = Member(key: string, value: Json)

  type Collation = (string, string) -> bool

  /** What any comparison function used for sorting is: a total preorder. It may call different keys equal. */
  ghost predicate Sorts(leq: Collation) {
    && (forall a, b :: leq(a, b) || leq(b, a))
    && (forall a, b, c :: leq(a, b) && leq(b, c) ==> leq(a, c))
  }

  const MAX_SAFE_INTEGER := 0x1F_FFFF_FFFF_FFFF

  function Size(v: Json): nat {
    match v
    case Array(items) => 1 + ItemsSize(items)
    case Object(members) => 1 + MembersSize(members)
    case _ => 1
  }

  function ItemsSize(items: seq<Json>): nat {
    if items == [] then 0 else 1 + Size(items[0]) + ItemsSize(items[1..])
  }

  function MembersSize(members: seq<Member>): nat {
    if members == [] then 0 else 1 + Size(members[0].value) + MembersSize(members[1..])
  }

  // ----- Sorting --------------------------------------------------------------------------------

  /** Inserting from the back keeps the sort stable: a member goes before those it is not greater than. */
  function Insert(leq: Collation, m: Member, sorted: seq<Member>): (r: seq<Member>)
    ensures MembersSize(r) == 1 + Size(m.value) + MembersSize(sorted)
    ensures multiset(r) == multiset{m} + multiset(sorted)
  {
    if sorted == [] then [m]
    else if leq(m.key, sorted[0].key) then
      assert sorted == [sorted[0]] + sorted[1..];
      [m] + sorted
    else
      assert sorted == [sorted[0]] + sorted[1..];
      [sorted[0]] + Insert(leq, m, sorted[1..])
  }

  /** The stable sort by key. */
  function Sort(leq: Collation, members: seq<Member>): (r: seq<Member>)
    ensures MembersSize(r) == MembersSize(members)
    ensures multiset(r) == multiset(members)
  {
    if members == [] then [] else
      assert members == [members[0]] + members[1..];
      Insert(leq, members[0], Sort(leq, members[1..]))
  }

  // ----- Printing -------------------------------------------------------------------------------

  function Hex(n: nat): char
    requires n < 16
  {
    "0123456789abcdef"[n]
  }

  /** The letter of a two-character escape. */
  function ShortEscape(c: char): Option<char> {
    match c
    case '"' => Some('"')
    case '\\' => Some('\\')
    case '\U{08}' => Some('b')
    case '\t' => Some('t')
    case '\n' => Some('n')
    case '\U{0c}' => Some('f')
    case '\r' => Some('r')
    case _ => None
  }

  /** One character of a quoted string. */
  function Escaped(c: char): string {
    if ShortEscape(c).Some? then ['\\', ShortEscape(c).value]
    else if c < ' ' then ['\\', 'u', '0', '0', Hex(c as int / 16), Hex(c as int % 16)]
    else [c]
  }

  function EscapedText(s: string): string {
    if s == "" then "" else Escaped(s[0]) + EscapedText(s[1..])
  }

  function Quoted(s: string): string {
    ['"'] + EscapedText(s) + ['"']
  }

  function DigitOf(n: nat): char
    requires n < 10
  {
    '0' + n as char
  }

  function Numeral(n: nat): (r: string)
    ensures r != ""
  {
    (if n < 10 then "" else Numeral(n / 10)) + [DigitOf(n % 10)]
  }

  function Signed(n: int): string {
    if n < 0 then "-" + Numeral(-n) else Numeral(n)
  }

  /** `canonicalJson`. */
  function Print(leq: Collation, v: Json): string
    decreases Size(v)
  {
    match v
    case Null => "null"
    case Boolean(flag) => if flag then "true" else "false"
    case Number(n) => Signed(n)
    case String(text) => Quoted(text)
    case Array(items) => "[" + (if items == [] then "" else PrintItems(leq, items)) + "]"
    case Object(members) => "{" + (if members == [] then "" else PrintMembers(leq, Sort(leq, members))) + "}"
  }

  function PrintItems(leq: Collation, items: seq<Json>): string
    requires items != []
    decreases ItemsSize(items)
  {
    Print(leq, items[0]) + if |items| == 1 then "" else "," + PrintItems(leq, items[1..])
  }

  function PrintMembers(leq: Collation, members: seq<Member>): string
    requires members != []
    decreases MembersSize(members)
  {
    Quoted(members[0].key) + ":" + Print(leq, members[0].value) +
    if |members| == 1 then "" else "," + PrintMembers(leq, members[1..])
  }

  // ----- Parsing --------------------------------------------------------------------------------

  predicate IsSpace(c: char) {
    c == ' ' || c == '\t' || c == '\n' || c == '\r'
  }

  function SkipSpace(s: string): (r: string)
    ensures |r| <= |s|
  {
    if s != "" && IsSpace(s[0]) then SkipSpace(s[1..]) else s
  }

  predicate IsDigit(c: char) {
    '0' <= c <= '9'
  }

  function HexValue(c: char): (r: Option<nat>)
    ensures r.Some? ==> r.value < 16
  {
    if '0' <= c <= '9' then Some(c as int - '0' as int)
    else if 'a' <= c <= 'f' then Some(c as int - 'a' as int + 10)
    else if 'A' <= c <= 'F' then Some(c as int - 'A' as int + 10)
    else None
  }

  /** The character an escape denotes; surrogate halves are outside the characters of this model. */
  function Unescape(s: string): (r: Option<(char, string)>)
    ensures r.Some? ==> |r.value.1| < |s|
  {
    if s == "" then None
    else match s[0]
      case '"' => Some(('"', s[1..]))
      case '\\' => Some(('\\', s[1..]))
      case '/' => Some(('/', s[1..]))
      case 'b' => Some(('\U{08}', s[1..]))
      case 'f' => Some(('\U{0c}', s[1..]))
      case 'n' => Some(('\n', s[1..]))
      case 'r' => Some(('\r', s[1..]))
      case 't' => Some(('\t', s[1..]))
      case 'u' => UnescapeHex(s[1..])
      case _ => None
  }

  function UnescapeHex(s: string): (r: Option<(char, string)>)
    ensures r.Some? ==> |r.value.1| <= |s|
  {
    if |s| < 4 then None
    else
      var a, b, c, d := HexValue(s[0]), HexValue(s[1]), HexValue(s[2]), HexValue(s[3]);
      if a.None? || b.None? || c.None? || d.None? then None
      else
        var code := a.value * 4096 + b.value * 256 + c.value * 16 + d.value;
        if 0xD800 <= code < 0xE000 then None else Some((code as char, s[4..]))
  }

  /** The characters up to the closing quote. */
  function ParseText(s: string): (r: Option<(string, string)>)
    ensures r.Some? ==> |r.value.1| < |s|
    decreases |s|
  {
    if s == "" || s[0] < ' ' then None
    else if s[0] == '"' then Some(("", s[1..]))
    else
      var first := if s[0] == '\\' then Unescape(s[1..]) else Some((s[0], s[1..]));
      if first.None? then None
      else
        var others := ParseText(first.value.1);
        if others.None? then None else Some(([first.value.0] + others.value.0, others.value.1))
  }

  /** The digits a text begins with, after those already read. */
  function ParseDigits(s: string, n: nat): (r: (nat, string))
    ensures |r.1| <= |s|
  {
    if s != "" && IsDigit(s[0]) then ParseDigits(s[1..], n * 10 + (s[0] as int - '0' as int)) else (n, s)
  }

  /** An integer without leading zeros. */
  function ParseNatural(s: string): (r: Option<(nat, string)>)
    ensures r.Some? ==> |r.value.1| < |s|
  {
    if s == "" || !IsDigit(s[0]) then None
    else if s[0] == '0' then Some((0, s[1..]))
    else Some(ParseDigits(s[1..], s[0] as int - '0' as int))
  }

  function ParseNumber(s: string): (r: Option<(Json, string)>)
    ensures r.Some? ==> |r.value.1| < |s|
  {
    var negative := s != "" && s[0] == '-';
    var digits := ParseNatural(if negative then s[1..] else s);
    if digits.None? || digits.value.0 > MAX_SAFE_INTEGER then None
    else
      var n: int := digits.value.0;
      Some((Number(if negative then -n else n), digits.value.1))
  }

  function ParseLiteral(s: string, word: string, v: Json): (r: Option<(Json, string)>)
    requires word != ""
    ensures r.Some? ==> |r.value.1| < |s|
  {
    if word <= s then Some((v, s[|word|..])) else None
  }

  /** Assignment to a key: an existing member keeps its place. */
  function SetMember(members: seq<Member>, key: string, value: Json): seq<Member> {
    if members == [] then [Member(key, value)]
    else if members[0].key == key then [Member(key, value)] + members[1..]
    else [members[0]] + SetMember(members[1..], key, value)
  }

  function ParseValue(s: string): (r: Option<(Json, string)>)
    ensures r.Some? ==> |r.value.1| < |s|
    decreases |s|, 1
  {
    var t := SkipSpace(s);
    if t == "" then None
    else match t[0]
      case '"' =>
        (var text := ParseText(t[1..]);
         if text.None? then None else Some((String(text.value.0), text.value.1)))
      case '[' =>
        var u := SkipSpace(t[1..]);
        if u != "" && u[0] == ']' then Some((Array([]), u[1..])) else ParseItems(t[1..], [])
      case '{' =>
        var u := SkipSpace(t[1..]);
        if u != "" && u[0] == '}' then Some((Object([]), u[1..])) else ParseMembers(t[1..], [])
      case 'n' => ParseLiteral(t, "null", Null)
      case 't' => ParseLiteral(t, "true", Boolean(true))
      case 'f' => ParseLiteral(t, "false", Boolean(false))
      case _ => ParseNumber(t)
  }

  /** One or more items, up to the closing bracket. */
  function ParseItems(s: string, before: seq<Json>): (r: Option<(Json, string)>)
    ensures r.Some? ==> |r.value.1| < |s|
    decreases |s|, 2
  {
    var first := ParseValue(s);
    if first.None? then None
    else
      var u := SkipSpace(first.value.1);
      var items := before + [first.value.0];
      if u == "" then None
      else if u[0] == ',' then ParseItems(u[1..], items)
      else if u[0] == ']' then Some((Array(items), u[1..]))
      else None
  }

  /** One or more members, up to the closing brace. */
  function ParseMembers(s: string, before: seq<Member>): (r: Option<(Json, string)>)
    ensures r.Some? ==> |r.value.1| < |s|
    decreases |s|, 2
  {
    var t := SkipSpace(s);
    if t == "" || t[0] != '"' then None
    else
      var key := ParseText(t[1..]);
      if key.None? then None
      else
        var c := SkipSpace(key.value.1);
        if c == "" || c[0] != ':' then None
        else
          var value := ParseValue(c[1..]);
          if value.None? then None
          else
            var u := SkipSpace(value.value.1);
            var members := SetMember(before, key.value.0, value.value.0);
            if u == "" then None
            else if u[0] == ',' then ParseMembers(u[1..], members)
            else if u[0] == '}' then Some((Object(members), u[1..]))
            else None
  }

  /** `JSON.parse` of a whole text. */
  function Parse(s: string): Option<Json> {
    var r := ParseValue(s);
    if r.Some? && SkipSpace(r.value.1) == "" then Some(r.value.0) else None
  }

  /** `canonicalBytes`, as text. */
  function Encode(leq: Collation, v: Json): string {
    Print(leq, v) + "\n"
  }

  /** `decodeCanonical`: parse, print again, and compare. */
  function Decode(leq: Collation, text: string): Option<Json> {
    var v := Parse(text);
    if v.Some? && Encode(leq, v.value) == text then v else None
  }

  // ----- Round trips ----------------------------------------------------------------------------

  lemma UnescapeShort(c: char, rest: string)
    requires ShortEscape(c).Some?
    ensures Unescape([ShortEscape(c).value] + rest) == Some((c, rest))
  {
    assert ([ShortEscape(c).value] + rest)[1..] == rest;
  }

  lemma UnescapeLong(c: char, rest: string)
    requires c < ' '
    ensures Unescape(['u', '0', '0', Hex(c as int / 16), Hex(c as int % 16)] + rest) == Some((c, rest))
  {
    var n := c as int;
    var s := ['u', '0', '0', Hex(n / 16), Hex(n % 16)] + rest;
    HexRoundTrip(n / 16);
    HexRoundTrip(n % 16);
    assert s[1..] == ['0', '0', Hex(n / 16), Hex(n % 16)] + rest;
    assert s[1..][4..] == rest;
    assert n / 16 * 16 + n % 16 == n;
  }

  /** How the reader goes on after one character, escaped or plain. */
  lemma ParseTextStep(s: string, c: char, rest: string)
    requires s != "" && s[0] >= ' ' && s[0] != '"'
    requires if s[0] == '\\' then Unescape(s[1..]) == Some((c, rest)) else c == s[0] && rest == s[1..]
    ensures ParseText(s) ==
            if ParseText(rest).None? then None else Some(([c] + ParseText(rest).value.0, ParseText(rest).value.1))
  {
  }

  lemma EscapeRoundTrip(c: char, rest: string)
    ensures ParseText(Escaped(c) + rest) ==
            if ParseText(rest).None? then None else Some(([c] + ParseText(rest).value.0, ParseText(rest).value.1))
  {
    hide ParseText, Unescape;
    var s := Escaped(c) + rest;
    assert s[0] == Escaped(c)[0];
    assert s[1..] == Escaped(c)[1..] + rest;
    if ShortEscape(c).Some? {
      UnescapeShort(c, rest);
      assert Escaped(c)[1..] == [ShortEscape(c).value];
    } else if c < ' ' {
      UnescapeLong(c, rest);
      assert Escaped(c)[1..] == ['u', '0', '0', Hex(c as int / 16), Hex(c as int % 16)];
    } else {
      assert s[1..] == rest;
    }
    ParseTextStep(s, c, rest);
  }

  lemma HexRoundTrip(n: nat)
    requires n < 16
    ensures HexValue(Hex(n)) == Some(n)
  {
  }

  lemma {:induction false} TextRoundTrip(s: string, rest: string)
    ensures ParseText(EscapedText(s) + (['"'] + rest)) == Some((s, rest))
  {
    if s == "" {
      assert EscapedText(s) + (['"'] + rest) == ['"'] + rest;
      assert (['"'] + rest)[1..] == rest;
    } else {
      TextRoundTrip(s[1..], rest);
      hide ParseText, Escaped;
      assert [s[0]] + s[1..] == s;
      EscapeRoundTrip(s[0], EscapedText(s[1..]) + (['"'] + rest));
      assert EscapedText(s) + (['"'] + rest) == Escaped(s[0]) + (EscapedText(s[1..]) + (['"'] + rest));
    }
  }

  /** What may follow a number. */
  predicate Stops(rest: string) {
    rest == "" || !IsDigit(rest[0])
  }

  lemma {:induction false} DigitsRoundTrip(n: nat, rest: string)
    ensures ParseDigits(Numeral(n) + rest, 0) == ParseDigits(rest, n)
  {
    var d := DigitOf(n % 10);
    assert ([d] + rest)[1..] == rest;
    if n < 10 {
      assert Numeral(n) == [d];
    } else {
      DigitsRoundTrip(n / 10, [d] + rest);
      assert Numeral(n) + rest == Numeral(n / 10) + ([d] + rest);
    }
  }

  lemma {:induction false} NumeralStart(n: nat)
    ensures IsDigit(Numeral(n)[0]) && (Numeral(n)[0] == '0' <==> n == 0) && (n == 0 ==> Numeral(n) == "0")
  {
    if n >= 10 {
      NumeralStart(n / 10);
    }
  }

  lemma NaturalRoundTrip(n: nat, rest: string)
    requires Stops(rest)
    ensures ParseNatural(Numeral(n) + rest) == Some((n, rest))
  {
    NumeralStart(n);
    DigitsRoundTrip(n, rest);
    var s := Numeral(n) + rest;
    assert s[0] == Numeral(n)[0];
    if n == 0 {
      assert s[1..] == rest;
    }
  }

  lemma NumberRoundTrip(n: int, rest: string)
    requires Stops(rest) && -MAX_SAFE_INTEGER <= n <= MAX_SAFE_INTEGER
    ensures ParseNumber(Signed(n) + rest) == Some((Number(n), rest))
  {
    hide Numeral, ParseNatural;
    var s := Signed(n) + rest;
    if n < 0 {
      assert s[0] == '-' && s[1..] == Numeral(-n) + rest;
      NaturalRoundTrip(-n, rest);
    } else {
      NumeralStart(n);
      assert s[0] == Numeral(n)[0];
      NaturalRoundTrip(n, rest);
    }
  }

  function Keys(members: seq<Member>): set<string> {
    set m <- members :: m.key
  }

  predicate DistinctKeys(members: seq<Member>) {
    members == [] || (members[0].key !in Keys(members[1..]) && DistinctKeys(members[1..]))
  }

  /** A value of the kind records are made of: every key once, every number a safe integer. */
  predicate WellFormed(v: Json) {
    match v
    case Number(n) => -MAX_SAFE_INTEGER <= n <= MAX_SAFE_INTEGER
    case Array(items) => forall i :: 0 <= i < |items| ==> WellFormed(items[i])
    case Object(members) => DistinctKeys(members) && forall i :: 0 <= i < |members| ==> WellFormed(members[i].value)
    case _ => true
  }

  /** The value with the members of every object in printing order. */
  function Arranged(leq: Collation, v: Json): Json
    decreases Size(v)
  {
    match v
    case Array(items) => Array(ArrangedItems(leq, items))
    case Object(members) => Object(ArrangedMembers(leq, Sort(leq, members)))
    case _ => v
  }

  function ArrangedItems(leq: Collation, items: seq<Json>): (r: seq<Json>)
    ensures |r| == |items|
    decreases ItemsSize(items)
  {
    if items == [] then [] else [Arranged(leq, items[0])] + ArrangedItems(leq, items[1..])
  }

  function ArrangedMembers(leq: Collation, members: seq<Member>): (r: seq<Member>)
    ensures |r| == |members| && forall i :: 0 <= i < |r| ==> r[i].key == members[i].key
    decreases MembersSize(members)
  {
    if members == [] then []
    else [Member(members[0].key, Arranged(leq, members[0].value))] + ArrangedMembers(leq, members[1..])
  }

  /** A printed value begins with something that is neither a space nor a closing bracket. */
  lemma PrintStart(leq: Collation, v: Json)
    ensures var s := Print(leq, v); s != "" && !IsSpace(s[0]) && s[0] != ']' && s[0] != '}'
  {
    if v.Number? {
      NumeralStart(if v.number < 0 then -v.number else v.number);
    }
  }

  lemma SortKeeps(leq: Collation, members: seq<Member>)
    requires DistinctKeys(members) && forall i :: 0 <= i < |members| ==> WellFormed(members[i].value)
    ensures var r := Sort(leq, members);
      DistinctKeys(r) && |r| == |members| && forall i :: 0 <= i < |r| ==> WellFormed(r[i].value)
  {
    var r := Sort(leq, members);
    assert |multiset(r)| == |multiset(members)|;
    SortKeepsDistinct(leq, members);
    forall i | 0 <= i < |r| ensures WellFormed(r[i].value) {
      assert r[i] in multiset(members);
      var k :| 0 <= k < |members| && members[k] == r[i];
    }
  }

  lemma KeysCons(m: Member, members: seq<Member>)
    ensures Keys([m] + members) == {m.key} + Keys(members)
  {
    forall x ensures x in [m] + members <==> x == m || x in members {}
  }

  lemma DistinctCons(m: Member, members: seq<Member>)
    ensures DistinctKeys([m] + members) <==> m.key !in Keys(members) && DistinctKeys(members)
  {
    assert ([m] + members)[1..] == members;
  }

  lemma {:induction false} InsertKeeps(leq: Collation, m: Member, sorted: seq<Member>)
    ensures Keys(Insert(leq, m, sorted)) == Keys(sorted) + {m.key}
    ensures DistinctKeys(sorted) && m.key !in Keys(sorted) ==> DistinctKeys(Insert(leq, m, sorted))
  {
    hide Keys, DistinctKeys;
    if sorted == [] || leq(m.key, sorted[0].key) {
      assert Insert(leq, m, sorted) == [m] + sorted;
      KeysCons(m, sorted);
      DistinctCons(m, sorted);
    } else {
      var head, tail := sorted[0], sorted[1..];
      InsertKeeps(leq, m, tail);
      assert sorted == [head] + tail;
      KeysCons(head, tail);
      DistinctCons(head, tail);
      KeysCons(head, Insert(leq, m, tail));
      DistinctCons(head, Insert(leq, m, tail));
    }
  }

  lemma {:induction false} SortKeepsDistinct(leq: Collation, members: seq<Member>)
    ensures Keys(Sort(leq, members)) == Keys(members)
    ensures DistinctKeys(members) ==> DistinctKeys(Sort(leq, members))
  {
    hide Keys, DistinctKeys;
    if members != [] {
      var head, tail := members[0], members[1..];
      SortKeepsDistinct(leq, tail);
      InsertKeeps(leq, head, Sort(leq, tail));
      assert members == [head] + tail;
      KeysCons(head, tail);
      DistinctCons(head, tail);
    }
  }

  // One step of the reader for each thing the printer can have written.

  lemma ReadWord(v: Json, word: string, rest: string)
    requires (v == Null && word == "null") || (v == Boolean(true) && word == "true") ||
              (v == Boolean(false) && word == "false")
    ensures ParseValue(word + rest) == Some((v, rest))
  {
    var s := word + rest;
    assert s[0] == word[0];
    assert SkipSpace(s) == s;
    assert word <= s && s[|word|..] == rest;
  }

  lemma ReadNumber(n: int, rest: string)
    requires WellFormed(Number(n)) && Stops(rest)
    ensures ParseValue(Signed(n) + rest) == Some((Number(n), rest))
  {
    NumberRoundTrip(n, rest);
    NumeralStart(if n < 0 then -n else n);
    hide ParseNumber;
    var s := Signed(n) + rest;
    assert s[0] == Signed(n)[0];
  }

  lemma ReadString(text: string, rest: string)
    ensures ParseValue(Quoted(text) + rest) == Some((String(text), rest))
  {
    TextRoundTrip(text, rest);
    hide ParseText, EscapedText;
    var s := Quoted(text) + rest;
    assert s[0] == '"' && SkipSpace(s) == s;
    assert s[1..] == EscapedText(text) + (['"'] + rest);
  }

  lemma ReadEmptyArray(rest: string)
    ensures ParseValue("[]" + rest) == Some((Array([]), rest))
  {
    var s := "[]" + rest;
    assert s[1..] == "]" + rest;
    assert s[1..][1..] == rest;
    assert SkipSpace(s) == s && SkipSpace(s[1..]) == s[1..];
  }

  lemma ReadArray(inner: string)
    requires inner != "" && !IsSpace(inner[0]) && inner[0] != ']'
    ensures ParseValue("[" + inner) == ParseItems(inner, [])
  {
    var s := "[" + inner;
    assert s[1..] == inner;
    assert SkipSpace(s) == s && SkipSpace(inner) == inner;
    hide ParseItems;
  }

  lemma ReadEmptyObject(rest: string)
    ensures ParseValue("{}" + rest) == Some((Object([]), rest))
  {
    var s := "{}" + rest;
    assert s[1..] == "}" + rest;
    assert s[1..][1..] == rest;
    assert SkipSpace(s) == s && SkipSpace(s[1..]) == s[1..];
  }

  lemma ReadObject(inner: string)
    requires inner != "" && inner[0] == '"'
    ensures ParseValue("{" + inner) == ParseMembers(inner, [])
  {
    var s := "{" + inner;
    assert s[1..] == inner;
    assert SkipSpace(s) == s && SkipSpace(inner) == inner;
    hide ParseMembers;
  }

  lemma ReadItem(s: string, before: seq<Json>, v: Json, rest: string)
    requires ParseValue(s) == Some((v, rest)) && rest != "" && (rest[0] == ',' || rest[0] == ']')
    ensures ParseItems(s, before) ==
            if rest[0] == ',' then ParseItems(rest[1..], before + [v]) else Some((Array(before + [v]), rest[1..]))
  {
    assert SkipSpace(rest) == rest;
    hide ParseValue;
  }

  lemma ReadMember(s: string, before: seq<Member>, key: string, text: string, v: Json, rest: string)
    requires s == Quoted(key) + (":" + text)
    requires ParseValue(text) == Some((v, rest)) && rest != "" && (rest[0] == ',' || rest[0] == '}')
    ensures ParseMembers(s, before) ==
            var members := SetMember(before, key, v);
            if rest[0] == ',' then ParseMembers(rest[1..], members) else Some((Object(members), rest[1..]))
  {
    var afterKey := ":" + text;
    assert s[0] == '"' && SkipSpace(s) == s;
    assert s[1..] == EscapedText(key) + (['"'] + afterKey);
    TextRoundTrip(key, afterKey);
    assert SkipSpace(afterKey) == afterKey && afterKey[1..] == text && SkipSpace(rest) == rest;
    hide ParseText, ParseValue;
  }

  lemma PrintUnfolds(leq: Collation, v: Json)
    ensures v.Array? && v.items != [] ==> Print(leq, v) == "[" + PrintItems(leq, v.items) + "]"
    ensures v.Object? && v.members != [] ==>
              Sort(leq, v.members) != [] && Print(leq, v) == "{" + PrintMembers(leq, Sort(leq, v.members)) + "}"
    ensures v == Array([]) ==> Print(leq, v) == "[]"
    ensures v == Object([]) ==> Print(leq, v) == "{}"
  {
  }

  lemma PrintItemsUnfolds(leq: Collation, items: seq<Json>)
    requires items != []
    ensures PrintItems(leq, items) ==
            Print(leq, items[0]) + if |items| == 1 then "" else "," + PrintItems(leq, items[1..])
  {
  }

  lemma PrintMembersUnfolds(leq: Collation, members: seq<Member>)
    requires members != []
    ensures PrintMembers(leq, members) ==
            Quoted(members[0].key) + ":" + Print(leq, members[0].value) +
            if |members| == 1 then "" else "," + PrintMembers(leq, members[1..])
    ensures PrintMembers(leq, members)[0] == '"'
  {
  }

  /** A printed value, whatever follows it, is read back as the arranged value. */
  lemma {:induction false} PrintedValue(leq: Collation, v: Json, rest: string)
    requires WellFormed(v) && Stops(rest)
    ensures ParseValue(Print(leq, v) + rest) == Some((Arranged(leq, v), rest))
    decreases Size(v), 1
  {
    hide ParseValue, ParseItems, ParseMembers, PrintItems, PrintMembers, Sort, Quoted, Signed;
    match v {
      case Number(n) => ReadNumber(n, rest);
      case String(text) => ReadString(text, rest);
      case Array(items) => PrintedArray(leq, items, rest);
      case Object(members) => PrintedObject(leq, members, rest);
      case Null => ReadWord(v, "null", rest);
      case Boolean(flag) => ReadWord(v, if flag then "true" else "false", rest);
    }
  }

  lemma {:induction false} PrintedArray(leq: Collation, items: seq<Json>, rest: string)
    requires forall i :: 0 <= i < |items| ==> WellFormed(items[i])
    ensures ParseValue(Print(leq, Array(items)) + rest) == Some((Array(ArrangedItems(leq, items)), rest))
    decreases 1 + ItemsSize(items), 0
  {
    hide Print, PrintItems, ParseValue, ParseItems;
    PrintUnfolds(leq, Array(items));
    if items == [] {
      ReadEmptyArray(rest);
    } else {
      var inner := PrintItems(leq, items) + ("]" + rest);
      PrintItemsUnfolds(leq, items);
      PrintStart(leq, items[0]);
      assert Print(leq, Array(items)) + rest == "[" + inner;
      ReadArray(inner);
      PrintedItems(leq, items, [], rest);
      assert [] + ArrangedItems(leq, items) == ArrangedItems(leq, items);
    }
  }

  lemma {:induction false} PrintedItems(leq: Collation, items: seq<Json>, before: seq<Json>, rest: string)
    requires items != [] && forall i :: 0 <= i < |items| ==> WellFormed(items[i])
    ensures ParseItems(PrintItems(leq, items) + ("]" + rest), before) ==
            Some((Array(before + ArrangedItems(leq, items)), rest))
    decreases ItemsSize(items), 2
  {
    hide Print, PrintItems, ParseValue, ParseItems, Arranged, ArrangedItems, WellFormed;
    var first, tail := items[0], items[1..];
    var now := Arranged(leq, first);
    PrintItemsUnfolds(leq, items);
    ArrangedItemsUnfold(leq, items);
    if |items| == 1 {
      PrintedValue(leq, first, "]" + rest);
      ReadItem(Print(leq, first) + ("]" + rest), before, now, "]" + rest);
      LastPart(Print(leq, first), "]", rest);
    } else {
      var next := PrintItems(leq, tail);
      var others := "," + (next + ("]" + rest));
      PrintedValue(leq, first, others);
      ReadItem(Print(leq, first) + others, before, now, others);
      FirstPart(Print(leq, first), next, "]" + rest);
      PrintedItems(leq, tail, before + [now], rest);
      assert before + [now] + ArrangedItems(leq, tail) == before + ([now] + ArrangedItems(leq, tail));
    }
  }

  // Concatenation regrouped around a separator.

  lemma LastPart(a: string, close: string, rest: string)
    requires |close| == 1
    ensures a + "" + (close + rest) == a + (close + rest) && (close + rest)[1..] == rest
  {
    assert a + "" == a;
  }

  lemma FirstPart(a: string, next: string, end: string)
    ensures (a + ("," + next)) + end == a + ("," + (next + end)) && ("," + (next + end))[1..] == next + end
  {
  }

  lemma ArrangedItemsUnfold(leq: Collation, items: seq<Json>)
    requires items != []
    ensures ArrangedItems(leq, items) == [Arranged(leq, items[0])] + ArrangedItems(leq, items[1..])
    ensures |items| == 1 ==> ArrangedItems(leq, items) == [Arranged(leq, items[0])]
  {
    hide Arranged;
  }

  lemma {:induction false} PrintedObject(leq: Collation, members: seq<Member>, rest: string)
    requires DistinctKeys(members) && forall i :: 0 <= i < |members| ==> WellFormed(members[i].value)
    ensures ParseValue(Print(leq, Object(members)) + rest) ==
            Some((Object(ArrangedMembers(leq, Sort(leq, members))), rest))
    decreases 1 + MembersSize(members), 0
  {
    hide Print, PrintMembers, ParseValue, ParseMembers, DistinctKeys, WellFormed;
    PrintUnfolds(leq, Object(members));
    if members == [] {
      ReadEmptyObject(rest);
    } else {
      SortKeeps(leq, members);
      var sorted := Sort(leq, members);
      hide Sort;
      PrintMembersUnfolds(leq, sorted);
      var inner := PrintMembers(leq, sorted) + ("}" + rest);
      assert Print(leq, Object(members)) + rest == "{" + inner;
      ReadObject(inner);
      PrintedMembers(leq, sorted, [], rest);
      assert [] + ArrangedMembers(leq, sorted) == ArrangedMembers(leq, sorted);
    }
  }

  lemma {:induction false} SetNewMember(members: seq<Member>, key: string, value: Json)
    requires key !in Keys(members)
    ensures SetMember(members, key, value) == members + [Member(key, value)]
  {
    if members != [] {
      assert members == [members[0]] + members[1..];
      KeysCons(members[0], members[1..]);
      SetNewMember(members[1..], key, value);
    }
  }

  lemma KeysAppend(members: seq<Member>, m: Member)
    ensures Keys(members + [m]) == Keys(members) + {m.key}
  {
    forall x ensures x in members + [m] <==> x == m || x in members {}
  }

  lemma {:induction false} PrintedMembers(leq: Collation, members: seq<Member>, before: seq<Member>, rest: string)
    requires members != [] && DistinctKeys(members) && Keys(before) !! Keys(members)
    requires forall i :: 0 <= i < |members| ==> WellFormed(members[i].value)
    ensures ParseMembers(PrintMembers(leq, members) + ("}" + rest), before) ==
            Some((Object(before + ArrangedMembers(leq, members)), rest))
    decreases MembersSize(members), 2
  {
    hide Print, PrintMembers, ParseValue, ParseMembers, Arranged, WellFormed, Quoted, SetMember, Keys, DistinctKeys;
    PrintMembersUnfolds(leq, members);
    var first, tail := members[0], members[1..];
    assert members == [first] + tail;
    KeysCons(first, tail);
    DistinctCons(first, tail);
    var now := Member(first.key, Arranged(leq, first.value));
    SetNewMember(before, first.key, now.value);
    KeysAppend(before, now);
    var s := PrintMembers(leq, members) + ("}" + rest);
    var others := if |members| == 1 then "}" + rest else "," + (PrintMembers(leq, tail) + ("}" + rest));
    var text := Print(leq, first.value) + others;
    assert s == Quoted(first.key) + (":" + text);
    PrintedValue(leq, first.value, others);
    ReadMember(s, before, first.key, text, now.value, others);
    assert ArrangedMembers(leq, members) == [now] + ArrangedMembers(leq, tail);
    assert before + [now] + ArrangedMembers(leq, tail) == before + ArrangedMembers(leq, members);
    if |members| == 1 {
      assert others[1..] == rest;
      assert before + ArrangedMembers(leq, members) == before + [now];
    } else {
      assert others[1..] == PrintMembers(leq, tail) + ("}" + rest);
      PrintedMembers(leq, tail, before + [now], rest);
    }
  }

  // ----- What a value means, whatever the order of its members ------------------------------------

  datatype Tree =
    | NullTree | BooleanTree(flag: bool) | NumberTree(number: int) | StringTree(text: string)
    | ArrayTree(items: seq<Tree>) | ObjectTree(members: map<string, Tree>)

  function Meaning(v: Json): Tree {
    match v
    case Null => NullTree
    case Boolean(flag) => BooleanTree(flag)
    case Number(n) => NumberTree(n)
    case String(text) => StringTree(text)
    case Array(items) => ArrayTree(ItemsMeaning(items))
    case Object(members) => ObjectTree(MembersMeaning(members))
  }

  function ItemsMeaning(items: seq<Json>): (r: seq<Tree>)
    ensures |r| == |items|
  {
    if items == [] then [] else [Meaning(items[0])] + ItemsMeaning(items[1..])
  }

  function MembersMeaning(members: seq<Member>): map<string, Tree> {
    if members == [] then map[] else MembersMeaning(members[1..])[members[0].key := Meaning(members[0].value)]
  }

  lemma {:induction false} MeaningKeys(members: seq<Member>)
    ensures MembersMeaning(members).Keys == Keys(members)
  {
    if members != [] {
      MeaningKeys(members[1..]);
      KeysCons(members[0], members[1..]);
      assert members == [members[0]] + members[1..];
    }
  }

  lemma MeaningCons(m: Member, members: seq<Member>)
    ensures MembersMeaning([m] + members) == MembersMeaning(members)[m.key := Meaning(m.value)]
  {
    assert ([m] + members)[1..] == members;
  }

  lemma {:induction false} InsertMeaning(leq: Collation, m: Member, sorted: seq<Member>)
    requires m.key !in Keys(sorted)
    ensures MembersMeaning(Insert(leq, m, sorted)) == MembersMeaning(sorted)[m.key := Meaning(m.value)]
  {
    hide Keys, MembersMeaning, Meaning;
    if sorted == [] || leq(m.key, sorted[0].key) {
      assert Insert(leq, m, sorted) == [m] + sorted;
      MeaningCons(m, sorted);
    } else {
      var head, tail := sorted[0], sorted[1..];
      assert sorted == [head] + tail;
      KeysCons(head, tail);
      InsertMeaning(leq, m, tail);
      MeaningCons(head, Insert(leq, m, tail));
      MeaningCons(head, tail);
    }
  }

  lemma {:induction false} SortMeaning(leq: Collation, members: seq<Member>)
    requires DistinctKeys(members)
    ensures MembersMeaning(Sort(leq, members)) == MembersMeaning(members)
  {
    if members != [] {
      SortMeaning(leq, members[1..]);
      SortKeepsDistinct(leq, members[1..]);
      InsertMeaning(leq, members[0], Sort(leq, members[1..]));
    }
  }

  /** Arranging the members changes nothing that is meant. */
  lemma {:induction false} ArrangedMeaning(leq: Collation, v: Json)
    requires WellFormed(v)
    ensures Meaning(Arranged(leq, v)) == Meaning(v)
    decreases Size(v)
  {
    match v {
      case Array(items) => ArrangedItemsMeaning(leq, items);
      case Object(members) =>
        SortKeeps(leq, members);
        SortMeaning(leq, members);
        ArrangedMembersMeaning(leq, Sort(leq, members));
      case _ =>
    }
  }

  lemma {:induction false} ArrangedItemsMeaning(leq: Collation, items: seq<Json>)
    requires forall i :: 0 <= i < |items| ==> WellFormed(items[i])
    ensures ItemsMeaning(ArrangedItems(leq, items)) == ItemsMeaning(items)
    decreases ItemsSize(items)
  {
    if items != [] {
      hide Meaning, Arranged, WellFormed;
      ArrangedMeaning(leq, items[0]);
      ArrangedItemsMeaning(leq, items[1..]);
      assert ArrangedItems(leq, items)[1..] == ArrangedItems(leq, items[1..]);
    }
  }

  lemma {:induction false} ArrangedMembersMeaning(leq: Collation, members: seq<Member>)
    requires forall i :: 0 <= i < |members| ==> WellFormed(members[i].value)
    ensures MembersMeaning(ArrangedMembers(leq, members)) == MembersMeaning(members)
    decreases MembersSize(members)
  {
    if members != [] {
      hide Meaning, Arranged, WellFormed;
      ArrangedMeaning(leq, members[0].value);
      ArrangedMembersMeaning(leq, members[1..]);
      assert ArrangedMembers(leq, members)[1..] == ArrangedMembers(leq, members[1..]);
    }
  }

  // ----- Sorted members -------------------------------------------------------------------------

  ghost predicate Ascending(leq: Collation, members: seq<Member>) {
    members == [] || ((forall k :: k in Keys(members[1..]) ==> leq(members[0].key, k)) && Ascending(leq, members[1..]))
  }

  lemma AscendingCons(leq: Collation, m: Member, members: seq<Member>)
    ensures Ascending(leq, [m] + members) <==>
              (forall k :: k in Keys(members) ==> leq(m.key, k)) && Ascending(leq, members)
  {
    assert ([m] + members)[1..] == members;
  }

  lemma {:induction false} InsertAscends(leq: Collation, m: Member, sorted: seq<Member>)
    requires Sorts(leq) && Ascending(leq, sorted)
    ensures Ascending(leq, Insert(leq, m, sorted))
  {
    if sorted == [] {
      AscendingCons(leq, m, []);
    } else {
      var head, tail := sorted[0], sorted[1..];
      assert sorted == [head] + tail;
      KeysCons(head, tail);
      if leq(m.key, head.key) {
        AscendingCons(leq, m, sorted);
      } else {
        InsertAscends(leq, m, tail);
        InsertKeeps(leq, m, tail);
        AscendingCons(leq, head, Insert(leq, m, tail));
      }
    }
  }

  lemma {:induction false} SortAscends(leq: Collation, members: seq<Member>)
    requires Sorts(leq)
    ensures Ascending(leq, Sort(leq, members))
  {
    if members != [] {
      SortAscends(leq, members[1..]);
      InsertAscends(leq, members[0], Sort(leq, members[1..]));
    }
  }

  lemma {:induction false} SortIsIdle(leq: Collation, members: seq<Member>)
    requires Ascending(leq, members)
    ensures Sort(leq, members) == members
  {
    if members != [] {
      var tail := members[1..];
      SortIsIdle(leq, tail);
      assert members == [members[0]] + tail;
      assert tail != [] ==> tail[0].key in Keys(tail) by { if tail != [] { assert tail[0] in tail; } }
    }
  }

  lemma {:induction false} ArrangedAscends(leq: Collation, members: seq<Member>)
    requires Ascending(leq, members)
    ensures Ascending(leq, ArrangedMembers(leq, members)) && Keys(ArrangedMembers(leq, members)) == Keys(members)
  {
    if members != [] {
      hide Arranged;
      var head, tail := members[0], members[1..];
      ArrangedAscends(leq, tail);
      assert members == [head] + tail;
      KeysCons(head, tail);
      var now := Member(head.key, Arranged(leq, head.value));
      assert ArrangedMembers(leq, members) == [now] + ArrangedMembers(leq, tail);
      KeysCons(now, ArrangedMembers(leq, tail));
      AscendingCons(leq, now, ArrangedMembers(leq, tail));
    }
  }

  /** An arranged value prints as the value it was arranged from. */
  lemma {:induction false} ArrangedPrints(leq: Collation, v: Json)
    requires Sorts(leq)
    ensures Print(leq, Arranged(leq, v)) == Print(leq, v)
    decreases Size(v), 1
  {
    match v {
      case Array(items) =>
        hide Print, PrintItems, ArrangedItems;
        PrintUnfolds(leq, v);
        PrintUnfolds(leq, Array(ArrangedItems(leq, items)));
        if items != [] {
          ArrangedItemsPrint(leq, items);
        }
      case Object(members) =>
        hide Print, PrintMembers, ArrangedMembers;
        PrintUnfolds(leq, v);
        var sorted := Sort(leq, members);
        PrintUnfolds(leq, Object(ArrangedMembers(leq, sorted)));
        SortAscends(leq, members);
        ArrangedAscends(leq, sorted);
        SortIsIdle(leq, ArrangedMembers(leq, sorted));
        hide Sort;
        if members != [] {
          ArrangedMembersPrint(leq, sorted);
        } else {
          assert sorted == [];
        }
      case _ =>
    }
  }

  lemma {:induction false} ArrangedItemsPrint(leq: Collation, items: seq<Json>)
    requires Sorts(leq) && items != []
    ensures PrintItems(leq, ArrangedItems(leq, items)) == PrintItems(leq, items)
    decreases ItemsSize(items), 0
  {
    hide Print, PrintItems, Arranged;
    var arranged := ArrangedItems(leq, items);
    PrintItemsUnfolds(leq, items);
    PrintItemsUnfolds(leq, arranged);
    ArrangedPrints(leq, items[0]);
    assert arranged[1..] == ArrangedItems(leq, items[1..]);
    if |items| > 1 {
      ArrangedItemsPrint(leq, items[1..]);
    }
  }

  lemma {:induction false} ArrangedMembersPrint(leq: Collation, members: seq<Member>)
    requires Sorts(leq) && members != []
    ensures PrintMembers(leq, ArrangedMembers(leq, members)) == PrintMembers(leq, members)
    decreases MembersSize(members), 0
  {
    hide Print, PrintMembers, Arranged;
    var arranged := ArrangedMembers(leq, members);
    PrintMembersUnfolds(leq, members);
    PrintMembersUnfolds(leq, arranged);
    ArrangedPrints(leq, members[0].value);
    assert arranged[1..] == ArrangedMembers(leq, members[1..]);
    if |members| > 1 {
      ArrangedMembersPrint(leq, members[1..]);
    }
  }

  // ----- Theorems -------------------------------------------------------------------------------

  lemma SpaceEnds(leq: Collation, v: Json)
    requires WellFormed(v)
    ensures Parse(Print(leq, v)) == Some(Arranged(leq, v)) && Parse(Encode(leq, v)) == Some(Arranged(leq, v))
  {
    PrintedValue(leq, v, "");
    PrintedValue(leq, v, "\n");
    hide ParseValue, Print, Arranged;
    assert Print(leq, v) + "" == Print(leq, v);
    assert SkipSpace("\n") == SkipSpace("");
  }

  /** Decoding what was encoded gives the value back, up to the order of members. */
  lemma DecodeEncode(leq: Collation, v: Json)
    requires Sorts(leq) && WellFormed(v)
    ensures Decode(leq, Encode(leq, v)).Some?
    ensures Meaning(Decode(leq, Encode(leq, v)).value) == Meaning(v)
    ensures Encode(leq, Decode(leq, Encode(leq, v)).value) == Encode(leq, v)
  {
    SpaceEnds(leq, v);
    ArrangedPrints(leq, v);
    ArrangedMeaning(leq, v);
  }

  /** Values that mean different things have different bytes, so equal digests mean equal records. */
  lemma EqualBytesEqualMeaning(leq: Collation, v: Json, w: Json)
    requires WellFormed(v) && WellFormed(w) && Encode(leq, v) == Encode(leq, w)
    ensures Meaning(v) == Meaning(w)
  {
    SpaceEnds(leq, v);
    SpaceEnds(leq, w);
    ArrangedMeaning(leq, v);
    ArrangedMeaning(leq, w);
  }

  function AllKeys(v: Json): set<string> {
    match v
    case Array(items) => ItemsKeys(items)
    case Object(members) => MembersKeys(members)
    case _ => {}
  }

  function ItemsKeys(items: seq<Json>): set<string> {
    if items == [] then {} else AllKeys(items[0]) + ItemsKeys(items[1..])
  }

  function MembersKeys(members: seq<Member>): set<string> {
    if members == [] then {} else {members[0].key} + AllKeys(members[0].value) + MembersKeys(members[1..])
  }

  /** No two different keys compare as equal. */
  ghost predicate NoTies(leq: Collation, keys: set<string>) {
    forall a, b :: a in keys && b in keys && leq(a, b) && leq(b, a) ==> a == b
  }

  lemma {:induction false} KeysAreAmong(members: seq<Member>)
    ensures Keys(members) <= MembersKeys(members)
  {
    if members != [] {
      KeysAreAmong(members[1..]);
      KeysCons(members[0], members[1..]);
      assert members == [members[0]] + members[1..];
    }
  }

  /** The least key of one ascending object is the least key of any other with the same keys. */
  lemma SameHead(leq: Collation, m: Member, ms: seq<Member>, n: Member, ns: seq<Member>)
    requires Ascending(leq, [m] + ms) && Ascending(leq, [n] + ns) && Sorts(leq)
    requires Keys([m] + ms) == Keys([n] + ns) && NoTies(leq, Keys([m] + ms))
    ensures m.key == n.key
  {
    KeysCons(m, ms);
    KeysCons(n, ns);
    AscendingCons(leq, m, ms);
    AscendingCons(leq, n, ns);
    assert m.key in Keys([n] + ns) && n.key in Keys([m] + ms);
    assert leq(m.key, n.key) && leq(n.key, m.key);
  }

  /** Values that mean the same are arranged the same, as long as no two of their keys tie. */
  lemma {:induction false} SameMeaningSameArrangement(leq: Collation, v: Json, w: Json, keys: set<string>)
    requires Sorts(leq) && NoTies(leq, keys) && AllKeys(v) <= keys && AllKeys(w) <= keys
    requires WellFormed(v) && WellFormed(w) && Meaning(v) == Meaning(w)
    ensures Arranged(leq, v) == Arranged(leq, w)
    decreases Size(v), 1
  {
    match v {
      case Array(items) => SameItems(leq, items, w.items, keys);
      case Object(members) =>
        var ms, ns := Sort(leq, members), Sort(leq, w.members);
        PrepareMembers(leq, members, keys);
        PrepareMembers(leq, w.members, keys);
        hide Sort;
        SameMembers(leq, ms, ns, keys);
      case _ =>
    }
  }

  lemma PrepareMembers(leq: Collation, members: seq<Member>, keys: set<string>)
    requires Sorts(leq) && WellFormed(Object(members)) && MembersKeys(members) <= keys
    ensures var r := Sort(leq, members);
      && Ascending(leq, r) && DistinctKeys(r) && MembersMeaning(r) == MembersMeaning(members)
      && MembersKeys(r) <= keys && forall i :: 0 <= i < |r| ==> WellFormed(r[i].value)
  {
    SortAscends(leq, members);
    SortKeeps(leq, members);
    SortMeaning(leq, members);
    SortAllKeys(leq, members);
  }

  lemma {:induction false} InsertAllKeys(leq: Collation, m: Member, sorted: seq<Member>)
    ensures MembersKeys(Insert(leq, m, sorted)) == {m.key} + AllKeys(m.value) + MembersKeys(sorted)
  {
    hide AllKeys;
    if sorted == [] || leq(m.key, sorted[0].key) {
      assert Insert(leq, m, sorted) == [m] + sorted;
      assert ([m] + sorted)[1..] == sorted;
    } else {
      var tail := sorted[1..];
      InsertAllKeys(leq, m, tail);
      assert Insert(leq, m, sorted) == [sorted[0]] + Insert(leq, m, tail);
      assert ([sorted[0]] + Insert(leq, m, tail))[1..] == Insert(leq, m, tail);
    }
  }

  lemma {:induction false} SortAllKeys(leq: Collation, members: seq<Member>)
    ensures MembersKeys(Sort(leq, members)) == MembersKeys(members)
  {
    if members != [] {
      SortAllKeys(leq, members[1..]);
      InsertAllKeys(leq, members[0], Sort(leq, members[1..]));
    }
  }

  lemma {:induction false} SameItems(leq: Collation, items: seq<Json>, others: seq<Json>, keys: set<string>)
    requires Sorts(leq) && NoTies(leq, keys) && ItemsKeys(items) <= keys && ItemsKeys(others) <= keys
    requires forall i :: 0 <= i < |items| ==> WellFormed(items[i])
    requires forall i :: 0 <= i < |others| ==> WellFormed(others[i])
    requires ItemsMeaning(items) == ItemsMeaning(others)
    ensures ArrangedItems(leq, items) == ArrangedItems(leq, others)
    decreases ItemsSize(items), 0
  {
    assert |items| == |ItemsMeaning(items)| == |ItemsMeaning(others)| == |others|;
    if items != [] {
      hide Arranged, Meaning, AllKeys, WellFormed, Sorts, NoTies;
      assert ItemsMeaning(items)[0] == ItemsMeaning(others)[0];
      assert ItemsMeaning(items)[1..] == ItemsMeaning(items[1..]);
      assert ItemsMeaning(others)[1..] == ItemsMeaning(others[1..]);
      SameMeaningSameArrangement(leq, items[0], others[0], keys);
      SameItems(leq, items[1..], others[1..], keys);
    }
  }

  lemma {:induction false} SameMembers(leq: Collation, ms: seq<Member>, ns: seq<Member>, keys: set<string>)
    requires Sorts(leq) && NoTies(leq, keys) && MembersKeys(ms) <= keys && MembersKeys(ns) <= keys
    requires Ascending(leq, ms) && Ascending(leq, ns) && DistinctKeys(ms) && DistinctKeys(ns)
    requires forall i :: 0 <= i < |ms| ==> WellFormed(ms[i].value)
    requires forall i :: 0 <= i < |ns| ==> WellFormed(ns[i].value)
    requires MembersMeaning(ms) == MembersMeaning(ns)
    ensures ArrangedMembers(leq, ms) == ArrangedMembers(leq, ns)
    decreases MembersSize(ms), 0
  {
    MeaningKeys(ms);
    MeaningKeys(ns);
    KeysAreAmong(ms);
    NoKeys(ms);
    NoKeys(ns);
    if ms != [] {
      var m, mt, n, nt := ms[0], ms[1..], ns[0], ns[1..];
      assert ms == [m] + mt && ns == [n] + nt;
      hide Arranged, Meaning, AllKeys, WellFormed;
      SameHead(leq, m, mt, n, nt);
      SameTail(m, mt, n, nt);
      hide Sorts, NoTies, Keys, MembersMeaning, DistinctKeys;
      AscendingCons(leq, m, mt);
      AscendingCons(leq, n, nt);
      DistinctCons(m, mt);
      DistinctCons(n, nt);
      SameMeaningSameArrangement(leq, m.value, n.value, keys);
      SameMembers(leq, mt, nt, keys);
    }
  }

  lemma NoKeys(members: seq<Member>)
    ensures Keys(members) == {} <==> members == []
  {
    if members != [] {
      assert members[0] in members && members[0].key in Keys(members);
    }
  }

  lemma RemoveAdded(f: map<string, Tree>, k: string, t: Tree)
    requires k !in f
    ensures f[k := t] - {k} == f
  {
  }

  lemma SameTail(m: Member, ms: seq<Member>, n: Member, ns: seq<Member>)
    requires DistinctKeys([m] + ms) && DistinctKeys([n] + ns) && m.key == n.key
    requires MembersMeaning([m] + ms) == MembersMeaning([n] + ns)
    ensures Meaning(m.value) == Meaning(n.value) && MembersMeaning(ms) == MembersMeaning(ns)
  {
    hide Meaning, MembersMeaning, Keys, DistinctKeys;
    DistinctCons(m, ms);
    DistinctCons(n, ns);
    MeaningCons(m, ms);
    MeaningCons(n, ns);
    MeaningKeys(ms);
    MeaningKeys(ns);
    assert MembersMeaning([m] + ms)[m.key] == Meaning(m.value);
    assert MembersMeaning([n] + ns)[n.key] == Meaning(n.value);
    RemoveAdded(MembersMeaning(ms), m.key, Meaning(m.value));
    RemoveAdded(MembersMeaning(ns), n.key, Meaning(n.value));
  }

  /** Whatever values with these keys mean, the order in which their members were inserted never shows in the bytes. */
  ghost predicate OrderNeverShows(leq: Collation, keys: set<string>) {
    forall v, w ::
      WellFormed(v) && WellFormed(w) && AllKeys(v) <= keys && AllKeys(w) <= keys && Meaning(v) == Meaning(w) ==>
      Encode(leq, v) == Encode(leq, w)
  }

  lemma NoTiesHideOrder(leq: Collation, v: Json, w: Json, keys: set<string>)
    requires Sorts(leq) && NoTies(leq, keys) && AllKeys(v) <= keys && AllKeys(w) <= keys
    requires WellFormed(v) && WellFormed(w) && Meaning(v) == Meaning(w)
    ensures Encode(leq, v) == Encode(leq, w)
  {
    SameMeaningSameArrangement(leq, v, w, keys);
    ArrangedPrints(leq, v);
    ArrangedPrints(leq, w);
  }

  /** Insertion order never shows exactly when the collation tells all the keys apart. */
  lemma OrderNeverShowsIffNoTies(leq: Collation, keys: set<string>)
    requires Sorts(leq)
    ensures OrderNeverShows(leq, keys) <==> NoTies(leq, keys)
  {
    hide Sorts, WellFormed, AllKeys, Meaning, Encode, Pair;
    if NoTies(leq, keys) {
      forall v, w |
        WellFormed(v) && WellFormed(w) && AllKeys(v) <= keys && AllKeys(w) <= keys && Meaning(v) == Meaning(w)
        ensures Encode(leq, v) == Encode(leq, w)
      {
        NoTiesHideOrder(leq, v, w, keys);
      }
    }
    if OrderNeverShows(leq, keys) {
      forall a, b | a in keys && b in keys && leq(a, b) && leq(b, a) && a != b ensures false {
        TiedKeysShowOrder(leq, a, b);
      }
    }
  }

  function Pair(a: string, b: string): Json {
    Object([Member(a, Null), Member(b, Null)])
  }

  lemma DifferentArrangements(leq: Collation, v: Json, w: Json)
    requires WellFormed(v) && WellFormed(w) && Arranged(leq, v) != Arranged(leq, w)
    ensures Encode(leq, v) != Encode(leq, w)
  {
    hide *;
    SpaceEnds(leq, v);
    SpaceEnds(leq, w);
  }

  /** Two keys the collation cannot tell apart keep their insertion order, so one value has two encodings. */
  lemma TiedKeysShowOrder(leq: Collation, a: string, b: string)
    requires a != b && leq(a, b) && leq(b, a)
    ensures WellFormed(Pair(a, b)) && WellFormed(Pair(b, a))
    ensures AllKeys(Pair(a, b)) == {a, b} == AllKeys(Pair(b, a))
    ensures Meaning(Pair(a, b)) == Meaning(Pair(b, a))
    ensures Encode(leq, Pair(a, b)) != Encode(leq, Pair(b, a))
  {
    hide *;
    PairsMeanTheSame(a, b);
    PairArranged(leq, a, b);
    PairArranged(leq, b, a);
    PairsDiffer(a, b);
    DifferentArrangements(leq, Pair(a, b), Pair(b, a));
  }

  lemma PairsDiffer(a: string, b: string)
    requires a != b
    ensures Pair(a, b) != Pair(b, a)
  {
    assert Pair(a, b).members[0].key == a && Pair(b, a).members[0].key == b;
  }

  lemma PairsMeanTheSame(a: string, b: string)
    requires a != b
    ensures WellFormed(Pair(a, b)) && WellFormed(Pair(b, a))
    ensures AllKeys(Pair(a, b)) == {a, b} == AllKeys(Pair(b, a))
    ensures Meaning(Pair(a, b)) == Meaning(Pair(b, a))
  {
    PairMeaning(a, b);
    PairMeaning(b, a);
    hide WellFormed, AllKeys, Meaning;
    assert map[a := NullTree, b := NullTree] == map[b := NullTree, a := NullTree];
  }

  lemma PairMeaning(a: string, b: string)
    requires a != b
    ensures WellFormed(Pair(a, b)) && AllKeys(Pair(a, b)) == {a, b}
    ensures Meaning(Pair(a, b)) == ObjectTree(map[a := NullTree, b := NullTree])
  {
    var x, y := Member(a, Null), Member(b, Null);
    assert [x, y] == [x] + [y] && [y] == [y] + [];
    MeaningCons(x, [y]);
    MeaningCons(y, []);
    KeysCons(y, []);
    DistinctCons(x, [y]);
    DistinctCons(y, []);
    assert [x, y][1..] == [y] && [y][1..] == [];
    assert MembersKeys([y]) == {b};
  }

  lemma PairArranged(leq: Collation, a: string, b: string)
    requires a != b && leq(a, b)
    ensures Arranged(leq, Pair(a, b)) == Pair(a, b)
  {
    PairSorts(leq, a, b);
    var x, y := Member(a, Null), Member(b, Null);
    hide Sort;
    assert [x, y][1..] == [y] && [y][1..] == [];
    assert ArrangedMembers(leq, [y]) == [y];
    assert ArrangedMembers(leq, [x, y]) == [x, y];
  }

  lemma PairSorts(leq: Collation, a: string, b: string)
    requires leq(a, b)
    ensures Sort(leq, [Member(a, Null), Member(b, Null)]) == [Member(a, Null), Member(b, Null)]
  {
    var x, y := Member(a, Null), Member(b, Null);
    assert [x, y][1..] == [y] && [y][1..] == [];
    assert Sort(leq, [y]) == Insert(leq, y, []) == [y];
    assert Sort(leq, [x, y]) == Insert(leq, x, [y]);
  }

  // ----- What the strict decoder accepts --------------------------------------------------------

  lemma {:induction false} SetMemberKeeps(members: seq<Member>, key: string, value: Json)
    requires DistinctKeys(members) && WellFormed(value)
    requires forall i :: 0 <= i < |members| ==> WellFormed(members[i].value)
    ensures var r := SetMember(members, key, value);
      && DistinctKeys(r) && Keys(r) == Keys(members) + {key} && forall i :: 0 <= i < |r| ==> WellFormed(r[i].value)
  {
    hide WellFormed, Keys, DistinctKeys;
    var now := Member(key, value);
    if members == [] {
      assert SetMember(members, key, value) == [now] + [];
      KeysCons(now, []);
      DistinctCons(now, []);
      NoKeys([]);
      DistinctNone();
    } else {
      var head, tail := members[0], members[1..];
      assert members == [head] + tail;
      KeysCons(head, tail);
      DistinctCons(head, tail);
      KeysCons(now, tail);
      DistinctCons(now, tail);
      if head.key != key {
        SetMemberKeeps(tail, key, value);
        KeysCons(head, SetMember(tail, key, value));
        DistinctCons(head, SetMember(tail, key, value));
      }
    }
  }

  lemma DistinctNone()
    ensures DistinctKeys([])
  {
  }

  /** Whatever text is parsed, the value has every key once and only safe integers. */
  lemma {:induction false} ParsedValue(s: string)
    requires ParseValue(s).Some?
    ensures WellFormed(ParseValue(s).value.0)
    decreases |s|, 1
  {
    hide ParseText, ParseItems, ParseMembers, ParseDigits, ParseLiteral;
    var t := SkipSpace(s);
    if t[0] == '[' {
      var u := SkipSpace(t[1..]);
      if !(u != "" && u[0] == ']') {
        ParsedItems(t[1..], []);
      }
    } else if t[0] == '{' {
      var u := SkipSpace(t[1..]);
      DistinctNone();
      if !(u != "" && u[0] == '}') {
        ParsedMembers(t[1..], []);
      }
    } else if t[0] != '"' {
      ParsedScalar(t);
    }
  }

  lemma ParsedScalar(t: string)
    ensures ParseLiteral(t, "null", Null).Some? ==> WellFormed(ParseLiteral(t, "null", Null).value.0)
    ensures ParseLiteral(t, "true", Boolean(true)).Some? ==> WellFormed(ParseLiteral(t, "true", Boolean(true)).value.0)
    ensures ParseLiteral(t, "false", Boolean(false)).Some? ==>
              WellFormed(ParseLiteral(t, "false", Boolean(false)).value.0)
    ensures ParseNumber(t).Some? ==> WellFormed(ParseNumber(t).value.0)
  {
  }

  lemma {:induction false} ParsedItems(s: string, before: seq<Json>)
    requires ParseItems(s, before).Some? && forall i :: 0 <= i < |before| ==> WellFormed(before[i])
    ensures WellFormed(ParseItems(s, before).value.0)
    decreases |s|, 2
  {
    ParsedValue(s);
    hide ParseValue;
    var first := ParseValue(s);
    var u := SkipSpace(first.value.1);
    if u[0] == ',' {
      ParsedItems(u[1..], before + [first.value.0]);
    }
  }

  lemma {:induction false} ParsedMembers(s: string, before: seq<Member>)
    requires ParseMembers(s, before).Some?
    requires DistinctKeys(before) && forall i :: 0 <= i < |before| ==> WellFormed(before[i].value)
    ensures WellFormed(ParseMembers(s, before).value.0)
    decreases |s|, 2
  {
    hide ParseValue, ParseText, SetMember, DistinctKeys;
    var t := SkipSpace(s);
    var key := ParseText(t[1..]).value;
    var c := SkipSpace(key.1);
    ParsedValue(c[1..]);
    var value := ParseValue(c[1..]).value;
    var u := SkipSpace(value.1);
    SetMemberKeeps(before, key.0, value.0);
    if u[0] == ',' {
      ParsedMembers(u[1..], SetMember(before, key.0, value.0));
    }
  }

  /** The strict decoder accepts exactly the encodings of well-formed values, and nothing else. */
  lemma DecodesExactlyEncodings(leq: Collation, text: string)
    requires Sorts(leq)
    ensures Decode(leq, text).Some? <==> exists v :: WellFormed(v) && Encode(leq, v) == text
  {
    if Decode(leq, text).Some? {
      ParsedValue(text);
      assert WellFormed(Decode(leq, text).value) && Encode(leq, Decode(leq, text).value) == text;
    }
    if v :| WellFormed(v) && Encode(leq, v) == text {
      DecodeEncode(leq, v);
    }
  }
}
