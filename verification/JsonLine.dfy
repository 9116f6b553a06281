/** Canonical JSON text of flat objects of strings and integers, and the strict one-line reader (protocol.py). */
module JsonLine {
  import opened Json
  import Utf8

  // ---- flat JSON objects, sections 4 and 7 of RFC 8259 ----

  datatype Scalar = Text(text: string) | Number(number: int)

  datatype Member = Member(name: string, value: Scalar)

  /** A character that stands for itself inside a JSON string. */
  predicate PlainChar(c: char) { 32 <= c as int < 127 && c != '"' && c != '\\' }

  predicate Plain(s: string) { forall i :: 0 <= i < |s| ==> PlainChar(s[i]) }

  function Digit(n: nat): char
    requires n < 10
  {
    (n + 48) as char
  }

  function Digits(n: nat): (s: string)
    ensures s != "" && forall i :: 0 <= i < |s| ==> '0' <= s[i] <= '9'
    ensures n > 0 ==> s[0] != '0'
  {
    if n < 10 then [Digit(n)] else Digits(n / 10) + [Digit(n % 10)]
  }

  function WriteScalar(v: Scalar): string {
    match v
    case Text(s) => "\"" + s + "\""
    case Number(n) => if n < 0 then "-" + Digits(0 - n) else Digits(n)
  }

  function WriteMember(m: Member): string { "\"" + m.name + "\":" + WriteScalar(m.value) }

  function WriteMembers(members: seq<Member>): string {
    if members == [] then ""
    else if |members| == 1 then WriteMember(members[0])
    else WriteMember(members[0]) + "," + WriteMembers(members[1..])
  }

  /** canonical_json_bytes of an object whose keys are in order; every character is one byte. */
  function Write(members: seq<Member>): string { "{" + WriteMembers(members) + "}" }

  datatype Read<+T> = Got(value: T, rest: string) | Failed

  /** White space inside a line: a line feed can only end it. */
  predicate IsSpace(c: char) { c == ' ' || c == '\t' || c == '\r' }

  function Skip(s: string): (rest: string)
    ensures |rest| <= |s|
  {
    if s != "" && IsSpace(s[0]) then Skip(s[1..]) else s
  }

  function HexValue(c: char): Option<nat> {
    if '0' <= c <= '9' then Some(c as int - 48)
    else if 'a' <= c <= 'f' then Some(c as int - 87)
    else if 'A' <= c <= 'F' then Some(c as int - 55) else None
  }

  /** Four hexadecimal digits. */
  function ReadHex(s: string): Option<nat> {
    if |s| < 4 then None
    else
      match (HexValue(s[0]), HexValue(s[1]), HexValue(s[2]), HexValue(s[3]))
      case (Some(a), Some(b), Some(c), Some(d)) => Some(((a * 16 + b) * 16 + c) * 16 + d)
      case _ => None
  }

  /** The character after a backslash; half a surrogate pair is no character. */
  function ReadEscape(s: string): (read: Read<char>)
    ensures read.Got? ==> |read.rest| < |s|
  {
    if s == "" then Failed
    else
      match s[0]
      case '"' => Got('"', s[1..])
      case '\\' => Got('\\', s[1..])
      case '/' => Got('/', s[1..])
      case 'b' => Got(8 as char, s[1..])
      case 'f' => Got(12 as char, s[1..])
      case 'n' => Got('\n', s[1..])
      case 'r' => Got('\r', s[1..])
      case 't' => Got('\t', s[1..])
      case 'u' =>
        (match ReadHex(s[1..])
         case None => Failed
         case Some(high) =>
           if high < 0xD800 || 0xE000 <= high < 0x1_0000 then Got(high as char, s[5..])
           else if high >= 0xDC00 || |s| < 11 || s[5..7] != "\\u" then Failed
           else
             match ReadHex(s[7..])
             case None => Failed
             case Some(low) =>
               if 0xDC00 <= low < 0xE000 then Got((0x1_0000 + (high - 0xD800) * 0x400 + (low - 0xDC00)) as char, s[11..])
               else Failed)
      case _ => Failed
  }

  function ReadText(s: string): Read<string>
    decreases |s|
  {
    if s == "" then Failed
    else if s[0] == '"' then Got("", s[1..])
    else if s[0] == '\\' then
      match ReadEscape(s[1..])
      case Failed => Failed
      case Got(c, after) =>
        (match ReadText(after)
         case Failed => Failed
         case Got(more, rest) => Got([c] + more, rest))
    else if s[0] < ' ' then Failed
    else
      match ReadText(s[1..])
      case Failed => Failed
      case Got(more, rest) => Got([s[0]] + more, rest)
  }

  function ReadString(s: string): Read<string> {
    if s != "" && s[0] == '"' then ReadText(s[1..]) else Failed
  }

  predicate IsDigit(c: char) { '0' <= c <= '9' }

  /** The digits at the front, and their value after what was read before. */
  function ReadDigits(s: string, before: nat): (nat, string) {
    if s == "" || !IsDigit(s[0]) then (before, s) else ReadDigits(s[1..], before * 10 + (s[0] as int - 48))
  }

  /** An integer without leading zeros. */
  function ReadNumber(s: string): Read<int> {
    if s == "" then Failed
    else if s[0] == '-' then
      if |s| == 1 || !IsDigit(s[1]) || (s[1] == '0' && |s| > 2 && IsDigit(s[2])) then Failed
      else var (n, rest) := ReadDigits(s[1..], 0); Got(0 - n, rest)
    else if !IsDigit(s[0]) || (s[0] == '0' && |s| > 1 && IsDigit(s[1])) then Failed
    else var (n, rest) := ReadDigits(s, 0); Got(n, rest)
  }

  function ReadScalar(s: string): Read<Scalar> {
    if s != "" && s[0] == '"' then
      match ReadString(s)
      case Failed => Failed
      case Got(text, rest) => Got(Text(text), rest)
    else
      match ReadNumber(s)
      case Failed => Failed
      case Got(n, rest) => Got(Number(n), rest)
  }

  function ReadMember(s: string): Read<Member> {
    match ReadString(Skip(s))
    case Failed => Failed
    case Got(name, before) =>
      var rest := Skip(before);
      if rest == "" || rest[0] != ':' then Failed
      else
        match ReadScalar(Skip(rest[1..]))
        case Failed => Failed
        case Got(value, after) => Got(Member(name, value), after)
  }

  /** Members up to the closing brace; `fuel` is the length of the text, more than any object in it needs. */
  function ReadMembers(s: string, fuel: nat): Read<seq<Member>>
    decreases fuel
  {
    if fuel == 0 then Failed
    else
      match ReadMember(s)
      case Failed => Failed
      case Got(m, before) =>
        var rest := Skip(before);
        if rest == "" then Failed
        else if rest[0] == '}' then Got([m], rest[1..])
        else if rest[0] != ',' then Failed
        else
          match ReadMembers(rest[1..], fuel - 1)
          case Failed => Failed
          case Got(more, after) => Got([m] + more, after)
  }

  /** One object with nothing but space around it. */
  function ReadObject(text: string): Option<seq<Member>> {
    var s := Skip(text);
    if s == "" || s[0] != '{' then None
    else
      var inside := Skip(s[1..]);
      if inside != "" && inside[0] == '}' then (if Skip(inside[1..]) == "" then Some([]) else None)
      else
        match ReadMembers(inside, |text|)
        case Failed => None
        case Got(members, rest) => if Skip(rest) == "" then Some(members) else None
  }

  /** A whole line: one object, at most one line feed after it and none elsewhere. */
  function ReadLine(line: string): Option<seq<Member>> {
    var text := if line != "" && line[|line| - 1] == '\n' then line[..|line| - 1] else line;
    if '\n' in text then None else ReadObject(text)
  }

  lemma {:induction false} PlainReadsBack(s: string, rest: string)
    requires Plain(s)
    ensures ReadText(s + "\"" + rest) == Got(s, rest)
  {
    if s == "" {
      assert s + "\"" + rest == "\"" + rest;
      assert ("\"" + rest)[1..] == rest;
    } else {
      assert (s + "\"" + rest)[1..] == s[1..] + "\"" + rest;
      PlainReadsBack(s[1..], rest);
      assert [s[0]] + s[1..] == s;
    }
  }

  lemma StringReadsBack(s: string, rest: string)
    requires Plain(s)
    ensures ReadString("\"" + s + "\"" + rest) == Got(s, rest)
  {
    PlainReadsBack(s, rest);
    assert ("\"" + s + "\"" + rest)[1..] == s + "\"" + rest;
  }

  /** Digits that follow others are read as a longer number. */
  lemma {:induction false} DigitsReadBack(n: nat, rest: string)
    requires rest == "" || !IsDigit(rest[0])
    ensures ReadDigits(Digits(n) + rest, 0) == (n, rest)
  {
    if n < 10 {
      var s := [Digit(n)] + rest;
      assert s[1..] == rest;
      assert ReadDigits(s, 0) == ReadDigits(rest, n);
    } else {
      assert Digits(n) + rest == Digits(n / 10) + ([Digit(n % 10)] + rest);
      DigitsThen(n / 10, [Digit(n % 10)] + rest);
      assert ([Digit(n % 10)] + rest)[1..] == rest;
      assert ReadDigits([Digit(n % 10)] + rest, n / 10) == ReadDigits(rest, n / 10 * 10 + n % 10);
    }
  }

  lemma {:induction false} DigitsThen(n: nat, rest: string)
    ensures ReadDigits(Digits(n) + rest, 0) == ReadDigits(rest, n)
  {
    if n < 10 {
      assert ([Digit(n)] + rest)[1..] == rest;
    } else {
      var last := [Digit(n % 10)] + rest;
      assert Digits(n) + rest == Digits(n / 10) + last;
      DigitsThen(n / 10, last);
      assert last[1..] == rest;
      assert ReadDigits(last, n / 10) == ReadDigits(rest, n / 10 * 10 + n % 10);
    }
  }

  predicate Ends(rest: string) { rest != "" && (rest[0] == ',' || rest[0] == '}') }

  predicate PlainScalar(v: Scalar) { v.Text? ==> Plain(v.text) }

  lemma NumberReadsBack(n: nat, rest: string)
    requires Ends(rest)
    ensures ReadNumber(Digits(n) + rest) == Got(n, rest)
  {
    DigitsReadBack(n, rest);
    var s := Digits(n) + rest;
    assert s[0] == Digits(n)[0];
    if n == 0 {
      assert Digits(n) == ['0'];
      assert s[1] == rest[0];
    }
  }

  lemma ScalarReadsBack(v: Scalar, rest: string)
    requires PlainScalar(v) && Ends(rest)
    ensures ReadScalar(WriteScalar(v) + rest) == Got(v, rest)
  {
    match v
    case Text(s) =>
      StringReadsBack(s, rest);
      assert WriteScalar(v) + rest == "\"" + s + "\"" + rest;
    case Number(n) =>
      if n >= 0 {
        NumberReadsBack(n, rest);
        assert (Digits(n) + rest)[0] == Digits(n)[0];
      } else {
        NegativeReadsBack(0 - n, rest);
      }
  }

  lemma NegativeReadsBack(n: nat, rest: string)
    requires n > 0 && Ends(rest)
    ensures ReadScalar("-" + Digits(n) + rest) == Got(Number(0 - n), rest)
  {
    DigitsReadBack(n, rest);
    var s := "-" + Digits(n) + rest;
    assert s[1..] == Digits(n) + rest;
    assert s[1] == Digits(n)[0];
  }

  predicate PlainMember(m: Member) { Plain(m.name) && PlainScalar(m.value) }

  lemma MemberReadsBack(m: Member, rest: string)
    requires PlainMember(m) && Ends(rest)
    ensures ReadMember(WriteMember(m) + rest) == Got(m, rest)
  {
    var tail := ":" + WriteScalar(m.value) + rest;
    assert WriteMember(m) + rest == "\"" + m.name + "\"" + tail;
    StringReadsBack(m.name, tail);
    assert tail[1..] == WriteScalar(m.value) + rest;
    ScalarReadsBack(m.value, rest);
    hide ReadScalar, WriteScalar;
  }

  lemma {:induction false} MembersReadBack(members: seq<Member>, rest: string, fuel: nat)
    requires members != [] && fuel >= |members| && forall m :: m in members ==> PlainMember(m)
    ensures ReadMembers(WriteMembers(members) + "}" + rest, fuel) == Got(members, rest)
  {
    hide ReadMember, WriteMember;
    var m := members[0];
    assert m in members;
    if |members| == 1 {
      assert WriteMembers(members) + "}" + rest == WriteMember(m) + ("}" + rest);
      MemberReadsBack(m, "}" + rest);
      assert ("}" + rest)[1..] == rest;
      assert members == [m];
    } else {
      var tail := "," + (WriteMembers(members[1..]) + "}" + rest);
      assert WriteMembers(members) + "}" + rest == WriteMember(m) + tail;
      MemberReadsBack(m, tail);
      assert tail[1..] == WriteMembers(members[1..]) + "}" + rest;
      MembersReadBack(members[1..], rest, fuel - 1);
      assert members == [m] + members[1..];
    }
  }

  /** Every member takes at least one character. */
  lemma {:induction false} MembersAreLong(members: seq<Member>)
    ensures |WriteMembers(members)| >= |members|
  {
    if |members| > 1 {
      MembersAreLong(members[1..]);
    }
  }

  predicate Printable(s: string) { forall i :: 0 <= i < |s| ==> 32 <= s[i] as int < 127 }

  lemma MemberIsPrintable(m: Member)
    requires PlainMember(m)
    ensures Printable(WriteMember(m)) && WriteMember(m)[0] == '"'
  {
  }

  lemma {:induction false} MembersArePrintable(members: seq<Member>)
    requires members != [] && forall m :: m in members ==> PlainMember(m)
    ensures Printable(WriteMembers(members)) && WriteMembers(members) != "" && WriteMembers(members)[0] == '"'
  {
    MemberIsPrintable(members[0]);
    hide WriteMember, PlainMember;
    if |members| > 1 {
      MembersArePrintable(members[1..]);
    }
  }

  /** A written object has nothing to skip. */
  lemma WrittenIsOneLine(members: seq<Member>)
    requires members != [] && forall m :: m in members ==> PlainMember(m)
    ensures ReadLine(Write(members)) == ReadObject(Write(members))
    ensures Skip(Write(members)) == Write(members) && Skip(Write(members)[1..]) == Write(members)[1..]
    ensures Write(members)[1] == '"' && Utf8.Bytes(Write(members)) == |Write(members)|
  {
    MembersArePrintable(members);
    hide WriteMembers, ReadObject;
    Utf8.AsciiBytes(Write(members));
  }

  /** What is written is read back. */
  lemma LineReadsBack(members: seq<Member>)
    requires members != [] && forall m :: m in members ==> PlainMember(m)
    ensures ReadLine(Write(members)) == Some(members)
  {
    MembersAreLong(members);
    MembersReadBack(members, "", |Write(members)|);
    assert Write(members)[1..] == WriteMembers(members) + "}" + "";
    WrittenIsOneLine(members);
    hide ReadLine, ReadMembers, WriteMembers;
  }

  // ---- documents ----

  type Document = map<string, Scalar>

  /** The object the members make; a repeated key makes none. */
  function Collect(members: seq<Member>): Option<Document> {
    if members == [] then Some(map[])
    else
      var last := members[|members| - 1];
      match Collect(members[..|members| - 1])
      case None => None
      case Some(before) =>
        if last.name in before then None else Some(before[last.name := last.value])
  }

  /** The members with the given keys and values. */
  function Zip(keys: seq<string>, values: seq<Scalar>): (members: seq<Member>)
    requires |keys| == |values|
    ensures |members| == |keys| && forall i :: 0 <= i < |keys| ==> members[i] == Member(keys[i], values[i])
  {
    seq(|keys|, i requires 0 <= i < |keys| => Member(keys[i], values[i]))
  }

  /** canonical_json_bytes of the object with these keys, in order, and values. */
  function Object(keys: seq<string>, values: seq<Scalar>): string
    requires |keys| == |values|
  {
    Write(Zip(keys, values))
  }

  const MAX_SAFE_INTEGER: int := 9_007_199_254_740_991

  /** _walk_json: no integer outside the safe range, no null character. */
  predicate Safe(v: Scalar) {
    match v
    case Text(s) => '\0' !in s
    case Number(n) => 0 - MAX_SAFE_INTEGER <= n <= MAX_SAFE_INTEGER
  }

  /** parse_strict_json_line, for lines that hold an object; the limit is in bytes. */
  function ParseStrict(line: string, maximum: nat): Option<Document> {
    if line == "" || Utf8.Bytes(line) > maximum then None
    else
      match ReadLine(line)
      case None => None
      case Some(members) =>
        match Collect(members)
        case None => None
        case Some(document) => if forall key :: key in document ==> Safe(document[key]) then Some(document) else None
  }

  predicate Distinct(keys: seq<string>) { forall i, j :: 0 <= i < j < |keys| ==> keys[i] != keys[j] }

  /** `a` comes before `b` in the order of their code points, which is how sort_keys orders keys. */
  ghost predicate Before(a: string, b: string) { exists n: nat :: BeforeAt(a, b, n) }

  ghost predicate BeforeAt(a: string, b: string, n: nat) {
    n < |b| && n <= |a| && a[..n] == b[..n] && (n == |a| || a[n] < b[n])
  }

  ghost predicate InOrder(keys: seq<string>) { forall i :: 0 <= i < |keys| - 1 ==> Before(keys[i], keys[i + 1]) }

  lemma BeforeIsTransitive(a: string, b: string, c: string)
    requires Before(a, b) && Before(b, c)
    ensures Before(a, c) && a != c
  {
    var m: nat :| BeforeAt(a, b, m);
    var n: nat :| BeforeAt(b, c, n);
    var k := if m < n then m else n;
    assert a[..k] == a[..m][..k] == b[..m][..k] == b[..k] == b[..n][..k] == c[..n][..k] == c[..k];
    if m < n {
      assert c[m] == c[..n][m] == b[..n][m] == b[m];
    } else if n < m {
      assert a[n] == a[..m][n] == b[..m][n] == b[n];
    }
    assert BeforeAt(a, c, k);
  }

  lemma {:induction false} OrderedBefore(keys: seq<string>, i: nat, j: nat)
    requires InOrder(keys) && i < j < |keys|
    ensures Before(keys[i], keys[j]) && keys[i] != keys[j]
    decreases j
  {
    assert Before(keys[j - 1], keys[j]);
    if i < j - 1 {
      OrderedBefore(keys, i, j - 1);
      BeforeIsTransitive(keys[i], keys[j - 1], keys[j]);
    } else {
      var n: nat :| BeforeAt(keys[i], keys[j], n);
    }
  }

  /** Keys in order are different, and dropping one leaves the others in order. */
  lemma InOrderMeansDistinct(keys: seq<string>, dropped: nat)
    requires InOrder(keys) && dropped < |keys|
    ensures Distinct(keys)
    ensures var others := keys[..dropped] + keys[dropped + 1..];
            Distinct(others) && forall key :: key in others <==> key in keys && key != keys[dropped]
  {
    forall i, j | 0 <= i < j < |keys| ensures keys[i] != keys[j] {
      OrderedBefore(keys, i, j);
    }
    var others := keys[..dropped] + keys[dropped + 1..];
    assert forall i :: 0 <= i < |others| ==> others[i] == if i < dropped then keys[i] else keys[i + 1];
    forall key | key in keys && key != keys[dropped] ensures key in others {
      var i :| 0 <= i < |keys| && keys[i] == key;
      assert others[if i < dropped then i else i - 1] == key;
    }
  }

  /** The document has exactly these keys and values. */
  predicate Pairs(document: Document, keys: seq<string>, values: seq<Scalar>)
    requires |keys| == |values|
  {
    (forall key :: key in document ==> key in keys)
    && forall i :: 0 <= i < |keys| ==> keys[i] in document && document[keys[i]] == values[i]
  }

  lemma CollectExtends(before: seq<Member>, last: Member)
    requires Collect(before).Some? && last.name !in Collect(before).value
    ensures Collect(before + [last]) == Some(Collect(before).value[last.name := last.value])
  {
    assert (before + [last])[..|before|] == before;
  }

  lemma {:induction false} ZipCollects(keys: seq<string>, values: seq<Scalar>)
    requires Distinct(keys) && |keys| == |values|
    ensures Collect(Zip(keys, values)).Some? && Pairs(Collect(Zip(keys, values)).value, keys, values)
  {
    if keys == [] {
      assert Zip(keys, values) == [];
    } else {
      hide Collect;
      var front, last := keys[..|keys| - 1], keys[|keys| - 1];
      var frontValues, lastValue := values[..|keys| - 1], values[|keys| - 1];
      ZipCollects(front, frontValues);
      assert last !in front;
      assert Zip(keys, values) == Zip(front, frontValues) + [Member(last, lastValue)];
      CollectExtends(Zip(front, frontValues), Member(last, lastValue));
      assert keys == front + [last];
    }
  }

  /** An object that fits is read back, key for key and value for value. */
  lemma ObjectReadsBack(keys: seq<string>, values: seq<Scalar>, maximum: nat)
    requires keys != [] && Distinct(keys) && |keys| == |values| && |Object(keys, values)| <= maximum
    requires forall i :: 0 <= i < |keys| ==> Plain(keys[i]) && PlainScalar(values[i]) && Safe(values[i])
    ensures ParseStrict(Object(keys, values), maximum).Some?
    ensures Pairs(ParseStrict(Object(keys, values), maximum).value, keys, values)
    ensures Utf8.Bytes(Object(keys, values)) == |Object(keys, values)|
  {
    LineReadsBack(Zip(keys, values));
    WrittenIsOneLine(Zip(keys, values));
    ZipCollects(keys, values);
    hide ReadLine, Collect, WriteMembers, Safe, Plain, PlainScalar;
    var made := Collect(Zip(keys, values)).value;
    forall key | key in made ensures Safe(made[key]) {
      var i :| 0 <= i < |keys| && keys[i] == key;
    }
  }

  /** Objects with the same keys and the same text have the same values. */
  lemma ObjectIsInjective(keys: seq<string>, first: seq<Scalar>, second: seq<Scalar>)
    requires keys != [] && |keys| == |first| == |second| && Object(keys, first) == Object(keys, second)
    requires forall i :: 0 <= i < |keys| ==> Plain(keys[i]) && PlainScalar(first[i]) && PlainScalar(second[i])
    ensures first == second
  {
    LineReadsBack(Zip(keys, first));
    LineReadsBack(Zip(keys, second));
    hide ReadLine, WriteMembers;
    forall i | 0 <= i < |keys| ensures first[i] == second[i] {
      assert Zip(keys, first)[i] == Zip(keys, second)[i];
    }
  }

  // ---- lengths ----

  function Power10(k: nat): (p: nat)
    ensures p > 0
  {
    if k == 0 then 1 else 10 * Power10(k - 1)
  }

  lemma {:induction false} DigitsAreShort(n: nat, k: nat)
    requires k > 0 && n < Power10(k)
    ensures |Digits(n)| <= k
  {
    if n >= 10 {
      DigitsAreShort(n / 10, k - 1);
    }
  }

  /** When every member but the first takes at most 200 characters, the whole text is bounded. */
  lemma {:induction false} LengthBound(members: seq<Member>, first: nat)
    requires members != [] && |WriteMember(members[0])| <= first
    requires forall i :: 1 <= i < |members| ==> |WriteMember(members[i])| <= 200
    ensures |WriteMembers(members)| <= first + (|members| - 1) * 201
  {
    hide WriteMember;
    if |members| > 1 {
      LengthBound(members[1..], 200);
    }
  }
}
