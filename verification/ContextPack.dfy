/** Fitting memory items into a token budget (core.py of the MCP mock): canonical JSON bytes, the binary search for the
    longest prefix that fits, and the packing loop. */
module ContextPack {
  import opened Json
  import opened Utf8

  /** An item of a context pack; content is missing when the event has neither description nor title. */
  datatype Item = Item(
    objectType: string, objectId: string, revision: int, content: Option<string>, truncated: bool,
    evidenceState: Option<string>, lineage: seq<string>)

  // ---- canonical JSON and its bytes in UTF-8 ----

  function HexDigit(n: nat): char
    requires n < 16
  {
    "0123456789abcdef"[n]
  }

  /** One character inside a JSON string, with ensure_ascii off. */
  function Escaped(c: char): string {
    if c == '"' then "\\\""
    else if c == '\\' then "\\\\"
    else if c == '\n' then "\\n"
    else if c == '\r' then "\\r"
    else if c == '\t' then "\\t"
    else if c as int == 8 then "\\b"
    else if c as int == 12 then "\\f"
    else if c as int < 32 then "\\u00" + [HexDigit(c as int / 16), HexDigit(c as int % 16)]
    else [c]
  }

  function EscapedText(s: string): string {
    if s == "" then "" else Escaped(s[0]) + EscapedText(s[1..])
  }

  function Quoted(s: string): string { "\"" + EscapedText(s) + "\"" }

  function Digits(n: nat): string {
    if n < 10 then [HexDigit(n)] else Digits(n / 10) + [HexDigit(n % 10)]
  }

  function Decimal(n: int): string { if n < 0 then "-" + Digits(-n) else Digits(n) }

  function Text(s: Option<string>): string {
    match s
    case None => "null"
    case Some(v) => Quoted(v)
  }

  function Joined(parts: seq<string>): string {
    if parts == [] then "" else if |parts| == 1 then Quoted(parts[0]) else Quoted(parts[0]) + "," + Joined(parts[1..])
  }

  /** What follows the content in the canonical text: the other keys in order. */
  function Rest(item: Item): string {
    ",\"evidence_state\":" + Text(item.evidenceState) + ",\"lineage_refs\":[" + Joined(item.lineage) + "],\"object_id\":" +
    Quoted(item.objectId) + ",\"object_type\":" + Quoted(item.objectType) + ",\"revision\":" + Decimal(item.revision) +
    ",\"untrusted_memory\":true}"
  }

  const FLAG := ",\"content_truncated\":true"

  /** json.dumps with sorted keys and no spaces. */
  function Canonical(item: Item): string {
    "{\"content\":" + Text(item.content) + (if item.truncated then FLAG else "") + Rest(item)
  }

  /** _context_item_token_count. */
  function Tokens(item: Item): nat { (Bytes(Canonical(item)) + 3) / 4 }

  function ContentOf(item: Item): string { item.content.GetOr("") }

  /** The item with only the first characters of its content. */
  function Cut(item: Item, length: nat): Item
    requires length <= |ContentOf(item)|
  {
    item.(content := Some(ContentOf(item)[..length]), truncated := true)
  }

  lemma {:induction false} EscapedConcat(a: string, b: string)
    ensures EscapedText(a + b) == EscapedText(a) + EscapedText(b)
  {
    if a == "" {
      assert a + b == b;
    } else {
      assert (a + b)[1..] == a[1..] + b;
      EscapedConcat(a[1..], b);
    }
  }

  /** A longer prefix takes at least as many bytes. */
  lemma QuotedGrows(s: string, few: nat, many: nat)
    requires few <= many <= |s|
    ensures Bytes(Quoted(s[..few])) <= Bytes(Quoted(s[..many]))
  {
    var extra := s[few..many];
    assert s[..many] == s[..few] + extra;
    EscapedConcat(s[..few], extra);
    assert Quoted(s[..many]) == "\"" + EscapedText(s[..few]) + (EscapedText(extra) + "\"");
    BytesConcat("\"" + EscapedText(s[..few]), EscapedText(extra) + "\"");
    BytesConcat("\"" + EscapedText(s[..few]), "\"");
    BytesConcat(EscapedText(extra), "\"");
  }

  lemma CanonicalBytes(item: Item)
    ensures Bytes(Canonical(item)) ==
      Bytes("{\"content\":") + Bytes(Text(item.content)) + (if item.truncated then Bytes(FLAG) else 0) + Bytes(Rest(item))
  {
    var a, b, c, d := "{\"content\":", Text(item.content), if item.truncated then FLAG else "", Rest(item);
    BytesConcat(a, b);
    BytesConcat(a + b, c);
    BytesConcat(a + b + c, d);
    assert Canonical(item) == a + b + c + d;
  }

  /** A longer prefix never takes fewer tokens, which is what the binary search relies on. */
  lemma CutsGrow(item: Item, few: nat, many: nat)
    requires few <= many <= |ContentOf(item)|
    ensures Tokens(Cut(item, few)) <= Tokens(Cut(item, many))
  {
    QuotedGrows(ContentOf(item), few, many);
    CanonicalBytes(Cut(item, few));
    CanonicalBytes(Cut(item, many));
    assert Rest(Cut(item, few)) == Rest(Cut(item, many));
  }

  // ---- fitting one item ----

  datatype Fit = NoFit | Fits(item: Item, tokens: nat, truncated: bool)

  predicate CutFits(item: Item, length: nat, budget: int) {
    length <= |ContentOf(item)| && Tokens(Cut(item, length)) <= budget
  }

  /** The whole item when it fits; otherwise its longest non-empty prefix that fits, if there is one. */
  ghost predicate BestFit(item: Item, budget: int, fit: Fit) {
    if budget > 0 && Tokens(item) <= budget then fit == Fits(item, Tokens(item), false)
    else
      match fit
      case NoFit => budget <= 0 || forall length: nat :: length > 0 ==> !CutFits(item, length, budget)
      case Fits(cut, tokens, truncated) =>
        && truncated && budget > 0 && 0 < |ContentOf(cut)| <= |ContentOf(item)|
        && cut == Cut(item, |ContentOf(cut)|) && tokens == Tokens(cut) <= budget
        && (forall length: nat :: length > |ContentOf(cut)| ==> !CutFits(item, length, budget))
  }

  /** The best fit is determined. */
  lemma BestFitIsUnique(item: Item, budget: int, a: Fit, b: Fit)
    requires BestFit(item, budget, a) && BestFit(item, budget, b)
    ensures a == b
  {
    if budget > 0 && !(Tokens(item) <= budget) {
      if a.Fits? {
        assert CutFits(item, |ContentOf(a.item)|, budget);
      }
      if b.Fits? {
        assert CutFits(item, |ContentOf(b.item)|, budget);
      }
    }
  }

  /** _fit_context_item: a binary search over the length of the prefix. */
  method FitContextItem(item: Item, budget: int) returns (fit: Fit)
    ensures BestFit(item, budget, fit)
  {
    if budget <= 0 {
      return NoFit;
    }
    var full := Tokens(item);
    if full <= budget {
      return Fits(item, full, false);
    }
    var low, high := 0, |ContentOf(item)|;
    fit := NoFit;
    while low <= high
      invariant 0 <= low <= high + 1 <= |ContentOf(item)| + 1
      invariant forall length: nat :: length > high ==> !CutFits(item, length, budget)
      invariant fit == if low <= 1 then NoFit else Fits(Cut(item, low - 1), Tokens(Cut(item, low - 1)), true)
      invariant low > 0 ==> CutFits(item, low - 1, budget)
    {
      var middle := (low + high) / 2;
      var candidate := Cut(item, middle);
      var tokens := Tokens(candidate);
      if tokens <= budget {
        if middle > 0 {
          fit := Fits(candidate, tokens, true);
        }
        low := middle + 1;
      } else {
        forall length: nat | length >= middle ensures !CutFits(item, length, budget) {
          if length <= |ContentOf(item)| {
            CutsGrow(item, middle, length);
          }
        }
        high := middle - 1;
      }
    }
  }

  // ---- packing ----

  function TotalTokens(items: seq<Item>): nat {
    if items == [] then 0 else TotalTokens(items[..|items| - 1]) + Tokens(items[|items| - 1])
  }

  /** The items packed are the first candidates, whole, but for a last one that may be cut short. */
  ghost predicate PackedPrefix(candidates: seq<Item>, packed: seq<Item>, cut: bool) {
    && |packed| <= |candidates|
    && (forall i :: 0 <= i < |packed| - (if cut then 1 else 0) ==> packed[i] == candidates[i])
    && (cut ==> |packed| > 0 && |ContentOf(packed[|packed| - 1])| <= |ContentOf(candidates[|packed| - 1])| &&
                packed[|packed| - 1] == Cut(candidates[|packed| - 1], |ContentOf(packed[|packed| - 1])|))
  }

  /** The packing loop of get_context: within the budget, and nothing more could have been added. `cut` tells whether
      the last item is cut short. */
  method Pack(candidates: seq<Item>, budget: int) returns (packed: seq<Item>, tokens: nat, limited: bool, cut: bool)
    ensures tokens == TotalTokens(packed) && (budget >= 0 ==> tokens <= budget)
    ensures PackedPrefix(candidates, packed, cut) && (cut ==> limited)
    ensures !limited <==> packed == candidates
    ensures cut ==>
      var n := |packed| - 1;
      BestFit(candidates[n], budget - TotalTokens(candidates[..n]), Fits(packed[n], Tokens(packed[n]), true))
    ensures limited && !cut ==> |packed| < |candidates| && BestFit(candidates[|packed|], budget - tokens, NoFit)
  {
    hide *;
    packed, tokens, limited, cut := [], 0, false, false;
    NothingPacked(candidates);
    for i := 0 to |candidates|
      invariant packed == candidates[..i] && tokens == TotalTokens(packed) && !limited && !cut
      invariant budget >= 0 ==> tokens <= budget
      invariant PackedPrefix(candidates, packed, false)
    {
      var fit := FitContextItem(candidates[i], budget - tokens);
      if fit == NoFit {
        limited := true;
        return;
      }
      FitMeans(candidates[i], budget - tokens, fit);
      PackOneMore(candidates, i, fit);
      packed, tokens := packed + [fit.item], tokens + fit.tokens;
      if fit.truncated {
        limited, cut := true, true;
        return;
      }
    }
  }

  lemma NothingPacked(candidates: seq<Item>)
    ensures PackedPrefix(candidates, [], false) && TotalTokens([]) == 0
  {
  }

  lemma PackOneMore(candidates: seq<Item>, i: nat, fit: Fit)
    requires i < |candidates| && fit.Fits?
    requires !fit.truncated ==> fit.item == candidates[i]
    requires fit.truncated ==> |ContentOf(fit.item)| <= |ContentOf(candidates[i])| && fit.item == Cut(candidates[i], |ContentOf(fit.item)|)
    ensures TotalTokens(candidates[..i] + [fit.item]) == TotalTokens(candidates[..i]) + Tokens(fit.item)
    ensures PackedPrefix(candidates, candidates[..i] + [fit.item], fit.truncated)
    ensures !fit.truncated ==> candidates[..i] + [fit.item] == candidates[..i + 1]
  {
    hide Tokens;
    assert (candidates[..i] + [fit.item])[..i] == candidates[..i];
  }

  lemma FitMeans(item: Item, budget: int, fit: Fit)
    requires BestFit(item, budget, fit) && fit.Fits?
    ensures fit.tokens == Tokens(fit.item) <= budget
    ensures fit == Fits(fit.item, Tokens(fit.item), fit.truncated)
    ensures !fit.truncated ==> fit.item == item
    ensures fit.truncated ==> fit.item != item && |ContentOf(fit.item)| <= |ContentOf(item)| && fit.item == Cut(item, |ContentOf(fit.item)|)
  {
  }
}
