/** The size backstop on tool results, with UTF-8 as in section 3 of RFC 3629. */
module Truncation {
  import opened Messages

  type Byte = x: int | 0 <= x < 256

  datatype AgentToolResult = AgentToolResult(content: seq<MediaBlock>, details: Json)

  // ------------------------------------------------------------------ UTF-8

  function EncodeChar(c: char): (b: seq<Byte>)
    ensures 1 <= |b| <= 4
  {
    var n := c as int;
    if n < 0x80 then [n]
    else if n < 0x800 then [0xC0 + n / 64, 0x80 + n % 64]
    else if n < 0x1_0000 then [0xE0 + n / 4096, 0x80 + n / 64 % 64, 0x80 + n % 64]
    else [0xF0 + n / 262144, 0x80 + n / 4096 % 64, 0x80 + n / 64 % 64, 0x80 + n % 64]
  }

  function Encode(s: string): seq<Byte> {
    if s == "" then [] else EncodeChar(s[0]) + Encode(s[1..])
  }

  predicate Continuation(b: Byte) { 0x80 <= b < 0xC0 }

  /** The length a sequence starting with this byte has; 0 for a byte that starts none. */
  function SequenceLength(b: Byte): nat {
    if b < 0x80 then 1
    else if 0xC2 <= b < 0xE0 then 2
    else if 0xE0 <= b < 0xF0 then 3
    else if 0xF0 <= b < 0xF5 then 4
    else 0
  }

  function SequenceValue(b: seq<Byte>): int
    requires 1 <= |b| <= 4
  {
    if |b| == 1 then b[0] as int
    else if |b| == 2 then ((b[0] as int) - 0xC0) * 64 + ((b[1] as int) - 0x80)
    else if |b| == 3 then ((b[0] as int) - 0xE0) * 4096 + ((b[1] as int) - 0x80) * 64 + ((b[2] as int) - 0x80)
    else
      ((b[0] as int) - 0xF0) * 262144 + ((b[1] as int) - 0x80) * 4096 + ((b[2] as int) - 0x80) * 64 +
      ((b[3] as int) - 0x80)
  }

  /** A complete, shortest-form sequence for a scalar value. */
  predicate WellFormed(b: seq<Byte>) {
    && 1 <= |b| <= 4 && SequenceLength(b[0]) == |b|
    && (forall i :: 1 <= i < |b| ==> Continuation(b[i]))
    && (|b| == 3 ==> 0x800 <= SequenceValue(b) && !(0xD800 <= SequenceValue(b) < 0xE000))
    && (|b| == 4 ==> 0x1_0000 <= SequenceValue(b) < 0x11_0000)
  }

  function DecodeChar(b: seq<Byte>): char
    requires WellFormed(b)
  {
    SequenceValue(b) as char
  }

  /** Decoding with `errors="ignore"`: bytes that start no complete sequence are skipped. */
  function DecodeIgnore(b: seq<Byte>): string {
    if b == [] then ""
    else
      var n := SequenceLength(b[0]);
      if 0 < n <= |b| && WellFormed(b[..n]) then [DecodeChar(b[..n])] + DecodeIgnore(b[n..])
      else DecodeIgnore(b[1..])
  }

  lemma DivMod(n: int, a: int)
    requires n >= 0 && a > 0
    ensures n == n / a * a + n % a && 0 <= n % a < a
  {
  }

  lemma EncodeCharWellFormed(c: char)
    ensures WellFormed(EncodeChar(c)) && DecodeChar(EncodeChar(c)) == c
  {
    var n := c as int;
    DivMod(n, 64);
    DivMod(n / 64, 64);
    DivMod(n / 4096, 64);
    assert n / 64 / 64 == n / 4096 && n / 4096 / 64 == n / 262144;
    assert SequenceValue(EncodeChar(c)) == n;
  }

  /** A cut-off sequence decodes to nothing. */
  lemma {:induction false} CutCharIgnored(c: char, n: nat)
    requires n < |EncodeChar(c)|
    ensures DecodeIgnore(EncodeChar(c)[..n]) == ""
  {
    EncodeCharWellFormed(c);
    var b := EncodeChar(c)[..n];
    if n > 0 {
      assert SequenceLength(b[0]) > |b|;
      ContinuationsIgnored(b[1..]);
    }
  }

  lemma {:induction false} ContinuationsIgnored(b: seq<Byte>)
    requires forall i :: 0 <= i < |b| ==> Continuation(b[i])
    ensures DecodeIgnore(b) == ""
  {
    if b != [] { ContinuationsIgnored(b[1..]); }
  }

  /** The number of leading characters whose encoding fits in a budget. */
  function FittingPrefix(s: string, budget: nat): (k: nat)
    ensures k <= |s|
  {
    if s == "" || |EncodeChar(s[0])| > budget then 0
    else 1 + FittingPrefix(s[1..], budget - |EncodeChar(s[0])|)
  }

  /** It is the longest prefix that fits. */
  lemma {:induction false} FittingPrefixIsLongest(s: string, budget: nat, k: nat)
    requires k <= |s|
    ensures |Encode(s[..k])| <= budget <==> k <= FittingPrefix(s, budget)
  {
    if k > 0 {
      assert s[..k][1..] == s[1..][..k - 1] && s[..k][0] == s[0];
      if |EncodeChar(s[0])| <= budget {
        FittingPrefixIsLongest(s[1..], budget - |EncodeChar(s[0])|, k - 1);
      }
    }
  }

  /** Cutting an encoding anywhere and decoding it leaves the longest whole-character prefix. */
  lemma {:induction false} CutEncodingDecodes(s: string, budget: nat)
    requires budget <= |Encode(s)|
    ensures DecodeIgnore(Encode(s)[..budget]) == s[..FittingPrefix(s, budget)]
  {
    if s != "" {
      var first, rest := EncodeChar(s[0]), Encode(s[1..]);
      if |first| > budget {
        CutCharIgnored(s[0], budget);
        assert Encode(s)[..budget] == first[..budget];
      } else {
        EncodeCharWellFormed(s[0]);
        CutEncodingDecodes(s[1..], budget - |first|);
        var b := Encode(s)[..budget];
        assert b == first + rest[..budget - |first|];
        assert b[..|first|] == first && b[|first|..] == rest[..budget - |first|];
        assert s[..1 + FittingPrefix(s[1..], budget - |first|)]
               == [s[0]] + s[1..][..FittingPrefix(s[1..], budget - |first|)];
      }
    }
  }

  /** Decoding undoes encoding. */
  lemma EncodeRoundTrip(s: string)
    ensures DecodeIgnore(Encode(s)) == s
  {
    CutEncodingDecodes(s, |Encode(s)|);
    assert Encode(s)[..|Encode(s)|] == Encode(s) && s[..|s|] == s;
    FittingPrefixIsLongest(s, |Encode(s)|, |s|);
  }

  lemma {:induction false} EncodeConcat(a: string, b: string)
    ensures Encode(a + b) == Encode(a) + Encode(b)
  {
    if a == "" {
      assert a + b == b;
    } else {
      assert (a + b)[1..] == a[1..] + b && (a + b)[0] == a[0];
      EncodeConcat(a[1..], b);
    }
  }

  // -------------------------------------------------------------- truncation

  function Decimal(n: nat): string {
    if n < 10 then [('0' as int + n) as char] else Decimal(n / 10) + [('0' as int + n % 10) as char]
  }

  function SignedDecimal(n: int): string {
    if n < 0 then "-" + Decimal(-n) else Decimal(n)
  }

  function Marker(size: nat, limit: int): string {
    "\n[truncated: result was " + Decimal(size) + " bytes, limit " + SignedDecimal(limit) + "]"
  }

  function Budget(size: nat, limit: int): nat {
    var room := limit - |Encode(Marker(size, limit))|;
    if room > 0 then room else 0
  }

  function NonText(blocks: seq<MediaBlock>): seq<MediaBlock> {
    if blocks == [] then []
    else if blocks[0].TextBlock? then NonText(blocks[1..])
    else [blocks[0]] + NonText(blocks[1..])
  }

  function TruncateToolResult(result: AgentToolResult, limit: Option<int>): AgentToolResult {
    var text := MediaText(result.content);
    var encoded := Encode(text);
    if limit.None? || |encoded| <= limit.value then result
    else
      var budget := Budget(|encoded|, limit.value);
      var kept := encoded[..if budget <= |encoded| then budget else |encoded|];
      AgentToolResult(
        [TextBlock(DecodeIgnore(kept) + Marker(|encoded|, limit.value))] + NonText(result.content),
        FullContent(text, |encoded|))
  }

  function Size(result: AgentToolResult): nat {
    |Encode(MediaText(result.content))|
  }

  lemma {:induction false} NonTextHasNoText(blocks: seq<MediaBlock>)
    ensures MediaText(NonText(blocks)) == "" && NonText(NonText(blocks)) == NonText(blocks)
  {
    if blocks != [] {
      NonTextHasNoText(blocks[1..]);
      if !blocks[0].TextBlock? {
        assert NonText(blocks)[1..] == NonText(blocks[1..]);
      }
    }
  }

  /** Text over the limit becomes the longest whole-character prefix that leaves
      room for the marker, then the marker; the rest of the result is kept. */
  lemma TruncatedText(result: AgentToolResult, limit: int)
    requires Size(result) > limit
    ensures var text, size := MediaText(result.content), Size(result);
            var r := TruncateToolResult(result, Some(limit));
            && MediaText(r.content) == text[..FittingPrefix(text, Budget(size, limit))] + Marker(size, limit)
            && NonText(r.content) == NonText(result.content)
            && r.details == FullContent(text, size)
  {
    var text, size := MediaText(result.content), Size(result);
    var r := TruncateToolResult(result, Some(limit));
    var budget := Budget(size, limit);
    CutEncodingDecodes(text, if budget <= size then budget else size);
    FittingPrefixIsLongest(text, budget, |text|);
    FittingPrefixIsLongest(text, size, |text|);
    assert text[..|text|] == text;
    NonTextHasNoText(result.content);
    assert r.content[1..] == NonText(result.content);
    var shown := r.content[0].text;
    assert MediaText(r.content) == shown + "" == shown;
  }

  lemma PrefixFits(s: string, budget: nat)
    ensures |Encode(s[..FittingPrefix(s, budget)])| <= budget
  {
    FittingPrefixIsLongest(s, budget, FittingPrefix(s, budget));
  }

  /** The size of a truncated result is at most the limit, or the marker's own size. */
  lemma TruncationBound(result: AgentToolResult, limit: int)
    ensures Size(TruncateToolResult(result, Some(limit))) <= Max(limit, |Encode(Marker(Size(result), limit))|)
  {
    if Size(result) > limit {
      hide TruncateToolResult, Marker, Encode;
      var text, size := MediaText(result.content), Size(result);
      TruncatedText(result, limit);
      PrefixFits(text, Budget(size, limit));
      EncodeConcat(text[..FittingPrefix(text, Budget(size, limit))], Marker(size, limit));
    }
  }

  /** What of a result's content is kept: all of it while it fits, and otherwise the longest
      prefix of its text that does, marked, with the full text in the details. */
  ghost predicate Carries(r: AgentToolResult, original: AgentToolResult, limit: Option<int>) {
    if limit.None? || Size(original) <= limit.value then r == original
    else
      var text, size := MediaText(original.content), Size(original);
      && MediaText(r.content) == text[..FittingPrefix(text, Budget(size, limit.value))] + Marker(size, limit.value)
      && NonText(r.content) == NonText(original.content) && r.details == FullContent(text, size)
  }

  lemma TruncatedCarries(result: AgentToolResult, limit: Option<int>)
    ensures Carries(TruncateToolResult(result, limit), result, limit)
  {
    if limit.Some? && Size(result) > limit.value { TruncatedText(result, limit.value); }
  }

  /** A second truncation at the same limit changes nothing once the marker itself fits. */
  lemma TruncationStable(result: AgentToolResult, limit: int)
    requires |Encode(Marker(Size(result), limit))| <= limit
    ensures TruncateToolResult(TruncateToolResult(result, Some(limit)), Some(limit))
            == TruncateToolResult(result, Some(limit))
  {
    TruncationBound(result, limit);
  }
}
