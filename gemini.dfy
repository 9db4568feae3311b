/**
 * The deterministic parts of services/geminiService.ts: removing a markdown
 * code fence around the model's JSON answer, cutting a data URL into its
 * base64 payload and MIME type, and the fixed records returned when a call
 * fails.  The call to the language model is not modelled: its answer text
 * arrives as the parameter `text` (`None` when the call throws or yields no
 * text), and `JSON.parse` with its unchecked cast as the parameter `parse`.
 * Each service function catches its own failures, so what it resolves to is
 * the parsed record, the fallback record, or `null` (`None`) when the answer
 * is the JSON literal `null`.
 */
module GeminiService {
  import opened Wrappers
  import opened Strings
  import opened Types

  const JsonFence: string := "```json"
  const Fence: string := "```"

  /** `.replace(/\s*```$/, '')`: a closing fence and the whitespace before it. */
  function DropClosingFence(s: string): (r: string)
    ensures EndsWith(s, Fence) ==> r == TrimEnd(s[..|s| - 3])
    ensures !EndsWith(s, Fence) ==> r == s
  {
    if EndsWith(s, Fence) then TrimEnd(s[..|s| - 3]) else s
  }

  /** The fence removal `cleanJsonString` applies to the trimmed text. */
  function Unfence(clean: string): string {
    if StartsWith(clean, JsonFence) then DropClosingFence(TrimStart(clean[7..]))
    else if StartsWith(clean, Fence) then DropClosingFence(TrimStart(clean[3..]))
    else clean
  }

  /** `cleanJsonString`. */
  function CleanJson(str: string): string {
    if str == "" then "" else Unfence(Trim(str))
  }

  lemma CleanJsonEmpty()
    ensures CleanJson("") == ""
  {
  }

  /** Text that does not start with a fence once trimmed is only trimmed, even if it ends with one. */
  lemma CleanJsonUnfenced(str: string)
    requires !StartsWith(Trim(str), Fence)
    ensures CleanJson(str) == Trim(str)
  {
    JsonFenceIsFence(Trim(str));
  }

  lemma JsonFenceIsFence(s: string)
    ensures StartsWith(s, JsonFence) ==> StartsWith(s, Fence)
  {
    if StartsWith(s, JsonFence) {
      assert s[..3] == JsonFence[..3];
    }
  }

  /** The closing half of a fenced answer: `body`, blanks, the fence. */
  lemma DropClosingFenceOf(body: string, ws: string)
    requires Tight(body) && AllWs(ws)
    ensures DropClosingFence(body + ws + Fence) == body
  {
    var s := body + ws + Fence;
    assert s[|s| - 3..] == Fence;
    assert s[..|s| - 3] == body + ws;
    TrimEndPadded(body, ws);
  }

  /** The opening half: blanks, then `body`, blanks and the closing fence. */
  lemma TrimStartBeforeBody(ws2: string, body: string, ws3: string)
    requires Tight(body) && body != [] && AllWs(ws2) && AllWs(ws3)
    ensures TrimStart(ws2 + body + ws3 + Fence) == body + ws3 + Fence
  {
    assert ws2 + body + ws3 + Fence == ws2 + (body + ws3 + Fence);
    TrimStartPadded(ws2, body + ws3 + Fence);
  }

  /**
   * A ```json fence with any blanks around it and around a tight body is
   * removed entirely.
   */
  lemma CleanJsonJsonFence(ws1: string, ws2: string, body: string, ws3: string, ws4: string)
    requires AllWs(ws1) && AllWs(ws2) && AllWs(ws3) && AllWs(ws4) && Tight(body) && body != []
    ensures CleanJson(ws1 + JsonFence + ws2 + body + ws3 + Fence + ws4) == body
  {
    var inner := JsonFence + (ws2 + body + ws3 + Fence);
    FencedIsTight(JsonFence, ws2 + body + ws3 + Fence);
    assert ws1 + JsonFence + ws2 + body + ws3 + Fence + ws4 == ws1 + inner + ws4;
    TrimPadded(ws1, inner, ws4);
    UnfenceJson(ws2, body, ws3);
  }

  lemma UnfenceJson(ws2: string, body: string, ws3: string)
    requires AllWs(ws2) && AllWs(ws3) && Tight(body) && body != []
    ensures Unfence(JsonFence + (ws2 + body + ws3 + Fence)) == body
  {
    var inner := JsonFence + (ws2 + body + ws3 + Fence);
    assert inner[..7] == JsonFence;
    assert inner[7..] == ws2 + body + ws3 + Fence;
    TrimStartBeforeBody(ws2, body, ws3);
    DropClosingFenceOf(body, ws3);
  }

  /** A text opening with `open` and ending with the closing fence is tight. */
  lemma FencedIsTight(open: string, rest: string)
    requires open == JsonFence || open == Fence
    requires EndsWith(rest, Fence)
    ensures Tight(open + rest)
  {
    var s := open + rest;
    assert s[0] == '`';
    assert s[|s| - 1] == rest[|rest| - 1] == Fence[2];
  }

  /**
   * A bare ``` fence is removed the same way, provided the text after it does
   * not itself begin with `json` (which would make it a ```json fence).
   */
  lemma CleanJsonBareFence(ws1: string, ws2: string, body: string, ws3: string, ws4: string)
    requires AllWs(ws1) && AllWs(ws2) && AllWs(ws3) && AllWs(ws4) && Tight(body) && body != []
    requires ws2 != [] || !StartsWith(body, "json")
    ensures CleanJson(ws1 + Fence + ws2 + body + ws3 + Fence + ws4) == body
  {
    var inner := Fence + (ws2 + body + ws3 + Fence);
    FencedIsTight(Fence, ws2 + body + ws3 + Fence);
    assert ws1 + Fence + ws2 + body + ws3 + Fence + ws4 == ws1 + inner + ws4;
    TrimPadded(ws1, inner, ws4);
    UnfenceBare(ws2, body, ws3);
  }

  lemma UnfenceBare(ws2: string, body: string, ws3: string)
    requires AllWs(ws2) && AllWs(ws3) && Tight(body) && body != []
    requires ws2 != [] || !StartsWith(body, "json")
    ensures Unfence(Fence + (ws2 + body + ws3 + Fence)) == body
  {
    var inner := Fence + (ws2 + body + ws3 + Fence);
    if ws2 == [] {
      assert inner == Fence + (body + ws3 + Fence);
      NotJsonAfterFence(body, ws3);
    } else {
      assert inner[3] == ws2[0];
    }
    assert inner[..3] == Fence;
    assert !StartsWith(inner, JsonFence);
    assert inner[3..] == ws2 + body + ws3 + Fence;
    TrimStartBeforeBody(ws2, body, ws3);
    DropClosingFenceOf(body, ws3);
  }

  /** A bare fence followed directly by a body that does not begin with `json` is not a ```json fence. */
  lemma NotJsonAfterFence(body: string, ws3: string)
    requires AllWs(ws3) && body != [] && !StartsWith(body, "json")
    ensures !StartsWith(Fence + (body + ws3 + Fence), JsonFence)
  {
    var inner := Fence + (body + ws3 + Fence);
    if |body| >= 4 {
      assert inner[3..7] == body[..4];
    } else {
      var c := (ws3 + Fence)[0];
      assert inner[3 + |body|] == c;
      assert IsWs(c) || c == '`';
      assert JsonFence[3 + |body|] != c;
    }
  }

  // ------------------------------------------------------------ data URLs

  /** `base64Data.includes(',') ? base64Data.split(',')[1] : base64Data`. */
  function Base64Payload(data: string): string {
    if ',' in data then CountPositive(data, ','); Split(data, ',')[1] else data
  }

  /** A data URL yields the part after its (only) comma; raw base64 is kept as it is. */
  lemma Base64PayloadOf(header: string, payload: string)
    requires ',' !in header && ',' !in payload
    ensures Base64Payload(header + "," + payload) == payload
    ensures Base64Payload(payload) == payload
  {
    assert ',' in header + "," + payload by { assert (header + "," + payload)[|header|] == ','; }
    SplitSecond(header, payload, [], ',');
    assert header + [','] + payload + [] == header + "," + payload;
  }

  /** With several commas, the payload is the piece between the first and the second. */
  lemma Base64PayloadSecondPiece(header: string, piece: string, rest: string)
    requires ',' !in header && ',' !in piece
    ensures Base64Payload(header + "," + piece + "," + rest) == piece
  {
    var s := header + "," + piece + "," + rest;
    assert s[|header|] == ',';
    assert s == header + [','] + piece + ([','] + rest);
    SplitSecond(header, piece, [','] + rest, ',');
  }

  /** The text after a ':' up to the first ';', if no line break comes first (the lazy `(.*?);`). */
  function UpToSemicolon(t: string): (r: Option<string>)
    ensures r.Some? ==> StartsWith(t, r.value + [';'])
    ensures r.Some? ==> ';' !in r.value && forall i :: 0 <= i < |r.value| ==> !IsLineTerminator(r.value[i])
  {
    if t == [] then None
    else if t[0] == ';' then Some([])
    else if IsLineTerminator(t[0]) then None
    else match UpToSemicolon(t[1..])
         case None => None
         case Some(m) => Some([t[0]] + m)
  }

  lemma {:induction false} UpToSemicolonOf(m: string, rest: string)
    requires ';' !in m && forall i :: 0 <= i < |m| ==> !IsLineTerminator(m[i])
    ensures UpToSemicolon(m + [';'] + rest) == Some(m)
  {
    if m != [] {
      assert (m + [';'] + rest)[1..] == m[1..] + [';'] + rest;
      UpToSemicolonOf(m[1..], rest);
      assert [m[0]] + m[1..] == m;
    }
  }

  /** The first capture of `/:(.*?);/`: the leftmost ':' that a ';' follows on the same line. */
  function MimeMatch(s: string): (r: Option<string>)
    ensures r.Some? ==> ';' !in r.value
  {
    if s == [] then None
    else if s[0] == ':' && UpToSemicolon(s[1..]).Some? then UpToSemicolon(s[1..])
    else MimeMatch(s[1..])
  }

  lemma {:induction false} MimeMatchOf(a: string, m: string, rest: string)
    requires ':' !in a && ';' !in m && forall i :: 0 <= i < |m| ==> !IsLineTerminator(m[i])
    ensures MimeMatch(a + [':'] + m + [';'] + rest) == Some(m)
  {
    var s := a + [':'] + m + [';'] + rest;
    if a == [] {
      assert s[1..] == m + [';'] + rest;
      UpToSemicolonOf(m, rest);
    } else {
      assert s[1..] == a[1..] + [':'] + m + [';'] + rest;
      MimeMatchOf(a[1..], m, rest);
    }
  }

  /** The payload and MIME type `analyzeRecycledProduct` sends. */
  datatype InlineData = InlineData(payload: string, mimeType: string)

  const DefaultMime: string := "image/jpeg"

  function RecycledInlineData(image: string): InlineData {
    if ',' in image then
      CountPositive(image, ',');
      var parts := Split(image, ',');
      InlineData(parts[1], match MimeMatch(parts[0]) case Some(m) => m case None => DefaultMime)
    else InlineData(image, DefaultMime)
  }

  /** Without a comma the input is sent unchanged as `image/jpeg`. */
  lemma RecycledInlineDataRaw(image: string)
    requires ',' !in image
    ensures RecycledInlineData(image) == InlineData(image, DefaultMime)
  {
  }

  /** A `data:<mime>;base64,<payload>` URL yields its payload and its MIME type. */
  lemma RecycledInlineDataOfUrl(mime: string, payload: string)
    requires ',' !in mime && ';' !in mime && forall i :: 0 <= i < |mime| ==> !IsLineTerminator(mime[i])
    requires ',' !in payload
    ensures RecycledInlineData("data:" + mime + ";base64," + payload) == InlineData(payload, mime)
  {
    var header := "data:" + mime + ";base64";
    var url := "data:" + mime + ";base64," + payload;
    assert url == header + "," + payload;
    assert ',' !in header;
    Base64PayloadOf(header, payload);
    assert url[|header|] == ',';
    SplitPrefix(header, [','] + payload, ',');
    SplitAtSeparator(payload, ',');
    assert header + ([','] + payload) == url;
    assert Split(url, ',')[0] == header;
    assert header == "data" + [':'] + mime + [';'] + "base64";
    MimeMatchOf("data", mime, "base64");
  }

  /** A header without a well-formed `:…;` part falls back to `image/jpeg`. */
  lemma RecycledInlineDataNoMime(header: string, payload: string)
    requires ',' !in header && ',' !in payload && ':' !in header
    ensures RecycledInlineData(header + "," + payload) == InlineData(payload, DefaultMime)
  {
    var url := header + "," + payload;
    Base64PayloadOf(header, payload);
    assert url[|header|] == ',';
    SplitPrefix(header, [','] + payload, ',');
    SplitAtSeparator(payload, ',');
    assert header + ([','] + payload) == url;
    assert Split(url, ',')[0] == header;
    assert ',' in url;
    NoColonNoMime(header);
  }

  lemma {:induction false} NoColonNoMime(s: string)
    requires ':' !in s
    ensures MimeMatch(s) == None
  {
    if s != [] {
      NoColonNoMime(s[1..]);
    }
  }

  // ------------------------------------------------- failures and results

  /**
   * What `JSON.parse(cleanText)` under its unchecked cast hands back: it
   * throws on text that is not JSON, gives `null` for the literal `null`,
   * and otherwise (in this model) a record of the declared shape.
   */
  datatype Parsed<T> = Unparsable | JsonNull | Record(value: T)

  /**
   * The common end of `analyzeWasteMedia`, `analyzeRecycledProduct` and
   * `chatWithCopilot`.  No text throws "No response" and text that does not
   * parse throws too; both are caught into the fallback record.  A parsed
   * `null` is returned as it is, which is `None` here; a parsed record is
   * returned.
   */
  function Settle<T(==)>(text: Option<string>, parse: string -> Parsed<T>, fallback: T): (r: Option<T>)
    ensures r.None? <==> Truthy(text) && parse(CleanJson(text.value)).JsonNull?
    ensures !Truthy(text) || parse(CleanJson(text.value)).Unparsable? ==> r == Some(fallback)
    ensures r.Some? && r.value != fallback ==> Truthy(text) && parse(CleanJson(text.value)) == Record(r.value)
    ensures Truthy(text) && parse(CleanJson(text.value)).Record? ==> r == Some(parse(CleanJson(text.value)).value)
  {
    if !Truthy(text) then Some(fallback)
    else match parse(CleanJson(text.value))
      case Unparsable => Some(fallback)
      case JsonNull => None
      case Record(v) => Some(v)
  }

  /**
   * The shapes the model's answer takes around its JSON `body`: a ```json
   * fence, a bare ``` fence, or no fence, with blanks around each part.
   */
  datatype AnswerText =
    | JsonFenced(ws1: string, ws2: string, body: string, ws3: string, ws4: string)
    | BareFenced(ws1: string, ws2: string, body: string, ws3: string, ws4: string)
    | Unfenced(ws1: string, body: string, ws4: string)

  function Text(a: AnswerText): string {
    match a
    case JsonFenced(ws1, ws2, body, ws3, ws4) => ws1 + JsonFence + ws2 + body + ws3 + Fence + ws4
    case BareFenced(ws1, ws2, body, ws3, ws4) => ws1 + Fence + ws2 + body + ws3 + Fence + ws4
    case Unfenced(ws1, body, ws4) => ws1 + body + ws4
  }

  /**
   * The blanks are whitespace and the body is non-empty with no blanks at
   * its ends.  A bare fence is not directly followed by `json`.  An
   * unfenced body does not itself open with a fence.
   */
  predicate WellFormed(a: AnswerText) {
    && AllWs(a.ws1) && AllWs(a.ws4) && Tight(a.body) && a.body != []
    && match a
       case JsonFenced(_, ws2, _, ws3, _) => AllWs(ws2) && AllWs(ws3)
       case BareFenced(_, ws2, body, ws3, _) => AllWs(ws2) && AllWs(ws3) && (ws2 != [] || !StartsWith(body, "json"))
       case Unfenced(_, body, _) => !StartsWith(body, Fence)
  }

  /** `cleanJsonString` recovers the body of every well-formed answer. */
  lemma CleanJsonOfAnswer(a: AnswerText)
    requires WellFormed(a)
    ensures Text(a) != "" && CleanJson(Text(a)) == a.body
  {
    match a
    case JsonFenced(ws1, ws2, body, ws3, ws4) =>
      assert Text(a)[|ws1| + 7 + |ws2|] == body[0];
      CleanJsonJsonFence(ws1, ws2, body, ws3, ws4);
    case BareFenced(ws1, ws2, body, ws3, ws4) =>
      assert Text(a)[|ws1|] == '`';
      CleanJsonBareFence(ws1, ws2, body, ws3, ws4);
    case Unfenced(ws1, body, ws4) =>
      assert Text(a)[|ws1|] == body[0];
      TrimPadded(ws1, body, ws4);
      CleanJsonUnfenced(ws1 + body + ws4);
  }

  /**
   * What a caller receives from a well-formed answer: the record its body
   * parses to, `null` when the body is `null`, and the fallback when the
   * body is not JSON.
   */
  lemma SettleOfAnswer<T>(a: AnswerText, parse: string -> Parsed<T>, fallback: T)
    requires WellFormed(a)
    ensures parse(a.body).Record? ==> Settle(Some(Text(a)), parse, fallback) == Some(parse(a.body).value)
    ensures parse(a.body).JsonNull? ==> Settle(Some(Text(a)), parse, fallback).None?
    ensures parse(a.body).Unparsable? ==> Settle(Some(Text(a)), parse, fallback) == Some(fallback)
  {
    CleanJsonOfAnswer(a);
  }

  /** The record `analyzeWasteMedia` returns when anything fails. */
  function WasteFallback(): (r: WasteAnalysis)
    ensures r.wasteType == Unknown && r.estimatedWeightKg == 10 && r.estimatedPrice == 20
    ensures r.laborServiceRecommendation == LoadingOnly && r.recommendedCollectionMethod == Immediate
    ensures r.description != "" && r.hazardWarning.None?
  {
    WasteAnalysis(Unknown, 10, "Unknown", 20, "Failed to analyze media. Please describe manually.",
                  "Standard Truck", None, false, true, LoadingOnly, Immediate)
  }

  /** `analyzeWasteMedia`, from the answer text on (`None`: it resolved to `null`). */
  function AnalyzeWaste(text: Option<string>, parse: string -> Parsed<WasteAnalysis>): Option<WasteAnalysis> {
    Settle(text, parse, WasteFallback())
  }

  datatype RecycledGuess = RecycledGuess(productType: RecycledProductType, quantity: string, estimatedValue: int)

  function RecycledFallback(): (r: RecycledGuess)
    ensures r.productType == Other && r.quantity == "Unknown" && r.estimatedValue == 0
  {
    RecycledGuess(Other, "Unknown", 0)
  }

  /** `analyzeRecycledProduct`, from the answer text on. */
  function AnalyzeRecycled(text: Option<string>, parse: string -> Parsed<RecycledGuess>): Option<RecycledGuess> {
    Settle(text, parse, RecycledFallback())
  }

  datatype CopilotReply = CopilotReply(reply: string, action: Option<string>)

  function CopilotFallback(): (r: CopilotReply)
    ensures r.reply != "" && r.action.None?
  {
    CopilotReply("系统繁忙，请稍后再试。(AI Busy)", None)
  }

  /** `chatWithCopilot`, from the answer text on. */
  function ChatWithCopilot(text: Option<string>, parse: string -> Parsed<CopilotReply>): Option<CopilotReply> {
    Settle(text, parse, CopilotFallback())
  }
}
