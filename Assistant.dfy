/**
  The language-model side of the voice control: the model's reply is cleaned of a markdown
  code fence, decoded as JSON, and accepted only when it names an allowed command.
  Both programs (the web server and the stand-alone voice loop) share this logic; they
  differ only in the error reply they build, which each models itself.

  The model call and the JSON decoder are not modelled: the reply arrives as an
  `LlmReply`, and decoding is a function parameter that gives None for text
  `json.loads` rejects.
*/
module Assistant {
  import opened Common

  /** A decoded JSON value (`json.loads` gives int for integral literals, float otherwise). */
  datatype Json =
    | JNull
    | JBool(b: bool)
    | JInt(i: int)
    | JReal(r: real)
    | JString(s: string)
    | JArray(items: seq<Json>)
    | JObject(fields: map<string, Json>)

  /** How the model call ended: with a reply text, or with an exception. */
  datatype LlmReply = Content(text: string) | ApiError(message: string) | OtherError(message: string)

  // ----- str.strip ---------------------------------------------------------------------------

  /** The characters Python's `str.isspace` accepts, which `str.strip()` removes. */
  predicate IsSpace(c: char)
  {
    || ('\t' <= c <= '\r') || ('\U{001C}' <= c <= ' ')
    || c == '\U{0085}' || c == '\U{00A0}' || c == '\U{1680}'
    || ('\U{2000}' <= c <= '\U{200A}')
    || c == '\U{2028}' || c == '\U{2029}' || c == '\U{202F}' || c == '\U{205F}' || c == '\U{3000}'
  }

  /** Number of leading whitespace characters. */
  function LeadingSpace(s: string): (n: nat)
    ensures n <= |s|
    ensures forall i :: 0 <= i < n ==> IsSpace(s[i])
    ensures n < |s| ==> !IsSpace(s[n])
  {
    if s == [] || !IsSpace(s[0]) then 0 else 1 + LeadingSpace(s[1..])
  }

  /** Number of trailing whitespace characters. */
  function TrailingSpace(s: string): (n: nat)
    ensures n <= |s|
    ensures forall i :: |s| - n <= i < |s| ==> IsSpace(s[i])
    ensures n < |s| ==> !IsSpace(s[|s| - n - 1])
  {
    if s == [] || !IsSpace(s[|s| - 1]) then 0 else 1 + TrailingSpace(s[..|s| - 1])
  }

  /** `str.lstrip()`: what follows the leading whitespace. */
  function StripLeft(s: string): (r: string)
    ensures r == s[LeadingSpace(s)..]
    ensures r != [] ==> !IsSpace(r[0])
  {
    s[LeadingSpace(s)..]
  }

  /** `str.rstrip()`: what precedes the trailing whitespace. */
  function StripRight(s: string): (r: string)
    ensures |r| <= |s| && r == s[..|r|]
    ensures forall i :: |r| <= i < |s| ==> IsSpace(s[i])
    ensures r != [] ==> !IsSpace(r[|r| - 1])
  {
    s[..|s| - TrailingSpace(s)]
  }

  /**
    `str.strip()`: the longest middle part of `s` that neither starts nor ends with
    whitespace; everything cut off is whitespace.
  */
  function Strip(s: string): (r: string)
    ensures LeadingSpace(s) + |r| <= |s|
    ensures r == s[LeadingSpace(s) .. LeadingSpace(s) + |r|]
    ensures forall i :: LeadingSpace(s) + |r| <= i < |s| ==> IsSpace(s[i])
    ensures r != [] ==> !IsSpace(r[0]) && !IsSpace(r[|r| - 1])
  {
    StripBothEnds(s);
    StripRight(StripLeft(s))
  }

  /** What `rstrip` cuts from the `lstrip`ped text is whitespace at the end of the whole text. */
  lemma StripBothEnds(s: string)
    ensures var lead := LeadingSpace(s); var r := StripRight(StripLeft(s));
      && lead + |r| <= |s|
      && r == s[lead .. lead + |r|]
      && (forall i :: lead + |r| <= i < |s| ==> IsSpace(s[i]))
      && (r != [] ==> !IsSpace(r[0]))
  {
    var lead := LeadingSpace(s);
    var t := StripLeft(s);
    var r := StripRight(t);
    assert forall i :: lead + |r| <= i < |s| ==> s[i] == t[i - lead];
    assert r != [] ==> r[0] == t[0];
  }

  /** Stripping twice strips nothing more. */
  lemma StripIdempotent(s: string)
    ensures Strip(Strip(s)) == Strip(s)
  {
    var r := Strip(s);
    if r != [] {
      assert LeadingSpace(r) == 0;
      assert TrailingSpace(r) == 0;
      assert r[0..] == r && r[..|r|] == r;
    }
  }

  // ----- Python slicing and the fence --------------------------------------------------------

  /** A slice bound as Python reads it: negative counts from the end, then clipped to the string. */
  function SliceBound(i: int, n: nat): (b: nat)
    ensures b <= n
    ensures 0 <= i <= n ==> b == i
    ensures -(n as int) <= i < 0 ==> b == n + i
  {
    if i < 0 then (if i + n < 0 then 0 else i + n) else (if i > n then n else i)
  }

  /** `s[start:stop]` with Python's rules: empty when the bounds cross. */
  function PySlice(s: string, start: int, stop: int): (r: string)
    ensures var a := SliceBound(start, |s|); var b := SliceBound(stop, |s|);
      r == if a < b then s[a..b] else []
  {
    var a := SliceBound(start, |s|);
    var b := SliceBound(stop, |s|);
    if a < b then s[a..b] else []
  }

  /**
    The fence cleaning: a reply starting with three backticks and `json` loses its first 7
    and last 3 characters, one starting with three backticks only its first 3 and last 3;
    what remains is stripped.  Any other reply is kept as it is, unstripped.
  */
  function StripFence(reply: string): (r: string)
    ensures !StartsWith(reply, "```") ==> r == reply
  {
    if StartsWith(reply, "```json") then Strip(PySlice(reply, 7, -3))
    else if StartsWith(reply, "```") then Strip(PySlice(reply, 3, -3))
    else reply
  }

  /** A fenced `json` block comes out as its stripped body. */
  lemma JsonFenceRemoved(body: string)
    ensures StripFence("```json" + body + "```") == Strip(body)
  {
    var s := "```json" + body + "```";
    assert s[..7] == "```json";
    assert s[..3] == "```";
    assert s[7..|s| - 3] == body;
  }

  /** A bare fenced block (not tagged `json`) comes out as its stripped body. */
  lemma BareFenceRemoved(body: string)
    requires !StartsWith(body, "json")
    ensures StripFence("```" + body + "```") == Strip(body)
  {
    var s := "```" + body + "```";
    assert s[..3] == "```";
    assert |body| >= 4 ==> s[3..7] == body[..4];
    assert |body| < 4 ==> s[3 + |body|] == '`';
    assert !StartsWith(s, "```json");
    assert s[3..|s| - 3] == body;
  }

  /**
    The cut is positional: a reply that opens a fence without closing it loses its last three
    characters all the same, so `` ```json{"command": "land"} `` is cut to `{"command": "lan`.
  */
  lemma UnclosedFenceLosesText()
    ensures StripFence("```json{\"command\": \"land\"}") == "{\"command\": \"lan"
  {
    var s := "```json{\"command\": \"land\"}";
    assert |s| == 26 && s[..7] == "```json";
    assert SliceBound(7, 26) == 7 && SliceBound(-3, 26) == 23;
    assert s[7..23] == "{\"command\": \"lan";
    assert LeadingSpace("{\"command\": \"lan") == 0;
    assert TrailingSpace("{\"command\": \"lan") == 0;
  }

  // ----- validation --------------------------------------------------------------------------

  /** `{"command": "unknown", "parameters": {}}` */
  const Unknown: Json := JObject(map["command" := JString("unknown"), "parameters" := JObject(map[])])

  /** A decoded reply that is passed on: an object whose `command` is allowed or `unknown`. */
  predicate Accepted(data: Json, allowed: seq<string>)
  {
    && data.JObject? && "command" in data.fields
    && data.fields["command"].JString?
    && (data.fields["command"].s in allowed || data.fields["command"].s == "unknown")
  }

  /** The structure and allow-list check: an accepted reply is returned as it is, anything else becomes `unknown`. */
  function Validate(data: Json, allowed: seq<string>): (r: Json)
    ensures Accepted(r, allowed)
    ensures Accepted(data, allowed) ==> r == data
    ensures !Accepted(data, allowed) ==> r == Unknown
  {
    if data.JObject? && "command" in data.fields then
      var c := data.fields["command"];
      if (c.JString? && c.s in allowed) || c == JString("unknown") then data else Unknown
    else Unknown
  }

  /** Validating a validated reply changes nothing. */
  lemma ValidateIdempotent(data: Json, allowed: seq<string>)
    ensures Validate(Validate(data, allowed), allowed) == Validate(data, allowed)
  {
  }

  /**
    The reply text after cleaning and decoding: undecodable text gives `unknown`, decoded
    text is validated.  The exception paths are each program's own.
  */
  function DecodeReply(text: string, decode: string -> Option<Json>, allowed: seq<string>): (r: Json)
    ensures Accepted(r, allowed)
    ensures decode(StripFence(text)).None? ==> r == Unknown
    ensures decode(StripFence(text)).Some? ==> r == Validate(decode(StripFence(text)).value, allowed)
  {
    match decode(StripFence(text))
    case None => Unknown
    case Some(data) => Validate(data, allowed)
  }

  /** The name of the command a reply carries, when it is a string. */
  function CommandName(data: Json): Option<string>
  {
    if data.JObject? && "command" in data.fields && data.fields["command"].JString?
    then Some(data.fields["command"].s) else None
  }
}
