/**
 The helpers every OpenAI-backed generator shares (src/ai.ts): record ids,
 the community footer, the check that the model called the expected tool,
 and the text an API error is turned into.
 */
module Ai {
  import opened Wrappers
  import opened Strings

  /** `${prefix}_${Date.now()}_${random}`: `now` is the clock in
      milliseconds and `suffix` the nine base-36 random characters. */
  function GenerateId(prefix: string, now: nat, suffix: string): (id: string)
    ensures StartsWith(id, prefix + "_")
    ensures |id| > |prefix| + 1
  {
    prefix + "_" + NatToString(now) + "_" + suffix
  }

  /** `formatWhatsAppMessage(text)`: WhatsApp markup is passed through
      as it is. */
  function FormatWhatsAppMessage(text: string): (r: string)
    ensures r == text
  {
    text
  }

  const Footer := "\U{1F4BB} *GNDC - Grand Nord Developers Community*\nSite : https://gndc.tech\nContact : contact@gndc.tech"

  /** `addGNDCFooter(message?)`: a truthy message comes first, followed by
      a "---" rule. */
  function AddGNDCFooter(message: Option<string>): (r: string)
    ensures EndsWith(r, Footer)
    ensures message.None? || message.value == "" ==> r == Footer
    ensures message.Some? && message.value != "" ==>
      r == message.value + "\n\n---\n" + Footer
  {
    var head := if message.Some? && message.value != "" then message.value + "\n\n---\n" else "";
    var r := head + Footer;
    assert r[|r| - |Footer|..] == Footer;
    r
  }

  /** The message is recovered from a footed text by dropping the fixed
      tail, so footing loses nothing. */
  lemma FooterRemovable(message: string)
    requires message != ""
    ensures var r := AddGNDCFooter(Some(message));
      |r| == |message| + |"\n\n---\n" + Footer| && r[..|message|] == message
  {
  }

  /** A tool call as the completion returns it; `arguments` is the JSON
      payload already parsed, or the parse error. */
  datatype ToolCall<A> = ToolCall(name: string, arguments: Result<A, string>)

  /** `validateToolCall(response, expected)` on `choices[0].message.tool_calls`:
      only the first call is looked at. */
  function ValidateToolCall<A>(toolCalls: Option<seq<ToolCall<A>>>, expected: string)
    : (r: Result<ToolCall<A>, string>)
    ensures r.Success? <==> toolCalls.Some? && |toolCalls.value| > 0 && toolCalls.value[0].name == expected
    ensures r.Success? ==> r.value == toolCalls.value[0]
    ensures toolCalls.None? || |toolCalls.value| == 0 ==>
      r == Failure("OpenAI n'a pas appelé la fonction " + expected)
    ensures toolCalls.Some? && |toolCalls.value| > 0 && toolCalls.value[0].name != expected ==>
      r == Failure("Fonction incorrecte appelée: " + toolCalls.value[0].name + " au lieu de " + expected)
  {
    if toolCalls.None? || |toolCalls.value| == 0 then
      Failure("OpenAI n'a pas appelé la fonction " + expected)
    else
      var call := toolCalls.value[0];
      if call.name != expected then
        Failure("Fonction incorrecte appelée: " + call.name + " au lieu de " + expected)
      else Success(call)
  }

  /** A later call to the expected tool does not rescue a wrong first one. */
  lemma FirstCallDecides<A>(first: ToolCall<A>, rest: seq<ToolCall<A>>, expected: string)
    requires first.name != expected
    ensures ValidateToolCall(Some([first] + rest), expected).Failure?
  {
  }

  /** The HTTP response attached to an API error: its status and
      `data.error.message`, if any. */
  datatype ErrorResponse = ErrorResponse(status: int, message: Option<string>)

  /** An error thrown by the OpenAI client. */
  datatype ApiError = ApiError(response: Option<ErrorResponse>, message: string)

  const UnknownError := "Erreur inconnue"

  const StatusOpening := "Erreur OpenAI ("

  /** "Erreur OpenAI (<status>): ", the opening of an HTTP error's text. */
  function StatusPrefix(status: int): string
  {
    StatusOpening + IntToString(status) + "): "
  }

  /** `handleOpenAIError(error)`: an HTTP error gives its status and the
      body's message (or "Erreur inconnue"); any other error its message. */
  function HandleOpenAIError(e: ApiError): (r: string)
    ensures StartsWith(r, "Erreur OpenAI ")
    ensures e.response.Some? ==> StartsWith(r, StatusPrefix(e.response.value.status))
    ensures e.response.Some? && (e.response.value.message.None? || e.response.value.message.value == "") ==>
      r == StatusPrefix(e.response.value.status) + UnknownError
    ensures e.response.Some? && e.response.value.message.Some? && e.response.value.message.value != "" ==>
      r == StatusPrefix(e.response.value.status) + e.response.value.message.value
    ensures e.response.None? ==> r == "Erreur OpenAI : " + e.message
  {
    match e.response
    case Some(resp) =>
      var detail := if resp.message.Some? && resp.message.value != "" then resp.message.value else UnknownError;
      var r := StatusPrefix(resp.status) + detail;
      assert r[..|StatusPrefix(resp.status)|] == StatusPrefix(resp.status);
      r
    case None => "Erreur OpenAI : " + e.message
  }

  /** The status of an HTTP error can be read back from the text: `parseInt`
      of what follows "Erreur OpenAI (" gives it. */
  lemma {:induction false} OpenAIErrorStatusReadBack(e: ApiError)
    requires e.response.Some? && e.response.value.status >= 0
    ensures var r := HandleOpenAIError(e);
      |r| > |StatusOpening| && ParseInt(r[|StatusOpening|..]) == Some(e.response.value.status)
  {
    var status := e.response.value.status;
    var r := HandleOpenAIError(e);
    var detail := if e.response.value.message.Some? && e.response.value.message.value != "" then e.response.value.message.value else UnknownError;
    var rest := "): " + detail;
    assert r == StatusOpening + (NatToString(status) + rest);
    assert r[|StatusOpening|..] == NatToString(status) + rest;
    ParseIntDigitsThen(status, rest);
  }

  /** How a completion request ends: the client throws, or the model answers
      with its (possibly absent) tool calls. */
  datatype Completion<A> = Rejected(error: ApiError) | Answered(toolCalls: Option<seq<ToolCall<A>>>)
}
