/** The relay policy of `routes/chat.js`: a blank message changes nothing,
    any other message is recorded and answered with the completion text or
    with one of five fixed error texts; remote and raw error text is never shown. */
module RouterRelay {
  import opened ChatCore

  const DefaultText := "Maaf, terjadi kesalahan saat memproses permintaan Anda."
  const RateLimitText := "\U{26A0}\U{FE0F} Terlalu banyak permintaan atau quota API habis. Silakan:\n1. Tunggu beberapa menit\n2. Periksa quota di platform.openai.com/usage\n3. Pastikan billing sudah diatur"
  const InvalidKeyText := "\U{1F511} API key tidak valid. Silakan periksa API key Anda di file .env"
  const ServerFaultText := "\U{1F527} Server OpenAI sedang bermasalah. Silakan coba lagi nanti."
  const NetworkText := "\U{1F310} Tidak dapat terhubung ke server OpenAI. Periksa koneksi internet Anda."

  /** Every text the `catch` block can append. */
  const ErrorTexts: set<string> := {DefaultText, RateLimitText, InvalidKeyText, ServerFaultText, NetworkText}

  /** The text appended from the `catch` block: the default apology unless the
      status is 429, 401 or 500, or there is no response and the code is `ENOTFOUND`. */
  function ClassifyError(e: RemoteError): (r: string)
    ensures r in ErrorTexts
  {
    if e.status.Some? then
      if e.status.value == 429 then RateLimitText
      else if e.status.value == 401 then InvalidKeyText
      else if e.status.value == 500 then ServerFaultText
      else DefaultText
    else if e.code == Some("ENOTFOUND") then NetworkText
    else DefaultText
  }

  /** Which failure gets which fixed text: 429 the rate-limit text, 401 the
      invalid-key text, 500 the server-fault text, and no response with code
      `ENOTFOUND` the network text. */
  lemma RecognisedTexts(e: RemoteError)
    ensures e.status == Some(429) ==> ClassifyError(e) == RateLimitText
    ensures e.status == Some(401) ==> ClassifyError(e) == InvalidKeyText
    ensures e.status == Some(500) ==> ClassifyError(e) == ServerFaultText
    ensures e.status.None? && e.code == Some("ENOTFOUND") ==> ClassifyError(e) == NetworkText
  {
  }

  /** The five texts are pairwise distinct. */
  lemma ErrorTextsDistinct()
    ensures |ErrorTexts| == 5
  {
  }

  /** The user sees the default apology exactly when the failure is none of
      the recognised kinds: an unknown status, or no response and a code other
      than `ENOTFOUND` (which covers the missing-key error). */
  lemma DefaultIffUnrecognised(e: RemoteError)
    ensures ClassifyError(e) == DefaultText <==>
      (e.status.Some? && e.status.value != 429 && e.status.value != 401 && e.status.value != 500) ||
      (e.status.None? && e.code != Some("ENOTFOUND"))
  {
    ErrorTextsDistinct();
  }

  /** Neither the remote `data.error.message` nor the raw `error.message` ever
      reaches the user: the text depends on the status and the code alone. */
  lemma HidesRemoteText(e: RemoteError, data: Option<string>, message: string)
    ensures ClassifyError(e) == ClassifyError(e.(dataErrorMessage := data, message := message))
  {
  }

  /** A response is examined before the code: with one, the code is irrelevant. */
  lemma ResponseOutranksCode(e: RemoteError, code: Option<string>)
    requires e.status.Some?
    ensures ClassifyError(e) == ClassifyError(e.(code := code))
  {
  }

  /** The entries one POST /chat appends to the history. */
  function Exchange(msg: Option<string>, apiKey: Option<string>, remote: Outcome): (added: seq<Message>)
    ensures IsBlank(msg) ==> added == []
    ensures !IsBlank(msg) ==>
      |added| == 2 && added[0] == Message(User, msg.value) && added[1].role == Assistant
    ensures !IsBlank(msg) && !KeyMissing(apiKey) && remote.Reply? ==> added[1].content == remote.text
    ensures !IsBlank(msg) && (KeyMissing(apiKey) || remote.Failure?) ==> added[1].content in ErrorTexts
    ensures !IsBlank(msg) && !KeyMissing(apiKey) && remote.Failure? ==> added[1].content == ClassifyError(remote.error)
  {
    if IsBlank(msg) then
      []
    else
      var answer := match CallOpenAI(apiKey, remote)
        case Reply(text) => text
        case Failure(e) => ClassifyError(e);
      [Message(User, msg.value), Message(Assistant, answer)]
  }

  /** Without a key the completion client throws before any request, so the
      remote outcome plays no part and the answer is fixed. */
  lemma MissingKeyAnswer(msg: Option<string>, apiKey: Option<string>, remote: Outcome)
    requires !IsBlank(msg) && KeyMissing(apiKey)
    ensures Exchange(msg, apiKey, remote) == [Message(User, msg.value), Message(Assistant, DefaultText)]
  {
  }

  /** The history invariant both handlers keep: user and assistant entries
      alternate, starting with a user entry holding a non-blank message, so
      the history is a sequence of complete turns. */
  ghost predicate Turns(h: seq<Message>)
  {
    |h| % 2 == 0 &&
    forall i :: 0 <= i < |h| ==>
      if i % 2 == 0 then h[i].role == User && !IsBlank(Some(h[i].content))
      else h[i].role == Assistant
  }

  lemma ExchangeKeepsTurns(h: seq<Message>, msg: Option<string>, apiKey: Option<string>, remote: Outcome)
    requires Turns(h)
    ensures Turns(h + Exchange(msg, apiKey, remote))
  {
  }

  /** The module-level `chatHistory` array of `routes/chat.js` and its two handlers. */
  class ChatLog {
    var history: seq<Message>

    ghost predicate Valid()
      reads this
    {
      Turns(history)
    }

    constructor ()
      ensures Valid() && history == []
    {
      history := [];
    }

    /** POST /chat with body field `message` (absent when `msg` is `None`). */
    method Chat(msg: Option<string>, apiKey: Option<string>, remote: Outcome)
      requires Valid()
      modifies this
      ensures Valid()
      ensures history == old(history) + Exchange(msg, apiKey, remote)
    {
      ghost var before := history;
      if IsBlank(msg) {
        assert before + Exchange(msg, apiKey, remote) == before;
      } else {
        var userMessage := msg.value;
        history := history + [Message(User, userMessage)];
        var outcome := CallOpenAI(apiKey, remote);
        match outcome {
          case Reply(aiResponse) =>
            history := history + [Message(Assistant, aiResponse)];
          case Failure(e) =>
            var errorMessage := ClassifyError(e);
            history := history + [Message(Assistant, errorMessage)];
        }
      }
      ExchangeKeepsTurns(before, msg, apiKey, remote);
    }

    /** POST /clear. */
    method Clear()
      modifies this
      ensures Valid() && history == []
    {
      history := [];
    }
  }
}
