/** The relay policy of `app.js`: a blank message is answered with a warning,
    any other message is recorded and answered with the completion text or
    with an error description that always starts with a fixed prefix and may
    quote the remote error text or the raw exception message. */
module AppRelay {
  import opened ChatCore

  const EmptyWarning := "\U{26A0}\U{FE0F} Pesan kosong terdeteksi. Silakan ketik sesuatu!"
  const ErrorPrefix := "\U{274C} Terjadi kesalahan: "
  const QuotaText := "Quota API habis atau terlalu banyak request. Cek https://platform.openai.com/usage"
  const InvalidKeyText := "API key tidak valid"
  const OpenAIErrorText := "Error dari OpenAI"
  const ConnectionText := "Tidak dapat terhubung ke OpenAI. Cek koneksi internet."

  /** The text pushed from the `catch` block for the error the client threw.
      Only an empty raw `error.message` can leave the prefix without an
      explanation after it: the remote data text falls back to a fixed text
      when it is absent or empty. */
  function ClassifyError(e: RemoteError): (r: string)
    ensures ErrorPrefix <= r
    ensures |r| > |ErrorPrefix| || (e.status.None? && e.code != Some("ENOTFOUND") && e.message == "")
  {
    ErrorPrefix +
      if e.status.Some? then
        if e.status.value == 429 then QuotaText
        else if e.status.value == 401 then InvalidKeyText
        else if e.dataErrorMessage.Some? && e.dataErrorMessage.value != "" then e.dataErrorMessage.value
        else OpenAIErrorText
      else if e.code == Some("ENOTFOUND") then ConnectionText
      else e.message
  }

  /** A response from the server is examined before the error code: once
      there is one, neither `error.code` nor `error.message` can change the text. */
  lemma ResponseOutranksCode(e: RemoteError, code: Option<string>, message: string)
    requires e.status.Some?
    ensures ClassifyError(e) == ClassifyError(e.(code := code, message := message))
  {
  }

  /** Statuses 429 and 401 have fixed texts; any other status shows the remote
      `error.message` when it is a non-empty text, else the generic OpenAI text. */
  lemma StatusTexts(e: RemoteError)
    requires e.status.Some?
    ensures e.status.value == 429 ==> ClassifyError(e) == ErrorPrefix + QuotaText
    ensures e.status.value == 401 ==> ClassifyError(e) == ErrorPrefix + InvalidKeyText
    ensures e.status.value != 429 && e.status.value != 401 ==>
      ClassifyError(e) == ErrorPrefix +
        (if e.dataErrorMessage.Some? && e.dataErrorMessage.value != "" then e.dataErrorMessage.value
         else OpenAIErrorText)
  {
  }

  /** Without a response, `ENOTFOUND` gives the connection text and every other
      failure surfaces its raw message; the remote data plays no part. */
  lemma NoResponseTexts(e: RemoteError, data: Option<string>)
    requires e.status.None?
    ensures e.code == Some("ENOTFOUND") ==> ClassifyError(e) == ErrorPrefix + ConnectionText
    ensures e.code != Some("ENOTFOUND") ==> ClassifyError(e) == ErrorPrefix + e.message
    ensures ClassifyError(e) == ClassifyError(e.(dataErrorMessage := data))
  {
  }

  /** The entries one POST /chat appends to the history. */
  function Exchange(msg: Option<string>, apiKey: Option<string>, remote: Outcome): (added: seq<Message>)
    ensures IsBlank(msg) ==> added == [Message(Assistant, EmptyWarning)]
    ensures !IsBlank(msg) ==>
      |added| == 2 && added[0] == Message(User, msg.value) && added[1].role == Assistant
    ensures !IsBlank(msg) && !KeyMissing(apiKey) && remote.Reply? ==> added[1].content == remote.text
    ensures !IsBlank(msg) && (KeyMissing(apiKey) || remote.Failure?) ==> ErrorPrefix <= added[1].content
    ensures !IsBlank(msg) && !KeyMissing(apiKey) && remote.Failure? ==> added[1].content == ClassifyError(remote.error)
  {
    if IsBlank(msg) then
      [Message(Assistant, EmptyWarning)]
    else
      var answer := match CallOpenAI(apiKey, remote)
        case Reply(text) => text
        case Failure(e) => ClassifyError(e);
      [Message(User, msg.value), Message(Assistant, answer)]
  }

  /** Without a key the completion client throws before any request, so the
      remote outcome plays no part and the answer is fixed. */
  lemma MissingKeyAnswer(msg: Option<string>, apiKey: Option<string>, remote: Outcome)
    requires !IsBlank(msg) && KeyMissing(apiKey)
    ensures Exchange(msg, apiKey, remote) == [Message(User, msg.value), Message(Assistant, ErrorPrefix + MissingKeyMessage)]
  {
  }

  /** A blank message never reaches the completion client: what is appended
      depends neither on the key nor on the remote outcome. */
  lemma BlankSkipsRemote(msg: Option<string>, apiKey: Option<string>, remote: Outcome,
                         apiKey': Option<string>, remote': Outcome)
    requires IsBlank(msg)
    ensures Exchange(msg, apiKey, remote) == Exchange(msg, apiKey', remote')
  {
  }

  /** The history invariant every handler keeps: each user entry holds a
      non-blank message and is immediately followed by an assistant entry. */
  ghost predicate Answered(h: seq<Message>)
  {
    forall i :: 0 <= i < |h| && h[i].role == User ==>
      i + 1 < |h| && h[i + 1].role == Assistant && !IsBlank(Some(h[i].content))
  }

  lemma ExchangeKeepsAnswered(h: seq<Message>, msg: Option<string>, apiKey: Option<string>, remote: Outcome)
    requires Answered(h)
    ensures Answered(h + Exchange(msg, apiKey, remote))
  {
  }

  /** The module-level `chatHistory` array of `app.js` and its two handlers. */
  class ChatLog {
    var history: seq<Message>

    ghost predicate Valid()
      reads this
    {
      Answered(history)
    }

    constructor ()
      ensures Valid() && history == []
    {
      history := [];
    }

    /** POST /chat with body field `message` (absent when `msg` is `None`). */
    method Chat(msg: Option<string>, apiKey: Option<string>, remote: Outcome)
      requires Valid()
      modifies this
      ensures Valid()
      ensures history == old(history) + Exchange(msg, apiKey, remote)
    {
      ghost var before := history;
      if IsBlank(msg) {
        history := history + [Message(Assistant, EmptyWarning)];
      } else {
        var userMessage := msg.value;
        history := history + [Message(User, userMessage)];
        var outcome := CallOpenAI(apiKey, remote);
        var answer: string;
        match outcome {
          case Reply(text) =>
            answer := text;
          case Failure(e) =>
            answer := ClassifyError(e);
        }
        history := history + [Message(Assistant, answer)];
      }
      ExchangeKeepsAnswered(before, msg, apiKey, remote);
    }

    /** POST /clear. */
    method Clear()
      modifies this
      ensures Valid() && history == []
    {
      history := [];
    }
  }
}
