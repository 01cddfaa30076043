/** Shared vocabulary of the two chat relays: conversation entries, the
    abstract outcome of the completion call, the JavaScript `trim`-based
    empty-message check, and the missing-key check that precedes the call. */
module ChatCore {

  datatype Option<T> = None | Some(value: T)

  datatype Role = User | Assistant

  /** One conversation entry, `{ role, content }`. */
  datatype Message = Message(role: Role, content: string)

  /** What the completion client threw, reduced to the fields the handlers read:
      `status` is present exactly when `error.response` is (and then holds
      `error.response.status`), `dataErrorMessage` is
      `error.response.data?.error?.message`, `code` is `error.code`,
      `message` is `error.message`. */
  datatype RemoteError = RemoteError(
    status: Option<int>,
    dataErrorMessage: Option<string>,
    code: Option<string>,
    message: string)

  /** The result of awaiting the completion client: the reply text, or what it threw. */
  datatype Outcome = Reply(text: string) | Failure(error: RemoteError)

  const MissingKeyMessage := "OPENAI_API_KEY tidak ditemukan di file .env"

  /** The characters ECMAScript's `String.prototype.trim` strips: WhiteSpace
      (TAB, VT, FF, SP, NBSP, ZWNBSP and the Zs category) and LineTerminator
      (LF, CR, LS, PS). */
  predicate IsWhitespace(c: char)
  {
    c == '\t' || c == '\n' || c == '\U{000B}' || c == '\U{000C}' || c == '\r' ||
    c == ' ' || c == '\U{00A0}' || c == '\U{1680}' ||
    ('\U{2000}' <= c <= '\U{200A}') ||
    c == '\U{2028}' || c == '\U{2029}' || c == '\U{202F}' || c == '\U{205F}' ||
    c == '\U{3000}' || c == '\U{FEFF}'
  }

  ghost predicate AllWhitespace(s: string)
  {
    forall i :: 0 <= i < |s| ==> IsWhitespace(s[i])
  }

  /** `s` with its leading whitespace removed. */
  function TrimStart(s: string): string
    decreases |s|
  {
    if s != [] && IsWhitespace(s[0]) then TrimStart(s[1..]) else s
  }

  /** `s` with its trailing whitespace removed. */
  function TrimEnd(s: string): string
    decreases |s|
  {
    if s != [] && IsWhitespace(s[|s| - 1]) then TrimEnd(s[..|s| - 1]) else s
  }

  /** `String.prototype.trim`. */
  function Trim(s: string): string
  {
    TrimEnd(TrimStart(s))
  }

  /** `TrimStart` keeps a suffix that does not start with whitespace, and
      everything it cuts off is whitespace. */
  lemma {:induction false} TrimStartCutsLeadingWhitespace(s: string)
    ensures var r := TrimStart(s);
      |r| <= |s| && r == s[|s| - |r|..] &&
      (r == [] || !IsWhitespace(r[0])) &&
      AllWhitespace(s[..|s| - |r|])
    decreases |s|
  {
    if s != [] && IsWhitespace(s[0]) {
      var tail := s[1..];
      TrimStartCutsLeadingWhitespace(tail);
      var r := TrimStart(tail);
      assert TrimStart(s) == r;
      assert tail[|tail| - |r|..] == s[|s| - |r|..];
      assert s[..|s| - |r|] == [s[0]] + tail[..|tail| - |r|];
    } else {
      assert s[..0] == [];
    }
  }

  /** `TrimEnd` keeps a prefix that does not end with whitespace, and
      everything it cuts off is whitespace. */
  lemma {:induction false} TrimEndCutsTrailingWhitespace(s: string)
    ensures var r := TrimEnd(s);
      |r| <= |s| && r == s[..|r|] &&
      (r == [] || !IsWhitespace(r[|r| - 1])) &&
      AllWhitespace(s[|r|..])
    decreases |s|
  {
    if s != [] && IsWhitespace(s[|s| - 1]) {
      var init := s[..|s| - 1];
      TrimEndCutsTrailingWhitespace(init);
      var r := TrimEnd(init);
      assert TrimEnd(s) == r;
      assert init[..|r|] == s[..|r|];
      assert s[|r|..] == init[|r|..] + [s[|s| - 1]];
    } else {
      assert s[..|s|] == s;
    }
  }

  /** The trimmed text is empty exactly when every character is whitespace. */
  lemma {:induction false} TrimEmptyIffAllWhitespace(s: string)
    ensures Trim(s) == [] <==> AllWhitespace(s)
  {
    var t := TrimStart(s);
    TrimStartCutsLeadingWhitespace(s);
    TrimEndCutsTrailingWhitespace(t);
    var k := |s| - |t|;
    assert s == s[..k] + t;
    assert t != [] ==> t[0] == s[k];
  }

  /** `!userMessage || userMessage.trim() === ''`: an absent or empty body
      field, or one that trims to nothing. */
  predicate IsBlank(msg: Option<string>)
  {
    msg.None? || Trim(msg.value) == []
  }

  lemma BlankIffAbsentOrAllWhitespace(msg: Option<string>)
    ensures IsBlank(msg) <==> msg.None? || AllWhitespace(msg.value)
  {
    if msg.Some? {
      TrimEmptyIffAllWhitespace(msg.value);
    }
  }

  /** `!process.env.OPENAI_API_KEY`: the key is unset or the empty string. */
  predicate KeyMissing(apiKey: Option<string>)
  {
    apiKey.None? || apiKey.value == ""
  }

  /** The outcome of `callOpenAI(message)`: without a key it throws a plain
      Error (no response, no code) before any request; with a key it is
      whatever the remote call produced. */
  function CallOpenAI(apiKey: Option<string>, remote: Outcome): Outcome
  {
    if KeyMissing(apiKey) then Failure(RemoteError(None, None, None, MissingKeyMessage))
    else remote
  }

  /** The key check comes before the request: without a key every remote
      outcome is replaced by the same plain Error, which has no response and
      no code; with a key the remote outcome is passed on untouched. */
  lemma KeyCheckPrecedesRequest(apiKey: Option<string>, remote: Outcome, remote': Outcome)
    ensures KeyMissing(apiKey) ==>
      CallOpenAI(apiKey, remote) == CallOpenAI(apiKey, remote') &&
      CallOpenAI(apiKey, remote).Failure? &&
      CallOpenAI(apiKey, remote).error.status.None? &&
      CallOpenAI(apiKey, remote).error.code.None? &&
      CallOpenAI(apiKey, remote).error.message == MissingKeyMessage
    ensures !KeyMissing(apiKey) ==> CallOpenAI(apiKey, remote) == remote
  {
  }
}
