/** How the two relay policies compare on the same request. */
module Versions {
  import opened ChatCore
  import AppRelay
  import RouterRelay

  /** On a non-blank message that the completion client answers, both
      versions append the same turn. */
  lemma SameTurnOnReply(msg: Option<string>, apiKey: Option<string>, remote: Outcome)
    requires !IsBlank(msg) && !KeyMissing(apiKey) && remote.Reply?
    ensures AppRelay.Exchange(msg, apiKey, remote) == RouterRelay.Exchange(msg, apiKey, remote)
  {
  }

  /** On a non-blank message both versions record the same user entry first,
      whatever the outcome; on a blank one, `app.js` answers with its warning
      while `routes/chat.js` appends nothing. */
  lemma SameUserEntry(msg: Option<string>, apiKey: Option<string>, remote: Outcome)
    ensures !IsBlank(msg) ==>
      AppRelay.Exchange(msg, apiKey, remote)[0] == RouterRelay.Exchange(msg, apiKey, remote)[0] == Message(User, msg.value)
    ensures IsBlank(msg) ==>
      |AppRelay.Exchange(msg, apiKey, remote)| == 1 && RouterRelay.Exchange(msg, apiKey, remote) == []
  {
  }
}
