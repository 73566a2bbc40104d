/** The Telegram webhook helpers: the update records, the secret-token check and the choice
    of the message an update is about. */
module Telegram {
  import opened Base
  import opened Text

  /** The parts of Telegram's update records the service reads. */
  datatype User = User(id: int, isBot: bool, firstName: string, username: string, languageCode: string)

  datatype Chat = Chat(id: int, kind: string, username: string, firstName: string, lastName: string, title: string)

  datatype Message = Message(
    messageId: int,
    from: Option<User>,
    chat: Chat,
    date: int,
    text: string,
    caption: string)

  datatype CallbackQuery = CallbackQuery(id: string, from: Option<User>, message: Option<Message>, data: string)

  datatype Update = Update(
    updateId: int,
    message: Option<Message>,
    editedMessage: Option<Message>,
    callbackQuery: Option<CallbackQuery>)

  // ---- The secret-token check ----

  /** The number of positions at which two equally long strings differ. */
  function Mismatches(x: string, y: string): (n: nat)
    requires |x| == |y|
    ensures n <= |x|
  {
    if x == [] then 0 else (if x[0] != y[0] then 1 else 0) + Mismatches(x[1..], y[1..])
  }

  /** Strings of one length are equal exactly when they differ nowhere. */
  lemma {:induction false} NoMismatchesIffEqual(x: string, y: string)
    requires |x| == |y|
    ensures Mismatches(x, y) == 0 <==> x == y
    decreases |x|
  {
    if x != [] {
      NoMismatchesIffEqual(x[1..], y[1..]);
      if x[0] == y[0] && x[1..] == y[1..] {
        assert x == [x[0]] + x[1..] && y == [y[0]] + y[1..];
      }
    }
  }

  /** `subtle.ConstantTimeCompare`: 1 for equal contents, 0 otherwise. Only its result is
      modelled, not its timing. */
  function ConstantTimeCompare(x: string, y: string): (r: int)
    ensures r == 1 || r == 0
    ensures r == 1 <==> x == y
  {
    if |x| != |y| then 0
    else
      NoMismatchesIffEqual(x, y);
      if Mismatches(x, y) == 0 then 1 else 0
  }

  /** `VerifyWebhookSecret`: `provided` is the secret-token header, `""` when absent. */
  function VerifyWebhookSecret(provided: string, expectedSecret: string): (ok: bool)
    ensures TrimSpace(expectedSecret) == [] ==> ok
    ensures TrimSpace(expectedSecret) != [] ==> (ok <==> provided == TrimSpace(expectedSecret))
  {
    var expected := TrimSpace(expectedSecret);
    if expected == "" then true
    else if provided == "" || |provided| != |expected| then false
    else ConstantTimeCompare(provided, expected) == 1
  }

  /** With a secret configured, a missing header or one of the wrong length is refused, and
      the header itself is not trimmed. */
  lemma VerifyRejects(provided: string, expectedSecret: string)
    requires TrimSpace(expectedSecret) != []
    ensures provided == [] ==> !VerifyWebhookSecret(provided, expectedSecret)
    ensures |provided| != |TrimSpace(expectedSecret)| ==> !VerifyWebhookSecret(provided, expectedSecret)
    ensures !VerifyWebhookSecret(" " + TrimSpace(expectedSecret), expectedSecret)
  {
  }

  // ---- The message of an update ----

  /** The messages an update may carry, in the order the service prefers them. */
  function Candidates(u: Update): seq<Option<Message>> {
    [u.message, u.editedMessage, if u.callbackQuery.Some? then u.callbackQuery.value.message else None]
  }

  /** The first present entry of a sequence of optional messages. */
  function FirstPresent(ms: seq<Option<Message>>): (r: Option<Message>)
    ensures r.Some? <==> exists i :: 0 <= i < |ms| && ms[i].Some?
    ensures r.Some? ==> exists i :: 0 <= i < |ms| && ms[i] == r && forall j :: 0 <= j < i ==> ms[j].None?
  {
    if ms == [] then None
    else if ms[0].Some? then ms[0]
    else
      var r := FirstPresent(ms[1..]);
      assert forall i :: 1 <= i < |ms| ==> ms[i] == ms[1..][i - 1];
      r
  }

  /** `ExtractMessage`: the message, else the edited message, else the message of the
      callback query; nothing for no update. */
  function ExtractMessage(update: Option<Update>): (r: Option<Message>)
    ensures update.None? ==> r.None?
    ensures update.Some? && update.value.message.Some? ==> r == update.value.message
    ensures update.Some? && update.value.message.None? && update.value.editedMessage.Some? ==> r == update.value.editedMessage
  {
    if update.None? then None
    else if update.value.message.Some? then update.value.message
    else if update.value.editedMessage.Some? then update.value.editedMessage
    else if update.value.callbackQuery.Some? && update.value.callbackQuery.value.message.Some? then
      update.value.callbackQuery.value.message
    else None
  }

  /** The message picked is the first of the candidates that is present. */
  lemma ExtractFirstCandidate(u: Update)
    ensures ExtractMessage(Some(u)) == FirstPresent(Candidates(u))
  {
    var cs := Candidates(u);
    if cs[0].None? && cs[1].None? {
      assert cs[1..][1..] == [cs[2]];
    }
  }
}
