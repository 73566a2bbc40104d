/** The HTTP and Telegram front end's decisions: command parsing, the webhook route, the
    dispatch of a Telegram update to an action, the replies that read or start workflows, and
    the review form that approves or rejects a workflow. Sending replies is left to the
    caller: dispatch returns the action to take. */
module Handlers {
  import opened Base
  import opened Text
  import opened Storage
  import opened Workflow
  import opened Telegram

  // ---- Pure string helpers ----

  /** `normalizeWebhookPath`: the trimmed path with a leading slash, or the default route. */
  function NormalizeWebhookPath(path: string): (r: string)
    ensures r != [] && r[0] == '/'
    ensures IsTrimmed(r)
    ensures TrimSpace(path) == [] ==> r == "/telegram/webhook"
    ensures TrimSpace(path) != [] && HasPrefix(TrimSpace(path), "/") ==> r == TrimSpace(path)
    ensures TrimSpace(path) != [] && !HasPrefix(TrimSpace(path), "/") ==> r == "/" + TrimSpace(path)
  {
    var normalized := TrimSpace(path);
    if normalized == "" then "/telegram/webhook"
    else if !HasPrefix(normalized, "/") then "/" + normalized
    else normalized
  }

  /** Normalising a normalised path changes nothing. */
  lemma NormalizeIdempotent(path: string)
    ensures NormalizeWebhookPath(NormalizeWebhookPath(path)) == NormalizeWebhookPath(path)
  {
    var r := NormalizeWebhookPath(path);
    TrimSpaceOfTrimmed(r);
    assert HasPrefix(r, "/");
  }

  /** The command word of trimmed slash text: its first field, cut at the first `@`. */
  function CommandWord(trimmed: string): (c: string)
    requires trimmed != [] && trimmed[0] == '/'
    ensures 0 < |c| <= FieldEnd(trimmed) && c == trimmed[..|c|]
    ensures c[0] == '/' && '@' !in c
  {
    var first := trimmed[..FieldEnd(trimmed)];
    var at := IndexOf(first, '@');
    if at != -1 then first[..at] else first
  }

  /** The command and arguments of trimmed slash text: the command word lower-cased, and the
      trimmed rest after the first field. */
  function SlashCommand(trimmed: string): (r: (string, string))
    requires trimmed != [] && trimmed[0] == '/'
    ensures r.0 != [] && r.0[0] == '/' && IsTrimmed(r.1)
    ensures forall i :: 0 <= i < |r.0| ==> !('A' <= r.0[i] <= 'Z')
  {
    var word := CommandWord(trimmed);
    var command := ToLower(word);
    assert command[0] == LowerChar(word[0]);
    (command, TrimSpace(trimmed[FieldEnd(trimmed)..]))
  }

  /** `parseTelegramCommand`: plain text is all arguments; a slash command is the first
      field, cut at its first `@` and lower-cased, and the arguments are the trimmed rest
      after the first field. */
  function ParseTelegramCommand(text: string): (r: (string, string))
    ensures TrimSpace(text) == [] ==> r == ("", "")
    ensures TrimSpace(text) != [] && !HasPrefix(TrimSpace(text), "/") ==> r == ("", TrimSpace(text))
    ensures HasPrefix(TrimSpace(text), "/") ==> r.0 != [] && r.0[0] == '/' && IsTrimmed(r.1)
    ensures forall i :: 0 <= i < |r.0| ==> !('A' <= r.0[i] <= 'Z')
  {
    var trimmed := TrimSpace(text);
    if trimmed == "" then ("", "")
    else if !HasPrefix(trimmed, "/") then ("", trimmed)
    else SlashCommand(trimmed)
  }

  /** A word without white space followed by one space and trimmed text trims to the word
      alone, or to the whole text when the text is not empty. */
  lemma TrimWordAndArgs(word: string, args: string)
    requires word != [] && forall i :: 0 <= i < |word| ==> !IsSpace(word[i])
    requires IsTrimmed(args)
    ensures TrimSpace(word + " " + args) == if args == [] then word else word + " " + args
  {
    var text := word + " " + args;
    if args == [] {
      assert text == word + " ";
      assert TrimLeftSpace(text) == text;
      assert TrimRightSpace(text) == TrimRightSpace(word);
    } else {
      assert text[|text| - 1] == args[|args| - 1];
      TrimSpaceOfTrimmed(text);
    }
  }

  /** A command followed by a mention has no white space when neither has any. */
  lemma WordWithoutSpace(command: string, mention: string)
    requires forall i :: 0 <= i < |command| ==> !IsSpace(command[i])
    requires forall i :: 0 <= i < |mention| ==> !IsSpace(mention[i])
    ensures forall i :: 0 <= i < |command + mention| ==> !IsSpace((command + mention)[i])
  {
    var word := command + mention;
    forall i | 0 <= i < |word| ensures !IsSpace(word[i]) {
      if i < |command| { assert word[i] == command[i]; } else { assert word[i] == mention[i - |command|]; }
    }
  }

  /** The command word of a command, a mention and a rest starting with white space is the
      command, and the first field ends where the mention does. */
  lemma CommandWordOf(command: string, mention: string, rest: string)
    requires |command| > 0 && command[0] == '/'
    requires forall i :: 0 <= i < |command| ==> !IsSpace(command[i]) && command[i] != '@'
    requires mention == [] || mention[0] == '@'
    requires forall i :: 0 <= i < |mention| ==> !IsSpace(mention[i])
    requires rest == [] || IsSpace(rest[0])
    ensures FieldEnd(command + mention + rest) == |command + mention|
    ensures CommandWord(command + mention + rest) == command
  {
    var word := command + mention;
    WordWithoutSpace(command, mention);
    FieldEndOfWord(word, rest);
    var trimmed := word + rest;
    assert trimmed[..FieldEnd(trimmed)] == word;
    if mention == [] {
      assert word == command;
      assert IndexOf(word, '@') == -1;
    } else {
      assert word[|command|] == '@';
      assert IndexOf(word, '@') == |command|;
      assert word[..|command|] == command;
    }
  }

  /** Arguments after one space trim back to themselves. */
  lemma SpacedArgs(args: string)
    requires IsTrimmed(args)
    ensures TrimSpace(if args == [] then [] else " " + args) == args
  {
    if args != [] {
      TrimSpaceDropsLeading(" ", args);
      TrimSpaceOfTrimmed(args);
    }
  }

  /** Slash text made of a command, a mention and a rest starting with white space gives the
      command in lower case and the trimmed rest. */
  lemma SlashCommandOf(command: string, mention: string, rest: string)
    requires |command| > 0 && command[0] == '/'
    requires forall i :: 0 <= i < |command| ==> !IsSpace(command[i]) && command[i] != '@'
    requires mention == [] || mention[0] == '@'
    requires forall i :: 0 <= i < |mention| ==> !IsSpace(mention[i])
    requires rest == [] || IsSpace(rest[0])
    ensures SlashCommand(command + mention + rest) == (ToLower(command), TrimSpace(rest))
  {
    var trimmed := command + mention + rest;
    CommandWordOf(command, mention, rest);
    assert trimmed[FieldEnd(trimmed)..] == rest;
  }

  /** A command, an optional `@bot` mention and trimmed arguments, written with one space,
      parse back into the command in lower case and the arguments. */
  lemma CommandRoundTrip(command: string, mention: string, args: string)
    requires |command| > 0 && command[0] == '/'
    requires forall i :: 0 <= i < |command| ==> !IsSpace(command[i]) && command[i] != '@'
    requires mention == [] || mention[0] == '@'
    requires forall i :: 0 <= i < |mention| ==> !IsSpace(mention[i])
    requires IsTrimmed(args)
    ensures ParseTelegramCommand(command + mention + " " + args) == (ToLower(command), args)
  {
    var word := command + mention;
    WordWithoutSpace(command, mention);
    var text := command + mention + " " + args;
    assert text == word + " " + args;
    TrimWordAndArgs(word, args);
    var rest := if args == [] then [] else " " + args;
    var trimmed := command + mention + rest;
    assert TrimSpace(text) == trimmed;
    assert trimmed[0] == '/' && HasPrefix(trimmed, "/");
    assert ParseTelegramCommand(text) == SlashCommand(trimmed);
    SlashCommandOf(command, mention, rest);
    SpacedArgs(args);
  }

  // ---- The webhook route ----

  /** The HTTP status of a webhook call: 503 without a bot token, 401 for a bad secret, 400
      for a body that is not an update, else 200 (the update is then handled). `provided` is
      the secret-token header and `payload` the decoded body. */
  function WebhookStatus(botToken: string, provided: string, webhookSecret: string, payload: Option<Update>): (code: int)
    ensures code == 200 <==> botToken != "" && VerifyWebhookSecret(provided, webhookSecret) && payload.Some?
    ensures code == 503 <==> botToken == ""
    ensures code == 401 <==> botToken != "" && !VerifyWebhookSecret(provided, webhookSecret)
    ensures code == 400 <==> botToken != "" && VerifyWebhookSecret(provided, webhookSecret) && payload.None?
    ensures code in {200, 400, 401, 503}
  {
    if botToken == "" then 503
    else if !VerifyWebhookSecret(provided, webhookSecret) then 401
    else if payload.None? then 400
    else 200
  }

  // ---- Dispatch of a Telegram update ----

  /** The settings dispatch reads. */
  datatype TelegramConfig = TelegramConfig(chatId: string, baseUrl: string, enablePremiumFeatures: bool)

  /** What handling an update does: nothing, send a text, look up a workflow, or start one. */
  datatype Action =
    | Ignore
    | Reply(chatId: string, text: string)
    | ReplyStatus(chatId: string, workflowId: string, baseUrl: string)
    | StartFromTelegram(chatId: string, task: string, isPremium: bool, baseUrl: string)

  const USAGE_STATUS := "Usage: /status WORKFLOW_ID"
  const USAGE_PREMIUM := "Usage: /premium your task description"
  const USAGE_BASIC := "Usage: /basic your task description"
  const UNKNOWN_COMMAND := "Unknown command. Send /help for options."

  /** `replyTelegramHelp`'s text. */
  function HelpText(enablePremiumFeatures: bool): string {
    HELP_INTRO + (if enablePremiumFeatures then "premium" else "basic") + HELP_COMMANDS
  }

  const HELP_INTRO := "Send a task description to start a workflow.\nDefault mode: "
  const HELP_COMMANDS := ".\n\nCommands:\n/premium your task description\n/basic your task description\n/status WORKFLOW_ID"

  /** The text of a message: its trimmed text, else its trimmed caption. */
  function MessageText(m: Message): (t: string)
    ensures IsTrimmed(t)
    ensures TrimSpace(m.text) != [] ==> t == TrimSpace(m.text)
    ensures TrimSpace(m.text) == [] ==> t == TrimSpace(m.caption)
  {
    var text := TrimSpace(m.text);
    if text == "" then TrimSpace(m.caption) else text
  }

  /** The `switch` of `handleTelegramUpdate`. */
  function Command(chatId: string, command: string, args: string, baseUrl: string, enablePremiumFeatures: bool): (a: Action)
    ensures a != Ignore && a.chatId == chatId
    ensures command == "" ==> a == StartFromTelegram(chatId, args, enablePremiumFeatures, baseUrl)
  {
    if command == "/start" || command == "/help" then Reply(chatId, HelpText(enablePremiumFeatures))
    else if command == "/status" then
      if TrimSpace(args) == "" then Reply(chatId, USAGE_STATUS) else ReplyStatus(chatId, args, baseUrl)
    else if command == "/premium" then
      if TrimSpace(args) == "" then Reply(chatId, USAGE_PREMIUM) else StartFromTelegram(chatId, args, true, baseUrl)
    else if command == "/basic" then
      if TrimSpace(args) == "" then Reply(chatId, USAGE_BASIC) else StartFromTelegram(chatId, args, false, baseUrl)
    else if command != "" then Reply(chatId, UNKNOWN_COMMAND)
    else StartFromTelegram(chatId, args, enablePremiumFeatures, baseUrl)
  }

  /** An update the service acts on: it carries a message from someone who is not a bot,
      with some text or caption, in the configured chat when one is configured. */
  predicate Accepted(cfg: TelegramConfig, u: Update) {
    var message := ExtractMessage(Some(u));
    && message.Some?
    && !(message.value.from.Some? && message.value.from.value.isBot)
    && MessageText(message.value) != ""
    && (cfg.chatId == "" || FormatInt(message.value.chat.id) == cfg.chatId)
  }

  /** `handleTelegramUpdate`, up to the reply or the start it leads to. */
  function HandleTelegramUpdate(cfg: TelegramConfig, u: Update): (a: Action)
    ensures a == Ignore <==> !Accepted(cfg, u)
  {
    var message := ExtractMessage(Some(u));
    if message.None? then Ignore
    else
      var m := message.value;
      if m.from.Some? && m.from.value.isBot then Ignore
      else
        var text := MessageText(m);
        if text == "" then Ignore
        else
          var chatId := FormatInt(m.chat.id);
          if cfg.chatId != "" && chatId != cfg.chatId then Ignore
          else
            var baseUrl := TrimTrailingSlashes(cfg.baseUrl);
            var (command, args) := ParseTelegramCommand(text);
            Command(chatId, command, args, baseUrl, cfg.enablePremiumFeatures)
  }

  /** An accepted update gets the command switch's action on its parsed text, addressed to
      the chat the message came from. */
  lemma AcceptedDispatch(cfg: TelegramConfig, u: Update)
    requires Accepted(cfg, u)
    ensures var m := ExtractMessage(Some(u)).value;
      var parsed := ParseTelegramCommand(MessageText(m));
      HandleTelegramUpdate(cfg, u) ==
        Command(FormatInt(m.chat.id), parsed.0, parsed.1, TrimTrailingSlashes(cfg.baseUrl), cfg.enablePremiumFeatures)
  {
  }

  /** Every action answers the chat the message came from. */
  lemma ActionAnswersSender(cfg: TelegramConfig, u: Update)
    requires Accepted(cfg, u)
    ensures HandleTelegramUpdate(cfg, u).chatId == FormatInt(ExtractMessage(Some(u)).value.chat.id)
  {
    AcceptedDispatch(cfg, u);
  }

  /** Text that is not a command starts a workflow on that text, in the configured default
      mode. */
  lemma PlainTextStartsWorkflow(cfg: TelegramConfig, u: Update)
    requires Accepted(cfg, u)
    requires !HasPrefix(MessageText(ExtractMessage(Some(u)).value), "/")
    ensures var m := ExtractMessage(Some(u)).value;
      HandleTelegramUpdate(cfg, u) ==
        StartFromTelegram(FormatInt(m.chat.id), MessageText(m), cfg.enablePremiumFeatures, TrimTrailingSlashes(cfg.baseUrl))
  {
    AcceptedDispatch(cfg, u);
    var m := ExtractMessage(Some(u)).value;
    var text := MessageText(m);
    TrimSpaceOfTrimmed(text);
    assert ParseTelegramCommand(text) == ("", text);
    var chatId, baseUrl := FormatInt(m.chat.id), TrimTrailingSlashes(cfg.baseUrl);
    assert HandleTelegramUpdate(cfg, u) == Command(chatId, "", text, baseUrl, cfg.enablePremiumFeatures);
    assert Command(chatId, "", text, baseUrl, cfg.enablePremiumFeatures) == StartFromTelegram(chatId, text, cfg.enablePremiumFeatures, baseUrl);
  }

  /** The switch on a non-empty command: only `/premium` and `/basic` start a workflow, each
      in its own mode and on non-blank arguments; only `/status` looks one up; anything else
      unknown is answered with the pointer to `/help`. Conversely `/start` and `/help` get
      the help text, and `/status`, `/premium` and `/basic` their usage line on blank
      arguments and their lookup or start otherwise. */
  lemma CommandCases(chatId: string, command: string, args: string, baseUrl: string, enablePremiumFeatures: bool)
    requires command != ""
    ensures var a := Command(chatId, command, args, baseUrl, enablePremiumFeatures);
      && (a.StartFromTelegram? ==> (command == "/premium" && a.isPremium) || (command == "/basic" && !a.isPremium))
      && (a.StartFromTelegram? ==> a.task == args && TrimSpace(args) != [])
      && (a.ReplyStatus? ==> command == "/status" && a.workflowId == args)
      && (command !in {"/start", "/help", "/status", "/premium", "/basic"} ==> a == Reply(chatId, UNKNOWN_COMMAND))
    ensures var a := Command(chatId, command, args, baseUrl, enablePremiumFeatures);
      && (command == "/start" || command == "/help" ==> a == Reply(chatId, HelpText(enablePremiumFeatures)))
      && (command == "/status" && TrimSpace(args) == [] ==> a == Reply(chatId, USAGE_STATUS))
      && (command == "/premium" && TrimSpace(args) == [] ==> a == Reply(chatId, USAGE_PREMIUM))
      && (command == "/basic" && TrimSpace(args) == [] ==> a == Reply(chatId, USAGE_BASIC))
      && (command == "/status" && TrimSpace(args) != [] ==> a == ReplyStatus(chatId, args, baseUrl))
      && (command == "/premium" && TrimSpace(args) != [] ==> a == StartFromTelegram(chatId, args, true, baseUrl))
      && (command == "/basic" && TrimSpace(args) != [] ==> a == StartFromTelegram(chatId, args, false, baseUrl))
  {
    var a := Command(chatId, command, args, baseUrl, enablePremiumFeatures);
    if command == "/start" || command == "/help" {
      assert a.Reply?;
    } else if command == "/status" {
      assert !a.StartFromTelegram?;
    } else if command == "/premium" || command == "/basic" {
      assert !a.ReplyStatus?;
    } else {
      assert a == Reply(chatId, UNKNOWN_COMMAND);
    }
  }

  /** A slash command never starts a workflow in the default mode: it is help, a usage
      line, a lookup, an explicit mode, or unknown. */
  lemma SlashTextIsCommand(cfg: TelegramConfig, u: Update)
    requires Accepted(cfg, u)
    requires HasPrefix(MessageText(ExtractMessage(Some(u)).value), "/")
    ensures var a := HandleTelegramUpdate(cfg, u);
      var (command, args) := ParseTelegramCommand(MessageText(ExtractMessage(Some(u)).value));
      && (a.StartFromTelegram? ==> (command == "/premium" && a.isPremium) || (command == "/basic" && !a.isPremium))
      && (a.StartFromTelegram? ==> a.task == args && TrimSpace(args) != [])
      && (a.ReplyStatus? ==> command == "/status" && a.workflowId == args)
      && (command !in {"/start", "/help", "/status", "/premium", "/basic"} ==> a == Reply(a.chatId, UNKNOWN_COMMAND))
  {
    AcceptedDispatch(cfg, u);
    var m := ExtractMessage(Some(u)).value;
    var text := MessageText(m);
    TrimSpaceOfTrimmed(text);
    var parsed := ParseTelegramCommand(text);
    assert parsed.0 != "";
    CommandCases(FormatInt(m.chat.id), parsed.0, parsed.1, TrimTrailingSlashes(cfg.baseUrl), cfg.enablePremiumFeatures);
  }

  /** `/premium@bot a song about rain` parses into `/premium` and `a song about rain`. */
  lemma ParsePremiumExample()
    ensures ParseTelegramCommand("/premium@bot a song about rain") == ("/premium", "a song about rain")
  {
    var command, mention, args := "/premium", "@bot", "a song about rain";
    assert command + mention + " " + args == "/premium@bot a song about rain";
    assert forall i :: 0 <= i < |command| ==> !IsSpace(command[i]) && command[i] != '@' && !('A' <= command[i] <= 'Z');
    assert forall i :: 0 <= i < |mention| ==> !IsSpace(mention[i]);
    assert IsTrimmed(args);
    CommandRoundTrip(command, mention, args);
    ToLowerOfLower(command);
  }

  /** Commands are case-insensitive: `/Status@Bot abc` parses into `/status` and `abc`. */
  lemma ParseMixedCaseExample()
    ensures ParseTelegramCommand("/Status@Bot abc") == ("/status", "abc")
  {
    var command, mention, args := "/Status", "@Bot", "abc";
    assert command + mention + " " + args == "/Status@Bot abc";
    assert forall i :: 0 <= i < |command| ==> !IsSpace(command[i]) && command[i] != '@';
    assert forall i :: 0 <= i < |mention| ==> !IsSpace(mention[i]);
    assert IsTrimmed(args);
    CommandRoundTrip(command, mention, args);
    LowerStatus();
  }

  lemma LowerStatus()
    ensures ToLower("/Status") == "/status"
  {
    var lower := ToLower("/Status");
    assert lower[1] == LowerChar('S');
  }

  /** Such a message starts a premium workflow on `a song about rain`. */
  lemma PremiumCommandExample(cfg: TelegramConfig, u: Update)
    requires Accepted(cfg, u)
    requires MessageText(ExtractMessage(Some(u)).value) == "/premium@bot a song about rain"
    ensures HandleTelegramUpdate(cfg, u).StartFromTelegram?
    ensures HandleTelegramUpdate(cfg, u).task == "a song about rain"
    ensures HandleTelegramUpdate(cfg, u).isPremium
  {
    AcceptedDispatch(cfg, u);
    ParsePremiumExample();
    var args := "a song about rain";
    TrimSpaceOfTrimmed(args);
    var m := ExtractMessage(Some(u)).value;
    assert HandleTelegramUpdate(cfg, u) == Command(FormatInt(m.chat.id), "/premium", args, TrimTrailingSlashes(cfg.baseUrl), cfg.enablePremiumFeatures);
  }

  // ---- Replies that touch the store ----

  /** The text `startWorkflowFromTelegram` replies with after starting a workflow. */
  function StartedText(state: WorkflowState, baseUrl: string): string {
    "Workflow started.\n\nID: " + state.id + "\nStatus: " + state.status + "\nLink: " + baseUrl + "/workflow/" + state.id
  }

  /** `startWorkflowFromTelegram`: starts a workflow on the trimmed task, or refuses a blank
      one; `id` and `now` stand for the new record's id and the clock. Returns the reply. */
  method StartWorkflowFromTelegram(store: Store, task: string, isPremium: bool, baseUrl: string, id: string, now: Time)
    returns (reply: string)
    requires store.Valid()
    modifies store
    ensures store.Valid()
    ensures TrimSpace(task) == [] ==> reply == "Task description is required." && store.workflows == old(store.workflows)
    ensures TrimSpace(task) != [] ==>
      && id in store.workflows
      && store.workflows == old(store.workflows)[id := store.workflows[id]]
      && store.workflows[id].status == STATUS_PROCESSING
      && store.workflows[id].taskDescription == TrimSpace(task)
      && store.workflows[id].isPremium == isPremium
      && store.workflows[id].audioFilePath == "" && store.workflows[id].audioFileName == ""
      && reply == StartedText(store.workflows[id], baseUrl)
  {
    var trimmed := TrimSpace(task);
    if trimmed == "" {
      return "Task description is required.";
    }
    var state := StartWorkflow(store, id, now, trimmed, isPremium, "", "");
    reply := StartedText(state, baseUrl);
  }

  /** The text `replyTelegramStatus` sends for a stored record: its status and link, and the
      review link while it awaits review. */
  function StatusText(wf: WorkflowState, baseUrl: string): (t: string)
    ensures HasPrefix(t, "Status: " + wf.status + "\nLink: " + baseUrl + "/workflow/" + wf.id)
    ensures wf.status == STATUS_AWAITING_REVIEW <==> |t| > |"Status: " + wf.status + "\nLink: " + baseUrl + "/workflow/" + wf.id|
    ensures wf.status == STATUS_AWAITING_REVIEW ==>
      t[|"Status: " + wf.status + "\nLink: " + baseUrl + "/workflow/" + wf.id|..] == "\nReview: " + baseUrl + "/review/" + wf.id
    ensures wf.status != STATUS_AWAITING_REVIEW ==> t == "Status: " + wf.status + "\nLink: " + baseUrl + "/workflow/" + wf.id
  {
    var reply := "Status: " + wf.status + "\nLink: " + baseUrl + "/workflow/" + wf.id;
    if wf.status == STATUS_AWAITING_REVIEW then reply + "\nReview: " + baseUrl + "/review/" + wf.id else reply
  }

  /** `replyTelegramStatus`: looks up the trimmed id and returns the reply; changes nothing. */
  method ReplyTelegramStatus(store: Store, workflowId: string, baseUrl: string) returns (reply: string)
    requires store.Valid()
    ensures TrimSpace(workflowId) == [] ==> reply == USAGE_STATUS
    ensures TrimSpace(workflowId) != [] && TrimSpace(workflowId) !in store.workflows ==> reply == "Workflow not found."
    ensures TrimSpace(workflowId) != [] && TrimSpace(workflowId) in store.workflows ==>
      reply == StatusText(store.workflows[TrimSpace(workflowId)], baseUrl)
  {
    var id := TrimSpace(workflowId);
    if id == "" {
      return USAGE_STATUS;
    }
    var wf := store.Get(id);
    if wf.None? {
      return "Workflow not found.";
    }
    reply := StatusText(wf.value, baseUrl);
  }

  // ---- The review form ----

  /** The review form's fields. `weirdness` is what `strconv.ParseFloat` returns for the
      form's value, its error ignored (zero for text that does not parse, ±Inf out of range). */
  datatype ReviewForm = ReviewForm(
    action: string,
    editedLyrics: string,
    style: string,
    vocalType: string,
    weirdness: Float64,
    styleInfluence: string,
    persona: string,
    inspo: string)

  /** The settings the form describes; the form has no lyrics-mode field, so it is empty. */
  function FormProperties(form: ReviewForm): SunoProperties {
    SunoProperties(form.style, form.vocalType, "", form.weirdness, form.styleInfluence)
  }

  /** The record after review, before it is stamped: rejected untouched, or approved with
      the reviewer's lyrics and settings and, for premium records, a non-empty persona/inspo. */
  function ReviewOutcome(wf: WorkflowState, form: ReviewForm): (t: WorkflowState)
    ensures form.action == "reject" ==> t == wf.(status := STATUS_REJECTED)
    ensures form.action != "reject" ==>
      && t.status == STATUS_APPROVED
      && t.editedLyrics == form.editedLyrics
      && t.editedProperties == Some(FormProperties(form))
      && t.editedProperties.value.lyricsMode == ""
      && (wf.isPremium && (form.persona != "" || form.inspo != "") ==> t.personaInspo == Some(PersonaInspo(form.persona, form.inspo)))
      && (!wf.isPremium || (form.persona == "" && form.inspo == "") ==> t.personaInspo == wf.personaInspo)
      && t.(status := wf.status, editedLyrics := wf.editedLyrics, editedProperties := wf.editedProperties,
            personaInspo := wf.personaInspo) == wf
  {
    if form.action == "reject" then wf.(status := STATUS_REJECTED)
    else
      var edited := wf.(editedLyrics := form.editedLyrics, editedProperties := Some(FormProperties(form)));
      var withPersona :=
        if edited.isPremium && (form.persona != "" || form.inspo != "")
        then edited.(personaInspo := Some(PersonaInspo(form.persona, form.inspo)))
        else edited;
      withPersona.(status := STATUS_APPROVED)
  }

  /** After approval the generation request carries the reviewer's lyrics (the generated
      ones with instructions when the field was left empty) and the reviewer's settings, not
      the generated ones. */
  lemma ReviewedRequest(wf: WorkflowState, form: ReviewForm)
    requires form.action != "reject"
    ensures var req := BuildRequest(ReviewOutcome(wf, form));
      && req.prompt == (if form.editedLyrics != "" then form.editedLyrics else wf.lyricsWithBrackets)
      && req.tags == Tags(FormProperties(form))
      && req.title == TruncateString(wf.taskDescription, TITLE_MAX_LEN)
  {
  }

  /** `SubmitReview`: 404 for an unknown id and 400 for a record not awaiting review, both
      without change; otherwise a redirect (302) after rejecting, or after writing the edits
      and approving. Submission to the generation service is the caller's next step. */
  method SubmitReview(store: Store, id: string, form: ReviewForm, now: Time) returns (code: int)
    requires store.Valid()
    modifies store
    ensures store.Valid()
    ensures code in {302, 400, 404}
    ensures code == 404 <==> id !in old(store.workflows)
    ensures code == 400 <==> id in old(store.workflows) && old(store.workflows)[id].status != STATUS_AWAITING_REVIEW
    ensures code != 302 ==> store.workflows == old(store.workflows)
    ensures code == 302 ==> id in old(store.workflows)
    ensures code == 302 ==>
      store.workflows == old(store.workflows)[id := ReviewOutcome(old(store.workflows)[id], form).(updatedAt := now)]
  {
    var found := store.Get(id);
    if found.None? {
      return 404;
    }
    var wf := found.value;
    if wf.status != STATUS_AWAITING_REVIEW {
      return 400;
    }
    ghost var before := store.workflows;

    if form.action == "reject" {
      var rejected := RejectWorkflow(store, wf, now);
      return 302;
    }

    wf := wf.(editedLyrics := form.editedLyrics);
    wf := wf.(editedProperties := Some(SunoProperties(form.style, form.vocalType, "", form.weirdness, form.styleInfluence)));
    if wf.isPremium {
      if form.persona != "" || form.inspo != "" {
        wf := wf.(personaInspo := Some(PersonaInspo(form.persona, form.inspo)));
      }
    }
    var saved := store.Save(wf, now);
    var approved := ApproveWorkflow(store, saved, now);
    UpdateTwice(before, id, saved, approved);
    return 302;
  }
}
