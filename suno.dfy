/** The part of the generation-service client the engine depends on: the URL of the `Get`
    query and the bounded polling loop `WaitForCompletion`. HTTP is not modelled: what each
    poll observes is given by an oracle. */
module Suno {
  import opened Base
  import opened Text

  /** One generated clip, as the service reports it. */
  datatype AudioInfo = AudioInfo(
    id: string,
    title: string,
    imageUrl: string,
    lyric: string,
    audioUrl: string,
    videoUrl: string,
    createdAt: string,
    modelName: string,
    status: string,
    gptDescriptionPrompt: string,
    prompt: string,
    kind: string,
    tags: string,
    duration: Float64)

  /** The body of a custom generation request. */
  datatype CustomGenerateRequest = CustomGenerateRequest(
    prompt: string,
    tags: string,
    negativeTags: string,
    title: string,
    makeInstrumental: bool,
    model: string,
    waitAudio: bool)

  // ---- The Get URL ----

  /** The query parameters `Get` sends, in order. */
  function GetParams(ids: string, page: int): seq<(string, string)> {
    (if ids != "" then [("ids", ids)] else []) + (if page > 0 then [("page", FormatInt(page))] else [])
  }

  function JoinParams(ps: seq<(string, string)>): string
    requires ps != []
  {
    if |ps| == 1 then ps[0].0 + "=" + ps[0].1
    else ps[0].0 + "=" + ps[0].1 + "&" + JoinParams(ps[1..])
  }

  /** A query string: empty, or `?` followed by the `key=value` pairs joined by `&`. */
  function QueryString(ps: seq<(string, string)>): string {
    if ps == [] then "" else "?" + JoinParams(ps)
  }

  /** The query string of `Get` spelled out: `?ids=…` when there are ids, then the page after
      `&` or `?` when it is positive. */
  lemma GetQuery(ids: string, page: int)
    ensures QueryString(GetParams(ids, page)) ==
      (if ids != "" then "?ids=" + ids else "") + (if page > 0 then (if ids != "" then "&page=" else "?page=") + FormatInt(page) else "")
  {
    var ps := GetParams(ids, page);
    if ids != "" && page > 0 {
      assert ps == [("ids", ids), ("page", FormatInt(page))];
      assert ps[1..] == [("page", FormatInt(page))];
      assert JoinParams(ps) == "ids" + "=" + ids + "&" + ("page" + "=" + FormatInt(page));
    } else if ids != "" {
      assert ps == [("ids", ids)];
    } else if page > 0 {
      assert ps == [("page", FormatInt(page))];
    } else {
      assert ps == [];
    }
  }

  /** Appending two strings in turn is appending their concatenation. */
  lemma AppendAssoc(a: string, b: string, c: string)
    ensures a + b + c == a + (b + c)
  {
  }

  /** The URL of `Get(ids, page)`, built by successive appends as the source does: it is the
      `/api/get` endpoint with exactly the parameters of `GetParams`, so `ids` is sent iff it is
      non-empty and `page` iff it is positive. */
  method GetUrl(baseUrl: string, ids: string, page: int) returns (url: string)
    ensures url == baseUrl + "/api/get" + QueryString(GetParams(ids, page))
  {
    var endpoint := baseUrl + "/api/get";
    url := endpoint;
    ghost var idsPart := if ids != "" then "?ids=" + ids else "";
    if ids != "" {
      AppendAssoc(url, "?ids=", ids);
      url := url + "?ids=" + ids;
    }
    ghost var pagePart := if page > 0 then (if ids != "" then "&page=" else "?page=") + FormatInt(page) else "";
    if page > 0 {
      if ids != "" {
        AppendAssoc(url, "&page=", FormatInt(page));
        url := url + "&page=" + FormatInt(page);
      } else {
        AppendAssoc(url, "?page=", FormatInt(page));
        url := url + "?page=" + FormatInt(page);
      }
    }
    AppendAssoc(endpoint, idsPart, pagePart);
    GetQuery(ids, page);
  }

  // ---- WaitForCompletion ----

  /** What iteration `i` of the polling loop observes: the context is already cancelled
      (checked before the request), or the reply of `Get(id, 0)`. */
  datatype PollOutcome = Cancelled(ctxErr: string) | Fetched(reply: Result<seq<AudioInfo>>)

  /** Why waiting failed. */
  datatype WaitError = ContextDone(ctxErr: string) | GetFailed(cause: string) | NoAudio(id: string) | MaxRetriesExceeded

  datatype WaitResult = Ready(audio: AudioInfo) | Failed(error: WaitError)

  /** The error text the source returns for each failure. */
  function WaitErrorText(e: WaitError): string {
    match e
    case ContextDone(msg) => msg
    case GetFailed(msg) => "failed to get audio info: " + msg
    case NoAudio(id) => "no audio found with ID: " + id
    case MaxRetriesExceeded => "max retries exceeded waiting for audio completion"
  }

  /** The two statuses that end the wait. */
  predicate IsReady(status: string) {
    status == "streaming" || status == "complete"
  }

  /** A poll after which the loop goes on: a non-empty reply whose first clip is not ready. */
  predicate Pending(o: PollOutcome) {
    o.Fetched? && o.reply.Ok? && |o.reply.value| > 0 && !IsReady(o.reply.value[0].status)
  }

  /** How a poll that is not pending ends the wait, and the number of `Get` calls made by then
      when it is poll number `i` (counting from 0). */
  function Settle(id: string, o: PollOutcome, i: nat): (WaitResult, nat)
    requires !Pending(o)
  {
    match o
    case Cancelled(e) => (Failed(ContextDone(e)), i)
    case Fetched(Err(e)) => (Failed(GetFailed(e)), i + 1)
    case Fetched(Ok(rs)) =>
      if |rs| == 0 then (Failed(NoAudio(id)), i + 1) else (Ready(rs[0]), i + 1)
  }

  /** The polling loop from iteration `i` on: its result and the number of `Get` calls made
      in all. */
  function WaitFrom(id: string, poll: nat -> PollOutcome, i: nat, maxRetries: int): (r: (WaitResult, nat))
    ensures i <= r.1 <= if i < maxRetries then maxRetries else i
    decreases if i < maxRetries then maxRetries - i else 0
  {
    if i >= maxRetries then (Failed(MaxRetriesExceeded), i)
    else if Pending(poll(i)) then WaitFrom(id, poll, i + 1, maxRetries)
    else Settle(id, poll(i), i)
  }

  /** The first poll that is not pending decides the wait. */
  lemma {:induction false} WaitFirstSettled(id: string, poll: nat -> PollOutcome, i: nat, maxRetries: int, k: nat)
    requires i <= k < maxRetries
    requires forall j :: i <= j < k ==> Pending(poll(j))
    requires !Pending(poll(k))
    ensures WaitFrom(id, poll, i, maxRetries) == Settle(id, poll(k), k)
    decreases k - i
  {
    if i < k {
      WaitFirstSettled(id, poll, i + 1, maxRetries, k);
    }
  }

  /** When every poll up to the limit is pending, the wait fails after exactly that many calls. */
  lemma {:induction false} WaitExhausted(id: string, poll: nat -> PollOutcome, i: nat, maxRetries: int)
    requires forall j :: i <= j < maxRetries ==> Pending(poll(j))
    ensures WaitFrom(id, poll, i, maxRetries) == (Failed(MaxRetriesExceeded), if i < maxRetries then maxRetries else i)
    decreases if i < maxRetries then maxRetries - i else 0
  {
    if i < maxRetries {
      WaitExhausted(id, poll, i + 1, maxRetries);
    }
  }

  /** A successful wait returns the first clip of the first ready reply, and every earlier
      poll was pending. */
  lemma {:induction false} WaitReadyIsFirst(id: string, poll: nat -> PollOutcome, i: nat, maxRetries: int)
    requires WaitFrom(id, poll, i, maxRetries).0.Ready?
    ensures var (r, gets) := WaitFrom(id, poll, i, maxRetries);
      && i < gets <= maxRetries
      && poll(gets - 1).Fetched? && poll(gets - 1).reply.Ok?
      && |poll(gets - 1).reply.value| > 0
      && r.audio == poll(gets - 1).reply.value[0]
      && IsReady(r.audio.status)
      && forall j :: i <= j < gets - 1 ==> Pending(poll(j))
    decreases if i < maxRetries then maxRetries - i else 0
  {
    if i < maxRetries && Pending(poll(i)) {
      WaitReadyIsFirst(id, poll, i + 1, maxRetries);
    }
  }

  /** The source's loop. `poll(i)` stands for what iteration `i` observes (context, then
      `Get`); the sleep between polls is dropped. Returns the result and the number of `Get`
      calls, which never exceeds `maxRetries`. */
  method WaitForCompletion(id: string, maxRetries: int, poll: nat -> PollOutcome)
    returns (r: WaitResult, gets: nat)
    ensures (r, gets) == WaitFrom(id, poll, 0, maxRetries)
  {
    var i: nat := 0;
    while i < maxRetries
      invariant WaitFrom(id, poll, i, maxRetries) == WaitFrom(id, poll, 0, maxRetries)
      decreases maxRetries - i
    {
      match poll(i) {
        case Cancelled(e) =>
          return Failed(ContextDone(e)), i;
        case Fetched(Err(e)) =>
          return Failed(GetFailed(e)), i + 1;
        case Fetched(Ok(responses)) =>
          if |responses| == 0 {
            return Failed(NoAudio(id)), i + 1;
          }
          var audio := responses[0];
          if audio.status == "streaming" || audio.status == "complete" {
            return Ready(audio), i + 1;
          }
      }
      i := i + 1;
    }
    return Failed(MaxRetriesExceeded), i;
  }

  /** With no retries allowed the wait fails at once, without a single `Get`. */
  lemma NoRetriesNoPolls(id: string, poll: nat -> PollOutcome, maxRetries: int)
    requires maxRetries <= 0
    ensures WaitFrom(id, poll, 0, maxRetries) == (Failed(MaxRetriesExceeded), 0)
  {
  }
}
