/**
 The Discord webhook client: creates a notification message when a stream
 goes live, edits its embed while the stream runs and replaces it with a VOD
 notice when the stream ends. The only state it changes is the id of the
 last created message; outbound requests and sleeps are recorded in ghost
 logs instead of being performed.
 */
module DiscordClient {
  import opened Wrappers
  import opened Json
  import opened Webhook
  import opened Retry

  datatype Verb = Post | Patch

  /** One outbound HTTP request. */
  datatype Request = Request(verb: Verb, url: string, body: Json)

  /** `n` copies of the same request: every attempt of a run resends the same request. */
  function Repeat(req: Request, n: nat): (rs: seq<Request>)
    ensures |rs| == n && forall i :: 0 <= i < n ==> rs[i] == req
  {
    seq(n, _ => req)
  }

  lemma RepeatOneMore(req: Request, n: nat)
    ensures Repeat(req, n + 1) == Repeat(req, n) + [req]
  {
  }

  class DiscordClient {
    const webhookUrl: string
    const avatarUrl: string
    const content: string

    /** The id of the last created Discord message; empty until a create succeeds. */
    var notificationMsgId: string

    /** Every request sent so far, in order. */
    ghost var requests: seq<Request>
    /** Every sleep requested so far, in seconds, in order. */
    ghost var sleeps: seq<nat>

    /** The three configuration values, read from environment variables by the Python client. */
    constructor (webhookUrl: string, avatarUrl: string, content: string)
      ensures this.webhookUrl == webhookUrl && this.avatarUrl == avatarUrl && this.content == content
      ensures notificationMsgId == ""
      ensures requests == [] && sleeps == []
    {
      this.webhookUrl := webhookUrl;
      this.avatarUrl := avatarUrl;
      this.content := content;
      notificationMsgId := "";
      requests := [];
      sleeps := [];
    }

    /**
     Sends `req` under the bounded retry policy, from retry counter 0, with
     `outcomes` answering the attempts; returns the id of the successful
     response, if any. The run is the one `Retrying` describes.
     */
    method Deliver(req: Request, outcomes: seq<Outcome>) returns (delivered: Option<string>)
      modifies this`requests, this`sleeps
      ensures var run := Retrying(0, outcomes);
        && delivered == run.delivered
        && requests == old(requests) + Repeat(req, run.attempts)
        && sleeps == old(sleeps) + run.delays
    {
      ghost var run := Retrying(0, outcomes);
      ghost var sent0, slept0 := requests, sleeps;
      ghost var attempts: nat := 0;
      ghost var slept: seq<nat> := [];
      var retryCount: nat := 0;
      var remaining := outcomes;
      var done := false;
      delivered := None;
      while !done
        invariant retryCount <= MaxRetryCount + 1
        invariant requests == sent0 + Repeat(req, attempts)
        invariant sleeps == slept0 + slept
        invariant !done ==> delivered == None
        invariant !done ==> SplitAt(run, attempts, slept, Retrying(retryCount, remaining))
        invariant done ==> run == Run(attempts, slept, delivered)
        decreases !done, MaxRetryCount + 1 - retryCount
      {
        RepeatOneMore(req, attempts);
        ConcatAssoc(sent0, Repeat(req, attempts), [req]);
        requests := requests + [req];
        match OutcomeAt(remaining, 0) {
          case Delivered(id) =>
            SplitAtLast(run, attempts, slept, retryCount, remaining);
            delivered := Some(id);
            done := true;
          case Failed =>
            if retryCount > MaxRetryCount {
              SplitAtLast(run, attempts, slept, retryCount, remaining);
              done := true;
            } else {
              SplitAtRetry(run, attempts, slept, retryCount, remaining);
              retryCount := retryCount + 1;
              sleeps := sleeps + [retryCount * 5];
              slept := slept + [retryCount * 5];
              remaining := Rest(remaining);
            }
        }
        attempts := attempts + 1;
      }
    }

    /** The create request: a POST of the create body to the webhook's create URL. */
    function CreateRequest(stream: StreamInformation, profileImage: string): Request
    {
      Request(Post, CreateUrl(webhookUrl), CreatePayload(avatarUrl, content, stream, profileImage))
    }

    /** The update request for message `msgId`: a PATCH of the update body. */
    function UpdateRequest(msgId: string, stream: StreamInformation, profileImage: string): Request
    {
      Request(Patch, MessageUrl(webhookUrl, msgId), UpdatePayload(stream, profileImage))
    }

    /** The finalize request for message `msgId`: a PATCH of the finalize body. */
    function FinalizeRequest(msgId: string, streamerName: string, vodUrl: Option<string>): Request
    {
      Request(Patch, MessageUrl(webhookUrl, msgId), FinalizePayload(streamerName, VodText(vodUrl)))
    }

    /**
     The create call: posts the stream embed to the webhook, asking for the
     created message back, under the retry policy. Only a successful attempt
     stores its id; a run that never succeeds leaves the stored id as it was.
     */
    method SendInformation(stream: StreamInformation, profileImage: string, outcomes: seq<Outcome>)
      modifies this`notificationMsgId, this`requests, this`sleeps
      ensures requests == old(requests) + Repeat(CreateRequest(stream, profileImage), Retrying(0, outcomes).attempts)
      ensures sleeps == old(sleeps) + Retrying(0, outcomes).delays
      ensures notificationMsgId == match Retrying(0, outcomes).delivered
        case Some(id) => id
        case None => old(notificationMsgId)
    {
      var delivered := Deliver(CreateRequest(stream, profileImage), outcomes);
      if delivered.Some? {
        notificationMsgId := delivered.value;
      }
    }

    /**
     The update call: one PATCH of the stored message's embed, whatever the
     response, with no retry and no sleep. There is no guard on the stored id:
     with none stored the URL ends in the bare messages path.
     */
    method UpdateInformation(stream: StreamInformation, profileImage: string)
      modifies this`requests
      ensures requests == old(requests) + [UpdateRequest(notificationMsgId, stream, profileImage)]
      ensures sleeps == old(sleeps) && notificationMsgId == old(notificationMsgId)
    {
      requests := requests + [UpdateRequest(notificationMsgId, stream, profileImage)];
    }

    /**
     The finalize call: with no stored id it sends nothing; otherwise it
     PATCHes the stored message with the VOD notice (a placeholder when no
     VOD link is given) under the retry policy.
     */
    method FinalizeInformation(streamerName: string, vodUrl: Option<string>, outcomes: seq<Outcome>)
      modifies this`requests, this`sleeps
      ensures notificationMsgId == old(notificationMsgId)
      ensures notificationMsgId == "" ==> requests == old(requests) && sleeps == old(sleeps)
      ensures notificationMsgId != "" ==>
        && requests == old(requests)
             + Repeat(FinalizeRequest(notificationMsgId, streamerName, vodUrl), Retrying(0, outcomes).attempts)
        && sleeps == old(sleeps) + Retrying(0, outcomes).delays
    {
      if notificationMsgId == "" {
        return;
      }
      var _ := Deliver(FinalizeRequest(notificationMsgId, streamerName, vodUrl), outcomes);
    }
  }

  /**
   A stream going live against a webhook whose first create attempt succeeds
   with id "123": one POST to the create URL, and the id is stored.
   */
  method GoLive(stream: StreamInformation)
  {
    var client := new DiscordClient("https://example.test/hook", "http://avatar", "live!");
    assert Retrying(0, [Delivered("123")]) == Run(1, [], Some("123"));
    client.SendInformation(stream, "http://avatar", [Delivered("123")]);
    assert client.notificationMsgId == "123";
    assert |client.requests| == 1 && client.requests[0] == client.CreateRequest(stream, "http://avatar");
    assert client.requests[0].url == "https://example.test/hook" + "?wait=true";
  }
}
