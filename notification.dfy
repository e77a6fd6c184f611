/**
 * The two notification backends of notification.service.ts. Each holds a
 * webhook client built from its URL in the constructor. Slack posts the whole
 * message once; Discord posts it in consecutive slices of at most 2000 UTF-16
 * code units, awaiting each post, so the first failing post ends `notify`
 * with that post's error and nothing after it is sent.
 */
module Notification {
  import opened Wrappers

  /** The JSON body of one webhook post: `{ text }` for Slack, `{ content }` for Discord. */
  datatype Payload = Text(text: string) | Content(content: string)

  /** How a `notify` promise settles. */
  datatype Delivery = Delivered | Rejected(error: string)

  /**
   * A webhook transport (`IncomingWebhook`, discord.js `WebhookClient`).
   * Its `send` is recorded in `sent`; whether the n-th send through this
   * client fails, and with which error, is the network's answer `transport(n)`.
   */
  class WebhookClient {
    const url: string
    const transport: nat -> Option<string>
    var sent: seq<Payload>

    constructor (url: string, transport: nat -> Option<string>)
      ensures this.url == url && this.transport == transport && sent == []
    {
      this.url := url;
      this.transport := transport;
      sent := [];
    }

    method Send(payload: Payload) returns (error: Option<string>)
      modifies this
      ensures sent == old(sent) + [payload]
      ensures error == transport(|old(sent)|)
    {
      error := transport(|sent|);
      sent := sent + [payload];
    }
  }

  class SlackNotificationService {
    const webhookClient: WebhookClient

    constructor (webhookUrl: string, transport: nat -> Option<string>)
      ensures fresh(webhookClient)
      ensures webhookClient.url == webhookUrl && webhookClient.transport == transport && webhookClient.sent == []
    {
      webhookClient := new WebhookClient(webhookUrl, transport);
    }

    /** An empty message sends nothing; any other is posted once, whole. */
    method Notify(message: string) returns (r: Delivery)
      modifies webhookClient
      ensures message == [] ==> webhookClient.sent == old(webhookClient.sent) && r == Delivered
      ensures message != [] ==> webhookClient.sent == old(webhookClient.sent) + [Text(message)]
      ensures message != [] ==>
                r == match webhookClient.transport(|old(webhookClient.sent)|)
                     case None => Delivered
                     case Some(e) => Rejected(e)
    {
      if message == [] {
        return Delivered;
      }
      var error := webhookClient.Send(Text(message));
      r := if error.Some? then Rejected(error.value) else Delivered;
    }
  }

  /** Discord's message length limit, in UTF-16 code units. */
  const DiscordLimit: nat := 2000

  function Min(a: int, b: int): int {
    if a < b then a else b
  }

  /** The slices the loop posts: 2000 units each, the last one possibly shorter. */
  function Chunks(m: string): (r: seq<string>)
    ensures r == [] <==> m == []
    ensures DiscordLimit * (|r| - 1) < |m| <= DiscordLimit * |r|
    decreases |m|
  {
    if m == [] then []
    else if |m| <= DiscordLimit then [m]
    else [m[..DiscordLimit]] + Chunks(m[DiscordLimit..])
  }

  function Concat(parts: seq<string>): string {
    if parts == [] then [] else parts[0] + Concat(parts[1..])
  }

  /** The payloads that post `parts` in order. */
  function ContentPayloads(parts: seq<string>): (r: seq<Payload>)
    ensures |r| == |parts|
  {
    if parts == [] then [] else [Content(parts[0])] + ContentPayloads(parts[1..])
  }

  lemma {:induction false} ContentPayloadsSnoc(parts: seq<string>, part: string)
    ensures ContentPayloads(parts + [part]) == ContentPayloads(parts) + [Content(part)]
  {
    if parts == [] {
      assert parts + [part] == [part];
    } else {
      assert (parts + [part])[1..] == parts[1..] + [part];
      ContentPayloadsSnoc(parts[1..], part);
    }
  }

  /** The slices put back together in order give the message again. */
  lemma {:induction false} ChunksConcat(m: string)
    ensures Concat(Chunks(m)) == m
    decreases |m|
  {
    if |m| > DiscordLimit {
      ChunksConcat(m[DiscordLimit..]);
      assert m == m[..DiscordLimit] + m[DiscordLimit..];
    } else if m != [] {
      assert m + [] == m;
    }
  }

  /** A message of N units takes ceil(N / 2000) posts. */
  lemma {:induction false} ChunksCount(m: string)
    ensures |Chunks(m)| == (|m| + DiscordLimit - 1) / DiscordLimit
    decreases |m|
  {
    if |m| > DiscordLimit {
      ChunksCount(m[DiscordLimit..]);
    }
  }

  /** Every slice holds 1 to 2000 units, and all but the last exactly 2000. */
  lemma {:induction false} ChunksSized(m: string)
    ensures forall j :: 0 <= j < |Chunks(m)| ==> 1 <= |Chunks(m)[j]| <= DiscordLimit
    ensures forall j :: 0 <= j < |Chunks(m)| - 1 ==> |Chunks(m)[j]| == DiscordLimit
    decreases |m|
  {
    if |m| > DiscordLimit {
      ChunksSized(m[DiscordLimit..]);
    }
  }

  /** Slice j is `m.substring(2000 * j, min(2000 * j + 2000, m.length))`. */
  lemma {:induction false} ChunkAt(m: string, j: nat)
    requires j < |Chunks(m)|
    ensures DiscordLimit * j < |m|
    ensures Chunks(m)[j] == m[DiscordLimit * j .. Min(DiscordLimit * j + DiscordLimit, |m|)]
    decreases |m|
  {
    if |m| > DiscordLimit && j > 0 {
      var tail := m[DiscordLimit..];
      ChunkAt(tail, j - 1);
      var lo := DiscordLimit * (j - 1);
      var hi := Min(lo + DiscordLimit, |tail|);
      assert DiscordLimit + lo == DiscordLimit * j;
      assert DiscordLimit + hi == Min(DiscordLimit * j + DiscordLimit, |m|);
      assert lo <= hi <= |tail|;
      assert tail[lo..hi] == m[DiscordLimit + lo .. DiscordLimit + hi] by {
        forall k | 0 <= k < hi - lo ensures tail[lo..hi][k] == m[DiscordLimit + lo + k] {
          assert tail[lo..hi][k] == tail[lo + k];
        }
      }
    }
  }

  class DiscordNotificationService {
    const webhookClient: WebhookClient

    constructor (webhookUrl: string, transport: nat -> Option<string>)
      ensures fresh(webhookClient)
      ensures webhookClient.url == webhookUrl && webhookClient.transport == transport && webhookClient.sent == []
    {
      webhookClient := new WebhookClient(webhookUrl, transport);
    }

    /**
     * Posts the slices of `message` in order, awaiting each. Afterwards the
     * client has sent a prefix of the slices; every post but the last one
     * sent succeeded; the promise resolves exactly when all slices went out
     * and none failed, and otherwise rejects with the failing post's error.
     */
    method Notify(message: string) returns (r: Delivery)
      modifies webhookClient
      ensures |old(webhookClient.sent)| <= |webhookClient.sent| <= |old(webhookClient.sent)| + |Chunks(message)|
      ensures webhookClient.sent
           == old(webhookClient.sent) + ContentPayloads(Chunks(message)[..|webhookClient.sent| - |old(webhookClient.sent)|])
      ensures forall n :: |old(webhookClient.sent)| <= n < |webhookClient.sent| - 1 ==> webhookClient.transport(n).None?
      ensures r.Delivered? <==>
                && |webhookClient.sent| == |old(webhookClient.sent)| + |Chunks(message)|
                && (|webhookClient.sent| == |old(webhookClient.sent)| || webhookClient.transport(|webhookClient.sent| - 1).None?)
      ensures r.Rejected? ==>
                && |webhookClient.sent| > |old(webhookClient.sent)|
                && webhookClient.transport(|webhookClient.sent| - 1) == Some(r.error)
    {
      if message == [] {
        return Delivered;
      }
      ghost var base := |webhookClient.sent|;
      ghost var chunks := Chunks(message);
      var i := 0;
      ghost var k := 0;
      while i < |message|
        invariant i == DiscordLimit * k
        invariant 0 <= k <= |chunks|
        invariant i < |message| ==> k < |chunks|
        invariant webhookClient.sent == old(webhookClient.sent) + ContentPayloads(chunks[..k])
        invariant forall n :: base <= n < base + k ==> webhookClient.transport(n).None?
      {
        ChunkAt(message, k);
        var error := webhookClient.Send(Content(message[i..Min(i + DiscordLimit, |message|)]));
        assert chunks[..k + 1] == chunks[..k] + [chunks[k]];
        ContentPayloadsSnoc(chunks[..k], chunks[k]);
        k := k + 1;
        if error.Some? {
          return Rejected(error.value);
        }
        i := i + DiscordLimit;
      }
      return Delivered;
    }
  }
}
