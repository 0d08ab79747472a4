/** What the client gets from the handler, in figures and words. */
module Replies {
  import opened Wrappers
  import opened Json
  import opened Chunks
  import opened Decoder
  import opened Meaning
  import opened Failover
  import opened Server
  import opened Normalise
  import opened Heads
  import opened Client

  // ----- The sticky key -----

  /**
   The key is the hash of the text of the first user message, or of its raw content if that is
   no string or an empty one; there is no key if there is no user message.
   */
  lemma {:induction false} KeyHashes(parse: string -> Option<Value>, hash: string -> string,
                                     msgs: seq<Normalise.Message>, k: nat)
    requires k <= |msgs| && (forall j :: 0 <= j < k ==> msgs[j].role != "user")
        && (k < |msgs| ==> msgs[k].role == "user")
    ensures var key := StickyKey(parse, hash, msgs);
            if k == |msgs| then key == ""
            else
              var content := msgs[k].content;
              if exists s: string :: s != "" && parse(content) == Some(JStr(s)) then
                key == hash(parse(content).value.s)
              else key == hash(content)
    decreases k
  {
    if k > 0 {
      KeyHashes(parse, hash, msgs[1..], k - 1);
    }
  }

  // ----- Numbers -----

  function ValueOf(digits: string): int {
    if digits == "" then 0 else 10 * ValueOf(digits[..|digits| - 1]) + (digits[|digits| - 1] as int - '0' as int)
  }

  lemma {:induction false} DecimalMeans(n: nat)
    ensures Decimal(n) != "" && ValueOf(Decimal(n)) == n
    ensures forall k :: 0 <= k < |Decimal(n)| ==> '0' <= Decimal(n)[k] <= '9'
    ensures |Decimal(n)| > 1 ==> Decimal(n)[0] != '0'
  {
    if n < 10 {
      var one := [('0' as int + n) as char];
      assert Decimal(n) == one && one[..0] == "";
      assert ValueOf("") == 0;
    } else {
      DecimalMeans(n / 10);
      var front, last := Decimal(n / 10), ('0' as int + n % 10) as char;
      assert Decimal(n) == front + [last];
      assert (front + [last])[..|front + [last]| - 1] == front;
      assert n / 10 > 0 && front[0] != '0' by {
        if |front| == 1 {
          assert front[..0] == "" && ValueOf("") == 0 && ValueOf(front) == front[0] as int - '0' as int;
        }
      }
    }
  }

  // ----- The replies -----

  /** The reply's status, and the message and code that a client reads from its body. */
  predicate Says(ctx: Context, w: Written, status: int, msg: string, code: string) {
    && w.status == status && w.body != ""
    && var v := ctx.codec.parse(w.body[..|w.body| - 1]);
       v.Some? && ErrorIn(v.value) == Some((msg, code, code))
  }

  lemma SaysError(ctx: Context, status: int, code: string, msg: string)
    requires ctx.codec.Sound()
    ensures Says(ctx, Written(status, ErrorBody(ctx, code, msg)), status, msg, code)
  {
    hide ErrorBody, ErrorIn;
    ErrorBodyReads(ctx, code, msg);
  }

  /** Every way the loop can end without a relayed stream, as the client sees it. */
  lemma RepliesRead(ctx: Context, stream: bool, i: Inputs, msg: string, status: int, body: string, why: Why)
    requires ctx.codec.Sound()
    ensures Says(ctx, ReplyWritten(ctx, stream, NoHealthyAccount, i), 503,
                 "all accounts unavailable (cooldown/disabled). Run login or check /status", "no_healthy_account")
    ensures Says(ctx, ReplyWritten(ctx, stream, BuildFailed(msg), i), 500, msg, "build_body_failed")
    ensures Says(ctx, ReplyWritten(ctx, stream, FlusherMissing, i), 500, "streaming unsupported", "no_flusher")
    ensures Says(ctx, ReplyWritten(ctx, stream, GaveUp(Some(TokenFailed(msg)), why), i), 502, msg, "upstream_error")
    ensures Says(ctx, ReplyWritten(ctx, stream, GaveUp(Some(CallFailed(Transport(msg))), why), i), 502, msg,
                 "upstream_error")
    ensures Says(ctx, ReplyWritten(ctx, stream, GaveUp(Some(CallFailed(Http(status, body))), why), i),
                 if status in {401, 403} then 401 else if status == 402 then 402 else if status == 429 then 429
                     else 502,
                 "upstream " + (if status < 0 then "-" + Decimal(-status) else Decimal(status)) + ": "
                 + (if |body| > 300 then body[..300] + "..." else body), "upstream_error")
  {
    hide Says, ErrorBody, Decimal;
    SaysError(ctx, 503, "no_healthy_account", UNAVAILABLE);
    SaysError(ctx, 500, "build_body_failed", msg);
    SaysError(ctx, 500, "no_flusher", "streaming unsupported");
    SaysError(ctx, 502, "upstream_error", msg);
    var last := Some(CallFailed(Http(status, body)));
    SaysError(ctx, StatusOf(last), "upstream_error", ErrorText(last));
  }

  /** A stream that fails is a 502 with its error for the client that does not stream. */
  lemma FailureRead(ctx: Context, bytes: string, terminal: Terminal, msg: string)
    requires ctx.codec.Sound() && Chunks.Outcome(ctx, bytes, terminal) == Ending.Failed(msg)
    ensures Says(ctx, RelayWritten(ctx, false, bytes, terminal), 502, msg, "upstream_error")
  {
    hide Says, ErrorBody, Chunks.Outcome;
    SaysError(ctx, 502, "upstream_error", msg);
  }
}
