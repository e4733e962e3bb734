/** The local logic of the node API (chain.rs): the range guard of
    `get_blocks_in_range`, the request URLs, the quote stripping of three of
    them, and the error messages of `broadcast_transaction`.  The HTTP
    requests themselves and the JSON decoding are the `Node`'s. */
module Chain {
  import opened Wrappers
  import opened Lib
  import opened Snarkvm
  import opened Format

  /** The node, seen as the answer to a GET of a URL, already decoded. */
  datatype Node = Node(
    /** GET of a `/blocks?start=..&end=..` URL */
    blocks: string -> Result<seq<Block>>,
    /** GET of a `/find/transitionID/..` URL */
    transitionId: string -> Result<TransitionId>)

  const START_NOT_BELOW_END: string := "Start height must be less than end height"
  const RANGE_TOO_WIDE: string := "The range of blocks must be less than 50"
  /** The widest window the node serves in one request. */
  const MAX_BLOCK_RANGE: nat := 50

  /** The two guards of `get_blocks_in_range`, checked before any request. */
  function CheckBlockRange(start: u32, end: u32): (r: Result<()>)
    ensures r.Ok? <==> start < end && end - start <= MAX_BLOCK_RANGE
    ensures start >= end ==> r == Err(START_NOT_BELOW_END)
    ensures start < end && end - start > MAX_BLOCK_RANGE ==> r == Err(RANGE_TOO_WIDE)
  {
    if start >= end then Err(START_NOT_BELOW_END)
    else if end - start > MAX_BLOCK_RANGE then Err(RANGE_TOO_WIDE)
    else Ok(())
  }

  function PathPrefix(baseUrl: string, network: string): string {
    baseUrl + "/" + network + "/"
  }

  function BlocksUrl(baseUrl: string, network: string, start: u32, end: u32): string {
    PathPrefix(baseUrl, network) + "blocks?start=" + Decimal(start) + "&end=" + Decimal(end)
  }

  /** `get_blocks_in_range`: the guards, then one request. */
  function GetBlocksInRange(baseUrl: string, network: string, node: Node, start: u32, end: u32): (r: Result<seq<Block>>)
    ensures CheckBlockRange(start, end).Err? ==> r == Err(CheckBlockRange(start, end).msg)
    ensures CheckBlockRange(start, end).Ok? ==> r == node.blocks(BlocksUrl(baseUrl, network, start, end))
  {
    match CheckBlockRange(start, end)
    case Err(e) => Err(e)
    case Ok(_) => node.blocks(BlocksUrl(baseUrl, network, start, end))
  }

  /** Two digit strings followed by the same separator, which starts with a
      non-digit, split a string the same way. */
  lemma DigitsSplit(x: string, sep: string, y: string, x': string, y': string)
    requires AllDigits(x) && AllDigits(x')
    requires |sep| > 0 && !IsDigit(sep[0])
    requires x + sep + y == x' + sep + y'
    ensures x == x' && y == y'
  {
    var s := x + sep + y;
    assert forall k :: 0 <= k < |x| ==> IsDigit(s[k]);
    assert forall k :: 0 <= k < |x'| ==> IsDigit(s[k]);
    assert s[|x|] == sep[0] && s[|x'|] == sep[0];
    assert |x| == |x'|;
    assert x == s[..|x|] == x';
    assert y == s[|x| + |sep|..] == y';
  }

  /** Different windows are different requests: the URL determines the window. */
  lemma BlocksUrlDeterminesRange(baseUrl: string, network: string, s: u32, e: u32, s': u32, e': u32)
    requires BlocksUrl(baseUrl, network, s, e) == BlocksUrl(baseUrl, network, s', e')
    ensures s == s' && e == e'
  {
    var p := PathPrefix(baseUrl, network) + "blocks?start=";
    var tail := Decimal(s) + "&end=" + Decimal(e);
    var tail' := Decimal(s') + "&end=" + Decimal(e');
    assert BlocksUrl(baseUrl, network, s, e) == p + tail;
    assert BlocksUrl(baseUrl, network, s', e') == p + tail';
    assert tail == (p + tail)[|p|..];
    assert tail' == (p + tail')[|p|..];
    DigitsSplit(Decimal(s), "&end=", Decimal(e), Decimal(s'), Decimal(e'));
    DecimalInjective(s, s');
    DecimalInjective(e, e');
  }

  /** `find_transition_id_by_input_or_output_id`, given the id's text. */
  function FindTransitionUrl(baseUrl: string, network: string, id: string): string {
    PathPrefix(baseUrl, network) + "find/transitionID/" + id
  }

  /** Different ids are different lookups. */
  lemma FindTransitionUrlInjective(baseUrl: string, network: string, id: string, id': string)
    requires FindTransitionUrl(baseUrl, network, id) == FindTransitionUrl(baseUrl, network, id')
    ensures id == id'
  {
    var pre := PathPrefix(baseUrl, network) + "find/transitionID/";
    assert FindTransitionUrl(baseUrl, network, id) == pre + id;
    assert FindTransitionUrl(baseUrl, network, id') == pre + id';
    StripPrefix(pre, id, id');
  }

  /** The lookup asks the node for the transition at the id's URL. */
  function FindTransitionId(baseUrl: string, network: string, node: Node, id: string): Result<TransitionId> {
    node.transitionId(FindTransitionUrl(baseUrl, network, id))
  }

  /** The URL of `get_transaction`: formatted, then every `"` removed from all of it. */
  function TransactionUrl(baseUrl: string, network: string, transactionId: string): (url: string)
    ensures '"' !in url
  {
    RemoveChar(PathPrefix(baseUrl, network) + "transaction/" + transactionId, '"')
  }

  /** The URL of `get_confirmed_transaction`. */
  function ConfirmedTransactionUrl(baseUrl: string, network: string, transactionId: string): (url: string)
    ensures '"' !in url
  {
    RemoveChar(PathPrefix(baseUrl, network) + "transaction/confirmed/" + transactionId, '"')
  }

  /** The URL of `find_block_hash_by_transaction_id`, given the id's text. */
  function BlockHashUrl(baseUrl: string, network: string, transactionId: string): (url: string)
    ensures '"' !in url
  {
    RemoveChar(PathPrefix(baseUrl, network) + "find/blockHash/" + transactionId, '"')
  }

  /** The stripping applies to the whole URL, base and network included, and
      leaves everything but the quotes in place. */
  lemma QuoteStrippingIsPiecewise(baseUrl: string, network: string, path: string, transactionId: string)
    ensures RemoveChar(PathPrefix(baseUrl, network) + path + transactionId, '"')
         == RemoveChar(baseUrl, '"') + "/" + RemoveChar(network, '"') + "/" + RemoveChar(path, '"')
            + RemoveChar(transactionId, '"')
  {
    var q := '"';
    RemoveCharAppend(baseUrl + "/" + network + "/" + path, transactionId, q);
    RemoveCharAppend(baseUrl + "/" + network + "/", path, q);
    RemoveCharAppend(baseUrl + "/" + network, "/", q);
    RemoveCharAppend(baseUrl + "/", network, q);
    RemoveCharAppend(baseUrl, "/", q);
    RemoveCharAbsent("/", q);
  }

  /** Stripping a quoted id after a quote-free prefix leaves the prefix and the bare id. */
  lemma StripQuotedId(prefix: string, id: string)
    requires '"' !in prefix && '"' !in id
    ensures RemoveChar(prefix + ("\"" + id + "\""), '"') == prefix + id
  {
    var q := '"';
    var quote := "\"";
    assert RemoveChar(quote, q) == "" by {
      assert quote[1..] == "";
    }
    RemoveCharAbsent(id, q);
    RemoveCharAbsent(prefix, q);
    RemoveCharAppend(quote, id, q);
    assert RemoveChar(quote + id, q) == id;
    RemoveCharAppend(quote + id, quote, q);
    assert RemoveChar(quote + id + quote, q) == id;
    RemoveCharAppend(prefix, quote + id + quote, q);
  }

  /** A transaction id passed with its JSON quotes reaches the node without them. */
  lemma QuotedTransactionId(baseUrl: string, network: string, id: string)
    requires '"' !in baseUrl && '"' !in network && '"' !in id
    ensures TransactionUrl(baseUrl, network, "\"" + id + "\"") == PathPrefix(baseUrl, network) + "transaction/" + id
    ensures ConfirmedTransactionUrl(baseUrl, network, "\"" + id + "\"")
         == PathPrefix(baseUrl, network) + "transaction/confirmed/" + id
    ensures BlockHashUrl(baseUrl, network, "\"" + id + "\"") == PathPrefix(baseUrl, network) + "find/blockHash/" + id
  {
    StripQuotedId(PathPrefix(baseUrl, network) + "transaction/", id);
    StripQuotedId(PathPrefix(baseUrl, network) + "transaction/confirmed/", id);
    StripQuotedId(PathPrefix(baseUrl, network) + "find/blockHash/", id);
  }

  /** The three kinds of transaction. */
  datatype TransactionKind = Deploy | Execute | Fee

  /** How the POST of a transaction can end: a response whose body can or
      cannot be read, a response with an error status, or a transport error. */
  datatype PostResult =
    | Response(body: Result<string>)
    | StatusError(code: nat, errorBody: Result<string>)
    | TransportError(reason: string)

  function BroadcastUrl(baseUrl: string, network: string): string {
    PathPrefix(baseUrl, network) + "transaction/broadcast"
  }

  const CROSS_MARK: string := "\U{274C} "
  const MALFORMED_RESPONSE: string := "\U{274C} Transaction response was malformed "

  function StatusDetail(code: nat, body: string): string {
    "(status code " + Decimal(code) + ": " + DebugString(body) + ")"
  }

  /** The detail of a failed POST; reading the body of a status error may itself fail. */
  function ErrorDetail(post: PostResult): (r: Result<string>)
    requires !post.Response?
    ensures post.TransportError? ==> r == Ok("(" + post.reason + ")")
    ensures post.StatusError? ==> (r.Ok? <==> post.errorBody.Ok?)
    ensures post.StatusError? && post.errorBody.Err? ==> r == Err(post.errorBody.msg)
    ensures post.StatusError? && post.errorBody.Ok? ==>
              r == Ok(StatusDetail(post.code, post.errorBody.value))
  {
    match post
    case StatusError(code, body) =>
      (match body
       case Ok(text) => Ok(StatusDetail(code, text))
       case Err(e) => Err(e))
    case TransportError(reason) => Ok("(" + reason + ")")
  }

  /** What a failed broadcast says it failed to do, by kind. */
  function FailureAction(kind: TransactionKind): string {
    match kind
    case Deploy => "Failed to deploy program"
    case Execute => "Failed to broadcast execution"
    case Fee => "Failed to broadcast fee execution"
  }

  /** `broadcast_transaction`, from the outcome of the POST. */
  function BroadcastTransaction(baseUrl: string, network: string, kind: TransactionKind, post: PostResult): (r: Result<string>)
    ensures post.Response? && post.body.Ok? ==> r == Ok(post.body.value)
    ensures !(post.Response? && post.body.Ok?) ==> r.Err?
    ensures post.Response? && post.body.Err? ==> r == Err(MALFORMED_RESPONSE + post.body.msg)
    ensures post.TransportError? ==>
              r == Err(CROSS_MARK + FailureAction(kind) + " to " + BroadcastUrl(baseUrl, network) + ": (" + post.reason + ")")
    ensures post.StatusError? && post.errorBody.Err? ==> r == Err(post.errorBody.msg)
  {
    match post
    case Response(body) =>
      (match body
       case Ok(text) => Ok(text)
       case Err(e) => Err(MALFORMED_RESPONSE + e))
    case _ =>
      match ErrorDetail(post)
      case Err(e) => Err(e)
      case Ok(detail) => Err(CROSS_MARK + FailureAction(kind) + " to " + BroadcastUrl(baseUrl, network) + ": " + detail)
  }

  /** A status error's message names the kind, the URL, the status code and the
      body, and the body can be read back from it. */
  lemma StatusErrorMessage(baseUrl: string, network: string, kind: TransactionKind, code: nat, body: string)
    ensures var r := BroadcastTransaction(baseUrl, network, kind, StatusError(code, Ok(body)));
            var head := CROSS_MARK + FailureAction(kind) + " to " + BroadcastUrl(baseUrl, network) + ": ";
            var quoted := DebugString(body);
            r.Err? && r.msg == head + ("(status code " + Decimal(code) + ": " + quoted + ")")
            && UnescapeDebug(quoted[1..|quoted| - 1]) == Some(body)
  {
    DebugStringRoundTrip(body);
  }

  /** Two status errors give the same message only for the same code and body. */
  lemma StripPrefix(p: string, a: string, b: string)
    requires p + a == p + b
    ensures a == b
  {
    assert a == (p + a)[|p|..];
    assert b == (p + b)[|p|..];
  }

  lemma StripSuffix(a: string, b: string, q: string)
    requires a + q == b + q
    ensures a == b
  {
    assert a == (a + q)[..|a|];
    assert b == (b + q)[..|b|];
  }

  /** The detail of a status error determines the code and the body. */
  lemma StatusDetailInjective(code: nat, body: string, code': nat, body': string)
    requires StatusDetail(code, body) == StatusDetail(code', body')
    ensures code == code' && body == body'
  {
    var n, n' := Decimal(code), Decimal(code');
    var d, d' := DebugString(body), DebugString(body');
    DetailInside(n, d, n', d');
    DigitsSplit(n, ": ", d, n', d');
    DecimalInjective(code, code');
    DebugStringRoundTrip(body);
    DebugStringRoundTrip(body');
  }

  /** Equal details have equal insides. */
  lemma DetailInside(n: string, d: string, n': string, d': string)
    requires "(status code " + n + ": " + d + ")" == "(status code " + n' + ": " + d' + ")"
    ensures n + ": " + d == n' + ": " + d'
  {
    var open := "(status code ";
    StripSuffix(open + n + ": " + d, open + n' + ": " + d', ")");
    assert open + n + ": " + d == open + (n + ": " + d);
    assert open + n' + ": " + d' == open + (n' + ": " + d');
    StripPrefix(open, n + ": " + d, n' + ": " + d');
  }


  lemma StatusErrorMessageInjective(baseUrl: string, network: string, kind: TransactionKind,
                                    code: nat, body: string, code': nat, body': string)
    requires BroadcastTransaction(baseUrl, network, kind, StatusError(code, Ok(body)))
          == BroadcastTransaction(baseUrl, network, kind, StatusError(code', Ok(body')))
    ensures code == code' && body == body'
  {
    var pre := CROSS_MARK + FailureAction(kind) + " to " + BroadcastUrl(baseUrl, network) + ": ";
    StripPrefix(pre, StatusDetail(code, body), StatusDetail(code', body'));
    StatusDetailInjective(code, body, code', body');
  }

  /** Where in a failure message a character of its action sits. */
  lemma ActionCharAt(action: string, tail: string, i: nat)
    requires i < |action|
    ensures (CROSS_MARK + action + tail)[|CROSS_MARK| + i] == action[i]
  {
  }

  /** The kind of the failed transaction can be told from the message. */
  lemma FailureMessagesDifferByKind(baseUrl: string, network: string, k1: TransactionKind, k2: TransactionKind, post: PostResult)
    requires !post.Response? && ErrorDetail(post).Ok? && k1 != k2
    ensures BroadcastTransaction(baseUrl, network, k1, post) != BroadcastTransaction(baseUrl, network, k2, post)
  {
    var tail := " to " + BroadcastUrl(baseUrl, network) + ": " + ErrorDetail(post).value;
    var a1 := FailureAction(k1);
    var a2 := FailureAction(k2);
    assert BroadcastTransaction(baseUrl, network, k1, post) == Err(CROSS_MARK + a1 + tail);
    assert BroadcastTransaction(baseUrl, network, k2, post) == Err(CROSS_MARK + a2 + tail);
    var i: nat := if a1[10] != a2[10] then 10 else 20;
    assert a1[i] != a2[i];
    ActionCharAt(a1, tail, i);
    ActionCharAt(a2, tail, i);
  }
}
