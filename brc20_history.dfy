/**
 * The BRC-20 TRAC history fetcher of the dashboard: a paginated accumulation
 * loop over an indexer endpoint, followed by a time-window filter.
 *
 * The endpoint is a script: `script[k]` is the response to the k-th request
 * the fetcher issues. The network, the headers and the JSON decoding are not
 * modelled; a body is either the decoded `data.detail` list or unparseable.
 */
module Brc20History {

  /** One transaction of the `data.detail` list; `blocktime` is in epoch seconds. */
  datatype Record = Record(from: string, to: string, amount: string, blocktime: int)

  /** What the body of a response decodes to. */
  datatype Body = Detail(records: seq<Record>) | Unparseable

  datatype Response = Response(status: int, body: Body)

  /** The query parameters of one request: `type`, `start` and `limit`. */
  datatype Request = Request(txType: string, start: int, limit: int)

  /** Why the pagination loop stopped. */
  datatype Stop =
    | EndOfData             // a successful, empty page
    | HttpError(status: int) // a non-200 status: the loop breaks, keeping what it has
    | BadBody               // a 200 status whose body has no `data.detail`: the lookup raises

  datatype Fetched = Fetched(tokens: seq<Record>, stop: Stop)

  /** The exceptions `get_brc20_history` raises. */
  datatype Error =
    | MalformedBody      // the `['data']['detail']` lookup fails
    | NoBlocktimeColumn  // the frame built from no records has no `blocktime` column

  datatype Result<T> = Success(value: T) | Failure(error: Error)

  /** The page size; the source fixes it at 100. */
  const Limit: nat := 100

  const StatusOk: int := 200

  function Min(a: int, b: int): (m: int) {
    if a <= b then a else b
  }

  // ---------------------------------------------------------------------------
  // Specification of the pagination loop

  /** A response after which the loop issues no further request. */
  predicate Ends(r: Response) {
    r.status != StatusOk || r.body.Unparseable? || r.body.records == []
  }

  /** The records a response contributes to the accumulation. */
  function Page(r: Response): (page: seq<Record>) {
    if r.status == StatusOk && r.body.Detail? then r.body.records else []
  }

  /** The in-order concatenation of the pages of `rs`. */
  function Flatten(rs: seq<Response>): (records: seq<Record>) {
    if rs == [] then [] else Flatten(rs[..|rs| - 1]) + Page(rs[|rs| - 1])
  }

  /** The endpoint eventually answers with a response that ends the loop. */
  predicate HasEnd(script: seq<Response>) {
    exists i :: 0 <= i < |script| && Ends(script[i])
  }

  /** The index of the first response that ends the loop. */
  function FirstEnd(script: seq<Response>): (j: nat)
    requires HasEnd(script)
    ensures j < |script| && Ends(script[j])
    ensures forall i :: 0 <= i < j ==> !Ends(script[i])
  {
    if Ends(script[0]) then 0
    else
      assert HasEnd(script[1..]) by {
        var i :| 0 <= i < |script| && Ends(script[i]);
        assert i != 0 && Ends(script[1..][i - 1]);
      }
      1 + FirstEnd(script[1..])
  }

  /** The reason a loop-ending response gives for stopping. */
  function StopOf(r: Response): (s: Stop)
    requires Ends(r)
  {
    if r.status != StatusOk then HttpError(r.status)
    else if r.body.Unparseable? then BadBody
    else EndOfData
  }

  // ---------------------------------------------------------------------------
  // The pagination loop

  /**
   * Issues requests at offsets 0, 100, 200, ... until a response ends the
   * loop. Returns the accumulated records, the reason for stopping and the
   * log of requests issued.
   */
  method FetchAll(txType: string, script: seq<Response>) returns (fetched: Fetched, requests: seq<Request>)
    requires HasEnd(script)
    ensures |requests| == FirstEnd(script) + 1
    ensures forall k :: 0 <= k < |requests| ==> requests[k] == Request(txType, k * Limit, Limit)
    ensures forall i, k :: 0 <= i < k < |requests| ==> requests[i].start < requests[k].start
    ensures fetched.tokens == Flatten(script[..FirstEnd(script)])
    ensures fetched.stop == StopOf(script[FirstEnd(script)])
  {
    var tokens: seq<Record> := [];
    var start := 0;
    var limit := Limit;
    var stop: Stop;
    requests := [];
    ghost var last := FirstEnd(script);
    while true
      invariant |requests| <= last
      invariant start == |requests| * Limit && limit == Limit
      invariant forall k :: 0 <= k < |requests| ==> requests[k] == Request(txType, k * Limit, Limit)
      invariant tokens == Flatten(script[..|requests|])
      decreases last - |requests|
    {
      var n := |requests|;
      var response := script[n];
      requests := requests + [Request(txType, start, limit)];
      if response.status == StatusOk {
        if response.body.Unparseable? {
          stop := BadBody;
          break;
        }
        var newData := response.body.records;
        if newData == [] {
          stop := EndOfData;
          break;
        }
        assert script[..n + 1][..n] == script[..n];
        tokens := tokens + newData;
        start := start + limit;
      } else {
        stop := HttpError(response.status);
        break;
      }
    }
    fetched := Fetched(tokens, stop);
  }

  // ---------------------------------------------------------------------------
  // The time-window filter

  /** `a` is `b` with some elements left out, the rest in their order. */
  predicate IsSubsequence<T(==)>(a: seq<T>, b: seq<T>)
    decreases |b|
  {
    a == [] || (b != [] && ((a[0] == b[0] && IsSubsequence(a[1..], b[1..])) || IsSubsequence(a, b[1..])))
  }

  /**
   * The records whose `blocktime` is at or after `startDate`, in their
   * original order: exactly the occurrences that pass, and nothing else.
   */
  function KeepSince(tokens: seq<Record>, startDate: int): (kept: seq<Record>)
    ensures forall r :: r in kept ==> r.blocktime >= startDate
    ensures IsSubsequence(kept, tokens)
    ensures forall r: Record :: r.blocktime >= startDate ==> multiset(kept)[r] == multiset(tokens)[r]
  {
    if tokens == [] then []
    else
      var rest := KeepSince(tokens[1..], startDate);
      assert tokens == [tokens[0]] + tokens[1..];
      if tokens[0].blocktime >= startDate then
        assert ([tokens[0]] + rest)[1..] == rest;
        [tokens[0]] + rest
      else rest
  }

  // ---------------------------------------------------------------------------
  // The whole routine

  /**
   * Runs the pagination loop, then keeps the records at or after
   * `startDate`. Raises (here: returns a `Failure`) when a body cannot be
   * decoded, or when no record was accumulated, since a frame built from no
   * records has no `blocktime` column.
   */
  method GetHistory(txType: string, startDate: int, script: seq<Response>)
    returns (result: Result<seq<Record>>, requests: seq<Request>)
    requires HasEnd(script)
    ensures |requests| == FirstEnd(script) + 1
    ensures forall k :: 0 <= k < |requests| ==> requests[k] == Request(txType, k * Limit, Limit)
    ensures var last := script[FirstEnd(script)];
            var tokens := Flatten(script[..FirstEnd(script)]);
            if last.status == StatusOk && last.body.Unparseable? then result == Failure(MalformedBody)
            else if tokens == [] then result == Failure(NoBlocktimeColumn)
            else result == Success(KeepSince(tokens, startDate))
    ensures result.Success? ==> forall r :: r in result.value ==> r.blocktime >= startDate
  {
    var fetched;
    fetched, requests := FetchAll(txType, script);
    if fetched.stop == BadBody {
      result := Failure(MalformedBody);
    } else if fetched.tokens == [] {
      result := Failure(NoBlocktimeColumn);
    } else {
      result := Success(KeepSince(fetched.tokens, startDate));
    }
  }

  // ---------------------------------------------------------------------------
  // Properties of the accumulation

  /** The accumulated list only grows: what is held after `i` pages is a prefix of what is held later. */
  lemma {:induction false} FlattenGrows(rs: seq<Response>, i: nat)
    requires i <= |rs|
    ensures Flatten(rs[..i]) <= Flatten(rs)
    decreases |rs| - i
  {
    if i < |rs| {
      FlattenGrows(rs[..|rs| - 1], i);
      assert rs[..|rs| - 1][..i] == rs[..i];
    } else {
      assert rs[..i] == rs;
    }
  }

  /** The pages a stable dataset's endpoint serves: `start` and `limit` slice the dataset. */
  function Serve(dataset: seq<Record>, start: nat, limit: nat): (r: Response)
    ensures r.status == StatusOk && r.body.Detail?
    ensures |r.body.records| == Min(limit, |dataset| - Min(start, |dataset|))
  {
    var lo := Min(start, |dataset|);
    Response(StatusOk, Detail(dataset[lo..Min(start + limit, |dataset|)]))
  }

  /** The responses to the first `n` requests the fetcher issues against a stable dataset. */
  function DatasetScript(dataset: seq<Record>, n: nat): (s: seq<Response>)
    ensures |s| == n
  {
    seq(n, k requires 0 <= k => Serve(dataset, k * Limit, Limit))
  }

  /** The number of non-empty pages of a dataset of `n` records. */
  function Pages(n: nat): (p: nat) {
    (n + Limit - 1) / Limit
  }

  lemma PagesBounds(n: nat)
    ensures Pages(n) * Limit >= n
    ensures forall k :: 0 <= k < Pages(n) ==> k * Limit < n
  {
  }

  /** The first `n` pages of a stable dataset concatenate to its first `n * Limit` records. */
  lemma {:induction false} FlattenDataset(dataset: seq<Record>, n: nat)
    ensures Flatten(DatasetScript(dataset, n)) == dataset[..Min(n * Limit, |dataset|)]
  {
    if n > 0 {
      var s := DatasetScript(dataset, n);
      assert s[..n - 1] == DatasetScript(dataset, n - 1);
      FlattenDataset(dataset, n - 1);
      var lo := Min((n - 1) * Limit, |dataset|);
      assert Page(s[n - 1]) == dataset[lo..Min(n * Limit, |dataset|)];
      assert dataset[..lo] + dataset[lo..Min(n * Limit, |dataset|)] == dataset[..Min(n * Limit, |dataset|)];
    }
  }

  /**
   * Completeness: against a stable dataset the loop stops at the first page
   * past the data, after `Pages + 1` requests, holding every record in order.
   */
  lemma DatasetComplete(dataset: seq<Record>, n: nat)
    requires n > Pages(|dataset|)
    ensures HasEnd(DatasetScript(dataset, n))
    ensures FirstEnd(DatasetScript(dataset, n)) == Pages(|dataset|)
    ensures Flatten(DatasetScript(dataset, n)[..Pages(|dataset|)]) == dataset
  {
    var s := DatasetScript(dataset, n);
    var p := Pages(|dataset|);
    PagesBounds(|dataset|);
    assert Ends(s[p]);
    forall k | 0 <= k < p ensures !Ends(s[k]) {
      assert k * Limit < |dataset|;
    }
    FirstEndIs(s, p);
    assert s[..p] == DatasetScript(dataset, p);
    FlattenDataset(dataset, p);
    assert dataset[..Min(p * Limit, |dataset|)] == dataset;
  }

  /**
   * Partial result: a non-200 response to request `j` of a stable dataset
   * ends the loop there, whatever comes after it, keeping the first `j` pages.
   */
  lemma DatasetFailure(dataset: seq<Record>, j: nat, status: int, body: Body, rest: seq<Response>)
    requires j <= Pages(|dataset|) && status != StatusOk
    ensures var s := DatasetScript(dataset, j) + [Response(status, body)] + rest;
            HasEnd(s) && FirstEnd(s) == j && StopOf(s[j]) == HttpError(status) &&
            Flatten(s[..j]) == dataset[..Min(j * Limit, |dataset|)]
  {
    var s := DatasetScript(dataset, j) + [Response(status, body)] + rest;
    PagesBounds(|dataset|);
    assert Ends(s[j]);
    forall k | 0 <= k < j ensures !Ends(s[k]) {
      assert k * Limit < |dataset|;
      assert s[k] == DatasetScript(dataset, j)[k];
    }
    FirstEndIs(s, j);
    assert s[..j] == DatasetScript(dataset, j);
    FlattenDataset(dataset, j);
  }

  /** `FirstEnd` is the one index that ends the loop with none before it. */
  lemma FirstEndIs(script: seq<Response>, j: nat)
    requires j < |script| && Ends(script[j])
    requires forall i :: 0 <= i < j ==> !Ends(script[i])
    ensures HasEnd(script) && FirstEnd(script) == j
  {
  }

  /** Pages of 100, 100 and 37 records followed by an empty one: four requests, 237 records. */
  lemma Example237(dataset: seq<Record>)
    requires |dataset| == 237
    ensures HasEnd(DatasetScript(dataset, 4))
    ensures FirstEnd(DatasetScript(dataset, 4)) == 3
    ensures Flatten(DatasetScript(dataset, 4)[..3]) == dataset
  {
    assert Pages(237) == 3;
    DatasetComplete(dataset, 4);
  }

  // ---------------------------------------------------------------------------
  // Properties of the filter

  /** Filtering by a later bound after an earlier one is filtering by the later bound alone. */
  lemma {:induction false} KeepSinceNarrows(tokens: seq<Record>, earlier: int, later: int)
    requires earlier <= later
    ensures KeepSince(KeepSince(tokens, earlier), later) == KeepSince(tokens, later)
  {
    if tokens != [] {
      KeepSinceNarrows(tokens[1..], earlier, later);
    }
  }
}
