/**
 * The device registry listing: `get_devices` pages through
 * `list_things_in_thing_group` with a continuation token.
 *
 * The registry is a foreign service. It is modelled as the finite sequence of
 * answers it gives to successive calls: the k-th call made by one `get_devices`
 * run is answered by `responses[k]`.
 */
module Iot {
  import opened Wrappers
  import opened Aws

  /** The keyword arguments of one `list_things_in_thing_group` call. */
  datatype ListRequest = ListRequest(thingGroupName: string, recursive: bool, nextToken: string, maxResults: int)

  /** The answer to one call: a page of thing names, or the ClientError the call raises. */
  datatype ListResponse =
    | Page(things: seq<string>, nextToken: Option<string>)
    | Raised(error: ClientError)

  const MaxResults := 100

  /** The fixed request shape used by `response`. */
  function ListRequestFor(thingGroup: string, nextToken: string): (request: ListRequest)
  {
    ListRequest(thingGroup, false, nextToken, MaxResults)
  }

  /** An answer after which `get_devices` makes no further call. */
  predicate Ends(r: ListResponse)
  {
    r.Raised? || r.nextToken.None?
  }

  /** The registry's answers form a finite chain: some call ends the listing. */
  predicate Finite(responses: seq<ListResponse>)
  {
    exists k :: 0 <= k < |responses| && Ends(responses[k])
  }

  lemma FiniteTail(responses: seq<ListResponse>)
    requires Finite(responses) && !Ends(responses[0])
    ensures Finite(responses[1..])
  {
    var k :| 0 <= k < |responses| && Ends(responses[k]);
    assert k > 0 && Ends(responses[1..][k - 1]);
  }

  /** The index of the first answer that ends the listing: the last call made. */
  ghost function LastCall(responses: seq<ListResponse>): (k: nat)
    requires Finite(responses)
    ensures k < |responses| && Ends(responses[k])
    ensures forall j :: 0 <= j < k ==> !Ends(responses[j])
    decreases |responses|
  {
    if Ends(responses[0]) then 0
    else
      FiniteTail(responses);
      1 + LastCall(responses[1..])
  }

  /** The thing names of the pages among `rs`, concatenated in order. */
  ghost function Things(rs: seq<ListResponse>): seq<string>
  {
    if rs == [] then []
    else
      var last := rs[|rs| - 1];
      Things(rs[..|rs| - 1]) + (if last.Page? then last.things else [])
  }

  /**
   * What `get_devices` yields, following the chain one call at a time: the
   * first raised error, or every page's names up to the page without a token.
   */
  ghost function Listing(responses: seq<ListResponse>): Result<seq<string>, ClientError>
    requires Finite(responses)
    decreases |responses|
  {
    match responses[0]
    case Raised(e) => Failure(e)
    case Page(things, None) => Success(things)
    case Page(things, Some(_)) =>
      FiniteTail(responses);
      match Listing(responses[1..])
      case Success(rest) => Success(things + rest)
      case Failure(e) => Failure(e)
  }

  /**
   * The listing is the concatenation, in fetch order, of the names of every
   * page fetched, the last page included; if the last call raised, nothing of
   * the pages before it is returned.
   */
  lemma {:induction false} ListingIsConcatenation(responses: seq<ListResponse>)
    requires Finite(responses)
    ensures var n := LastCall(responses);
      Listing(responses) ==
        if responses[n].Raised? then Failure(responses[n].error)
        else Success(Things(responses[..n + 1]))
  {
    var n := LastCall(responses);
    if n == 0 {
      assert responses[..1] == [responses[0]];
      ThingsCons(responses[0], []);
      assert [responses[0]] + [] == [responses[0]];
      assert Ends(responses[0]);
      if responses[0].Page? {
        assert Listing(responses) == Success(responses[0].things);
        assert Things(responses[..1]) == responses[0].things;
      }
    } else {
      FiniteTail(responses);
      var tail := responses[1..];
      ListingIsConcatenation(tail);
      assert LastCall(tail) == n - 1;
      ThingsCons(responses[0], tail[..n]);
      assert [responses[0]] + tail[..n] == responses[..n + 1];
    }
  }

  lemma {:induction false} ThingsCons(r: ListResponse, rs: seq<ListResponse>)
    ensures Things([r] + rs) == (if r.Page? then r.things else []) + Things(rs)
    decreases |rs|
  {
    if rs == [] {
      assert [r] + rs == [r];
      assert Things([r]) == Things([]) + (if r.Page? then r.things else []);
    } else {
      var front := rs[..|rs| - 1];
      var last := rs[|rs| - 1];
      assert ([r] + rs)[..|[r] + rs| - 1] == [r] + front;
      ThingsCons(r, front);
    }
  }

  /** Answers after the one that ends the listing are never consulted. */
  lemma {:induction false} ListingIgnoresLaterAnswers(responses: seq<ListResponse>, later: seq<ListResponse>)
    requires Finite(responses)
    ensures Finite(responses[..LastCall(responses) + 1] + later)
    ensures Listing(responses[..LastCall(responses) + 1] + later) == Listing(responses)
    decreases |responses|
  {
    var n := LastCall(responses);
    var chain := responses[..n + 1] + later;
    assert chain[n] == responses[n];
    assert chain[0] == responses[0];
    if n > 0 {
      FiniteTail(responses);
      ListingIgnoresLaterAnswers(responses[1..], later);
      assert responses[1..][..n] + later == chain[1..];
      FiniteTail(chain);
    }
  }

  /** A group whose single page is empty and carries no token lists no devices. */
  lemma EmptyGroup(responses: seq<ListResponse>)
    requires |responses| > 0 && responses[0] == Page([], None)
    ensures Finite(responses) && Listing(responses) == Success([])
  {
    assert Ends(responses[0]);
  }

  /** The state of the listing loop before its call number i, all earlier calls having returned a token. */
  ghost predicate ListingLoop(responses: seq<ListResponse>, thingGroup: string, i: nat, acc: seq<string>,
                           nextToken: string, requests: seq<ListRequest>)
  {
    && i < |responses|
    && (forall j :: 0 <= j < i ==> !Ends(responses[j]))
    && acc == Things(responses[..i])
    && nextToken == (if i == 0 then "" else responses[i - 1].nextToken.value)
    && |requests| == i
    && (i > 0 ==> requests[0] == ListRequestFor(thingGroup, ""))
    && (forall k :: 0 < k < i ==> requests[k] == ListRequestFor(thingGroup, responses[k - 1].nextToken.value))
  }

  /** One pass of the listing loop over a page that carries a token. */
  lemma ListingStep(responses: seq<ListResponse>, thingGroup: string, i: nat, acc: seq<string>,
                    nextToken: string, requests: seq<ListRequest>)
    requires ListingLoop(responses, thingGroup, i, acc, nextToken, requests)
    requires Finite(responses) && responses[i].Page?
    ensures acc + responses[i].things == Things(responses[..i + 1])
    ensures var sent := requests + [ListRequestFor(thingGroup, nextToken)];
      && (sent[0] == ListRequestFor(thingGroup, ""))
      && (forall k :: 0 < k < i + 1 ==> sent[k] == ListRequestFor(thingGroup, responses[k - 1].nextToken.value))
      && (!Ends(responses[i]) ==>
            ListingLoop(responses, thingGroup, i + 1, acc + responses[i].things, responses[i].nextToken.value, sent))
  {
    assert responses[..i + 1][..i] == responses[..i];
    if !Ends(responses[i]) {
      var k :| 0 <= k < |responses| && Ends(responses[k]);
      assert k > i;
    }
  }

  /**
   * `get_devices`: call the registry with the empty token, append each page's
   * names, and follow `nextToken` until a page has none. A raised ClientError
   * propagates, so no partial list is returned. `requests` records the calls.
   */
  method GetDevices(responses: seq<ListResponse>, thingGroup: string)
    returns (devices: Result<seq<string>, ClientError>, ghost requests: seq<ListRequest>)
    requires Finite(responses)
    ensures devices == Listing(responses)
    ensures |requests| == LastCall(responses) + 1
    ensures requests[0] == ListRequestFor(thingGroup, "")
    ensures forall k :: 0 < k < |requests| ==>
      responses[k - 1].Page? && responses[k - 1].nextToken.Some? &&
      requests[k] == ListRequestFor(thingGroup, responses[k - 1].nextToken.value)
  {
    var acc: seq<string> := [];
    var nextToken := "";
    var i := 0;
    requests := [];
    ghost var n := LastCall(responses);
    while true
      invariant i <= n
      invariant ListingLoop(responses, thingGroup, i, acc, nextToken, requests)
      decreases n - i
    {
      var res := responses[i];
      if res.Raised? {
        requests := requests + [ListRequestFor(thingGroup, nextToken)];
        devices := Failure(res.error);
        ListingIsConcatenation(responses);
        return;
      }
      ListingStep(responses, thingGroup, i, acc, nextToken, requests);
      requests := requests + [ListRequestFor(thingGroup, nextToken)];
      acc := acc + res.things;
      if res.nextToken.Some? {
        nextToken := res.nextToken.value;
      } else {
        break;
      }
      i := i + 1;
    }
    devices := Success(acc);
    ListingIsConcatenation(responses);
  }
}
