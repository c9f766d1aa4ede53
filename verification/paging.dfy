/**
 * The page loops of `fetchTransactionsV3AllPages`, for both provider dialects, as one loop over
 * page keys: Covalent pages are numbered, Moralis pages are named by the cursor the previous page
 * returned. Each request yields a page of items and possibly the key of the next page; the loop
 * stops after a failed request, a page without a next key, a page shorter than the page size, or
 * when the request budget is spent.
 */
module Paging {
  import opened Wrappers

  /** One page of items and the key of the page after it, when the provider names one. */
  datatype Page<K, T> = Page(items: seq<T>, next: Option<K>)

  /** The loop asks for another page after this one. */
  predicate Continues<K, T>(p: Page<K, T>, pageSize: int) {
    p.next.Some? && |p.items| >= pageSize
  }

  /** `items` in front of the items of the later pages; a failure stays that failure. */
  function Prepend<T>(items: seq<T>, rest: Outcome<seq<T>>): (r: Outcome<seq<T>>)
    ensures rest.Failed? ==> r == rest
    ensures rest.Ok? ==> r.Ok? && |r.value| == |items| + |rest.value|
  {
    match rest
    case Ok(more) => Ok(items + more)
    case Failed(m) => Failed(m)
  }

  lemma PrependNothing<T>(rest: Outcome<seq<T>>)
    ensures Prepend([], rest) == rest
  {
    if rest.Ok? {
      assert [] + rest.value == rest.value;
    }
  }

  lemma PrependPrepend<T>(a: seq<T>, b: seq<T>, rest: Outcome<seq<T>>)
    ensures Prepend(a, Prepend(b, rest)) == Prepend(a + b, rest)
  {
    if rest.Ok? {
      assert a + (b + rest.value) == (a + b) + rest.value;
    }
  }

  /** The concatenated items of at most `budget` requests starting at `key`, or the first failure. */
  function Pages<K, T>(fetch: K -> Outcome<Page<K, T>>, key: K, budget: nat, pageSize: int): Outcome<seq<T>>
    decreases budget
  {
    if budget == 0 then Ok([])
    else
      match fetch(key)
      case Failed(m) => Failed(m)
      case Ok(p) =>
        if Continues(p, pageSize) then Prepend(p.items, Pages(fetch, p.next.value, budget - 1, pageSize))
        else Ok(p.items)
  }

  /** One turn of the loop: a failure ends it, so does a last or short page, and a full page is followed by the rest. */
  lemma PagesStep<K, T>(fetch: K -> Outcome<Page<K, T>>, key: K, budget: nat, pageSize: int)
    requires budget > 0
    ensures fetch(key).Failed? ==> Pages(fetch, key, budget, pageSize) == Failed(fetch(key).message)
    ensures fetch(key).Ok? && !Continues(fetch(key).value, pageSize) ==>
      Pages(fetch, key, budget, pageSize) == Ok(fetch(key).value.items)
    ensures fetch(key).Ok? && Continues(fetch(key).value, pageSize) ==>
      Pages(fetch, key, budget, pageSize)
      == Prepend(fetch(key).value.items, Pages(fetch, fetch(key).value.next.value, budget - 1, pageSize))
  {
  }

  /** The keys the loop requests, in order. */
  function Requests<K, T>(fetch: K -> Outcome<Page<K, T>>, key: K, budget: nat, pageSize: int): (ks: seq<K>)
    ensures |ks| <= budget
    ensures budget > 0 <==> |ks| > 0
    ensures |ks| > 0 ==> ks[0] == key
    decreases budget
  {
    if budget == 0 then []
    else
      match fetch(key)
      case Failed(_) => [key]
      case Ok(p) => if Continues(p, pageSize) then [key] + Requests(fetch, p.next.value, budget - 1, pageSize) else [key]
  }

  /** The items of the requested pages, in request order. */
  function Collected<K, T>(fetch: K -> Outcome<Page<K, T>>, ks: seq<K>): seq<T> {
    if ks == [] then []
    else (if fetch(ks[0]).Ok? then fetch(ks[0]).value.items else []) + Collected(fetch, ks[1..])
  }

  /**
   * Each request but the last succeeded with a full page naming a next key, and the next request
   * asks for exactly that key.
   */
  ghost predicate Chained<K, T>(fetch: K -> Outcome<Page<K, T>>, ks: seq<K>, pageSize: int) {
    forall i :: 0 <= i < |ks| - 1 ==>
      fetch(ks[i]).Ok? && Continues(fetch(ks[i]).value, pageSize) && fetch(ks[i]).value.next == Some(ks[i + 1])
  }

  /** The last request failed, or gave a page after which the loop stops. */
  predicate EndsAtStop<K, T>(fetch: K -> Outcome<Page<K, T>>, ks: seq<K>, pageSize: int)
    requires |ks| > 0
  {
    fetch(ks[|ks| - 1]).Failed? || !Continues(fetch(ks[|ks| - 1]).value, pageSize)
  }

  predicate AllOk<K, T>(fetch: K -> Outcome<Page<K, T>>, ks: seq<K>) {
    forall i :: 0 <= i < |ks| ==> fetch(ks[i]).Ok?
  }

  lemma {:induction false} RequestsChain<K, T>(fetch: K -> Outcome<Page<K, T>>, key: K, budget: nat, pageSize: int)
    ensures Chained(fetch, Requests(fetch, key, budget, pageSize), pageSize)
    decreases budget
  {
    if budget > 0 && fetch(key).Ok? && Continues(fetch(key).value, pageSize) {
      var p := fetch(key).value;
      var rest := Requests(fetch, p.next.value, budget - 1, pageSize);
      RequestsChain(fetch, p.next.value, budget - 1, pageSize);
      var ks := Requests(fetch, key, budget, pageSize);
      assert ks == [key] + rest;
      forall i | 0 <= i < |ks| - 1
        ensures fetch(ks[i]).Ok? && Continues(fetch(ks[i]).value, pageSize) && fetch(ks[i]).value.next == Some(ks[i + 1])
      {
        if i > 0 {
          assert ks[i] == rest[i - 1] && ks[i + 1] == rest[i];
        } else {
          assert ks[1] == rest[0] == p.next.value;
        }
      }
    }
  }

  /** The loop ends before the budget is spent only after a failure, a last page or a short page. */
  lemma {:induction false} RequestsStop<K, T>(fetch: K -> Outcome<Page<K, T>>, key: K, budget: nat, pageSize: int)
    ensures 0 < |Requests(fetch, key, budget, pageSize)| < budget ==>
      EndsAtStop(fetch, Requests(fetch, key, budget, pageSize), pageSize)
    decreases budget
  {
    if budget > 0 && fetch(key).Ok? && Continues(fetch(key).value, pageSize) {
      var p := fetch(key).value;
      var rest := Requests(fetch, p.next.value, budget - 1, pageSize);
      RequestsStop(fetch, p.next.value, budget - 1, pageSize);
      var ks := Requests(fetch, key, budget, pageSize);
      assert ks == [key] + rest;
      if rest != [] {
        assert ks[|ks| - 1] == rest[|rest| - 1];
      }
    }
  }

  /**
   * The loop fails exactly when some request fails, and then with the message of the last request;
   * otherwise its result is the items of every requested page, in request order.
   */
  lemma {:induction false} PagesOutcome<K, T>(fetch: K -> Outcome<Page<K, T>>, key: K, budget: nat, pageSize: int)
    ensures Pages(fetch, key, budget, pageSize).Ok? <==> AllOk(fetch, Requests(fetch, key, budget, pageSize))
    ensures Pages(fetch, key, budget, pageSize).Failed? ==>
      var ks := Requests(fetch, key, budget, pageSize);
      |ks| > 0 && fetch(ks[|ks| - 1]) == Failed(Pages(fetch, key, budget, pageSize).message)
    ensures Pages(fetch, key, budget, pageSize).Ok? ==>
      Pages(fetch, key, budget, pageSize).value == Collected(fetch, Requests(fetch, key, budget, pageSize))
    decreases budget
  {
    var ks := Requests(fetch, key, budget, pageSize);
    if budget > 0 && fetch(key).Ok? {
      var p := fetch(key).value;
      if Continues(p, pageSize) {
        var rest := Requests(fetch, p.next.value, budget - 1, pageSize);
        PagesOutcome(fetch, p.next.value, budget - 1, pageSize);
        assert ks == [key] + rest;
        assert ks[1..] == rest;
        assert forall i :: 0 < i < |ks| ==> ks[i] == rest[i - 1];
        if rest != [] {
          assert ks[|ks| - 1] == rest[|rest| - 1];
        }
      } else {
        assert ks == [key];
      }
    }
  }
}
