/** Derivations every list screen computes from the list it fetched: the
    `filter` a search box drives, the `find` a lookup uses, and the
    normalisation of a list response. */
module Lists {
  import opened Base
  import opened Text

  /** `a` is `b` with some elements dropped and the rest in their order. */
  predicate IsSubsequence<T(==)>(a: seq<T>, b: seq<T>)
    decreases |b|
  {
    if a == [] then true
    else if b == [] then false
    else (a[0] == b[0] && IsSubsequence(a[1..], b[1..])) || IsSubsequence(a, b[1..])
  }

  /** `Array.prototype.filter`: the elements satisfying `p`, in order. */
  function Keep<T>(xs: seq<T>, p: T -> bool): (r: seq<T>)
    ensures |r| <= |xs|
    decreases |xs|
  {
    if xs == [] then []
    else
      var rest := Keep(xs[1..], p);
      if p(xs[0]) then [xs[0]] + rest else rest
  }

  /** What `Keep` returns: exactly the elements of `xs` that pass `p`,
      in their original order. */
  lemma {:induction false} KeepSpec<T(!new)>(xs: seq<T>, p: T -> bool)
    ensures IsSubsequence(Keep(xs, p), xs)
    ensures forall x :: x in Keep(xs, p) <==> x in xs && p(x)
    decreases |xs|
  {
    if xs != [] {
      KeepSpec(xs[1..], p);
    }
  }

  /** `Keep` drops no copy of a passing element: each one occurs in the
      result exactly as often as in the input, and failing ones not at all. */
  lemma {:induction false} KeepCount<T(!new)>(xs: seq<T>, p: T -> bool)
    ensures forall x :: multiset(Keep(xs, p))[x] == if p(x) then multiset(xs)[x] else 0
    decreases |xs|
  {
    if xs != [] {
      KeepCount(xs[1..], p);
      assert xs == [xs[0]] + xs[1..];
    }
  }

  /** Filtering a concatenation filters each part: together with the
      one-element case this determines `Keep` completely, duplicates
      included. */
  lemma {:induction false} KeepAppend<T(!new)>(a: seq<T>, b: seq<T>, p: T -> bool)
    ensures Keep(a + b, p) == Keep(a, p) + Keep(b, p)
    decreases |a|
  {
    if a == [] {
      assert a + b == b;
    } else {
      KeepAppend(a[1..], b, p);
      assert (a + b)[1..] == a[1..] + b;
    }
  }

  /** When every element passes, nothing is dropped. */
  lemma {:induction false} KeepAll<T(!new)>(xs: seq<T>, p: T -> bool)
    requires forall x :: x in xs ==> p(x)
    ensures Keep(xs, p) == xs
    decreases |xs|
  {
    if xs != [] {
      KeepAll(xs[1..], p);
    }
  }

  /** Filtering by two predicates that agree gives the same list. */
  lemma {:induction false} KeepCongruent<T(!new)>(xs: seq<T>, p: T -> bool, q: T -> bool)
    requires forall x :: x in xs ==> p(x) == q(x)
    ensures Keep(xs, p) == Keep(xs, q)
    decreases |xs|
  {
    if xs != [] {
      KeepCongruent(xs[1..], p, q);
    }
  }

  /** The search rule of every list screen:
      `nome.toLowerCase().includes(searchTerm.toLowerCase())`. */
  predicate Matches(nome: string, term: string)
  {
    Includes(Lower(nome), Lower(term))
  }

  /** The list a search box shows: the fetched items whose name matches the
      term, in fetched order. */
  function FilterByName<T(==,!new)>(xs: seq<T>, nome: T -> string, term: string): (r: seq<T>)
    ensures IsSubsequence(r, xs)
    ensures forall x :: x in r <==> x in xs && Matches(nome(x), term)
    ensures forall x :: multiset(r)[x] == if Matches(nome(x), term) then multiset(xs)[x] else 0
  {
    KeepSpec(xs, x => Matches(nome(x), term));
    KeepCount(xs, x => Matches(nome(x), term));
    Keep(xs, x => Matches(nome(x), term))
  }

  /** The "Exibir Todos" button sets the term to "", which shows every
      fetched item. */
  lemma FilterEmptyTerm<T(!new)>(xs: seq<T>, nome: T -> string)
    ensures FilterByName(xs, nome, "") == xs
  {
    forall x | x in xs
      ensures Matches(nome(x), "")
    {
      IncludesEmpty(Lower(nome(x)));
    }
    KeepAll(xs, x => Matches(nome(x), ""));
  }

  /** The filter ignores the case of the term: typing it in capitals or in
      lower case selects the same items. */
  lemma FilterIgnoresTermCase<T(!new)>(xs: seq<T>, nome: T -> string, term: string)
    ensures FilterByName(xs, nome, term) == FilterByName(xs, nome, Lower(term))
  {
    LowerIdempotent(term);
    KeepCongruent(xs, x => Matches(nome(x), term), x => Matches(nome(x), Lower(term)));
  }

  /** Searching again within a filtered list changes nothing. */
  lemma FilterIdempotent<T(!new)>(xs: seq<T>, nome: T -> string, term: string)
    ensures FilterByName(FilterByName(xs, nome, term), nome, term) == FilterByName(xs, nome, term)
  {
    var p := x => Matches(nome(x), term);
    KeepSpec(xs, p);
    KeepAll(Keep(xs, p), p);
  }

  /** `Array.prototype.find`: the first element satisfying `p`, if any. */
  function Find<T>(xs: seq<T>, p: T -> bool): (r: Option<T>)
    ensures r.None? <==> forall i :: 0 <= i < |xs| ==> !p(xs[i])
    ensures r.Some? ==> exists i :: 0 <= i < |xs| && xs[i] == r.value && p(xs[i])
                          && forall j :: 0 <= j < i ==> !p(xs[j])
    decreases |xs|
  {
    if xs == [] then None
    else if p(xs[0]) then Some(xs[0])
    else
      var r := Find(xs[1..], p);
      assert forall i :: 1 <= i < |xs| ==> xs[i] == xs[1..][i - 1];
      assert r.Some? ==> exists i :: 0 <= i < |xs| && xs[i] == r.value && p(xs[i])
                           && forall j :: 0 <= j < i ==> !p(xs[j]) by {
        if r.Some? {
          var k :| 0 <= k < |xs[1..]| && xs[1..][k] == r.value && p(xs[1..][k])
                   && forall j :: 0 <= j < k ==> !p(xs[1..][j]);
          assert xs[k + 1] == r.value && forall j :: 0 <= j < k + 1 ==> !p(xs[j]);
        }
      }
      r
  }

  /** `Array.isArray(data) ? data : []`. */
  function Normalise<T>(payload: Payload<T>): (r: seq<T>)
    ensures payload.NonArray? ==> r == []
    ensures payload.JsonArray? ==> r == payload.items
  {
    match payload
    case JsonArray(items) => items
    case NonArray => []
  }

  /** The list state after one list fetch, as the list screens write it: an
      ok reply with an array body replaces the list, an ok reply with any
      other JSON body or a non-ok reply empties it, and a network failure or
      an unreadable body leaves the list as it was (the exception skips the
      assignment). */
  function ListAfterFetch<T>(resp: Response<Payload<T>>, current: seq<T>): (r: seq<T>)
    ensures resp.Rejected? ==> r == current
    ensures resp.Reply? && !resp.ok ==> r == []
    ensures resp.Reply? && resp.ok && resp.body.Malformed? ==> r == current
    ensures resp.Reply? && resp.ok && resp.body.Parsed? ==> r == Normalise(resp.body.value)
  {
    match resp
    case Rejected(_) => current
    case Reply(ok, body) =>
      if !ok then []
      else match body
        case Parsed(payload) => Normalise(payload)
        case Malformed(_) => current
  }

  /** The toast a list fetch raises when it does not settle normally: the
      screen's own text for a non-ok reply, and its network-error text for a
      rejected fetch or an unreadable body (both end in the catch block). */
  function FetchFailureToast<T>(resp: Response<Payload<T>>, failText: string, networkText: string): (t: Option<Toast>)
    ensures t.None? <==> resp.Reply? && resp.ok && resp.body.Parsed?
    ensures resp.Reply? && !resp.ok ==> t == Some(ErrorToast(failText))
    ensures resp.Rejected? || (resp.Reply? && resp.ok && resp.body.Malformed?) ==> t == Some(ErrorToast(networkText))
  {
    match resp
    case Rejected(_) => Some(ErrorToast(networkText))
    case Reply(ok, body) =>
      if !ok then Some(ErrorToast(failText))
      else if body.Malformed? then Some(ErrorToast(networkText))
      else None
  }

  /** A fetch either replaces the list (possibly by the empty list) or
      reports a failure that left the list untouched, never both: a toast
      other than the non-ok one means the old list is still shown. */
  lemma {:induction false} FetchToastMeansUnchanged<T>(resp: Response<Payload<T>>, current: seq<T>, failText: string, networkText: string)
    requires FetchFailureToast(resp, failText, networkText).Some?
    ensures ListAfterFetch(resp, current) == current || ListAfterFetch(resp, current) == []
    ensures !(resp.Reply? && !resp.ok) ==> ListAfterFetch(resp, current) == current
  {
  }
}
