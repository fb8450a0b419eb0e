/**
 * Values shared by the store and the screens: optional values, the way a
 * settled server request and a settled async call look to the app, the
 * JS truthiness of optional strings, and an order-preserving filter.
 */
module Common {

  datatype Option<+T> = None | Some(value: T)

  /**
   * A server request once it has settled: a response whose `ok` flag is set,
   * with its parsed body; a response whose `ok` flag is clear, with its
   * status code; or a thrown error (no response, or a body that is not JSON).
   */
  datatype Reply<+T> = Ok(body: T) | HttpError(status: int) | NetworkError

  /** How an `async` function settles: resolved with a value, or rejected with an Error's message. */
  datatype Settled<+T> = Resolved(value: T) | Rejected(message: string)

  /**
   * The value of an image field as the screens see it: absent (`undefined`
   * or `null`), a string (a server path or a URL), a number (a bundled asset
   * handle returned by `require`), or an object `{ uri }`.
   */
  datatype ImageValue = NoImage | ImageString(text: string) | ImageAsset(handle: int) | ImageObject(uri: string)

  /**
   * The handle `require('../assets/images/cinnaman.jpg')` evaluates to. The
   * bundler picks the number; nothing here depends on which one it is.
   */
  const CinnamonPicture := ImageAsset(1)

  /**
   * The calendar fields a `Date` reports in local time: `getFullYear`,
   * `getMonth` (0-based), `getDate`, `getDay` (0 is Sunday), `getHours` and
   * `getMinutes`.
   */
  datatype DateParts = DateParts(year: nat, month: nat, day: nat, weekday: nat, hours: nat, minutes: nat)

  /** The ranges a `Date`'s getters keep to. */
  predicate ValidDate(d: DateParts)
  {
    d.month < 12 && 1 <= d.day <= 31 && d.weekday < 7 && d.hours < 24 && d.minutes < 60
  }

  /** JS truthiness of an optional string: `undefined`, `null` and '' are falsy. */
  predicate Truthy(s: Option<string>)
  {
    s.Some? && s.value != ""
  }

  /** `s || fallback` for an optional string. */
  function OrElse(s: Option<string>, fallback: string): string
  {
    if Truthy(s) then s.value else fallback
  }

  /** `s.filter(keep)`: the elements satisfying `keep`, in their original order. */
  function Filter<T(==,!new)>(s: seq<T>, keep: T -> bool): (r: seq<T>)
    ensures |r| <= |s|
    ensures forall x :: x in r <==> x in s && keep(x)
  {
    if s == [] then []
    else (if keep(s[0]) then [s[0]] else []) + Filter(s[1..], keep)
  }

  /** `r` can be obtained from `s` by deleting elements, without reordering the rest. */
  predicate Subsequence<T(==,!new)>(r: seq<T>, s: seq<T>)
    decreases |s|
  {
    if r == [] then true
    else if s == [] then false
    else (r[0] == s[0] && Subsequence(r[1..], s[1..])) || Subsequence(r, s[1..])
  }

  lemma {:induction false} FilterIsSubsequence<T(!new)>(s: seq<T>, keep: T -> bool)
    ensures Subsequence(Filter(s, keep), s)
  {
    if s != [] {
      FilterIsSubsequence(s[1..], keep);
      var r := Filter(s, keep);
      if keep(s[0]) {
        assert r == [s[0]] + Filter(s[1..], keep);
        assert r[1..] == Filter(s[1..], keep);
      } else {
        assert r == Filter(s[1..], keep);
      }
    }
  }

  lemma {:induction false} FilterKeepsAll<T(!new)>(s: seq<T>, keep: T -> bool)
    requires forall x :: x in s ==> keep(x)
    ensures Filter(s, keep) == s
  {
    if s != [] {
      FilterKeepsAll(s[1..], keep);
      assert s == [s[0]] + s[1..];
    }
  }

  lemma {:induction false} FilterIdempotent<T(!new)>(s: seq<T>, keep: T -> bool)
    ensures Filter(Filter(s, keep), keep) == Filter(s, keep)
  {
    FilterKeepsAll(Filter(s, keep), keep);
  }

  /** Filtering a concatenation filters each part. */
  lemma {:induction false} FilterAppend<T(!new)>(a: seq<T>, b: seq<T>, keep: T -> bool)
    ensures Filter(a + b, keep) == Filter(a, keep) + Filter(b, keep)
  {
    if a != [] {
      FilterAppend(a[1..], b, keep);
      var head := if keep(a[0]) then [a[0]] else [];
      assert (a + b)[0] == a[0];
      assert (a + b)[1..] == a[1..] + b;
      calc {
        Filter(a + b, keep);
        head + Filter(a[1..] + b, keep);
        head + (Filter(a[1..], keep) + Filter(b, keep));
        (head + Filter(a[1..], keep)) + Filter(b, keep);
      }
    } else {
      assert a + b == b;
    }
  }

  /** A filter that rejects every element leaves nothing. */
  lemma {:induction false} FilterKeepsNone<T(!new)>(s: seq<T>, keep: T -> bool)
    requires forall x :: x in s ==> !keep(x)
    ensures Filter(s, keep) == []
  {
    if s != [] {
      FilterKeepsNone(s[1..], keep);
    }
  }

  /** Two tests that agree on every element keep the same elements. */
  lemma {:induction false} FilterSameTest<T(!new)>(s: seq<T>, keep: T -> bool, keep': T -> bool)
    requires forall x :: x in s ==> keep(x) == keep'(x)
    ensures Filter(s, keep) == Filter(s, keep')
  {
    if s != [] {
      FilterSameTest(s[1..], keep, keep');
    }
  }
}
