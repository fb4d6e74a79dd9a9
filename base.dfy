/** Small building blocks shared by the models of the Python service and the
    browser engine: an optional value, the values a Python dict or a JSON
    object can hold, and the list operations the source uses (a comprehension
    filter, a slice from a possibly negative start, integer formatting). */
module Base {

  datatype Option<+T> = None | Some(value: T) {
    predicate IsFailure() { None? }

    function PropagateFailure<U>(): Option<U>
      requires None?
    {
      None
    }

    function Extract(): T
      requires Some?
    {
      value
    }
  }

  /** A value stored in a Python dict or a JSON object: None/null, a flag,
      an integer, a string, a list, or a nested dict keyed by strings. */
  datatype Value =
    | Null
    | Bool(b: bool)
    | Int(i: int)
    | Str(s: string)
    | List(items: seq<Value>)
    | Dict(fields: map<string, Value>)

  /** Truthiness of an optional string, the same in Python and JavaScript:
      `None`/`null` and the empty string are falsy. */
  predicate Truthy(s: Option<string>)
  {
    s.Some? && s.value != ""
  }

  function Min(a: int, b: int): int { if a <= b then a else b }

  function Max(a: int, b: int): int { if a <= b then b else a }

  /** `[x for x in s if keep(x)]` (Python) and `s.filter(keep)` (JavaScript):
      the elements of `s` that `keep` accepts, in their original order. */
  function Filter<T(==)>(s: seq<T>, keep: T -> bool): (r: seq<T>)
    ensures |r| <= |s|
    ensures forall i :: 0 <= i < |r| ==> keep(r[i])
    ensures forall i :: 0 <= i < |r| ==> r[i] in s
    ensures forall i :: 0 <= i < |s| && keep(s[i]) ==> s[i] in r
  {
    if s == [] then []
    else
      var init := Filter(s[..|s| - 1], keep);
      assert s == s[..|s| - 1] + [s[|s| - 1]];
      if keep(s[|s| - 1]) then init + [s[|s| - 1]] else init
  }

  /** Decoding a list element by element, as a loop or comprehension that
      raises on the first element it cannot decode does: every element
      decodes, and what was decoded before the first one that does not. */
  predicate AllDecode<A, B>(dec: A -> Option<B>, s: seq<A>)
  {
    forall i :: 0 <= i < |s| ==> dec(s[i]).Some?
  }

  function DecodedPrefix<A, B>(dec: A -> Option<B>, s: seq<A>): (r: seq<B>)
    ensures |r| <= |s|
    ensures AllDecode(dec, s) ==> |r| == |s|
    ensures forall i :: 0 <= i < |r| ==> dec(s[i]) == Some(r[i])
  {
    if s == [] then []
    else
      match dec(s[0])
      case None => []
      case Some(b) => [b] + DecodedPrefix(dec, s[1..])
  }

  /** A concatenation decodes exactly when both parts do. */
  lemma AllDecodeAppend<A, B>(dec: A -> Option<B>, s: seq<A>, t: seq<A>)
    ensures AllDecode(dec, s + t) <==> AllDecode(dec, s) && AllDecode(dec, t)
  {
    if AllDecode(dec, s) && AllDecode(dec, t) {
      forall i | 0 <= i < |s + t|
        ensures dec((s + t)[i]).Some?
      {
        if i < |s| {
          assert (s + t)[i] == s[i];
        } else {
          assert (s + t)[i] == t[i - |s|];
        }
      }
    }
    if AllDecode(dec, s + t) {
      forall i | 0 <= i < |s|
        ensures dec(s[i]).Some?
      {
        assert (s + t)[i] == s[i];
      }
      forall i | 0 <= i < |t|
        ensures dec(t[i]).Some?
      {
        assert (s + t)[|s| + i] == t[i];
      }
    }
  }

  /** Once a run of elements all decode, decoding more elements after them
      only extends what was decoded. */
  lemma {:induction false} DecodedPrefixAppend<A, B>(dec: A -> Option<B>, s: seq<A>, t: seq<A>)
    requires AllDecode(dec, s)
    ensures DecodedPrefix(dec, s + t) == DecodedPrefix(dec, s) + DecodedPrefix(dec, t)
  {
    if s == [] {
      assert s + t == t;
    } else {
      assert (s + t)[0] == s[0] && (s + t)[1..] == s[1..] + t;
      assert s == [s[0]] + s[1..];
      AllDecodeAppend(dec, [s[0]], s[1..]);
      DecodedPrefixAppend(dec, s[1..], t);
    }
  }

  /** Filtering a concatenation filters each part: the filter keeps the
      relative order of the elements it accepts. */
  lemma {:induction false} FilterAppend<T>(a: seq<T>, b: seq<T>, keep: T -> bool)
    ensures Filter(a + b, keep) == Filter(a, keep) + Filter(b, keep)
  {
    if b == [] {
      assert a + b == a;
    } else {
      var b' := b[..|b| - 1];
      assert (a + b)[..|a + b| - 1] == a + b';
      assert (a + b)[|a + b| - 1] == b[|b| - 1];
      FilterAppend(a, b', keep);
    }
  }

  /** Filtering keeps every accepted element as often as it occurs. */
  lemma {:induction false} FilterCount<T>(s: seq<T>, keep: T -> bool, x: T)
    ensures multiset(Filter(s, keep))[x] == if keep(x) then multiset(s)[x] else 0
  {
    if s != [] {
      var init := s[..|s| - 1];
      assert s == init + [s[|s| - 1]];
      FilterCount(init, keep, x);
    }
  }

  /** `s[start:]` in Python and `s.slice(start)` in JavaScript: a negative
      start counts from the end, and both ends are clamped to the sequence. */
  function SliceFrom<T>(s: seq<T>, start: int): (r: seq<T>)
    ensures |r| == if start >= 0 then |s| - Min(start, |s|) else Min(-start, |s|)
    ensures r == s[|s| - |r|..]
  {
    if start >= 0 then s[Min(start, |s|)..]
    else s[Max(0, |s| + start)..]
  }

  /** The last `k` elements of `s` (all of `s` when it is shorter). */
  lemma LastK<T>(s: seq<T>, k: int)
    requires k > 0
    ensures SliceFrom(s, -k) == s[|s| - Min(k, |s|)..]
    ensures |SliceFrom(s, -k)| == Min(k, |s|)
  {
  }

  predicate IsDigit(c: char) { '0' <= c <= '9' }

  /** The decimal notation of a natural number, as `str(n)` writes it. */
  function DecimalString(n: nat): (r: string)
    ensures r != []
    ensures forall i :: 0 <= i < |r| ==> IsDigit(r[i])
    ensures n >= 10 ==> r[0] != '0'
    decreases n
  {
    var d := ['0' + (n % 10) as char];
    if n < 10 then d else DecimalString(n / 10) + d
  }

  /** The value a string of decimal digits denotes. */
  function DigitsValue(s: string): nat
    requires forall i :: 0 <= i < |s| ==> IsDigit(s[i])
  {
    if s == [] then 0
    else
      assert IsDigit(s[|s| - 1]);
      DigitsValue(s[..|s| - 1]) * 10 + (s[|s| - 1] as int - '0' as int) as nat
  }

  /** Reading the decimal notation back gives the number. */
  lemma {:induction false} DecimalRoundTrip(n: nat)
    ensures DigitsValue(DecimalString(n)) == n
    decreases n
  {
    var r := DecimalString(n);
    if n >= 10 {
      var head := DecimalString(n / 10);
      assert r[..|r| - 1] == head;
      DecimalRoundTrip(n / 10);
    }
  }
}
