/** Small shared vocabulary: optional values, results of steps that may
    raise, Python's `str.join`, and the subsequence relation used to state
    that a filter keeps the original relative order. */
module Common {

  /** A value that may be absent: `dict.get(key)` returning `None`. */
  datatype Option<T> = None | Some(value: T) {

    /** `dict.get(key, default)` */
    function GetOr(default: T): T {
      if Some? then value else default
    }
  }

  /** The outcome of a step that may raise: `Err` carries the exception. */
  datatype Result<T> = Ok(value: T) | Err(error: string)

  /** Python's `sep.join(parts)`. */
  function Join(sep: string, parts: seq<string>): string
    decreases |parts|
  {
    if |parts| == 0 then ""
    else if |parts| == 1 then parts[0]
    else parts[0] + sep + Join(sep, parts[1..])
  }

  /** Joining two non-empty lists is joining each and gluing them with one separator. */
  lemma {:induction false} JoinAppend(sep: string, a: seq<string>, b: seq<string>)
    requires |a| > 0 && |b| > 0
    ensures Join(sep, a + b) == Join(sep, a) + sep + Join(sep, b)
    decreases |a|
  {
    if |a| == 1 {
      assert (a + b)[1..] == b;
    } else {
      assert (a + b)[1..] == a[1..] + b;
      JoinAppend(sep, a[1..], b);
    }
  }

  /** `a` can be obtained from `b` by deleting elements: the relative order
      of what is kept is the order in `b`. */
  predicate IsSubsequence<T(==)>(a: seq<T>, b: seq<T>)
    decreases |b|
  {
    if |a| == 0 then true
    else if |b| == 0 then false
    else (a[0] == b[0] && IsSubsequence(a[1..], b[1..])) || IsSubsequence(a, b[1..])
  }
}
