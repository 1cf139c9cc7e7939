/** Shared vocabulary of the model: optional values, results carrying the
    exception the Python code would raise, and the few string operations the
    migration code relies on (ASCII `lower()`, `split`, `join`, `replace`). */
module Common {

  datatype Option<+T> = None | Some(value: T)

  /** The exceptions the modelled code raises or lets escape. */
  datatype Error =
    | KeyError(key: string)          // a dict lookup of a missing key
    | IndexError                     // indexing past the end of a list
    | TypeError(message: string)     // an operation on a value of the wrong type (None, ...)
    | ValueError(message: string)
    | UnboundLocalError(name: string)
    | AttributeError(name: string)   // an attribute read on None
    | TimeoutException(current: string, wanted: string)
    | TaskFailure(message: string)   // whatever a task body raises

  /** A Python value as it appears in the records the migration code passes
      around (namespace variables, neutron resource fields). */
  datatype Value =
    | VStr(s: string)
    | VInt(i: int)
    | VBool(b: bool)
    | VNone
    | VList(items: seq<Value>)

  /** Python truthiness of a value: None, zero, False, "" and [] are false. */
  predicate Truthy(v: Value) {
    match v
    case VStr(s) => s != ""
    case VInt(i) => i != 0
    case VBool(b) => b
    case VNone => false
    case VList(items) => items != []
  }

  /** Truthiness of an optional string: None and "" are false. */
  predicate Present(o: Option<string>) {
    o.Some? && o.value != ""
  }

  datatype Result<+T> = Ok(value: T) | Err(error: Error) {
    predicate IsFailure() { Err? }
    function PropagateFailure<U>(): Result<U>
      requires Err?
    {
      Err(error)
    }
    function Extract(): T
      requires Ok?
    {
      value
    }
  }

  /** Python's `str.lower()` restricted to ASCII letters. */
  function LowerChar(c: char): (r: char)
    ensures 'A' <= c <= 'Z' ==> r as int == c as int + 32
    ensures !('A' <= c <= 'Z') ==> r == c
  {
    if 'A' <= c <= 'Z' then (c as int + 32) as char else c
  }

  function Lower(s: string): (r: string)
    ensures |r| == |s|
  {
    if s == [] then [] else [LowerChar(s[0])] + Lower(s[1..])
  }

  /** Each character is lowered on its own. */
  lemma {:induction false} LowerAt(s: string, i: nat)
    requires i < |s|
    ensures Lower(s)[i] == LowerChar(s[i])
  {
    if i > 0 {
      LowerAt(s[1..], i - 1);
    }
  }

  /** A string without upper-case letters is its own lower case. */
  lemma {:induction false} LowerOfLowerCase(s: string)
    requires forall i :: 0 <= i < |s| ==> !('A' <= s[i] <= 'Z')
    ensures Lower(s) == s
  {
    if s != [] {
      LowerOfLowerCase(s[1..]);
    }
  }

  /** Case-insensitive equality, character by character; the code writes it
      `a.lower() == b.lower()`, and `EqualsIgnoreCaseIsLowerEqual` shows the
      two agree. */
  predicate EqualsIgnoreCase(a: string, b: string)
    decreases |a|
  {
    |a| == |b| && (a == [] || (LowerChar(a[0]) == LowerChar(b[0]) && EqualsIgnoreCase(a[1..], b[1..])))
  }

  lemma {:induction false} EqualsIgnoreCaseIsLowerEqual(a: string, b: string)
    ensures EqualsIgnoreCase(a, b) <==> Lower(a) == Lower(b)
    decreases |a|
  {
    if |a| == |b| && a != [] {
      EqualsIgnoreCaseIsLowerEqual(a[1..], b[1..]);
      assert Lower(a) == [LowerChar(a[0])] + Lower(a[1..]);
      assert Lower(b) == [LowerChar(b[0])] + Lower(b[1..]);
      if Lower(a) == Lower(b) {
        assert Lower(a)[0] == Lower(b)[0];
        assert Lower(a)[1..] == Lower(b)[1..];
      }
    }
  }

  lemma {:induction false} EqualsIgnoreCaseReflexive(s: string)
    ensures EqualsIgnoreCase(s, s)
    decreases |s|
  {
    if s != [] {
      EqualsIgnoreCaseReflexive(s[1..]);
    }
  }

  lemma {:induction false} LowerIdempotent(s: string)
    ensures Lower(Lower(s)) == Lower(s)
  {
    if s != [] {
      LowerIdempotent(s[1..]);
    }
  }

  /** Python's `s.split(sep)` for a one-character separator: the pieces between
      separators, always at least one piece. */
  function Split(s: string, sep: char): (r: seq<string>)
    ensures |r| >= 1
    ensures forall i :: 0 <= i < |r| ==> sep !in r[i]
    decreases |s|
  {
    if sep !in s then [s]
    else
      var k := FirstIndexOf(s, sep);
      [s[..k]] + Split(s[k + 1..], sep)
  }

  function FirstIndexOf(s: string, c: char): (k: nat)
    requires c in s
    ensures k < |s| && s[k] == c && c !in s[..k]
  {
    if s[0] == c then 0 else 1 + FirstIndexOf(s[1..], c)
  }

  /** Python's `sep.join(parts)` for a one-character separator. */
  function Join(parts: seq<string>, sep: char): (r: string)
  {
    if parts == [] then ""
    else if |parts| == 1 then parts[0]
    else parts[0] + [sep] + Join(parts[1..], sep)
  }

  /** Splitting what `Join` built gives back the parts, as long as no part holds
      the separator. */
  lemma {:induction false} SplitJoin(parts: seq<string>, sep: char)
    requires |parts| >= 1
    requires forall i :: 0 <= i < |parts| ==> sep !in parts[i]
    ensures Split(Join(parts, sep), sep) == parts
  {
    if |parts| > 1 {
      var s := Join(parts, sep);
      var rest := Join(parts[1..], sep);
      assert s == parts[0] + [sep] + rest;
      assert s[|parts[0]|] == sep;
      assert FirstIndexOf(s, sep) == |parts[0]| by {
        FirstIndexOfPrefix(parts[0], sep, [sep] + rest);
      }
      assert s[..|parts[0]|] == parts[0];
      assert s[|parts[0]| + 1..] == rest;
      SplitJoin(parts[1..], sep);
    }
  }

  lemma {:induction false} FirstIndexOfPrefix(a: string, c: char, b: string)
    requires c !in a && b != [] && b[0] == c
    ensures c in a + b && FirstIndexOf(a + b, c) == |a|
  {
    assert (a + b)[|a|] == c;
    if a != [] {
      assert (a + b)[1..] == a[1..] + b;
      FirstIndexOfPrefix(a[1..], c, b);
    }
  }

  /** Python's `s.replace(ch, '')`: every occurrence of `ch` removed. */
  function RemoveChar(s: string, ch: char): (r: string)
    ensures ch !in r
    ensures forall c :: c in r ==> c in s
  {
    if s == [] then []
    else (if s[0] == ch then [] else [s[0]]) + RemoveChar(s[1..], ch)
  }

  /** The number of the first poll among the first `n` whose status matches
      `wait` ignoring case, or `n` when none does; poll i reports
      `getStatus(i)`. */
  function FirstMatch(getStatus: nat -> string, wait: string, n: nat): (k: nat)
    ensures k <= n
    ensures k < n ==> EqualsIgnoreCase(getStatus(k), wait)
  {
    if n == 0 then 0
    else
      var k := FirstMatch(getStatus, wait, n - 1);
      if k < n - 1 then k
      else if EqualsIgnoreCase(getStatus(n - 1), wait) then n - 1
      else n
  }

  /** No poll before the first match matches. */
  lemma {:induction false} FirstMatchIsFirst(getStatus: nat -> string, wait: string, n: nat, i: nat)
    requires i < FirstMatch(getStatus, wait, n)
    ensures !EqualsIgnoreCase(getStatus(i), wait)
  {
    if FirstMatch(getStatus, wait, n - 1) == n - 1 && i < n - 1 {
      FirstMatchIsFirst(getStatus, wait, n - 1, i);
    } else if i < n - 1 {
      FirstMatchIsFirst(getStatus, wait, n - 1, i);
    }
  }

  /** Once a match was seen among the first `n` polls, looking at more polls
      finds the same one. */
  lemma {:induction false} FirstMatchStable(getStatus: nat -> string, wait: string, n: nat, m: nat)
    requires n <= m && FirstMatch(getStatus, wait, n) < n
    ensures FirstMatch(getStatus, wait, m) == FirstMatch(getStatus, wait, n)
    decreases m - n
  {
    if n < m {
      FirstMatchStable(getStatus, wait, n, m - 1);
    }
  }

  /** What a Python loop that applies `f` to each item and lets the first
      exception escape has done: the results of the items before the failing
      one, and the exception, if any. */
  datatype Partial<+T> = Partial(values: seq<T>, error: Option<Error>)

  function MapUntilError<A, B>(xs: seq<A>, f: A -> Result<B>): (r: Partial<B>)
    ensures |r.values| <= |xs|
    ensures forall i :: 0 <= i < |r.values| ==> f(xs[i]) == Ok(r.values[i])
    ensures r.error.None? ==> |r.values| == |xs|
    ensures r.error.Some? ==> |r.values| < |xs| && f(xs[|r.values|]) == Err(r.error.value)
  {
    if xs == [] then Partial([], None)
    else
      match f(xs[0])
      case Err(e) => Partial([], Some(e))
      case Ok(v) =>
        var rest := MapUntilError(xs[1..], f);
        Partial([v] + rest.values, rest.error)
  }

  /** The loop fails exactly when some item fails, and then at the first such
      item. */
  lemma MapUntilErrorFails<A, B>(xs: seq<A>, f: A -> Result<B>)
    ensures MapUntilError(xs, f).error.Some? <==> exists i :: 0 <= i < |xs| && f(xs[i]).Err?
  {
    var r := MapUntilError(xs, f);
    if r.error.None? {
      forall i | 0 <= i < |xs|
        ensures f(xs[i]).Ok?
      {
        assert f(xs[i]) == Ok(r.values[i]);
      }
    }
  }
}
