/** Values shared by every part of the model: bytes, optional values, results and
    the errors that the Go code builds with `fmt.Errorf` and `errors.New`. */
module Base {

  /** Go strings are byte strings: `len`, slicing and truncation count bytes. */
  type Byte = b: int | 0 <= b < 256
  type Bytes = seq<Byte>

  /** The bytes of an ASCII literal (every character of `s` is below 128 where it is used). */
  function Ascii(s: string): (r: Bytes)
    ensures |r| == |s|
    ensures forall i :: 0 <= i < |s| && (s[i] as int) < 256 ==> r[i] == s[i] as int
  {
    seq(|s|, i requires 0 <= i < |s| => (s[i] as int) % 256)
  }

  datatype Option<T> = None | Some(value: T)

  datatype Result<T, E> = Ok(value: T) | Err(error: E)

  /** The value of `o`, if any, as a sequence of length at most one. */
  function Kept<T>(o: Option<T>): (s: seq<T>)
    ensures o.Some? ==> s == [o.value]
    ensures s == [] <==> o.None?
  {
    if o.Some? then [o.value] else []
  }

  /** An `error` value. Collaborators' errors are opaque; the pipeline only wraps them. */
  datatype Error =
    | Opaque(msg: Bytes)                                          // returned by a collaborator
    | Plain(msg: Bytes)                                           // errors.New / fmt.Errorf without %w or %v
    | Wrapped(context: Bytes, cause: Error)                       // fmt.Errorf("<context>: %w", cause)
    | WrappedWithContent(context: Bytes, cause: Error, content: Bytes) // fmt.Errorf("<context>: %w, content: %s", ...)
    | Mentioning(context: Bytes, last: Option<Error>)             // fmt.Errorf("<context>: %v", last); last may be nil
    | WithRollback(cause: Error, rollback: Error)                 // fmt.Errorf("%w: %v", err, rerr)
    | Cancelled                                                   // ctx.Err() after the context was done

  /** The text `err.Error()` returns for an error built as above. */
  function ErrorText(e: Error): (r: Bytes)
    ensures e.Opaque? || e.Plain? ==> r == e.msg
  {
    match e
    case Opaque(msg) => msg
    case Plain(msg) => msg
    case Wrapped(context, cause) => context + [58, 32] + ErrorText(cause)
    case WrappedWithContent(context, cause, content) =>
      context + [58, 32] + ErrorText(cause) + Ascii(", content: ") + content
    case Mentioning(context, last) =>
      context + [58, 32] + (if last.Some? then ErrorText(last.value) else Ascii("<nil>"))
    case WithRollback(cause, rollback) => ErrorText(cause) + [58, 32] + ErrorText(rollback)
    case Cancelled => Ascii("context canceled")
  }

  /** Decimal rendering of an integer, as `%d` prints it. */
  function FormatInt(n: int): (r: Bytes)
    ensures |r| > 0
    ensures n >= 0 ==> forall i :: 0 <= i < |r| ==> 48 <= r[i] <= 57
    decreases if n < 0 then -n + 1 else n
  {
    if n < 0 then [45] + FormatInt(-n)
    else if n < 10 then [48 + n]
    else FormatInt(n / 10) + [48 + n % 10]
  }

  /** Concatenation of a sequence of byte strings. */
  function Concat(parts: seq<Bytes>): (r: Bytes)
    ensures |r| == SumLengths(parts)
  {
    if parts == [] then [] else Concat(parts[..|parts| - 1]) + parts[|parts| - 1]
  }

  function SumLengths(parts: seq<Bytes>): nat
  {
    if parts == [] then 0 else SumLengths(parts[..|parts| - 1]) + |parts[|parts| - 1]|
  }

  lemma {:induction false} ConcatAppend(a: seq<Bytes>, b: seq<Bytes>)
    ensures Concat(a + b) == Concat(a) + Concat(b)
    decreases |b|
  {
    if b == [] {
      assert a + b == a;
    } else {
      var b' := b[..|b| - 1];
      assert (a + b)[..|a + b| - 1] == a + b';
      ConcatAppend(a, b');
    }
  }

  /** The concatenation of `f(x)` over the elements of `xs`, in order. */
  function ConcatMap<T>(xs: seq<T>, f: T -> Bytes): (r: Bytes)
    ensures xs == [] ==> r == []
  {
    if xs == [] then [] else ConcatMap(xs[..|xs| - 1], f) + f(xs[|xs| - 1])
  }

  lemma {:induction false} ConcatMapAppend<T>(a: seq<T>, b: seq<T>, f: T -> Bytes)
    ensures ConcatMap(a + b, f) == ConcatMap(a, f) + ConcatMap(b, f)
    decreases |b|
  {
    if b == [] {
      assert a + b == a;
    } else {
      var b' := b[..|b| - 1];
      assert (a + b)[..|a + b| - 1] == a + b';
      ConcatMapAppend(a, b', f);
    }
  }

  lemma ConcatMapFirst<T>(xs: seq<T>, f: T -> Bytes)
    requires xs != []
    ensures ConcatMap(xs, f) == f(xs[0]) + ConcatMap(xs[1..], f)
  {
    ConcatMapAppend([xs[0]], xs[1..], f);
    assert [xs[0]] + xs[1..] == xs;
    assert [xs[0]][..0] == [];
  }

  /** The concatenation of `f(k + 1, xs[k])` over the elements of `xs`: the
      elements numbered from 1, in order. */
  function NumberedConcat<T>(xs: seq<T>, f: (int, T) -> Bytes): (r: Bytes)
    ensures xs == [] ==> r == []
  {
    if xs == [] then [] else NumberedConcat(xs[..|xs| - 1], f) + f(|xs|, xs[|xs| - 1])
  }

  /** The text of the first `m` elements starts the text of all of them, and
      the next part is that of element `m`, numbered `m + 1`. */
  lemma {:induction false} NumberedConcatPrefix<T>(xs: seq<T>, m: nat, f: (int, T) -> Bytes)
    requires m < |xs|
    ensures var p := NumberedConcat(xs[..m], f) + f(m + 1, xs[m]);
      |p| <= |NumberedConcat(xs, f)| && NumberedConcat(xs, f)[..|p|] == p
    decreases |xs| - m
  {
    var pre := xs[..|xs| - 1];
    if m == |xs| - 1 {
      assert pre == xs[..m];
    } else {
      NumberedConcatPrefix(pre, m, f);
      assert pre[..m] == xs[..m] && pre[m] == xs[m];
    }
  }
}
