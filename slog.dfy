/**
 * The values the handler receives from log/slog and from goerr, as the core sees them.
 * Both libraries are foreign to the core: only the parts the printing pipeline
 * inspects are modelled (the kind of a value, its resolution and its text).
 */
module Slog {

  /**
   * A *goerr.Error: the text Error() returns, the key/value pairs attached with
   * goerr.V (Values(); Go's map order is unspecified, the sequence stands for one
   * iteration order), the stack-trace text that the `%+v` verb prints after the message,
   * and the attributes of the group its LogValue() method returns (goerr logs its
   * message, values and stack trace that way; their exact layout is kept abstract).
   */
  datatype GoError = GoError(message: string, values: seq<KeyValue>, stack: string, logged: seq<Attr>)

  /** One entry of a goerr error's Values() map. */
  datatype KeyValue = KeyValue(key: string, value: Value)

  /** A slog.Value, by kind. */
  datatype Value =
    | Str(s: string)                    // KindString
    | Scalar(text: string)              // bool, numbers, time, duration, or an `any` that is not a goerr error; `text` is its Value.String()
    | Empty                             // the zero Value: KindAny holding nil
    | Error(err: GoError)               // KindLogValuer holding a *goerr.Error: hooks see the error itself, Resolve yields its LogValue() group
    | Group(attrs: seq<Attr>)           // KindGroup
    | Lazy(text: string, resolved: Value) // KindLogValuer: `text` prints the valuer itself, LogValue() yields `resolved`

  /** A slog.Attr. */
  datatype Attr = Attr(key: string, value: Value)

  /** slog.Attr{}: empty key, zero value. */
  const ZeroAttr := Attr("", Empty)

  /**
   * A size measure on values: every attribute inside a group, a goerr error or a lazy
   * value is strictly smaller than its container. It bounds the depth of the traversal.
   */
  function ValueRank(v: Value): nat
  {
    match v
    case Str(_) => 1
    case Scalar(_) => 1
    case Empty => 1
    case Error(e) => 3 + PairsRank(e.values) + AttrsRank(e.logged)
    case Group(xs) => 1 + AttrsRank(xs)
    case Lazy(_, w) => 1 + ValueRank(w)
  }

  function AttrRank(a: Attr): nat
  {
    ValueRank(a.value)
  }

  function AttrsRank(xs: seq<Attr>): nat
  {
    if xs == [] then 0 else AttrsRank(xs[..|xs| - 1]) + ValueRank(xs[|xs| - 1].value) + 1
  }

  function PairsRank(vals: seq<KeyValue>): nat
  {
    if vals == [] then 0 else PairsRank(vals[..|vals| - 1]) + ValueRank(vals[|vals| - 1].value) + 1
  }

  /** Every attribute of a sequence is strictly smaller than the sequence. */
  lemma {:induction false} AttrsRankBounds(xs: seq<Attr>, i: nat)
    requires i < |xs|
    ensures AttrRank(xs[i]) < AttrsRank(xs)
  {
    if i < |xs| - 1 {
      AttrsRankBounds(xs[..|xs| - 1], i);
    }
  }

  /**
   * slog's Value.Resolve(): a LogValuer is replaced by the value it yields until a
   * value of another kind is reached; a goerr error yields its LogValue() group;
   * values of every other kind are returned as they are.
   */
  function Resolve(v: Value): (r: Value)
    ensures !r.Lazy? && !r.Error?
    ensures v.Error? ==> r == Group(v.err.logged)
    ensures !v.Lazy? && !v.Error? ==> r == v
    ensures ValueRank(r) <= ValueRank(v)
  {
    match v
    case Lazy(_, w) => Resolve(w)
    case Error(e) => Group(e.logged)
    case _ => v
  }

  /** slog's Value.String(): the uncoloured text of a value. A group prints as `[k1=v1 k2=v2]`. */
  function Show(v: Value): string
  {
    match v
    case Str(s) => s
    case Scalar(t) => t
    case Empty => "<nil>"
    case Error(e) => e.message
    case Group(xs) => "[" + ShowAttrs(xs) + "]"
    case Lazy(t, _) => t
  }

  /** The attributes of a group, each as `key=value`, separated by single spaces. */
  function ShowAttrs(xs: seq<Attr>): string
  {
    if xs == [] then ""
    else if |xs| == 1 then xs[0].key + "=" + Show(xs[0].value)
    else xs[0].key + "=" + Show(xs[0].value) + " " + ShowAttrs(xs[1..])
  }
}
