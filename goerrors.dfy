/** Go error values as used by the product layers: sentinels made with `errors.New`,
    plain `fmt.Errorf` messages, `%w` wrapping, and errors reported by the database driver. */
module GoErrors {

  datatype Error =
    | NotFound                               // service.ErrNotFound
    | InvalidInput                           // service.ErrInvalidInput
    | NoRows                                 // sql.ErrNoRows
    | Message(text: string)                  // fmt.Errorf without %w
    | Wrapped(context: string, inner: Error) // fmt.Errorf with %w: the context text, and the wrapped error
    | DriverError(detail: string)            // any other failure the database reports

  predicate IsSentinel(e: Error) {
    e.NotFound? || e.InvalidInput? || e.NoRows?
  }

  /** `errors.Is(e, target)`: `e` is the sentinel itself or wraps it, however deeply. */
  predicate Is(e: Error, target: Error)
    requires IsSentinel(target)
  {
    e == target || (e.Wrapped? && Is(e.inner, target))
  }

  /** `errors.Is` against a sentinel decides by the innermost error of the `%w` chain alone: the
      contexts wrapped around it play no part. */
  lemma {:induction false} WrapsSentinelOnlyAtLeaf(e: Error, target: Error)
    requires IsSentinel(target)
    ensures Is(e, target) <==> Leaf(e) == target
  {
    if e.Wrapped? {
      WrapsSentinelOnlyAtLeaf(e.inner, target);
    }
  }

  /** No error matches two different sentinels, so `ErrNotFound` and `ErrInvalidInput` (and
      `sql.ErrNoRows`) always tell failures apart. */
  lemma {:induction false} SentinelsExclusive(e: Error, a: Error, b: Error)
    requires IsSentinel(a) && IsSentinel(b) && a != b
    ensures !(Is(e, a) && Is(e, b))
  {
    WrapsSentinelOnlyAtLeaf(e, a);
    WrapsSentinelOnlyAtLeaf(e, b);
  }

  /** The innermost error of a `%w` chain. */
  function Leaf(e: Error): (r: Error)
    ensures !r.Wrapped?
  {
    if e.Wrapped? then Leaf(e.inner) else e
  }
}
