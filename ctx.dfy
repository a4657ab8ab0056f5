/**
 * Request-scoped metadata as Go's context package carries it: a context is
 * derived from its parent by adding one key/value pair, and a lookup walks
 * from the newest pair outward until the key matches.
 */
module Ctx {
  import opened Wrappers

  /**
   * Context keys. Each middleware package keys its values with a private
   * type, so its key equals no key another package can construct.
   */
  datatype Key =
    | RequestIdKey        // requestid's ctxRequestIDKey{}
    | AuthSubjectKey      // authj's ctxAuthKey{}
    | ForeignKey(id: nat) // keys of any other package

  /** Stored values: strings, or values of any other dynamic type. */
  datatype Value = Text(s: string) | Opaque(id: nat)

  datatype Context = Background | WithValue(parent: Context, key: Key, val: Value)

  /** `ctx.Value(key)`: the value of the newest pair with that key, if any. */
  function Lookup(c: Context, k: Key): Option<Value>
  {
    match c
    case Background => None
    case WithValue(parent, k', v) => if k' == k then Some(v) else Lookup(parent, k)
  }

  /** Derives a context by adding the pairs of `kvs` in order, oldest first. */
  function Extend(c: Context, kvs: seq<(Key, Value)>): Context
  {
    if kvs == [] then c
    else
      var last := kvs[|kvs| - 1];
      WithValue(Extend(c, kvs[..|kvs| - 1]), last.0, last.1)
  }

  /** The value of the last pair in `kvs` whose key is `k`. */
  function LastFor(kvs: seq<(Key, Value)>, k: Key): Option<Value>
  {
    if kvs == [] then None
    else if kvs[|kvs| - 1].0 == k then Some(kvs[|kvs| - 1].1)
    else LastFor(kvs[..|kvs| - 1], k)
  }

  /**
   * Derivation never loses a value: a key reads the value most recently
   * added under it, and a key no later pair uses still reads what the parent
   * held.
   */
  lemma {:induction false} LookupExtend(c: Context, kvs: seq<(Key, Value)>, k: Key)
    ensures Lookup(Extend(c, kvs), k) == if LastFor(kvs, k).Some? then LastFor(kvs, k) else Lookup(c, k)
    decreases |kvs|
  {
    if kvs != [] {
      LookupExtend(c, kvs[..|kvs| - 1], k);
    }
  }

  /** A key no pair in `kvs` uses has no last value there. */
  lemma {:induction false} LastForAbsent(kvs: seq<(Key, Value)>, k: Key)
    requires forall i :: 0 <= i < |kvs| ==> kvs[i].0 != k
    ensures LastFor(kvs, k).None?
    decreases |kvs|
  {
    if kvs != [] {
      LastForAbsent(kvs[..|kvs| - 1], k);
    }
  }
}
