/**
 * The two diagnostic messages `useError` builds when a response is missing an
 * expected entity, and the fact that each one names the request's fetch key
 * in a place it can be read back from.
 *
 * A message is a template literal `prefix + key + suffix`; `Wrap` builds one
 * and `Unwrap` is its inverse, reading the key back when the text has the
 * expected prefix and suffix.
 */
module Messages {
  import opened Wrappers

  /** `key` occurs in `m` starting at index `i`. */
  ghost predicate OccursAt(m: string, key: string, i: int)
  {
    0 <= i && i + |key| <= |m| && m[i..i + |key|] == key
  }

  /** JavaScript's `m.includes(key)`. */
  ghost predicate Contains(m: string, key: string)
  {
    exists i :: OccursAt(m, key, i)
  }

  function Wrap(prefix: string, key: string, suffix: string): string
  {
    prefix + key + suffix
  }

  /** The three parts of a wrapped message sit where the template put them. */
  lemma WrapParts(prefix: string, key: string, suffix: string)
    ensures var m := Wrap(prefix, key, suffix);
      && |m| == |prefix| + |key| + |suffix|
      && m[..|prefix|] == prefix
      && m[|prefix|..|m| - |suffix|] == key
      && m[|m| - |suffix|..] == suffix
  {
  }

  /** Reads the key back out of a message built by `Wrap(prefix, _, suffix)`. */
  function Unwrap(m: string, prefix: string, suffix: string): (r: Option<string>)
    ensures r.Some? ==> Wrap(prefix, r.value, suffix) == m
    ensures r.None? ==> forall key :: Wrap(prefix, key, suffix) != m
  {
    if |prefix| + |suffix| <= |m| && m[..|prefix|] == prefix && m[|m| - |suffix|..] == suffix then
      var key := m[|prefix|..|m| - |suffix|];
      assert m == m[..|prefix|] + key + m[|m| - |suffix|..];
      Some(key)
    else
      assert forall key :: Wrap(prefix, key, suffix) != m by {
        forall key ensures Wrap(prefix, key, suffix) != m {
          WrapParts(prefix, key, suffix);
        }
      }
      None
  }

  /** Reading the key back from a wrapped message gives exactly that key. */
  lemma UnwrapWrap(prefix: string, key: string, suffix: string)
    ensures Unwrap(Wrap(prefix, key, suffix), prefix, suffix) == Some(key)
  {
    WrapParts(prefix, key, suffix);
  }

  /** A wrapped message contains its key. */
  lemma WrapContains(prefix: string, key: string, suffix: string)
    ensures Contains(Wrap(prefix, key, suffix), key)
  {
    WrapParts(prefix, key, suffix);
    assert OccursAt(Wrap(prefix, key, suffix), key, |prefix|);
  }

  // The development-build message: the key, then a hint, then the schema
  // serialised as JSON with two-space indentation (passed in as `schemaJson`).
  const DevPrefix: string := "Entity from \""

  function DevSuffix(schemaJson: string): string
  {
    "\" not found in cache.\n\n"
    + "        This is likely due to a malformed response.\n"
    + "        Try inspecting the network response or fetch() return value.\n\n"
    + "        Schema: " + schemaJson
  }

  // The production-build message: the key and a short hint, no schema.
  const ProdPrefix: string := "Missing required entity in \""
  const ProdSuffix: string := "\" likely due to malformed response."

  function DevMessage(fetchKey: string, schemaJson: string): (m: string)
    ensures Contains(m, fetchKey)
  {
    WrapContains(DevPrefix, fetchKey, DevSuffix(schemaJson));
    Wrap(DevPrefix, fetchKey, DevSuffix(schemaJson))
  }

  function ProdMessage(fetchKey: string): (m: string)
    ensures Contains(m, fetchKey)
  {
    WrapContains(ProdPrefix, fetchKey, ProdSuffix);
    Wrap(ProdPrefix, fetchKey, ProdSuffix)
  }

  /** The fetch key named by a development-build message, if `m` is one. */
  function DevMessageKey(m: string, schemaJson: string): (r: Option<string>)
    ensures r.Some? ==> DevMessage(r.value, schemaJson) == m
    ensures r.None? ==> forall key :: DevMessage(key, schemaJson) != m
  {
    Unwrap(m, DevPrefix, DevSuffix(schemaJson))
  }

  /** The fetch key named by a production-build message, if `m` is one. */
  function ProdMessageKey(m: string): (r: Option<string>)
    ensures r.Some? ==> ProdMessage(r.value) == m
    ensures r.None? ==> forall key :: ProdMessage(key) != m
  {
    Unwrap(m, ProdPrefix, ProdSuffix)
  }

  lemma DevMessageRoundTrip(fetchKey: string, schemaJson: string)
    ensures DevMessageKey(DevMessage(fetchKey, schemaJson), schemaJson) == Some(fetchKey)
    ensures Contains(DevMessage(fetchKey, schemaJson), fetchKey)
  {
    UnwrapWrap(DevPrefix, fetchKey, DevSuffix(schemaJson));
    WrapContains(DevPrefix, fetchKey, DevSuffix(schemaJson));
  }

  lemma ProdMessageRoundTrip(fetchKey: string)
    ensures ProdMessageKey(ProdMessage(fetchKey)) == Some(fetchKey)
    ensures Contains(ProdMessage(fetchKey), fetchKey)
  {
    UnwrapWrap(ProdPrefix, fetchKey, ProdSuffix);
    WrapContains(ProdPrefix, fetchKey, ProdSuffix);
  }
}
