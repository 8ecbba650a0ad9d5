/**
 * The error-classification logic of the `useError` hook: given whether the
 * request has params, whether the cache is ready and the request's meta
 * record, decide whether the caller sees no error, the error stored in the
 * meta record, or a freshly built cache-integrity error (status 400) saying
 * that the response was missing an expected entity.
 *
 * The meta record comes from the `useMeta` hook, the fetch key from the
 * fetch shape's `getFetchKey(params)`, the serialised schema from
 * `JSON.stringify(schema, null, 2)` and the build mode from
 * `process.env.NODE_ENV`; all four are parameters here.
 */
module ErrorHook {
  import opened Wrappers
  import opened Messages

  /** An `Error & { status?: number }`. */
  datatype Err = Err(message: string, status: Option<int>)

  /** The parts of a request's meta record that `useError` reads. */
  datatype Meta = Meta(error: Option<Err>, invalidated: bool)

  /** The error reported when the cache is not ready although the request
   *  succeeded and was not invalidated: an expected entity is missing. */
  function MissingEntityError(production: bool, fetchKey: string, schemaJson: string): (e: Err)
    ensures e.status == Some(400)
    ensures production ==> ProdMessageKey(e.message) == Some(fetchKey)
    ensures !production ==> DevMessageKey(e.message, schemaJson) == Some(fetchKey)
    ensures Contains(e.message, fetchKey)
  {
    ProdMessageRoundTrip(fetchKey);
    DevMessageRoundTrip(fetchKey, schemaJson);
    var message := if production then ProdMessage(fetchKey) else DevMessage(fetchKey, schemaJson);
    Err(message, Some(400))
  }

  /** The situation in which `useError` synthesises a cache-integrity error. */
  predicate EntityMissing(paramsPresent: bool, cacheReady: bool, meta: Option<Meta>)
  {
    paramsPresent && !cacheReady && meta.Some? && meta.value.error.None? && !meta.value.invalidated
  }

  /** What `useError` returns; `None` is JavaScript's `undefined`. */
  function UseError(
    paramsPresent: bool, cacheReady: bool, meta: Option<Meta>,
    production: bool, fetchKey: string, schemaJson: string): (r: Option<Err>)
    // an error can be reported only for a request with params whose cache is
    // not ready and that has a meta record
    ensures !paramsPresent || cacheReady || meta.None? ==> r == None
    // an error stored in the meta record is passed through unchanged and is
    // never replaced by the synthesised one
    ensures paramsPresent && !cacheReady && meta.Some? && meta.value.error.Some? ==> r == meta.value.error
    // an invalidated request without an error reports nothing
    ensures paramsPresent && !cacheReady && meta.Some? && meta.value.invalidated && meta.value.error.None? ==> r == None
    // otherwise a 400 error naming the fetch key is built
    ensures EntityMissing(paramsPresent, cacheReady, meta) ==>
      r.Some? && r.value.status == Some(400) && Contains(r.value.message, fetchKey)
    ensures r.Some? <==>
      paramsPresent && !cacheReady && meta.Some? && (meta.value.error.Some? || !meta.value.invalidated)
  {
    if !paramsPresent then None
    else if cacheReady then None
    else if meta.None? then None
    else if meta.value.error.None? && !meta.value.invalidated then
      Some(MissingEntityError(production, fetchKey, schemaJson))
    else
      meta.value.error
  }

  /** The build mode, the fetch key and the schema change only the message:
   *  whether an error is reported, and its status, do not depend on them. */
  lemma OnlyMessageDependsOnBuild(
    paramsPresent: bool, cacheReady: bool, meta: Option<Meta>,
    production: bool, fetchKey: string, schemaJson: string,
    production': bool, fetchKey': string, schemaJson': string)
    ensures var r := UseError(paramsPresent, cacheReady, meta, production, fetchKey, schemaJson);
      var r' := UseError(paramsPresent, cacheReady, meta, production', fetchKey', schemaJson');
      && r.Some? == r'.Some?
      && (r.Some? ==> r.value.status == r'.value.status)
      && (!EntityMissing(paramsPresent, cacheReady, meta) ==> r == r')
  {
  }

  /** Two requests with different fetch keys that both miss an entity get
   *  different errors, in either build mode. */
  lemma MissingEntityErrorIdentifiesRequest(
    production: bool, fetchKey: string, fetchKey': string, schemaJson: string)
    requires fetchKey != fetchKey'
    ensures MissingEntityError(production, fetchKey, schemaJson) != MissingEntityError(production, fetchKey', schemaJson)
  {
  }
}
