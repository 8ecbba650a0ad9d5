# useError error classification

This project models the decision inside the `useError` hook of the rest-hooks
core package. For one request the hook looks at three things: whether the
request has params, whether the cache is ready, and the request's meta record
(`error?`, `invalidated?`). From them it decides what the component sees:

- nothing (`undefined`);
- the error stored in the meta record, unchanged;
- a newly built cache-integrity error with `status = 400`. This happens when
  the cache is not ready although the request has a meta record with no error
  and no invalidation flag, which means the response lacked an expected
  entity. Its message names the request's fetch key. The development build
  also appends the serialised schema; the production build uses a shorter
  text.

Files:

- `wrappers.dfy`: `Option`, standing for a value or JavaScript's `undefined`.
- `messages.dfy`: the two message templates (`DevMessage`, `ProdMessage`). It
  also has their inverses (`DevMessageKey`, `ProdMessageKey`), which read the
  fetch key back out of a message. Lemmas prove that the key round-trips and
  that every message contains it.
- `use_error.dfy` (module `ErrorHook`): the `Err` and `Meta` records, the synthesised error
  (`MissingEntityError`) and the decision itself (`UseError`). Its contract is
  the complete case table.

Truthiness follows the JavaScript code. Params are an object or `null`, so
`!params` means "no params". An `Error` object is always truthy, so `!meta.error`
means "no error". An unset `invalidated` reads as `false`.

Inputs that the hook gets from code outside this model are parameters:
- the meta record that `useMeta` returns, as `meta: Option<Meta>`;
- the fetch key from `getFetchKey(params)`, as an opaque `fetchKey` string;
- the schema serialised by `JSON.stringify(schema, null, 2)`, as an opaque
  `schemaJson` string;
- `process.env.NODE_ENV === 'production'`, as `production: bool`.

The message texts, including the line breaks and eight-space indentation
inside the development template literal, are written out as they appear in
the source.

When the cache is ready the hook returns `undefined` even if meta holds an
error (useError.ts:21, :47-48). An invalidated request without an error also
yields `undefined` (:24, :45).

## Model

| member | source | states |
|---|---|---|
| `ErrorHook.UseError` | packages/core/src/react-integration/hooks/useError.ts:19-48 | The missing-entity guard of :20-24 is the predicate `EntityMissing`. No params, a ready cache or a missing meta record give `undefined`. An error stored in meta is returned unchanged and is never replaced. An invalidated request without an error gives `undefined`. Otherwise the result is a status-400 error whose message contains the fetch key. A result is defined exactly when params are present, the cache is not ready, meta exists, and meta has an error or is not invalidated. |
| `ErrorHook.MissingEntityError` | packages/core/src/react-integration/hooks/useError.ts:25-43 | The synthesised error has status exactly 400. Its message contains the fetch key in both builds. The key can be read back from the message with the build's template. |
| `ErrorHook.OnlyMessageDependsOnBuild` | packages/core/src/react-integration/hooks/useError.ts:24-46 | The build mode, the fetch key and the schema only change the message. Whether an error is reported and its status do not depend on them. Outside the missing-entity case the result does not depend on them at all. |
| `ErrorHook.MissingEntityErrorIdentifiesRequest` | packages/core/src/react-integration/hooks/useError.ts:26-41 | Two different fetch keys give two different synthesised errors in the same build. |
| `Messages.DevMessage` | packages/core/src/react-integration/hooks/useError.ts:27-34 | The development-build message contains the fetch key. |
| `Messages.ProdMessage` | packages/core/src/react-integration/hooks/useError.ts:36-40 | The production-build message contains the fetch key. |
| `Messages.DevMessageRoundTrip` | packages/core/src/react-integration/hooks/useError.ts:27-34 | The development message contains the fetch key, and reading the key back from it gives that key. |
| `Messages.ProdMessageRoundTrip` | packages/core/src/react-integration/hooks/useError.ts:36-40 | The production message contains the fetch key, and reading the key back from it gives that key. |
| `Messages.DevMessageKey` | packages/core/src/react-integration/hooks/useError.ts:28-33 | Inverse of the development template. When it finds a key, the template applied to that key rebuilds the message. When it finds none, no key produces the message. |
| `Messages.ProdMessageKey` | packages/core/src/react-integration/hooks/useError.ts:37-39 | Inverse of the production template, in both directions like the development one. |

## Left out

- The `useMeta` hook and all React hook mechanics: `useMeta` is not part of this model, so its result is an input.
- `getFetchKey(params)`: request-key construction is not part of this model, so the key is an opaque string.
- `JSON.stringify(fetchShape.schema, null, 2)`: serialising the schema is a library call, so its output is an opaque string.
- `process.env.NODE_ENV`: environment access becomes the boolean parameter `production`.
- The conditional return type `UseErrorReturn<P>`: it is a compile-time type only. Its runtime meaning, that no params give `undefined`, is stated by `ErrorHook.UseError`.
- The value of `params` beyond its presence: the hook uses it only through `useMeta` and `getFetchKey`, which are both inputs here.
- Object identity of the returned error: the model compares errors by value. It therefore does not show that the pass-through error is the very object stored in meta, nor that the synthesised error is a fresh object.
