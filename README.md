# drone-helm3-push: a Dafny model of the plugin core

This project models the decision logic of the Drone plugin that packages a Helm chart and pushes it to an OCI registry. That logic lives in `plugin/plugin.go` and has three parts:

- **Argument validation** (`verifyArgs`). The plugin checks the registry username, then the password, then the namespace, and returns on the first one that is empty. The error wraps the sentinel `errConfiguration`. Only when all three are present does it fill the defaults for the chart path (`./`), the chart destination (`.packaged_charts`) and the registry URL (`registry.hub.docker.com`). It updates the record in place through a pointer.
- **The orchestrator** (`Exec`). It validates, then packages, then pushes, and returns the first error.
- **The push address** composed in `pushChart`: `oci://<registry URL>/<namespace>`.

The files are:

- `wrappers.dfy`: the `Option` and `Result` datatypes.
- `plugin.dfy`: the module `Plugin`, which holds the following.
  - `Args` is the argument record as a value.
  - `ArgsRef` is a class standing for `*Args`. `VerifyArgs` updates its fields in place.
  - `MissingCredential`, `Defaulted` and `Verify` are pure functions that specify `VerifyArgs`.
  - `OciTarget` composes the push address, and `SplitOciTarget` is its inverse.
  - `PushChart` and `Exec` are the two sequencing methods.

Helm's packager and registry client are opaque. They appear as parameters:

- `pack: Args -> Result<string, string>` stands for `packageChart` as a whole. It yields the packaged file's path or the text of its error.
- `Registry` holds two things. `newClient` is the outcome of creating the registry client. `push` is the outcome of uploading a file to an address.

`Exec` and `PushChart` also return `calls`, the packaging and push calls they made, in order. Client creation and login are not recorded. This makes "packaging and pushing are never invoked" something a contract can state.

Errors are the datatype `Error`. `IsConfigurationError` stands for `errors.Is(err, errConfiguration)`. It holds only for `Configuration` errors. The source formats every collaborator error with `%s` (plugin/plugin.go:116, 121, 140, 163), so those errors do not wrap the sentinel. As a result, `Exec` returns a configuration error exactly when validation fails.

`verifyArgs` writes the defaults through the `*Args` pointer (plugin/plugin.go:85-98), so `VerifyArgs` is a method with `modifies`.

The address is one-to-one only for registry URLs without a path. The source also accepts a URL such as `ghcr.io/org`, and then two configurations can give the same address: URL `a/b` with namespace `c`, and URL `a` with namespace `b/c`, both give `oci://a/b/c`. For that reason `SplitOciTargetInverse` and `OciTargetInjective` require a URL without `/`.

## Model

| member | source | states |
|---|---|---|
| `Plugin.MissingCredential` | plugin/plugin.go:73-83 | The reported credential is empty, and every credential checked before it is present. None is reported exactly when username, password and namespace are all non-empty. |
| `Plugin.Defaulted` | plugin/plugin.go:85-98 | Each of chart path, destination and URL is non-empty afterwards. An empty one becomes its documented default and a non-empty one is kept. The level and the three credentials are unchanged. |
| `Plugin.Verify` | plugin/plugin.go:72-101 | Validation fails exactly when a credential is missing. The error is a configuration error naming the first missing credential. On success the result is the defaulted arguments, and they satisfy `Verified`. |
| `Plugin.VerifyIdempotent` | plugin/plugin.go:85-98 | Validating the output of a successful validation succeeds again and returns the same arguments. |
| `Plugin.VerifiedIsFixedPoint` | plugin/plugin.go:72-101 | Validation returns its input unchanged if and only if no credential and no defaulted field is empty. |
| `Plugin.VerifyArgsTestCases` | plugin/plugin_test.go:13-45 | The repository's three test inputs are each rejected, naming username, namespace and password respectively. |
| `Plugin.VerifyArgs` | plugin/plugin.go:72-101 | Updates the record in place. Credentials are checked in order and the first empty one is returned as a configuration error. On an error, nothing in the record changes. On success, the record becomes `Defaulted` of its old contents. Its outcome is exactly `Verify` of the old contents. The level and the credentials never change, and a non-empty optional field is never overwritten. |
| `Plugin.OciTarget` | plugin/plugin.go:158 | The address is the scheme `oci://`, then the URL, then one `/`, then the namespace, with exactly that length. |
| `Plugin.FirstSlash` | plugin/plugin.go:158 | Returns the position of the first `/`, or the length when there is none. No earlier character is a `/`. |
| `Plugin.SplitOciTarget` | plugin/plugin.go:158 | Any split it returns has a URL without `/`, and composing that URL and namespace gives back the address. |
| `Plugin.SplitOciTargetInverse` | plugin/plugin.go:158 | For a URL without `/`, splitting the composed address recovers exactly that URL and namespace. |
| `Plugin.OciTargetInjective` | plugin/plugin.go:158 | Two registry hosts without `/` and two namespaces compose the same address only if both pairs are equal. |
| `Plugin.DefaultHostTarget` | plugin/plugin.go:95-98 | With the default URL, the address is `oci://registry.hub.docker.com/` followed by the namespace. |
| `Plugin.PushTargetAfterVerify` | plugin/plugin.go:158 | After successful validation, the address starts with `oci://` and ends in `/` plus the non-empty namespace. It uses the given URL, or `registry.hub.docker.com` when none was given. |
| `Plugin.PushChart` | plugin/plugin.go:129-168 | If client creation fails, its cause is returned and nothing is pushed. Otherwise the file is pushed exactly once, to `OciTarget(URL, namespace)`, and a push failure is returned with the chart, the address and the cause. Its errors are never configuration errors. |
| `Plugin.Exec` | plugin/plugin.go:48-69 | If validation fails, its error is returned and neither packaging nor pushing is called. Otherwise packaging is called first, on the defaulted arguments. If packaging fails, its error is returned and push is not called. Otherwise the push stage runs on the packaged path with the defaulted arguments. The error is a configuration error if and only if validation failed. A successful run packaged once and pushed once. |

## Left out

- Helm packaging internals (plugin/plugin.go:104-126): the dependency build and `helmClient.Run` are library calls with filesystem I/O. `pack` stands for the whole stage, and archive naming is not modelled. The source also returns the chart path together with a packaging error; `Exec` ignores that path, and so does the model.
- Registry login (plugin/plugin.go:144-148): its result is discarded, so it has no effect on the outcome and is not modelled.
- The internals of registry client creation and of the push: these are network I/O. `Registry.newClient` and `Registry.push` give only their outcomes.
- TLS, cache, debug and writer options (plugin/plugin.go:35-43, 132-136, 150-154): constants passed to foreign code, with no logic.
- Console output (`fmt.Printf`, `os.Stdout`, `os.Stderr`), `context.Context`, and the exact text of error messages. Errors keep only their kind and the values they mention.
- Loading the arguments from environment variables through the `envconfig` tags, and the embedded `Pipeline` type, which is not part of this model.
- `TestPlugin` (plugin/plugin_test.go:9-11): skipped and asserts nothing.
