# Vault Prometheus exporter: a Dafny model of its metrics core

The exporter publishes one Prometheus gauge, `vault_issuer_validity_seconds`,
labelled by `engine`, `issuer` and `url`, holding the seconds left before each
PKI issuer certificate in a Vault server expires. It also answers a health
probe. This project models the three procedures of `app/metrics/vault.py` and
the probe of `app/lib/healthcheck.py`, and proves what they promise.

- `wrappers.dfy` — `Option` (Python's `None`) and `Result` (a raised exception).
- `vault.dfy`, module `Vault`:
  - `CreateClient` selects the credential: `VAULT_TOKEN`, then the user token
    file, then the service-account file with a Kubernetes login, otherwise
    `ConfigError` (the source's `VaultClientConfigError`). The environment and
    the two token files are a `Config` record; how Vault's login and
    `is_authenticated()` calls behave is an `AuthBackend` input.
  - `CertificateValidity` is `notAfter - now` in integer seconds.
  - `Gauge` is a class whose `samples` map, keyed by `Labels(engine, issuer, url)`, is
    overwritten in place by `Set`.
  - `UpdateMetrics` (with `ListPkiEngines` and `UpdateIssuers`, the loops it
    runs) refreshes the gauge. What every backend call answers is input data:
    a `MountsResponse`, and a `Cycle` holding the issuer listing per engine,
    the issuer details per (engine, issuer), the PEM parser and the clock. Each
    method is proved equal to a specification function (`PkiEngines`,
    `FoldIssuers`, `FoldEngines`, `Refresh`), and the lemmas state what that
    function does to every sample.
  - An exception the source does not catch (from the mount listing, from an
    issuer listing other than `InvalidPath`, from `read_issuer`, from the PEM
    parser) ends the refresh with outcome `Aborted`. It leaves the samples
    already set in that cycle in place, as the Python does.
- `healthcheck.dfy`, module `Healthcheck`: `Status` maps the outcome of
  `CreateClient` to `("OK", 200)` or `("NOK", 500)`. It takes no gauge, so it
  cannot change one.

Two behaviours of the code are worth stating plainly:

- `create_client` calls `is_authenticated()` and throws its answer away
  (`app/metrics/vault.py:45`). Only an exception from that call matters
  (`AuthenticatedAnswerIgnored`, `StatusOkWhenUnauthenticated`).
- Only an `InvalidPath` from `list_issuers` is caught
  (`app/metrics/vault.py:98-102`). A `read_issuer` that raises, or a
  certificate that does not parse, ends the refresh
  (`app/metrics/vault.py:106-111`), keeping the samples set before it
  (`RefreshAbortedAtEngine`, `RefreshAbortedAtIssuer`).

## Model

| member | source | states |
|---|---|---|
| `Vault.CreateClient` | app/metrics/vault.py:25-47 | the result is `ConfigError` exactly when no credential source exists; a client is returned exactly when some source exists, the authentication probe does not raise and, on the service-account path, the login does not raise; the client carries `VAULT_ADDR`, and it is a Kubernetes login exactly when the service-account branch is taken |
| `Vault.EnvTokenWins` | app/metrics/vault.py:32-33 | with `VAULT_TOKEN` set to any value, the outcome does not depend on either token file, and the client is a token client with exactly that token |
| `Vault.UserTokenFileVerbatim` | app/metrics/vault.py:34-36 | without `VAULT_TOKEN`, an existing user token file makes the token its contents verbatim, and the service-account file does not matter |
| `Vault.ServiceAccountLogin` | app/metrics/vault.py:37-41 | otherwise an existing service-account file gives a Kubernetes login with `VAULT_ROLE`, the file contents as JWT and `VAULT_MOUNT_POINT`; a raising login is a backend error |
| `Vault.NoSourceIsConfigError` | app/metrics/vault.py:42-43 | with none of the three sources the outcome is `ConfigError`, whatever the address, role, mount point or backend |
| `Vault.AuthenticatedAnswerIgnored` | app/metrics/vault.py:45-47 | the boolean `is_authenticated()` answers never changes the outcome |
| `Vault.CertificateValidity` | app/metrics/vault.py:50-68 | the remaining validity added to `now` gives notAfter; it is positive exactly for an unexpired certificate and negative exactly for an expired one |
| `Vault.ValidForDays` | app/metrics/vault.py:59-68 | a certificate valid for `days` days, read less than a day after issue, has more than `days - 1` and at most `days` days left |
| `Vault.ThirtyDayCertificate` | app/tests/test_metrics_certificate.py:30-35 | a 30-day certificate read within its first 20 days has more than 10 days left |
| `Vault.Gauge.constructor` | app/metrics/vault.py:20-22 | the gauge starts with no samples |
| `Vault.Gauge.Set` | app/metrics/vault.py:113-115 | setting a label set overwrites its value and leaves every other sample unchanged |
| `Vault.PkiEnginesAppend` | app/metrics/vault.py:88-91 | the engine filter keeps mount order: filtering a concatenation is concatenating the filtered parts |
| `Vault.PkiEnginesMember` | app/metrics/vault.py:88-91 | an engine is visited exactly when some mount has that path and type exactly `"pki"` |
| `Vault.NonPkiMountNotVisited` | app/metrics/vault.py:90 | a mount of any other type (a `kv` engine) is not visited |
| `Vault.ListPkiEngines` | app/metrics/vault.py:87-91 | the append loop builds exactly the filtered engine list |
| `Vault.GetCertificateValidity` | app/metrics/vault.py:63-68 | a value is produced exactly when the PEM text parses, and it is the seconds from now to notAfter |
| `Vault.FoldIssuersStopped` | app/metrics/vault.py:106-111 | after an uncaught exception in the issuer loop nothing more is set |
| `Vault.FoldIssuersAppend` | app/metrics/vault.py:105 | running the issuer loop over `a + b` is running it over `a` and then over `b` |
| `Vault.FoldEnginesStopped` | app/metrics/vault.py:97-111 | after an uncaught exception in the engine loop nothing more is set |
| `Vault.FoldEnginesAppend` | app/metrics/vault.py:97 | running the engine loop over `a + b` is running it over `a` and then over `b` |
| `Vault.InvalidPathSkipsOnlyThatEngine` | app/metrics/vault.py:97-102 | an engine whose issuer listing raises `InvalidPath` is skipped, and the refresh of the engines after it is as if it were absent |
| `Vault.FoldIssuersEffect` | app/metrics/vault.py:104-115 | a completed issuer loop sets exactly the samples `(engine, issuer, VAULT_ADDR)` of the listed issuers whose details hold a certificate, to that certificate's validity, overwriting older values; every other sample is unchanged; a stopped loop has set only such samples |
| `Vault.FoldEnginesEffect` | app/metrics/vault.py:97-115 | the same over all visited engines, where a listing without `data` or without `keys` lists no issuers |
| `Vault.RefreshWithoutClient` | app/metrics/vault.py:79-83 | when the client cannot be built, the gauge is unchanged |
| `Vault.RefreshWithoutMountData` | app/metrics/vault.py:87-95 | when the mount listing has no `data`, the gauge is unchanged |
| `Vault.RefreshCompletedSamples` | app/metrics/vault.py:71-115 | a completed refresh had a client and mount data, set exactly one sample per (PKI engine, listed issuer with a certificate) to its validity, last write winning, and left all other samples as they were |
| `Vault.RefreshOnlyPkiSamples` | app/metrics/vault.py:85-115 | whatever the outcome, every sample that changed carries `VAULT_ADDR`, belongs to an engine mounted with type exactly `"pki"`, and holds its certificate's validity |
| `Vault.IssuersAbortAt` | app/metrics/vault.py:105-111 | when issuer j is the first whose `read_issuer` raises or whose certificate does not parse, the issuer loop stops there and keeps exactly the samples set by the issuers before it |
| `Vault.EnginesAbortAt` | app/metrics/vault.py:97-102 | when engine n is the first whose issuer listing raises something other than `InvalidPath`, the engine loop stops there and keeps exactly the samples set by the engines before it |
| `Vault.RefreshAbortedAtEngine` | app/metrics/vault.py:97-115 | such a refresh ends `Aborted`; each sample of an earlier engine's listed issuer with a certificate stays set to its validity, and every other sample keeps its old value (no rollback) |
| `Vault.RefreshAbortedAtIssuer` | app/metrics/vault.py:97-115 | a refresh whose first exception comes from issuer j of engine n ends `Aborted`; the samples of the earlier engines and of issuers 0 .. j-1 of engine n stay set to their validity, and every other sample keeps its old value |
| `Vault.NonPkiMountIgnored` | app/metrics/vault.py:88-91 | adding a mount of another type anywhere in the listing changes nothing about the refresh |
| `Vault.TenDayScenario` | app/tests/test_metrics_certificate.py:38-79 | with mounts `pki/` (pki) and `secret/` (kv) and one ten-day issuer, the refresh completes with exactly one sample `("pki/", "issuer1", VAULT_ADDR)`, between nine and ten days |
| `Vault.UpdateEngine` | app/metrics/vault.py:98-104 | one pass of the engine loop updates the gauge as `EngineStep` says: an `InvalidPath` listing leaves it unchanged and continues, any other raising listing stops the refresh, otherwise the listed issuers are processed |
| `Vault.UpdateIssuers` | app/metrics/vault.py:104-115 | the inner loop updates the gauge as `FoldIssuers` says and reports whether an exception stopped it |
| `Vault.UpdateMetrics` | app/metrics/vault.py:71-115 | the new gauge and the outcome are those of `Refresh` on the old gauge |
| `Healthcheck.Status` | app/lib/healthcheck.py:5-12 | `("OK", 200)` exactly when client construction does not raise, `("NOK", 500)` exactly when it raises |
| `Healthcheck.StatusIsBinary` | app/lib/healthcheck.py:8-12 | there is no third answer |
| `Healthcheck.StatusWithoutCredentials` | app/lib/healthcheck.py:8-10 | without any credential source the probe reports `NOK`, whatever the backend |
| `Healthcheck.StatusOkWhenUnauthenticated` | app/lib/healthcheck.py:7 | a client that answers "not authenticated" without raising still yields `OK` |
| `Healthcheck.StatusNokWhenProbeRaises` | app/lib/healthcheck.py:6-10 | a raising authentication probe yields `NOK` for every credential source |

## Left out

- HTTP routing, the root greeting and the threaded server (`app/app.py`): web framework plumbing.
- The TTL cache around the metrics route and the parsing of `METRIC_UPDATE_INTERVAL`: a library cache whose point is rate limiting under concurrent scrapes; concurrency is not modelled.
- Serialising the gauge into the exposition text (`generate_latest`): Prometheus library internals.
- Logging setup (`app/lib/logger.py`) and every log call: output with no effect on behaviour.
- The hvac client, the network and the Kubernetes auth exchange: replaced by the `AuthBackend`, `MountsResponse` and `Cycle` inputs.
- Reading the environment at import time, file-existence checks, and a token file that exists but cannot be read: the environment and the file contents are a fixed `Config` record.
- X.509 PEM parsing: an abstract `notValidAfter` function on the PEM text, `None` when the text does not parse.
- Vault.CertificateValidity: works on integer seconds; the source subtracts floating-point timestamps from `datetime.now()`.
- Vault.UpdateMetrics: reads one clock value per refresh, where the source reads the clock again for every certificate.
- Vault.UpdateMetrics: a mount entry is assumed to carry its `type`; the `KeyError` a mount without one would raise is not modelled.
