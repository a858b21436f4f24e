/**
  The health probe of the exporter (app/lib/healthcheck.py): it only tries to
  build a Vault client, and maps the outcome to a body and an HTTP status.
  It takes no gauge and no refresh inputs, so it cannot touch the samples.
 */
module Healthcheck {
  import opened Wrappers
  import opened Vault

  /** status(): ('OK', 200) when create_client returns, ('NOK', 500) when it raises. */
  function Status(cfg: Config, auth: AuthBackend): (r: (string, int))
    ensures r == ("OK", 200) <==> CreateClient(cfg, auth).Ok?
    ensures r == ("NOK", 500) <==> CreateClient(cfg, auth).Err?
  {
    match CreateClient(cfg, auth)
    case Ok(_) => ("OK", 200)
    case Err(_) => ("NOK", 500)
  }

  /** There is no third answer. */
  lemma StatusIsBinary(cfg: Config, auth: AuthBackend)
    ensures Status(cfg, auth) in {("OK", 200), ("NOK", 500)}
  {
  }

  /** Without any credential source the probe reports NOK, whatever the
      backend would have answered. */
  lemma StatusWithoutCredentials(cfg: Config, auth: AuthBackend)
    requires NoCredentialSource(cfg)
    ensures Status(cfg, auth) == ("NOK", 500)
  {
  }

  /** A client that answers "not authenticated" without raising still makes
      the probe report OK. */
  lemma StatusOkWhenUnauthenticated(cfg: Config, login: Call)
    requires !NoCredentialSource(cfg)
    requires UsesServiceAccount(cfg) ==> login == Returns
    ensures Status(cfg, AuthBackend(login, Answers(false))) == ("OK", 200)
  {
  }

  /** A raising authentication probe makes the probe report NOK, whatever
      credential was chosen. */
  lemma StatusNokWhenProbeRaises(cfg: Config, login: Call)
    ensures Status(cfg, AuthBackend(login, ProbeRaises)) == ("NOK", 500)
  {
  }
}
