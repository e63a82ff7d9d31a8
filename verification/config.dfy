/**
  Process configuration read by the server: the check that the mail
  credentials are set and are not placeholders, the CORS allow-list built
  from fixed origins plus `FRONTEND_URL`, and the CORS `origin` callback.
 */
module Config {
  import opened Wrappers
  import opened Text

  /** `process.env`: a variable that is not set has no key. */
  type Env = map<string, string>

  const RequiredEnvKeys: seq<string> := ["EMAIL_USER", "EMAIL_PASSWORD", "RECIPIENT_EMAIL"]

  /** The marker that identifies a value copied unchanged from `.env.example`. */
  const Placeholder: string := "your-"

  function EnvGet(env: Env, key: string): Option<string> {
    if key in env then Some(env[key]) else None
  }

  /** `!process.env[key] || process.env[key].includes('your-')`. */
  predicate KeyFails(env: Env, key: string) {
    key !in env || env[key] == "" || Includes(env[key], Placeholder)
  }

  /** A usable value: present, non-empty and without the placeholder marker. */
  ghost predicate Usable(env: Env, key: string) {
    key in env && env[key] != "" && !Contains(env[key], Placeholder)
  }

  /** `keys.filter(key => KeyFails(env, key))`. */
  function MissingKeys(env: Env, keys: seq<string>): (missing: seq<string>)
    ensures |missing| <= |keys|
    ensures forall k :: k in missing <==> k in keys && !Usable(env, k)
  {
    if keys == [] then []
    else (if KeyFails(env, keys[0]) then [keys[0]] else []) + MissingKeys(env, keys[1..])
  }

  /** `validateEnvVars`: every required mail setting is usable. */
  function ValidateEnvVars(env: Env): (ok: bool)
    ensures ok <==> forall k :: k in RequiredEnvKeys ==> Usable(env, k)
  {
    var missing := MissingKeys(env, RequiredEnvKeys);
    assert missing != [] ==> missing[0] in missing;
    |missing| == 0
  }

  /** The three required settings spelled out one by one. */
  lemma ValidateEnvVarsByKey(env: Env)
    ensures ValidateEnvVars(env) <==>
      Usable(env, "EMAIL_USER") && Usable(env, "EMAIL_PASSWORD") && Usable(env, "RECIPIENT_EMAIL")
  {
  }

  /** A setting that still holds the placeholder fails validation, whatever the others hold. */
  lemma PlaceholderFailsValidation(env: Env, key: string, before: string, after: string)
    requires key in RequiredEnvKeys
    requires key in env && env[key] == before + Placeholder + after
    ensures !ValidateEnvVars(env)
  {
    ContainsInMiddle(before, Placeholder, after);
  }

  const FixedOrigins: seq<string> := [
    "http://localhost:3000",
    "http://localhost:3001",
    "https://apply-rouge.vercel.app"
  ]

  /** `.filter(Boolean)` on a list of possibly-undefined strings. */
  function FilterPresent(xs: seq<Option<string>>): (r: seq<string>)
    ensures |r| <= |xs|
    ensures forall o :: o in r <==> Some(o) in xs && o != ""
  {
    if xs == [] then []
    else (if xs[0].Some? && xs[0].value != "" then [xs[0].value] else []) + FilterPresent(xs[1..])
  }

  /** `allowedOrigins`: the fixed origins and `FRONTEND_URL` when it is set and non-empty. */
  function AllowedOrigins(env: Env): (r: seq<string>)
    ensures "" !in r
    ensures forall o :: o in r <==> o in FixedOrigins || (EnvGet(env, "FRONTEND_URL") == Some(o) && o != "")
  {
    FilterPresent([Some(FixedOrigins[0]), Some(FixedOrigins[1]), Some(FixedOrigins[2]),
                   EnvGet(env, "FRONTEND_URL")])
  }

  /** `xs.indexOf(x)` from position `from`: the first index holding `x`, or -1. */
  function IndexOfFrom(xs: seq<string>, x: string, from: nat): (i: int)
    requires from <= |xs|
    ensures i == -1 <==> x !in xs[from..]
    ensures i != -1 ==> from <= i < |xs| && xs[i] == x && x !in xs[from..i]
    decreases |xs| - from
  {
    if from == |xs| then -1
    else if xs[from] == x then from
    else IndexOfFrom(xs, x, from + 1)
  }

  function IndexOf(xs: seq<string>, x: string): (i: int)
    ensures i == -1 <==> x !in xs
    ensures i != -1 ==> 0 <= i < |xs| && xs[i] == x && x !in xs[..i]
  {
    assert xs[0..] == xs;
    IndexOfFrom(xs, x, 0)
  }

  datatype CorsVerdict = Allow | Deny(message: string)

  const CorsDenied: string := "Not allowed by CORS"

  /**
    The CORS `origin` callback. A request without an `Origin` header (or with
    an empty one) passes; otherwise the origin must be in the allow-list
    unless `NODE_ENV` is `development`.
   */
  function CorsOrigin(env: Env, origin: Option<string>): (v: CorsVerdict)
    ensures v.Allow? <==>
      || origin == None || origin == Some("")
      || origin.value in AllowedOrigins(env)
      || EnvGet(env, "NODE_ENV") == Some("development")
    ensures v.Deny? ==> v.message == CorsDenied
  {
    if origin.None? || origin.value == "" then Allow
    else if IndexOf(AllowedOrigins(env), origin.value) != -1
         || EnvGet(env, "NODE_ENV") == Some("development") then Allow
    else Deny(CorsDenied)
  }

  /** Whatever the environment, the three fixed origins are always accepted. */
  lemma FixedOriginsAllowed(env: Env, origin: string)
    requires origin in FixedOrigins
    ensures CorsOrigin(env, Some(origin)) == Allow
  {
  }

  /** Outside development, an origin neither fixed nor equal to `FRONTEND_URL` is refused. */
  lemma UnknownOriginDenied(env: Env, origin: string)
    requires origin != "" && origin !in FixedOrigins
    requires EnvGet(env, "FRONTEND_URL") != Some(origin)
    requires EnvGet(env, "NODE_ENV") != Some("development")
    ensures CorsOrigin(env, Some(origin)) == Deny(CorsDenied)
  {
  }
}
